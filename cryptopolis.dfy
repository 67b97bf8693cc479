/** cryptopolis/cryptopolis.go: PEM encoding of an issued certificate bundle
    and the second signer extractor, with its own block labels. */
module Cryptopolis {
  import opened Wrappers
  import opened Pki
  import Accounts

  const CertBlockType := "CERTIFICATE"
  const EcdsaBlockType := "EC PRIVATE KEY"
  /** Written and accepted under this exact text (not "RSA PRIVATE KEY"). */
  const RsaBlockType := "RSA PRIVATE TYPE"

  const EcdsaEncodeError := "error encoding ECDSA key"
  const RsaEncodeError := "error encoding RSA key"
  const CertEncodeError := "error encoding public certificate"
  const InvalidKeyEncodeError := "invalid private key type encoding certificate"

  /** `Certificate`: PEM text of the certificate, its key and the CA chain. */
  datatype Certificate = Certificate(cert: string, key: string, ca: string)

  /** The parts of a `tls.Certificate` that are encoded: the DER chain and the key. */
  datatype TlsCertificate = TlsCertificate(certificate: seq<Bytes>, privateKey: PrivateKey)

  /** The message an encoding failure of a block is wrapped with, chosen by the
      encoder that writes that kind of block. */
  function EncodeErrorContext(blockType: string): string
  {
    if blockType == CertBlockType then CertEncodeError
    else if blockType == EcdsaBlockType then EcdsaEncodeError
    else RsaEncodeError
  }

  /** The private-key block `EncodeCertificate` writes first: EC keys are
      marshalled as EC, RSA keys as PKCS#1, any other key type is refused. */
  function KeyBlock(key: PrivateKey, x509: X509): (r: Result<PemBlock>)
    ensures key.OtherKey? ==> r == Err(InvalidKeyEncodeError)
    ensures key.Ecdsa? && r.Ok? ==> x509.marshalEC(key.ec).Ok? && r.value == PemBlock(EcdsaBlockType, x509.marshalEC(key.ec).value)
    ensures key.Ecdsa? ==> (r.Err? <==> x509.marshalEC(key.ec).Err?)
    ensures key.Rsa? ==> r == Ok(PemBlock(RsaBlockType, x509.marshalPKCS1(key.rsa)))
  {
    match key
    case Ecdsa(k) =>
      (match x509.marshalEC(k)
       case Ok(b) => Ok(PemBlock(EcdsaBlockType, b))
       case Err(e) => Err(Wrap(EcdsaEncodeError, e)))
    case Rsa(k) => Ok(PemBlock(RsaBlockType, x509.marshalPKCS1(k)))
    case OtherKey(_) => Err(InvalidKeyEncodeError)
  }

  /** One CERTIFICATE block per DER entry, in order. */
  function CertBlocks(der: seq<Bytes>): (r: seq<PemBlock>)
    ensures |r| == |der|
    ensures forall i :: 0 <= i < |der| ==> r[i] == PemBlock(CertBlockType, der[i])
  {
    if der == [] then [] else CertBlocks(der[..|der| - 1]) + [PemBlock(CertBlockType, der[|der| - 1])]
  }

  /** The blocks of an encoded bundle: the key block, then the chain. */
  function BundleBlocks(cert: TlsCertificate, x509: X509): (r: Result<seq<PemBlock>>)
    ensures r.Ok? <==> KeyBlock(cert.privateKey, x509).Ok?
    ensures r.Ok? ==> |r.value| == 1 + |cert.certificate|
    ensures r.Ok? ==> r.value[0] == KeyBlock(cert.privateKey, x509).value
    ensures r.Ok? ==> forall i :: 0 <= i < |cert.certificate| ==>
      r.value[i + 1] == PemBlock(CertBlockType, cert.certificate[i])
  {
    match KeyBlock(cert.privateKey, x509)
    case Ok(k) => Ok([k] + CertBlocks(cert.certificate))
    case Err(e) => Err(e)
  }

  /** Writing blocks one after another into a buffer: the concatenation of
      their encodings, or the first encoding error. */
  function EncodeBlocks(blocks: seq<PemBlock>, pem: PemCodec): (r: Result<string>)
    ensures r.Ok? <==> forall i :: 0 <= i < |blocks| ==> pem.encode(blocks[i]).Ok?
  {
    if blocks == [] then Ok([])
    else
      var last := blocks[|blocks| - 1];
      match EncodeBlocks(blocks[..|blocks| - 1], pem)
      case Err(e) => Err(e)
      case Ok(s) =>
        match pem.encode(last)
        case Ok(t) => Ok(s + t)
        case Err(e) => Err(Wrap(EncodeErrorContext(last.blockType), e))
  }

  /** A one-block output is that block's encoding, and appending a block
      appends its encoding. */
  lemma EncodeBlocksSnoc(blocks: seq<PemBlock>, b: PemBlock, pem: PemCodec)
    ensures EncodeBlocks(blocks + [b], pem) ==
      match EncodeBlocks(blocks, pem)
      case Err(e) => Err(e)
      case Ok(s) =>
        match pem.encode(b)
        case Ok(t) => Ok(s + t)
        case Err(e) => Err(Wrap(EncodeErrorContext(b.blockType), e))
  {
    assert (blocks + [b])[..|blocks|] == blocks;
  }

  /** `EncodeCertificate`: writes the key block into a buffer, then one
      CERTIFICATE block per DER entry; any error discards the buffer. */
  method EncodeCertificate(cert: TlsCertificate, pem: PemCodec, x509: X509) returns (r: Result<string>)
    ensures r.Ok? <==> BundleBlocks(cert, x509).Ok? && EncodeBlocks(BundleBlocks(cert, x509).value, pem).Ok?
    ensures r.Ok? ==> r.value == EncodeBlocks(BundleBlocks(cert, x509).value, pem).value
    ensures cert.privateKey.OtherKey? ==> r == Err(InvalidKeyEncodeError)
  {
    var keyBlock := KeyBlock(cert.privateKey, x509);
    if keyBlock.Err? {
      return Err(keyBlock.error);
    }
    var buf: string;
    match pem.encode(keyBlock.value) {
      case Err(e) =>
        return Err(Wrap(EncodeErrorContext(keyBlock.value.blockType), e));
      case Ok(s) =>
        buf := s;
    }
    assert [keyBlock.value] == [] + [keyBlock.value];
    EncodeBlocksSnoc([], keyBlock.value, pem);
    var der := cert.certificate;
    assert der[..0] == [];
    assert [] + buf == buf;
    assert [keyBlock.value] + CertBlocks(der[..0]) == [] + [keyBlock.value];
    for i := 0 to |der|
      invariant EncodeBlocks([keyBlock.value] + CertBlocks(der[..i]), pem) == Ok(buf)
    {
      var block := PemBlock(CertBlockType, der[i]);
      assert der[..i + 1][..i] == der[..i];
      assert CertBlocks(der[..i + 1]) == CertBlocks(der[..i]) + [block];
      assert [keyBlock.value] + CertBlocks(der[..i + 1]) == ([keyBlock.value] + CertBlocks(der[..i])) + [block];
      EncodeBlocksSnoc([keyBlock.value] + CertBlocks(der[..i]), block, pem);
      match pem.encode(block) {
        case Err(e) =>
          return Err(Wrap(CertEncodeError, e));
        case Ok(t) =>
          buf := buf + t;
      }
    }
    assert der[..|der|] == der;
    return Ok(buf);
  }

  /** `ExtractPEMSigner`: the shared switch under this package's labels. */
  function ExtractPEMSigner(data: string, pem: PemCodec, x509: X509): (r: Result<PrivateKey>)
    ensures pem.decode(data).None? ==> r == Err(DecodeError)
    ensures r.Ok? ==> (
      && pem.decode(data).Some?
      && (r.value.Ecdsa? <==> pem.decode(data).value.blockType == EcdsaBlockType)
      && (r.value.Rsa? <==> pem.decode(data).value.blockType == RsaBlockType))
    ensures pem.decode(data).Some?
      && pem.decode(data).value.blockType != EcdsaBlockType
      && pem.decode(data).value.blockType != RsaBlockType
      ==> r == Err(InvalidKeyType + pem.decode(data).value.blockType)
    ensures pem.decode(data).Some? && pem.decode(data).value.blockType == EcdsaBlockType ==>
      var parsed := x509.parseEC(pem.decode(data).value.bytes);
      && (parsed.Err? ==> r == Err(parsed.error))
      && (parsed.Ok? ==> r == Ok(Ecdsa(parsed.value)))
    ensures pem.decode(data).Some? && pem.decode(data).value.blockType == RsaBlockType ==>
      var parsed := x509.parsePKCS1(pem.decode(data).value.bytes);
      && (parsed.Err? ==> r == Err(parsed.error))
      && (parsed.Ok? ==> r == Ok(Rsa(parsed.value)))
  {
    ExtractSigner(data, EcdsaBlockType, RsaBlockType, pem, x509)
  }

  /** The key block EncodeCertificate writes is read back by ExtractPEMSigner
      as the same key, EC or RSA: the encoders and the extractor agree on the
      labels. */
  lemma EncodedKeyRoundTrip(key: PrivateKey, pem: PemCodec, x509: X509)
    requires DecodesWhatItEncodes(pem) && ParsesWhatItMarshals(x509)
    requires KeyBlock(key, x509).Ok? && pem.encode(KeyBlock(key, x509).value).Ok?
    ensures ExtractPEMSigner(pem.encode(KeyBlock(key, x509).value).value, pem, x509) == Ok(key)
  {
    match key
    case Ecdsa(k) => EcBlockRoundTrip(k, EcdsaBlockType, RsaBlockType, pem, x509);
    case Rsa(k) => RsaBlockRoundTrip(k, EcdsaBlockType, RsaBlockType, pem, x509);
  }

  /** `GenerateECPrivateKeyPEM`: a fresh EC key (the outcome of
      `ecdsa.GenerateKey` is `generated`) written as one "EC PRIVATE KEY" block. */
  function GenerateECPrivateKeyPEM(generated: Result<EcdsaKey>, pem: PemCodec, x509: X509): (r: Result<string>)
    ensures generated.Err? ==> r == Err(Wrap(Accounts.KeyGenerationError, generated.error))
    ensures generated.Ok? ==> (r.Err? <==> KeyBlock(Ecdsa(generated.value), x509).Err?
                                           || pem.encode(KeyBlock(Ecdsa(generated.value), x509).value).Err?)
    ensures generated.Ok? && KeyBlock(Ecdsa(generated.value), x509).Ok? ==>
      r == EncodeBlocks([KeyBlock(Ecdsa(generated.value), x509).value], pem)
  {
    match generated
    case Err(e) => Err(Wrap(Accounts.KeyGenerationError, e))
    case Ok(k) =>
      match KeyBlock(Ecdsa(k), x509)
      case Err(e) => Err(e)
      case Ok(b) =>
        EncodeBlocksSnoc([], b, pem);
        assert [] + [b] == [b];
        assert EncodeErrorContext(b.blockType) == EcdsaEncodeError by {
          assert b.blockType == EcdsaBlockType;
          assert EcdsaBlockType[0] != CertBlockType[0];
        }
        match pem.encode(b)
        case Ok(t) => assert [] + t == t; Ok(t)
        case Err(e) => Err(Wrap(EcdsaEncodeError, e))
  }

  /** A generated key reads back through this package's extractor as the EC key
      that was generated. */
  lemma GeneratedECKeyRoundTrip(k: EcdsaKey, pem: PemCodec, x509: X509)
    requires DecodesWhatItEncodes(pem) && ParsesWhatItMarshals(x509)
    requires GenerateECPrivateKeyPEM(Ok(k), pem, x509).Ok?
    ensures ExtractPEMSigner(GenerateECPrivateKeyPEM(Ok(k), pem, x509).value, pem, x509) == Ok(Ecdsa(k))
  {
    EncodedKeyRoundTrip(Ecdsa(k), pem, x509);
  }

  /** The two extractors disagree: a key written by account/signer.go under
      "ECDSA PRIVATE KEY" is refused here by name. */
  lemma AccountKeyRefusedHere(data: string, pem: PemCodec, x509: X509, bytes: Bytes)
    requires pem.decode(data) == Some(PemBlock(Accounts.EcdsaBlockType, bytes))
    ensures ExtractPEMSigner(data, pem, x509) == Err(InvalidKeyType + Accounts.EcdsaBlockType)
  {
  }
}
