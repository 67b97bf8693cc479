/** The parts of Go's encoding/pem and crypto/x509 that the core calls. Their
    internals (base64 framing, ASN.1/DER) are not modelled: each is an
    abstract function, and the properties the core relies on are stated as
    predicates over those functions. */
module Pki {
  import opened Wrappers

  type Bytes = seq<bv8>

  /** A `pem.Block` without headers. */
  datatype PemBlock = PemBlock(blockType: string, bytes: Bytes)

  /** `pem.Encode` / `pem.EncodeToMemory` (Err when encoding fails) and
      `pem.Decode` (the first block of the input, None when there is none). */
  datatype PemCodec = PemCodec(encode: PemBlock -> Result<string>, decode: string -> Option<PemBlock>)

  /** Decoding the encoding of a block gives that block back. */
  ghost predicate DecodesWhatItEncodes(pem: PemCodec)
  {
    forall b :: pem.encode(b).Ok? ==> pem.decode(pem.encode(b).value) == Some(b)
  }

  datatype EcdsaKey = EcdsaKey(x: int, y: int, d: int)

  datatype RsaKey = RsaKey(n: int, e: int, d: int)

  /** The dynamic type behind a `crypto.Signer` or `tls.Certificate.PrivateKey`. */
  datatype PrivateKey = Ecdsa(ec: EcdsaKey) | Rsa(rsa: RsaKey) | OtherKey(kind: string)

  /** x509.MarshalECPrivateKey, ParseECPrivateKey, MarshalPKCS1PrivateKey and
      ParsePKCS1PrivateKey. */
  datatype X509 = X509(
    marshalEC: EcdsaKey -> Result<Bytes>,
    parseEC: Bytes -> Result<EcdsaKey>,
    marshalPKCS1: RsaKey -> Bytes,
    parsePKCS1: Bytes -> Result<RsaKey>)

  /** The parsers accept what the marshallers produce. */
  ghost predicate ParsesWhatItMarshals(x509: X509)
  {
    && (forall k :: x509.marshalEC(k).Ok? ==> x509.parseEC(x509.marshalEC(k).value) == Ok(k))
    && (forall k :: x509.parsePKCS1(x509.marshalPKCS1(k)) == Ok(k))
  }

  const DecodeError := "error decoding PEM block"

  const InvalidKeyType := "invalid private key type: "

  /** The block-type switch shared by the two signer extractors
      (account/signer.go and cryptopolis/cryptopolis.go), which differ only in
      the labels they accept: the EC label routes to the EC parser, the RSA
      label to the PKCS#1 parser, anything else is rejected by name. */
  function ExtractSigner(data: string, ecLabel: string, rsaLabel: string, pem: PemCodec, x509: X509): (r: Result<PrivateKey>)
    requires ecLabel != rsaLabel
    ensures pem.decode(data).None? ==> r == Err(DecodeError)
    ensures pem.decode(data).Some? ==>
      var block := pem.decode(data).value;
      && (block.blockType == ecLabel ==>
            r == (match x509.parseEC(block.bytes) case Ok(k) => Ok(Ecdsa(k)) case Err(e) => Err(e)))
      && (block.blockType == rsaLabel ==>
            r == (match x509.parsePKCS1(block.bytes) case Ok(k) => Ok(Rsa(k)) case Err(e) => Err(e)))
      && (block.blockType != ecLabel && block.blockType != rsaLabel ==>
            r == Err(InvalidKeyType + block.blockType))
    ensures r.Ok? ==> !r.value.OtherKey?
  {
    match pem.decode(data)
    case None => Err(DecodeError)
    case Some(block) =>
      if block.blockType == ecLabel then
        match x509.parseEC(block.bytes)
        case Ok(k) => Ok(Ecdsa(k))
        case Err(e) => Err(e)
      else if block.blockType == rsaLabel then
        match x509.parsePKCS1(block.bytes)
        case Ok(k) => Ok(Rsa(k))
        case Err(e) => Err(e)
      else
        Err(InvalidKeyType + block.blockType)
  }

  /** A block written under the EC label with marshalled EC bytes is read back
      as the same EC key. */
  lemma EcBlockRoundTrip(k: EcdsaKey, ecLabel: string, rsaLabel: string, pem: PemCodec, x509: X509)
    requires ecLabel != rsaLabel
    requires DecodesWhatItEncodes(pem) && ParsesWhatItMarshals(x509)
    requires x509.marshalEC(k).Ok?
    requires pem.encode(PemBlock(ecLabel, x509.marshalEC(k).value)).Ok?
    ensures ExtractSigner(pem.encode(PemBlock(ecLabel, x509.marshalEC(k).value)).value, ecLabel, rsaLabel, pem, x509)
         == Ok(Ecdsa(k))
  {
    var b := PemBlock(ecLabel, x509.marshalEC(k).value);
    assert pem.decode(pem.encode(b).value) == Some(b);
  }

  /** The same for an RSA key under the RSA label. */
  lemma RsaBlockRoundTrip(k: RsaKey, ecLabel: string, rsaLabel: string, pem: PemCodec, x509: X509)
    requires ecLabel != rsaLabel
    requires DecodesWhatItEncodes(pem) && ParsesWhatItMarshals(x509)
    requires pem.encode(PemBlock(rsaLabel, x509.marshalPKCS1(k))).Ok?
    ensures ExtractSigner(pem.encode(PemBlock(rsaLabel, x509.marshalPKCS1(k))).value, ecLabel, rsaLabel, pem, x509)
         == Ok(Rsa(k))
  {
    var b := PemBlock(rsaLabel, x509.marshalPKCS1(k));
    assert pem.decode(pem.encode(b).value) == Some(b);
  }
}
