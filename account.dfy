/** account/account.go and account/signer.go: the account that signs ACME
    requests, its contact list and its private key. uuid.New() and ECDSA key
    generation are random: their outcomes are parameters. */
module Accounts {
  import opened Wrappers
  import opened Uuid
  import opened Pki

  /** configuration.StagingDirectory and configuration.ProductionDirectory. */
  const StagingDirectory := "http://localhost:4000/directory"
  const ProductionDirectory := "http://localhost:4000/directory"

  /** The labels account/signer.go writes and accepts. */
  const EcdsaBlockType := "ECDSA PRIVATE KEY"
  const RsaBlockType := "RSA PRIVATE KEY"

  const MailtoScheme := "mailto:"

  const KeyGenerationError := "error generating a key for a new account"

  datatype Account = Account(
    id: UUID,
    token: UUID,
    key: string,
    directoryURL: string,
    owners: seq<string>)

  /** `Account.Contacts`: a slice of the owners' size, filled index by index
      with "mailto:" + owner. */
  method Contacts(a: Account) returns (contacts: seq<string>)
    ensures |contacts| == |a.owners|
    ensures forall i :: 0 <= i < |a.owners| ==> contacts[i] == MailtoScheme + a.owners[i]
  {
    var buf := new string[|a.owners|];
    for i := 0 to |a.owners|
      invariant forall j :: 0 <= j < i ==> buf[j] == MailtoScheme + a.owners[j]
    {
      buf[i] := MailtoScheme + a.owners[i];
    }
    contacts := buf[..];
  }

  /** `extractPEMSigner`: the account's labels routed through the shared switch. */
  function ExtractPEMSigner(data: string, pem: PemCodec, x509: X509): (r: Result<PrivateKey>)
    ensures pem.decode(data).None? ==> r == Err(DecodeError)
    ensures r.Ok? ==> (
      && pem.decode(data).Some?
      && (r.value.Ecdsa? <==> pem.decode(data).value.blockType == EcdsaBlockType)
      && (r.value.Rsa? <==> pem.decode(data).value.blockType == RsaBlockType))
    ensures pem.decode(data).Some?
      && pem.decode(data).value.blockType != EcdsaBlockType
      && pem.decode(data).value.blockType != RsaBlockType
      ==> r == Err(InvalidKeyType + pem.decode(data).value.blockType)
    ensures pem.decode(data).Some? && pem.decode(data).value.blockType == EcdsaBlockType ==>
      var parsed := x509.parseEC(pem.decode(data).value.bytes);
      && (parsed.Err? ==> r == Err(parsed.error))
      && (parsed.Ok? ==> r == Ok(Ecdsa(parsed.value)))
    ensures pem.decode(data).Some? && pem.decode(data).value.blockType == RsaBlockType ==>
      var parsed := x509.parsePKCS1(pem.decode(data).value.bytes);
      && (parsed.Err? ==> r == Err(parsed.error))
      && (parsed.Ok? ==> r == Ok(Rsa(parsed.value)))
  {
    ExtractSigner(data, EcdsaBlockType, RsaBlockType, pem, x509)
  }

  /** `Account.PrivateKey`: the signer behind the stored key text. */
  function PrivateKeyOf(a: Account, pem: PemCodec, x509: X509): (r: Result<PrivateKey>)
    ensures r.Ok? ==> !r.value.OtherKey?
  {
    ExtractPEMSigner(a.key, pem, x509)
  }

  /** `generatePEM`: a fresh EC key (the outcome of `ecdsa.GenerateKey` is
      `generated`), marshalled and wrapped in an "ECDSA PRIVATE KEY" block.
      `pem.EncodeToMemory` returns nil on failure and the code returns that nil
      with no error, so a failed encoding yields the empty key text. */
  function GeneratePEM(generated: Result<EcdsaKey>, pem: PemCodec, x509: X509): (r: Result<string>)
    ensures r.Err? <==> generated.Err? || x509.marshalEC(generated.value).Err?
    ensures generated.Err? ==> r == Err(Wrap(KeyGenerationError, generated.error))
    ensures r.Ok? && r.value != [] && DecodesWhatItEncodes(pem) ==>
      pem.decode(r.value) == Some(PemBlock(EcdsaBlockType, x509.marshalEC(generated.value).value))
  {
    match generated
    case Err(e) => Err(Wrap(KeyGenerationError, e))
    case Ok(k) =>
      match x509.marshalEC(k)
      case Err(e) => Err(Wrap(KeyGenerationError, e))
      case Ok(b) =>
        match pem.encode(PemBlock(EcdsaBlockType, b))
        case Ok(s) => Ok(s)
        case Err(_) => Ok([])
  }

  /** A generated key reads back, through the account's own extractor, as the
      EC key that was generated. */
  lemma GeneratedKeyRoundTrip(k: EcdsaKey, pem: PemCodec, x509: X509)
    requires DecodesWhatItEncodes(pem) && ParsesWhatItMarshals(x509)
    requires GeneratePEM(Ok(k), pem, x509).Ok? && GeneratePEM(Ok(k), pem, x509).value != []
    ensures ExtractPEMSigner(GeneratePEM(Ok(k), pem, x509).value, pem, x509) == Ok(Ecdsa(k))
  {
    EcBlockRoundTrip(k, EcdsaBlockType, RsaBlockType, pem, x509);
  }

  /** `NewAccountWithKey`: the record is built with the staging directory and
      the given owners; an empty key is replaced by a generated one, a
      non-empty key must pass signer extraction and is kept verbatim. */
  function NewAccountWithKey(key: string, owners: seq<string>, id: UUID, token: UUID,
                             generated: Result<EcdsaKey>, pem: PemCodec, x509: X509): (r: Result<Account>)
    ensures key == [] ==> (r.Ok? <==> GeneratePEM(generated, pem, x509).Ok?)
    ensures key == [] && r.Ok? ==> r.value.key == GeneratePEM(generated, pem, x509).value
    ensures key != [] ==> (r.Ok? <==> ExtractPEMSigner(key, pem, x509).Ok?)
    ensures key != [] && r.Ok? ==> r.value.key == key
    ensures r.Err? && key != [] ==> r.error == ExtractPEMSigner(key, pem, x509).error
    ensures r.Err? && key == [] ==> r.error == GeneratePEM(generated, pem, x509).error
    ensures r.Ok? ==> (
      && r.value.id == id && r.value.token == token
      && r.value.directoryURL == StagingDirectory && r.value.owners == owners)
  {
    var account := Account(id, token, key, StagingDirectory, owners);
    if key == [] then
      match GeneratePEM(generated, pem, x509)
      case Err(e) => Err(e)
      case Ok(b) => Ok(account.(key := b))
    else
      match ExtractPEMSigner(key, pem, x509)
      case Err(e) => Err(e)
      case Ok(_) => Ok(account.(key := key))
  }

  /** `NewAccount`: an account whose key is generated. */
  function NewAccount(owners: seq<string>, id: UUID, token: UUID,
                      generated: Result<EcdsaKey>, pem: PemCodec, x509: X509): (r: Result<Account>)
    ensures r == NewAccountWithKey([], owners, id, token, generated, pem, x509)
  {
    NewAccountWithKey([], owners, id, token, generated, pem, x509)
  }

  /** Every account NewAccountWithKey returns has a usable key: a supplied key
      was already extracted, and a generated key reads back as itself. */
  lemma NewAccountKeyUsable(key: string, owners: seq<string>, id: UUID, token: UUID,
                            k: EcdsaKey, pem: PemCodec, x509: X509)
    requires DecodesWhatItEncodes(pem) && ParsesWhatItMarshals(x509)
    requires NewAccountWithKey(key, owners, id, token, Ok(k), pem, x509).Ok?
    requires NewAccountWithKey(key, owners, id, token, Ok(k), pem, x509).value.key != []
    ensures PrivateKeyOf(NewAccountWithKey(key, owners, id, token, Ok(k), pem, x509).value, pem, x509).Ok?
    ensures key == [] ==>
      PrivateKeyOf(NewAccountWithKey(key, owners, id, token, Ok(k), pem, x509).value, pem, x509) == Ok(Ecdsa(k))
  {
    if key == [] {
      GeneratedKeyRoundTrip(k, pem, x509);
    }
  }
}
