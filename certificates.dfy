/** certificates/certificates.go: the ACME client an account uses. The CA's
    endpoints, certificate parsing, CSR signing and hostname verification are
    parameters; `time.Now` is the integer `now`. */
module Certificates {
  import opened Wrappers
  import opened Pki
  import opened Accounts
  import opened Domains
  import opened Challenges

  /** `acme.Authorization`: its URI, its status and the challenges offered. */
  datatype Authorization = Authorization(uri: string, status: string, challenges: seq<Challenge>)

  /** The authorisation statuses of section 7.1.6 of RFC 8555 under which the
      CA has not decided yet. */
  const StatusPending := "pending"
  const StatusProcessing := "processing"

  /** `x509.CertificateRequest`: the subject's common name and the DNS names. */
  datatype CertificateRequest = CertificateRequest(commonName: string, dnsNames: seq<string>)

  /** The CA endpoints the client calls. */
  datatype CaServer = CaServer(
    authorize: string -> Result<Authorization>,
    getAuthorization: string -> Result<Authorization>,
    accept: Challenge -> Result<Challenge>,
    register: seq<string> -> Outcome,
    createCert: Bytes -> Result<seq<Bytes>>)

  /** `Client`: the account, the signer its key extracts to, the account's
      directory and the DNS provider's API key. */
  datatype Client = Client(account: Account, key: PrivateKey, directoryURL: string, ns1ApiKey: string)

  const UnsupportedChallenge := "unsupported ACME challenge: "
  const AcceptError := "error accepting challenge for domain: "
  const RequestError := "error requesting certificate for domain: "
  const InvalidPublicKey := "invalid public key for domain: "
  const ExpiredCertificate := "expired certificate for domain: "
  const InvalidHostname := "invalid hostname for certificate: "
  const MismatchedKeys := "mismatched public and private keys for certificate: "
  const UnsupportedCertificate := "unsupported certificate type for domain: "

  /** `NewClientWithAPIKey`: fails exactly when the account key cannot be
      extracted; otherwise bound to the account's directory and the API key. */
  function NewClientWithAPIKey(a: Account, apiKey: string, pem: PemCodec, x509: X509): (r: Result<Client>)
    ensures r.Err? <==> PrivateKeyOf(a, pem, x509).Err?
    ensures r.Err? ==> r.error == PrivateKeyOf(a, pem, x509).error
    ensures r.Ok? ==> (
      && r.value.account == a && r.value.ns1ApiKey == apiKey
      && r.value.directoryURL == a.directoryURL
      && r.value.key == PrivateKeyOf(a, pem, x509).value && !r.value.key.OtherKey?)
  {
    match PrivateKeyOf(a, pem, x509)
    case Err(e) => Err(e)
    case Ok(k) => Ok(Client(a, k, a.directoryURL, apiKey))
  }

  /** `NewClient`: no DNS provider key. */
  function NewClient(a: Account, pem: PemCodec, x509: X509): (r: Result<Client>)
    ensures r == NewClientWithAPIKey(a, [], pem, x509)
    ensures r.Ok? ==> r.value.ns1ApiKey == []
  {
    NewClientWithAPIKey(a, [], pem, x509)
  }

  /** `AuthorizeDomain`: a new authorisation for the domain's name; the CA's
      answer, error included, is passed on unwrapped. */
  function AuthorizeDomain(d: DomainRecord, ca: CaServer): (r: Result<Authorization>)
    ensures r.Ok? <==> ca.authorize(d.name).Ok?
    ensures r.Err? ==> r.error == ca.authorize(d.name).error
    ensures r.Ok? ==> r.value == ca.authorize(d.name).value
  {
    ca.authorize(d.name)
  }

  /** `GetAuthorization`: the authorisation behind the stored URL; the CA's
      answer, error included, is passed on unwrapped. */
  function GetAuthorization(d: DomainRecord, ca: CaServer): (r: Result<Authorization>)
    ensures r.Ok? <==> ca.getAuthorization(d.authorizationURL).Ok?
    ensures r.Err? ==> r.error == ca.getAuthorization(d.authorizationURL).error
    ensures r.Ok? ==> r.value == ca.getAuthorization(d.authorizationURL).value
  {
    ca.getAuthorization(d.authorizationURL)
  }

  /** `AcceptChallenge`: a CA error is wrapped with the domain's name. */
  function AcceptChallenge(d: DomainRecord, chal: Challenge, ca: CaServer): (r: Result<Challenge>)
    ensures r.Ok? <==> ca.accept(chal).Ok?
    ensures r.Ok? ==> r.value == ca.accept(chal).value
    ensures r.Err? ==> r.error == Wrap(AcceptError + d.name, ca.accept(chal).error)
  {
    match ca.accept(chal)
    case Ok(c) => Ok(c)
    case Err(e) => Err(Wrap(AcceptError + d.name, e))
  }

  /** `Register`: the account's contacts, as mailto addresses, sent to the CA. */
  method Register(c: Client, ca: CaServer) returns (r: Outcome)
    ensures r == ca.register(seq(|c.account.owners|, i requires 0 <= i < |c.account.owners| => MailtoScheme + c.account.owners[i]))
  {
    var contacts := Contacts(c.account);
    assert contacts == seq(|c.account.owners|, i requires 0 <= i < |c.account.owners| => MailtoScheme + c.account.owners[i]);
    r := ca.register(contacts);
  }

  /** What preparing a challenge leaves behind: the outcome, the domain, and
      the NS1 zones and records. */
  datatype Prepared = Prepared(outcome: Outcome, domain: DomainRecord,
                               zones: set<string>, records: map<RecordKey, DnsRecord>)

  /** `PrepareChallenge` on values: "dns-01" is the DNS resolver's
      resolution of the domain's name; "http-01" writes the challenge path,
      then the response when it can be computed; any other type is refused
      before any resolver runs. Only the two challenge fields of the domain
      can change. */
  function Preparation(d: DomainRecord, chal: Challenge, zones: set<string>, records: map<RecordKey, DnsRecord>,
                       failing: map<Op, string>, auth: KeyAuth): (r: Prepared)
    ensures r.domain == d.(http01ChallengePath := r.domain.http01ChallengePath,
                           http01ChallengeResponse := r.domain.http01ChallengeResponse)
  {
    if chal.typ == Dns01 then
      var (outcome, zonesAfter, recordsAfter) := DnsResolution(zones, records, failing, d.name, auth.dns01Record(chal.token));
      Prepared(outcome, d, zonesAfter, recordsAfter)
    else if chal.typ == Http01 then
      var withPath := d.(http01ChallengePath := auth.http01Path(chal.token));
      match auth.http01Response(chal.token)
      case Err(e) => Prepared(Fail(Wrap(HttpResponseError + d.name, e)), withPath, zones, records)
      case Ok(v) => Prepared(Pass, withPath.(http01ChallengeResponse := v), zones, records)
    else
      Prepared(Fail(UnsupportedChallenge + chal.typ), d, zones, records)
  }

  /** The three cases of a preparation. An unsupported type is refused and
      nothing changes. "http-01" leaves NS1 alone, always writes the path,
      and succeeds exactly when the response can be computed, writing it, or
      fails with the wrapped error. "dns-01" leaves the domain alone, fails
      with the wrapped error when the TXT value cannot be computed, and on
      success with a working record call leaves the TXT record in the store. */
  lemma PreparationCases(d: DomainRecord, chal: Challenge, zones: set<string>, records: map<RecordKey, DnsRecord>,
                         failing: map<Op, string>, auth: KeyAuth)
    ensures var p := Preparation(d, chal, zones, records, failing, auth);
      chal.typ != Dns01 && chal.typ != Http01 ==>
        p == Prepared(Fail(UnsupportedChallenge + chal.typ), d, zones, records)
    ensures var p := Preparation(d, chal, zones, records, failing, auth);
      chal.typ == Http01 ==>
        && p.zones == zones && p.records == records
        && p.domain.http01ChallengePath == auth.http01Path(chal.token)
        && (p.outcome.Pass? <==> auth.http01Response(chal.token).Ok?)
        && (p.outcome.Pass? ==> p.domain.http01ChallengeResponse == auth.http01Response(chal.token).value)
        && (p.outcome.Fail? ==> p.outcome.error == Wrap(HttpResponseError + d.name, auth.http01Response(chal.token).error)
                                && p.domain.http01ChallengeResponse == d.http01ChallengeResponse)
    ensures var p := Preparation(d, chal, zones, records, failing, auth);
      chal.typ == Dns01 ==>
        && p.domain == d
        && (auth.dns01Record(chal.token).Err? ==>
              p == Prepared(Fail(Wrap(DnsRecordError + d.name, auth.dns01Record(chal.token).error)), d, zones, records))
        && (p.outcome.Pass? && CreateRecordCall !in failing ==>
              && auth.dns01Record(chal.token).Ok?
              && RecordKey(d.name, RecordName(d.name), TxtType) in p.records
              && forall k :: k in records ==> k in p.records && p.records[k] == records[k])
  {
    if chal.typ == Dns01 && CreateRecordCall !in failing
       && DnsResolution(zones, records, failing, d.name, auth.dns01Record(chal.token)).0.Pass? {
      ResolutionHoldsRecord(zones, records, failing, d.name, auth.dns01Record(chal.token));
    }
  }

  /** `PrepareChallenge`: "dns-01" goes to the DNS resolver, "http-01" to the
      HTTP resolver, anything else is refused; a resolver's error is returned
      as it is. The domain object, the NS1 store and the result are those of
      Preparation. */
  method PrepareChallenge(d: Domain, chal: Challenge, ns1: Ns1, auth: KeyAuth) returns (r: Result<Domain>)
    modifies d, ns1
    ensures ns1.failing == old(ns1.failing)
    ensures var p := Preparation(old(d.Record()), chal, old(ns1.zones), old(ns1.records), ns1.failing, auth);
      && d.Record() == p.domain && ns1.zones == p.zones && ns1.records == p.records
      && r == (if p.outcome.Pass? then Ok(d) else Err(p.outcome.error))
  {
    var resolved: Result<Domain>;
    if chal.typ == Dns01 {
      resolved := ns1.Resolve(d, chal, auth);
    } else if chal.typ == Http01 {
      resolved := HttpResolve(d, chal, auth);
    } else {
      return Err(UnsupportedChallenge + chal.typ);
    }
    if resolved.Err? {
      return Err(resolved.error);
    }
    return Ok(resolved.value);
  }

  /** The request `RequestCertificate` signs: the domain's name as common name
      and its SAN list as DNS names. */
  function CertificateRequestFor(d: DomainRecord): (r: CertificateRequest)
    ensures r.commonName == d.name && r.dnsNames == d.sanNames
  {
    CertificateRequest(d.name, d.sanNames)
  }

  /** The public key a parsed certificate carries. */
  datatype PublicKey = RsaPublic(n: int) | EcdsaPublic(x: int, y: int) | OtherPublic(kind: string)

  /** The fields of a parsed `x509.Certificate` the validation reads. */
  datatype Certificate = Certificate(notBefore: int, notAfter: int, publicKey: PublicKey)

  /** `x509.ParseCertificates` and `VerifyHostname`. */
  datatype CertParser = CertParser(
    parse: Bytes -> Result<seq<Certificate>>,
    verifyHostname: (Certificate, string) -> Outcome)

  /** The DER chunks run together, in order. */
  function Flatten(der: seq<Bytes>): Bytes
  {
    if der == [] then [] else Flatten(der[..|der| - 1]) + der[|der| - 1]
  }

  function SumLengths(der: seq<Bytes>): nat
  {
    if der == [] then 0 else SumLengths(der[..|der| - 1]) + |der[|der| - 1]|
  }

  /** The joined buffer is as long as the chunks together. */
  lemma {:induction false} FlattenLength(der: seq<Bytes>)
    ensures |Flatten(der)| == SumLengths(der)
  {
    if der != [] {
      FlattenLength(der[..|der| - 1]);
    }
  }

  /** Every chunk sits in the joined buffer at the running offset. */
  lemma {:induction false} FlattenContains(der: seq<Bytes>, i: nat)
    requires i < |der|
    ensures SumLengths(der[..i]) + |der[i]| <= |Flatten(der)|
    ensures Flatten(der)[SumLengths(der[..i])..SumLengths(der[..i]) + |der[i]|] == der[i]
  {
    var last := |der| - 1;
    assert der[..last][..i] == der[..i] by { assert i <= last; }
    FlattenLength(der[..i]);
    FlattenLength(der[..last]);
    if i == last {
      assert der[..last] == der[..i];
    } else {
      FlattenContains(der[..last], i);
      assert der[..last][i] == der[i];
    }
  }

  /** The public key of the leaf belongs to the private key: equal modulus for
      RSA, equal point for ECDSA. */
  predicate KeysMatch(pub: PublicKey, key: PrivateKey)
  {
    match pub
    case RsaPublic(n) => key.Rsa? && key.rsa.n == n
    case EcdsaPublic(x, y) => key.Ecdsa? && key.ec.x == x && key.ec.y == y
    case OtherPublic(_) => false
  }

  /** The checks made on the leaf, in order: validity window (both instants
      included), hostname, then key match. */
  function CheckLeaf(domain: string, key: PrivateKey, leaf: Certificate, now: int, certs: CertParser): (r: Result<Certificate>)
    ensures r.Ok? <==> (
      && leaf.notBefore <= now <= leaf.notAfter
      && certs.verifyHostname(leaf, domain).Pass?
      && KeysMatch(leaf.publicKey, key))
    ensures r.Ok? ==> r.value == leaf
    ensures now < leaf.notBefore ==> r == Err(InvalidPublicKey + domain)
    ensures leaf.notBefore <= now && leaf.notAfter < now ==> r == Err(ExpiredCertificate + domain)
    ensures leaf.notBefore <= now <= leaf.notAfter && certs.verifyHostname(leaf, domain).Fail? ==>
      r == Err(Wrap(InvalidHostname + domain, certs.verifyHostname(leaf, domain).error))
    ensures leaf.notBefore <= now <= leaf.notAfter && certs.verifyHostname(leaf, domain).Pass? ==>
      && (leaf.publicKey.OtherPublic? ==> r == Err(UnsupportedCertificate + domain))
      && (!leaf.publicKey.OtherPublic? && !KeysMatch(leaf.publicKey, key) ==> r == Err(MismatchedKeys + domain))
  {
    if now < leaf.notBefore then Err(InvalidPublicKey + domain)
    else if now > leaf.notAfter then Err(ExpiredCertificate + domain)
    else match certs.verifyHostname(leaf, domain)
      case Fail(e) => Err(Wrap(InvalidHostname + domain, e))
      case Pass =>
        match leaf.publicKey
        case RsaPublic(n) =>
          if !key.Rsa? || key.rsa.n != n then Err(MismatchedKeys + domain) else Ok(leaf)
        case EcdsaPublic(x, y) =>
          if !key.Ecdsa? || key.ec.x != x || key.ec.y != y then Err(MismatchedKeys + domain) else Ok(leaf)
        case OtherPublic(_) => Err(UnsupportedCertificate + domain)
  }

  /** `validateCertificate`: the chain is joined into one buffer and parsed;
      the leaf is the first certificate; the leaf must pass CheckLeaf. */
  method ValidateCertificate(domain: string, key: PrivateKey, der: seq<Bytes>, now: int, certs: CertParser)
    returns (r: Result<Certificate>)
    ensures certs.parse(Flatten(der)).Err? ==> r == Err(Wrap(InvalidPublicKey + domain, certs.parse(Flatten(der)).error))
    ensures certs.parse(Flatten(der)) == Ok([]) ==> r == Err(InvalidPublicKey + domain)
    ensures certs.parse(Flatten(der)).Ok? && certs.parse(Flatten(der)).value != [] ==>
      r == CheckLeaf(domain, key, certs.parse(Flatten(der)).value[0], now, certs)
  {
    var n := 0;
    for i := 0 to |der|
      invariant n == SumLengths(der[..i])
    {
      assert der[..i + 1][..i] == der[..i];
      n := n + |der[i]|;
    }
    assert der[..|der|] == der;
    FlattenLength(der);

    var pub := new bv8[n];
    n := 0;
    for i := 0 to |der|
      invariant n == SumLengths(der[..i]) && n <= pub.Length
      invariant pub[..n] == Flatten(der)[..n]
    {
      FlattenContains(der, i);
      var b := der[i];
      forall j | 0 <= j < |b| {
        pub[n + j] := b[j];
      }
      assert pub[..n + |b|] == Flatten(der)[..n + |b|] by {
        forall k | 0 <= k < n + |b| ensures pub[k] == Flatten(der)[k] {
          if k >= n {
            assert Flatten(der)[n..n + |b|][k - n] == Flatten(der)[k];
          } else {
            assert pub[..n][k] == Flatten(der)[..n][k];
          }
        }
      }
      assert der[..i + 1][..i] == der[..i];
      n := n + |b|;
    }
    assert pub[..] == Flatten(der) by {
      assert pub[..] == pub[..n];
    }

    var parsed := certs.parse(pub[..]);
    if parsed.Err? {
      return Err(Wrap(InvalidPublicKey + domain, parsed.error));
    }
    if |parsed.value| == 0 {
      return Err(InvalidPublicKey + domain);
    }
    r := CheckLeaf(domain, key, parsed.value[0], now, certs);
  }

  /** The joined buffer is the chunks in order: for two chunks, the first
      then the second. */
  lemma FlattenTwo(a: Bytes, b: Bytes)
    ensures Flatten([a, b]) == a + b
  {
    assert [a, b][..1] == [a];
    assert [a][..0] == [];
    assert Flatten([a]) == [] + a;
    assert Flatten([a, b]) == Flatten([a]) + b;
  }

  /** Key match in full: an RSA leaf needs an RSA key of the same modulus, an
      ECDSA leaf an ECDSA key of the same point; any other pairing or leaf key
      type fails. */
  lemma KeyMatchCases(domain: string, key: PrivateKey, leaf: Certificate, now: int, certs: CertParser)
    requires leaf.notBefore <= now <= leaf.notAfter && certs.verifyHostname(leaf, domain).Pass?
    ensures leaf.publicKey.RsaPublic? && !key.Rsa? ==> CheckLeaf(domain, key, leaf, now, certs) == Err(MismatchedKeys + domain)
    ensures leaf.publicKey.EcdsaPublic? && !key.Ecdsa? ==> CheckLeaf(domain, key, leaf, now, certs) == Err(MismatchedKeys + domain)
    ensures leaf.publicKey.OtherPublic? ==> CheckLeaf(domain, key, leaf, now, certs) == Err(UnsupportedCertificate + domain)
    ensures CheckLeaf(domain, key, leaf, now, certs) == Ok(leaf) <==> KeysMatch(leaf.publicKey, key)
  {
  }

  /** `RequestCertificate`: the CSR for the domain's names is signed with the
      account key (`sign`, CSR construction), submitted, and the returned
      chain validated. Key, signing and CA errors are wrapped with the name. */
  method RequestCertificate(d: DomainRecord, pem: PemCodec, x509: X509, sign: (CertificateRequest, PrivateKey) -> Result<Bytes>,
                            ca: CaServer, now: int, certs: CertParser) returns (r: Result<Certificate>)
    ensures PrivateKeyOf(d.account, pem, x509).Err? ==>
      r == Err(Wrap(RequestError + d.name, PrivateKeyOf(d.account, pem, x509).error))
    ensures r.Ok? ==> (
      && PrivateKeyOf(d.account, pem, x509).Ok?
      && sign(CertificateRequestFor(d), PrivateKeyOf(d.account, pem, x509).value).Ok?
      && ca.createCert(sign(CertificateRequestFor(d), PrivateKeyOf(d.account, pem, x509).value).value).Ok?
      && KeysMatch(r.value.publicKey, PrivateKeyOf(d.account, pem, x509).value)
      && r.value.notBefore <= now <= r.value.notAfter)
    ensures PrivateKeyOf(d.account, pem, x509).Ok? ==>
      var key := PrivateKeyOf(d.account, pem, x509).value;
      var csr := sign(CertificateRequestFor(d), key);
      && (csr.Err? ==> r == Err(Wrap(RequestError + d.name, csr.error)))
      && (csr.Ok? ==>
            var der := ca.createCert(csr.value);
            && (der.Err? ==> r == Err(Wrap(RequestError + d.name, der.error)))
            && (der.Ok? ==>
                  var parsed := certs.parse(Flatten(der.value));
                  && (parsed.Err? ==> r == Err(Wrap(InvalidPublicKey + d.name, parsed.error)))
                  && (parsed == Ok([]) ==> r == Err(InvalidPublicKey + d.name))
                  && (parsed.Ok? && parsed.value != [] ==> r == CheckLeaf(d.name, key, parsed.value[0], now, certs))))
  {
    var pk := PrivateKeyOf(d.account, pem, x509);
    if pk.Err? {
      return Err(Wrap(RequestError + d.name, pk.error));
    }
    var csr := sign(CertificateRequestFor(d), pk.value);
    if csr.Err? {
      return Err(Wrap(RequestError + d.name, csr.error));
    }
    var der := ca.createCert(csr.value);
    if der.Err? {
      return Err(Wrap(RequestError + d.name, der.error));
    }
    r := ValidateCertificate(d.name, pk.value, der.value, now, certs);
  }
}
