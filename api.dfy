/** rpc/api/api.go: the gRPC entry points that create accounts, start a
    certificate request and hand back an issued certificate. `uuid.Parse`,
    the uuid.New() outcomes and the key generator are parameters. */
module Api {
  import opened Wrappers
  import opened Uuid
  import opened Pki
  import opened Accounts
  import opened Domains
  import opened Storage
  import B = Broker

  datatype AccountEnvironment = Staging | Production

  datatype CreateAccountRequest = CreateAccountRequest(key: string, owner: string, environment: AccountEnvironment)
  datatype CreateAccountResponse = CreateAccountResponse(id: UUID, token: UUID)
  datatype CreateCertificateRequest = CreateCertificateRequest(
    accountId: string, accountToken: string, domain: string, challengeType: string)
  datatype GetCertificateRequest = GetCertificateRequest(accountId: string, accountToken: string, domain: string)
  datatype GetCertificateResponse = GetCertificateResponse(certificate: string, key: string, chain: string)

  const InvalidAccountId := "invalid account ID format"
  const InvalidAccountToken := "invalid account token format"
  const NotIssued := "the certificate has not been issued yet"

  /** What a new account draws from outside the request: its ID, its token and
      the outcome of generating a key. */
  datatype AccountSeed = AccountSeed(id: UUID, token: UUID, generated: Result<EcdsaKey>)

  /** The account `CreateAccount` stores for a request, before the save. */
  function RequestedAccount(req: CreateAccountRequest, seed: AccountSeed, productionDirectory: string,
                            pem: PemCodec, x509: X509): (r: Result<Account>)
    ensures r.Ok? ==> r.value.owners == [req.owner] && r.value.id == seed.id && r.value.token == seed.token
    ensures r.Ok? ==> r.value.directoryURL == (if req.environment == Production then productionDirectory else StagingDirectory)
    ensures r.Ok? <==> NewAccountWithKey(req.key, [req.owner], seed.id, seed.token, seed.generated, pem, x509).Ok?
    ensures req.key != [] && r.Ok? ==> r.value.key == req.key
  {
    var made := if req.key != [] then NewAccountWithKey(req.key, [req.owner], seed.id, seed.token, seed.generated, pem, x509)
                else NewAccount([req.owner], seed.id, seed.token, seed.generated, pem, x509);
    match made
    case Err(e) => Err(e)
    case Ok(a) => if req.environment == Production then Ok(a.(directoryURL := productionDirectory)) else Ok(a)
  }

  class Api {
    const productionDirectory: string
    const bucket: Bolt
    const broker: B.PubSubBroker

    constructor (productionDirectory: string, bucket: Bolt, broker: B.PubSubBroker)
      ensures this.productionDirectory == productionDirectory && this.bucket == bucket && this.broker == broker
    {
      this.productionDirectory, this.bucket, this.broker := productionDirectory, bucket, broker;
    }

    /** `CreateAccount`: builds the account (with the supplied key or a
        generated one), points production accounts at the production
        directory, saves it and answers with its credentials, which then
        find it. */
    method CreateAccount(req: CreateAccountRequest, seed: AccountSeed, pem: PemCodec, x509: X509)
      returns (r: Result<CreateAccountResponse>)
      modifies bucket
      ensures bucket.domains == old(bucket.domains) && bucket.writeError == old(bucket.writeError)
      ensures var made := RequestedAccount(req, seed, productionDirectory, pem, x509);
        && (made.Err? ==> r == Err(made.error) && bucket.accounts == old(bucket.accounts))
        && (made.Ok? ==> (r.Ok? <==> bucket.writeError.None?))
        && (r.Ok? ==>
              && r.value == CreateAccountResponse(seed.id, seed.token)
              && bucket.accounts == old(bucket.accounts)[seed.id := made.value]
              && LookupAccount(bucket.accounts, r.value.id, r.value.token) == Ok(made.value))
        && (r.Err? ==> bucket.accounts == old(bucket.accounts))
    {
      var made := RequestedAccount(req, seed, productionDirectory, pem, x509);
      if made.Err? {
        return Err(made.error);
      }
      var saved := bucket.SaveAccount(made.value);
      if saved.Fail? {
        return Err(saved.error);
      }
      return Ok(CreateAccountResponse(made.value.id, made.value.token));
    }

    /** `CreateCertificate`: both credentials must parse as UUIDs; then one
        "creation" request carrying them, the domain and the challenge type
        is published (unwrapped), and nothing else. */
    method CreateCertificate(req: CreateCertificateRequest, parseUuid: string -> Result<UUID>,
                             jobId: UUID, marshalError: B.Message -> Option<string>)
      returns (r: Outcome)
      modifies broker
      ensures broker.topics == old(broker.topics) && broker.publishError == old(broker.publishError)
      ensures parseUuid(req.accountId).Err? ==>
        r == Fail(Wrap(InvalidAccountId, parseUuid(req.accountId).error))
      ensures parseUuid(req.accountId).Ok? && parseUuid(req.accountToken).Err? ==>
        r == Fail(Wrap(InvalidAccountToken, parseUuid(req.accountToken).error))
      ensures r.Fail? ==> broker.sent == old(broker.sent)
      ensures r.Pass? ==>
        && parseUuid(req.accountId).Ok? && parseUuid(req.accountToken).Ok?
        && var payload := B.CreateDomainPayload(parseUuid(req.accountId).value, parseUuid(req.accountToken).value,
                                                req.domain, req.challengeType);
           broker.sent == old(broker.sent) + [B.Publication(B.IsardTopic, B.Message(jobId, B.Creation, payload))]
    ensures parseUuid(req.accountId).Ok? && parseUuid(req.accountToken).Ok? ==>
      var payload := B.CreateDomainPayload(parseUuid(req.accountId).value, parseUuid(req.accountToken).value,
                                           req.domain, req.challengeType);
      r == B.PublishOutcome(old(broker.topics), old(broker.publishError), marshalError, B.Message(jobId, B.Creation, payload))
    {
      var accountId := parseUuid(req.accountId);
      if accountId.Err? {
        return Fail(Wrap(InvalidAccountId, accountId.error));
      }
      var token := parseUuid(req.accountToken);
      if token.Err? {
        return Fail(Wrap(InvalidAccountToken, token.error));
      }
      var payload := B.CreateDomainPayload(accountId.value, token.value, req.domain, req.challengeType);
      r := broker.Publish(B.Creation, payload, jobId, marshalError);
    }

    /** `GetCertificate`: the certificate, key and chain of an Issued domain
        of the account the credentials identify; read-only. */
    method GetCertificate(req: GetCertificateRequest, parseUuid: string -> Result<UUID>)
      returns (r: Result<GetCertificateResponse>)
      ensures parseUuid(req.accountId).Err? ==>
        r == Err(Wrap(InvalidAccountId, parseUuid(req.accountId).error))
      ensures parseUuid(req.accountId).Ok? && parseUuid(req.accountToken).Err? ==>
        r == Err(Wrap(InvalidAccountToken, parseUuid(req.accountToken).error))
      ensures parseUuid(req.accountId).Ok? && parseUuid(req.accountToken).Ok? ==>
        var acc := LookupAccount(bucket.accounts, parseUuid(req.accountId).value, parseUuid(req.accountToken).value);
        && (acc.Err? ==> r == Err(acc.error))
        && (acc.Ok? ==>
              var found := LookupDomain(bucket.domains, acc.value.id, req.domain);
              && (found.Err? ==> r == Err(found.error))
              && (found.Ok? && found.value.state != Issued ==> r == Err(NotIssued))
              && (found.Ok? && found.value.state == Issued ==>
                    r == Ok(GetCertificateResponse(found.value.certificate.cert, found.value.certificate.key,
                                                   found.value.certificate.ca))))
      ensures r.Ok? ==>
        exists k :: k in bucket.domains && bucket.domains[k].state == Issued
                    && r.value.certificate == bucket.domains[k].certificate.cert
    {
      var accountId := parseUuid(req.accountId);
      if accountId.Err? {
        return Err(Wrap(InvalidAccountId, accountId.error));
      }
      var token := parseUuid(req.accountToken);
      if token.Err? {
        return Err(Wrap(InvalidAccountToken, token.error));
      }
      var acc := bucket.GetAccount(accountId.value, token.value);
      if acc.Err? {
        return Err(acc.error);
      }
      var d := bucket.GetDomain(acc.value.id, req.domain);
      if d.Err? {
        return Err(d.error);
      }
      if d.value.state != Issued {
        return Err(NotIssued);
      }
      var c := d.value.certificate;
      return Ok(GetCertificateResponse(c.cert, c.key, c.ca));
    }

    /** `UpdateAccount`, `ResolveCertificateChallenge` and
        `CheckCertificateState`: not implemented; they answer with nothing
        and change nothing. */
    method NotImplemented() returns (r: Option<()>)
      ensures r == None
    {
      return None;
    }
  }
}
