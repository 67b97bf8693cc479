/** broker/processor.go: the domain processor, which moves a domain through
    its states by reading it from storage, deciding, saving it and publishing
    the next step; plus the receive callback of broker/pubsub_broker.go that
    routes a delivered message to it. The CA, the HTTP probe, the key
    authorisation, PEM/x509, the public-suffix list and `json.Marshal` are
    parameters; uuid.New() outcomes are arguments. */
module Processor {
  import opened Wrappers
  import opened Uuid
  import opened Pki
  import opened Names
  import opened Accounts
  import opened Domains
  import opened Validator
  import opened Storage
  import opened Challenges
  import C = Certificates
  import B = Broker

  /** `configuration.DomainsConfiguration`: the DNS provider key and the
      response header the ownership check expects. */
  datatype DomainsConfiguration = DomainsConfiguration(ns1APIKey: string, headerName: string, headerValue: string)

  /** The collaborators the handlers call that hold no state of the model. */
  datatype Env = Env(
    ca: C.CaServer,
    http: HttpClient,
    auth: KeyAuth,
    pem: PemCodec,
    x509: X509,
    publicSuffix: string -> Result<string>,
    marshalError: B.Message -> Option<string>)

  const InvalidCreatePayload := "error creating domain, invalid payload message"
  const InvalidValidatePayload := "error verifying domain, invalid payload message"
  const InvalidAuthorizePayload := "error authorizing domain, invalid payload message"
  const ValidationFailed := "domain validation failed for domain: "
  const NoValidChallenge := "unable to find a valid challenge for domain: "

  /** The CA has decided once the status is neither "pending" nor
      "processing" (section 7.1.6 of RFC 8555). */
  predicate Decided(status: string)
  {
    status != C.StatusPending && status != C.StatusProcessing
  }

  /** One poll of `checkAuthzState` on its success path: the domain it saves
      (if any) and the topic it publishes. */
  function PollStep(d: DomainRecord, status: string): (r: (DomainRecord, string))
    ensures Decided(status) ==> r == (d.(state := Authorized), B.CertRequest)
    ensures !Decided(status) ==> r == (d, B.Authorization)
  {
    if Decided(status) then (d.(state := Authorized), B.CertRequest) else (d, B.Authorization)
  }

  /** Successive polls, one per delivered "authorization" message, each seeing
      the next status: the final domain and the topics published, in order. */
  function PollRun(d: DomainRecord, statuses: seq<string>): (r: (DomainRecord, seq<string>))
    ensures |r.1| == |statuses|
    ensures r.0 == d || r.0 == d.(state := Authorized)
    ensures forall i :: 0 <= i < |r.1| ==> r.1[i] == B.CertRequest || r.1[i] == B.Authorization
    decreases |statuses|
  {
    if statuses == [] then (d, [])
    else
      var (next, topic) := PollStep(d, statuses[0]);
      var (last, topics) := PollRun(next, statuses[1..]);
      (last, [topic] + topics)
  }

  function Repeat(topic: string, k: nat): (r: seq<string>)
    ensures |r| == k && forall i :: 0 <= i < k ==> r[i] == topic
  {
    if k == 0 then [] else [topic] + Repeat(topic, k - 1)
  }

  /** Convergence of the polling loop: k undecided polls followed by a
      decided one publish k "authorization" requeues and then one
      "cert_request", and leave the domain Authorized with nothing else
      changed. */
  lemma {:induction false} PollConverges(d: DomainRecord, statuses: seq<string>, k: nat)
    requires |statuses| == k + 1
    requires forall i :: 0 <= i < k ==> !Decided(statuses[i])
    requires Decided(statuses[k])
    ensures PollRun(d, statuses) == (d.(state := Authorized), Repeat(B.Authorization, k) + [B.CertRequest])
  {
    if k == 0 {
      assert statuses[1..] == [];
      assert PollStep(d, statuses[0]) == (d.(state := Authorized), B.CertRequest);
      assert PollRun(d.(state := Authorized), []) == (d.(state := Authorized), []);
      assert [B.CertRequest] + [] == Repeat(B.Authorization, 0) + [B.CertRequest];
    } else {
      assert !Decided(statuses[0]);
      PollConverges(d, statuses[1..], k - 1);
      assert [B.Authorization] + (Repeat(B.Authorization, k - 1) + [B.CertRequest])
          == Repeat(B.Authorization, k) + [B.CertRequest];
    }
  }

  /** The payload type each handler asserts before it does anything else. */
  predicate AcceptedPayload(h: B.Handler, p: B.Payload)
  {
    match h
    case CreateDomain => p.CreateDomainPayload?
    case ValidateDomain => p.DomainPayload?
    case AuthorizeDomain => p.DomainPayload?
    case ModifyDomain => true
    case RequestDomainCertificate => true
  }

  /** What the processor and the API hand to `Publish` as written: a message
      of their own, which `Publish` then wraps in another. */
  function NestedPayloadAsWritten(jobId: UUID, payload: B.Payload): (r: B.Payload)
    ensures r.MessagePayload? && r.message.payload == payload && r.message.jobId == jobId
  {
    B.MessagePayload(B.NewMessageWithId(jobId, payload))
  }

  /** A nested payload is never the type a checking handler asserts. */
  lemma NestedPayloadRejected(h: B.Handler, jobId: UUID, payload: B.Payload)
    requires !h.ModifyDomain? && !h.RequestDomainCertificate?
    ensures !AcceptedPayload(h, NestedPayloadAsWritten(jobId, payload))
  {
  }

  /** Published unwrapped, each payload the pipeline sends is the one its
      receiving handler accepts: the API's creation request, and the domain
      payload of every "authorization" and "cert_request" step. */
  lemma PublishedPayloadsAccepted(accountId: UUID, token: UUID, name: string, challengeType: string)
    ensures AcceptedPayload(B.Route(B.Creation).value, B.CreateDomainPayload(accountId, token, name, challengeType))
    ensures AcceptedPayload(B.Route(B.Authorization).value, B.DomainPayload(accountId, name))
    ensures AcceptedPayload(B.Route(B.CertRequest).value, B.DomainPayload(accountId, name))
    ensures AcceptedPayload(B.Route(B.Validation).value, B.DomainPayload(accountId, name))
  {
  }

  /** The challenge `startAuthProcess` picks: the first offered one whose
      type is the domain's, if any. */
  function FirstOfType(offered: seq<Challenge>, challengeType: string): (r: Option<Challenge>)
    ensures r.None? <==> forall i :: 0 <= i < |offered| ==> offered[i].typ != challengeType
    ensures r.Some? ==> r.value.typ == challengeType
    ensures r.Some? ==> exists i :: (0 <= i < |offered| && offered[i] == r.value
                                     && forall j :: 0 <= j < i ==> offered[j].typ != challengeType)
  {
    if offered == [] then None
    else if offered[0].typ == challengeType then Some(offered[0])
    else
      var rest := FirstOfType(offered[1..], challengeType);
      assert forall i :: 1 <= i < |offered| ==> offered[i] == offered[1..][i - 1];
      rest
  }

  /** The challenge search of `startAuthProcess`, a loop over the offered
      challenges that stops at the first match. */
  method SelectChallenge(offered: seq<Challenge>, challengeType: string) returns (r: Option<Challenge>)
    ensures r == FirstOfType(offered, challengeType)
  {
    for i := 0 to |offered|
      invariant FirstOfType(offered[i..], challengeType) == FirstOfType(offered, challengeType)
    {
      if offered[i].typ == challengeType {
        return Some(offered[i]);
      }
      assert offered[i..][1..] == offered[i + 1..];
    }
    assert offered[|offered|..] == [];
    return None;
  }

  /** What `SaveDomain` is handed at broker/processor.go:175 as written: `d`
      has just been reassigned from PrepareChallenge's result, and is nil when
      that failed, whose error is then shadowed and never looked at. */
  function SaveTargetAsWritten(prepared: Result<DomainRecord>): (r: Option<DomainRecord>)
    ensures r.None? <==> prepared.Err?
  {
    match prepared
    case Ok(d) => Some(d)
    case Err(_) => None
  }

  /** `SaveDomain` begins by building the key from `d.Account.ID`. */
  datatype SaveStep = SavedUnder(key: string) | NilDereference

  function SaveStepOf(target: Option<DomainRecord>): (r: SaveStep)
    ensures r == NilDereference <==> target.None?
  {
    match target
    case Some(d) => SavedUnder(DomainKey(d.account.id, d.name))
    case None => NilDereference
  }

  /** As written, a domain whose challenge type the CA offers but the client
      cannot prepare ("tls-alpn-01", say) sends nil to SaveDomain, which
      panics instead of returning the "unsupported ACME challenge" error. */
  method UnsupportedChallengePanicsAsWritten(d: Domain, ns1: Ns1, auth: KeyAuth, uri: string, token: string)
    returns (prepared: Result<Domain>, step: SaveStep)
    requires d.challengeType == "tls-alpn-01"
    modifies d, ns1
    ensures prepared == Err(C.UnsupportedChallenge + "tls-alpn-01")
    ensures prepared.Err? && step == SaveStepOf(SaveTargetAsWritten(Err(prepared.error)))
    ensures step == NilDereference
  {
    var chal := Challenge(d.challengeType, uri, token);
    prepared := C.PrepareChallenge(d, chal, ns1, auth);
    step := SaveStepOf(SaveTargetAsWritten(Err(prepared.error)));
  }

  /** The state the handlers change: the domains bucket, what was published,
      and the NS1 zones and records. */
  datatype World = World(domains: map<string, DomainRecord>, sent: seq<B.Publication>,
                         zones: set<string>, records: map<RecordKey, DnsRecord>)

  /** What the handlers read and never change: the accounts bucket, the
      store's write error, the Pub/Sub topics and error, and the NS1 calls
      that fail. */
  datatype Conditions = Conditions(accounts: map<string, Account>, writeError: Option<string>,
                                   topics: set<string>, publishError: Option<string>, failing: map<Op, string>)

  /** `SaveDomain` on values. */
  function SaveIn(w: World, c: Conditions, d: DomainRecord): (Outcome, World)
  {
    if c.writeError.Some? then (Fail(Wrap(DomainSaveError + d.id, c.writeError.value)), w)
    else (Pass, w.(domains := w.domains[DomainKey(d.account.id, d.name) := d]))
  }

  /** `Publish` on values. */
  function PublishIn(w: World, c: Conditions, env: Env, topic: string, payload: B.Payload, jobId: UUID): (Outcome, World)
  {
    var m := B.Message(jobId, topic, payload);
    var outcome := B.PublishOutcome(c.topics, c.publishError, env.marshalError, m);
    (outcome, if outcome.Pass? then w.(sent := w.sent + [B.Publication(B.IsardTopic, m)]) else w)
  }

  /** `CreateDomain` on values. */
  function CreateDomainStep(m: B.Message, w: World, c: Conditions, env: Env, domainId: UUID): (r: (Outcome, World))
    ensures r.1.sent == w.sent && r.1.zones == w.zones && r.1.records == w.records
    ensures r.0.Fail? ==> r.1 == w
  {
    if !m.payload.CreateDomainPayload? then (Fail(InvalidCreatePayload), w)
    else
      var p := m.payload;
      match LookupAccount(c.accounts, p.accountId, p.accountToken)
      case Err(e) => (Fail(e), w)
      case Ok(a) =>
        match NewDomainWithChallengeType(a, p.domainName, p.challengeType, domainId, env.publicSuffix)
        case Err(e) => (Fail(e), w)
        case Ok(d) => SaveIn(w, c, d)
  }

  /** `ValidateDomain` on values. */
  function ValidateDomainStep(m: B.Message, w: World, c: Conditions, env: Env, config: DomainsConfiguration): (r: (Outcome, World))
    ensures r.1.sent == w.sent && r.1.zones == w.zones && r.1.records == w.records
    ensures !m.payload.DomainPayload? ==> r == (Fail(InvalidValidatePayload), w)
  {
    if !m.payload.DomainPayload? then (Fail(InvalidValidatePayload), w)
    else
      match LookupDomain(w.domains, m.payload.accountId, m.payload.domainName)
      case Err(e) => (Fail(e), w)
      case Ok(d) =>
        var valid := ValidHeader(d.name, config.headerName, config.headerValue, env.http);
        var (saved, after) := SaveIn(w, c, d.(state := if valid then Verified else Invalid));
        if saved.Fail? then (saved, after)
        else if valid then (Pass, after)
        else (Fail(ValidationFailed + d.name), after)
  }

  /** `checkAuthzState` on values: the outcome, the domain and the state. */
  function CheckAuthzStep(d: DomainRecord, w: World, c: Conditions, env: Env, envelopeId: UUID): (r: (Outcome, DomainRecord, World))
    ensures r.2.zones == w.zones && r.2.records == w.records
    ensures w.sent <= r.2.sent && |r.2.sent| <= |w.sent| + 1
    ensures r.1 == d || r.1 == d.(state := Authorized)
  {
    match env.ca.getAuthorization(d.authorizationURL)
    case Err(e) => (Fail(e), d, w)
    case Ok(authz) =>
      var (next, topic) := PollStep(d, authz.status);
      var payload := B.DomainPayload(d.account.id, d.name);
      if Decided(authz.status) then
        var (saved, afterSave) := SaveIn(w, c, next);
        if saved.Fail? then (saved, next, afterSave)
        else
          var (published, after) := PublishIn(afterSave, c, env, topic, payload, envelopeId);
          (published, next, after)
      else
        var (published, after) := PublishIn(w, c, env, topic, payload, envelopeId);
        (published, next, after)
  }

  /** The second half of `startAuthProcess` on values, with the
      PrepareChallenge error returned. */
  function PrepareAcceptStep(d: DomainRecord, chal: Challenge, w: World, c: Conditions, env: Env, envelopeId: UUID)
    : (r: (Outcome, DomainRecord, World))
    ensures w.sent <= r.2.sent && |r.2.sent| <= |w.sent| + 1
    ensures r.0.Pass? ==> |r.2.sent| == |w.sent| + 1
    ensures w.zones <= r.2.zones && w.records.Keys <= r.2.records.Keys
  {
    var p := C.Preparation(d, chal, w.zones, w.records, c.failing, env.auth);
    var prepared := w.(zones := p.zones, records := p.records);
    if p.outcome.Fail? then (p.outcome, p.domain, prepared)
    else
      var (saved, afterSave) := SaveIn(prepared, c, p.domain);
      if saved.Fail? then (saved, p.domain, afterSave)
      else
        match C.AcceptChallenge(p.domain, chal, env.ca)
        case Err(e) => (Fail(e), p.domain, afterSave)
        case Ok(_) =>
          var (published, after) := PublishIn(afterSave, c, env, B.Authorization, B.DomainPayload(d.account.id, d.name), envelopeId);
          (published, p.domain, after)
  }

  /** `startAuthProcess` on values, with the PrepareChallenge error returned. */
  function StartAuthStep(d: DomainRecord, w: World, c: Conditions, env: Env, envelopeId: UUID): (r: (Outcome, DomainRecord, World))
    ensures w.sent <= r.2.sent && |r.2.sent| <= |w.sent| + 1
    ensures r.0.Pass? ==> |r.2.sent| == |w.sent| + 1
    ensures w.zones <= r.2.zones && w.records.Keys <= r.2.records.Keys
  {
    match env.ca.authorize(d.name)
    case Err(e) => (Fail(e), d, w)
    case Ok(authz) =>
      var withUrl := d.(authorizationURL := authz.uri);
      var (saved, afterSave) := SaveIn(w, c, withUrl);
      if saved.Fail? then (saved, withUrl, afterSave)
      else
        match FirstOfType(authz.challenges, d.challengeType)
        case None => (Fail(NoValidChallenge + d.name), withUrl, afterSave)
        case Some(chal) => PrepareAcceptStep(withUrl, chal, afterSave, c, env, envelopeId)
  }

  /** `AuthorizeDomain` on values. */
  function AuthorizeDomainStep(m: B.Message, w: World, c: Conditions, env: Env, config: DomainsConfiguration,
                               envelopeId: UUID): (r: (Outcome, World))
    ensures w.sent <= r.1.sent && |r.1.sent| <= |w.sent| + 1
    ensures w.zones <= r.1.zones && w.records.Keys <= r.1.records.Keys
  {
    if !m.payload.DomainPayload? then (Fail(InvalidAuthorizePayload), w)
    else
      match LookupDomain(w.domains, m.payload.accountId, m.payload.domainName)
      case Err(e) => (Fail(e), w)
      case Ok(d) =>
        match C.NewClientWithAPIKey(d.account, config.ns1APIKey, env.pem, env.x509)
        case Err(e) => (Fail(e), w)
        case Ok(_) =>
          if d.authorizationURL != [] then
            var (outcome, _, after) := CheckAuthzStep(d, w, c, env, envelopeId);
            (outcome, after)
          else
            var (outcome, _, after) := StartAuthStep(d, w, c, env, envelopeId);
            (outcome, after)
  }

  /** The handler a delivered message is routed to, on values. */
  function HandleStep(h: B.Handler, m: B.Message, w: World, c: Conditions, env: Env, config: DomainsConfiguration,
                      domainId: UUID, envelopeId: UUID): (r: (Outcome, World))
    ensures w.sent <= r.1.sent && |r.1.sent| <= |w.sent| + 1
    ensures w.zones <= r.1.zones && w.records.Keys <= r.1.records.Keys
    ensures h != B.AuthorizeDomain ==> r.1.sent == w.sent && r.1.zones == w.zones && r.1.records == w.records
  {
    match h
    case CreateDomain => CreateDomainStep(m, w, c, env, domainId)
    case ModifyDomain => (Pass, w)
    case ValidateDomain => ValidateDomainStep(m, w, c, env, config)
    case AuthorizeDomain => AuthorizeDomainStep(m, w, c, env, config, envelopeId)
    case RequestDomainCertificate => (Pass, w)
  }

  /** `CreateDomain` in full: a wrong payload, an unknown account or a
      failed name lookup changes nothing and is the error; otherwise the new
      domain is saved exactly when the write works, and is then found under
      its account and name. Nothing is published and NS1 is not touched. */
  lemma CreateDomainStepCases(m: B.Message, w: World, c: Conditions, env: Env, domainId: UUID)
    ensures var (r, after) := CreateDomainStep(m, w, c, env, domainId);
      && after.sent == w.sent && after.zones == w.zones && after.records == w.records
      && (!m.payload.CreateDomainPayload? ==> r == Fail(InvalidCreatePayload) && after == w)
      && (r.Fail? ==> after == w)
    ensures var (r, after) := CreateDomainStep(m, w, c, env, domainId);
      m.payload.CreateDomainPayload? ==>
        var p := m.payload;
        var acc := LookupAccount(c.accounts, p.accountId, p.accountToken);
        && (acc.Err? ==> r == Fail(acc.error))
        && (acc.Ok? ==>
              var nd := NewDomainWithChallengeType(acc.value, p.domainName, p.challengeType, domainId, env.publicSuffix);
              && (nd.Err? ==> r == Fail(nd.error))
              && (nd.Ok? ==> (r.Pass? <==> c.writeError.None?))
              && (nd.Ok? && r.Pass? ==>
                    && after.domains == w.domains[DomainKey(acc.value.id, nd.value.name) := nd.value]
                    && LookupDomain(after.domains, acc.value.id, nd.value.name) == Ok(nd.value)
                    && nd.value.state == Pending && nd.value.account == acc.value))
  {
  }

  /** `ValidateDomain` in full: the found domain is saved Verified when the
      ownership header matches and Invalid otherwise, and the outcome is an
      error exactly when the check (or the write) failed. */
  lemma ValidateDomainStepCases(m: B.Message, w: World, c: Conditions, env: Env, config: DomainsConfiguration)
    ensures var (r, after) := ValidateDomainStep(m, w, c, env, config);
      && after.sent == w.sent && after.zones == w.zones && after.records == w.records
      && (!m.payload.DomainPayload? ==> r == Fail(InvalidValidatePayload) && after == w)
    ensures var (r, after) := ValidateDomainStep(m, w, c, env, config);
      m.payload.DomainPayload? ==>
        var found := LookupDomain(w.domains, m.payload.accountId, m.payload.domainName);
        && (found.Err? ==> r == Fail(found.error) && after == w)
        && (found.Ok? ==>
              var d := found.value;
              var valid := ValidHeader(d.name, config.headerName, config.headerValue, env.http);
              && (c.writeError.Some? ==> r.Fail? && after == w)
              && (c.writeError.None? ==>
                    && after.domains == w.domains[DomainKey(d.account.id, d.name) := d.(state := if valid then Verified else Invalid)]
                    && (r.Pass? <==> valid)
                    && (!valid ==> r == Fail(ValidationFailed + d.name))))
  {
  }

  /** One poll in full: a CA error is returned and changes nothing; a decided
      status stores the domain Authorized (when the write works); an
      undecided one stores nothing; a success publishes the poll's topic for
      the same account and name. NS1 is not touched. */
  lemma CheckAuthzStepCases(d: DomainRecord, w: World, c: Conditions, env: Env, envelopeId: UUID)
    ensures var (r, next, after) := CheckAuthzStep(d, w, c, env, envelopeId);
      && after.zones == w.zones && after.records == w.records
      && (env.ca.getAuthorization(d.authorizationURL).Err? ==>
            r == Fail(env.ca.getAuthorization(d.authorizationURL).error) && next == d && after == w)
    ensures var (r, next, after) := CheckAuthzStep(d, w, c, env, envelopeId);
      env.ca.getAuthorization(d.authorizationURL).Ok? ==>
        var status := env.ca.getAuthorization(d.authorizationURL).value.status;
        var published := B.Publication(B.IsardTopic, B.Message(envelopeId, PollStep(d, status).1, B.DomainPayload(d.account.id, d.name)));
        && next == PollStep(d, status).0
        && (Decided(status) ==> next == d.(state := Authorized))
        && (Decided(status) && c.writeError.None? ==>
              LookupDomain(after.domains, d.account.id, d.name) == Ok(d.(state := Authorized)))
        && (!Decided(status) || c.writeError.Some? ==> after.domains == w.domains)
        && (r.Pass? ==> after.sent == w.sent + [published])
        && (r.Fail? ==> after.sent == w.sent)
  {
  }

  /** Whatever happens after a new authorisation is obtained, its URL is
      stored with the domain once the write works: a redelivered message
      polls instead of authorising again. An authorisation error is
      returned and changes nothing. */
  lemma StartAuthStoresUrl(d: DomainRecord, w: World, c: Conditions, env: Env, envelopeId: UUID)
    ensures env.ca.authorize(d.name).Err? ==>
      StartAuthStep(d, w, c, env, envelopeId) == (Fail(env.ca.authorize(d.name).error), d, w)
    ensures env.ca.authorize(d.name).Ok? && c.writeError.None? ==>
      var (_, _, after) := StartAuthStep(d, w, c, env, envelopeId);
      var stored := LookupDomain(after.domains, d.account.id, d.name);
      stored.Ok? && stored.value.authorizationURL == env.ca.authorize(d.name).value.uri
  {
  }

  /** A start that succeeds has prepared the first offered challenge of the
      domain's type, had it accepted by the CA, stored the prepared domain
      with the new URL, and published one "authorization" step for it. */
  lemma StartAuthPassAccepted(d: DomainRecord, w: World, c: Conditions, env: Env, envelopeId: UUID)
    requires StartAuthStep(d, w, c, env, envelopeId).0.Pass?
    ensures env.ca.authorize(d.name).Ok?
    ensures var authz := env.ca.authorize(d.name).value;
      var chal := FirstOfType(authz.challenges, d.challengeType);
      var (_, final, after) := StartAuthStep(d, w, c, env, envelopeId);
      && chal.Some? && chal.value.typ == d.challengeType
      && C.Preparation(d.(authorizationURL := authz.uri), chal.value, w.zones, w.records, c.failing, env.auth).outcome.Pass?
      && env.ca.accept(chal.value).Ok?
      && final.authorizationURL == authz.uri && final.name == d.name && final.account == d.account
      && LookupDomain(after.domains, d.account.id, d.name) == Ok(final)
      && after.sent == w.sent + [B.Publication(B.IsardTopic, B.Message(envelopeId, B.Authorization, B.DomainPayload(d.account.id, d.name)))]
  {
  }

  /** The corrected `startAuthProcess`: when the chosen challenge cannot be
      prepared, the preparation's error is what the handler returns (so the
      message is redelivered), nothing is published, and the domain keeps
      its stored authorisation URL. */
  lemma StartAuthReturnsPrepareError(d: DomainRecord, w: World, c: Conditions, env: Env, envelopeId: UUID)
    requires env.ca.authorize(d.name).Ok? && c.writeError.None?
    requires FirstOfType(env.ca.authorize(d.name).value.challenges, d.challengeType).Some?
    ensures var authz := env.ca.authorize(d.name).value;
      var chal := FirstOfType(authz.challenges, d.challengeType).value;
      var p := C.Preparation(d.(authorizationURL := authz.uri), chal, w.zones, w.records, c.failing, env.auth);
      var (r, _, after) := StartAuthStep(d, w, c, env, envelopeId);
      p.outcome.Fail? ==>
        && r == p.outcome
        && after.sent == w.sent
        && after.zones == p.zones && after.records == p.records
        && LookupDomain(after.domains, d.account.id, d.name) == Ok(d.(authorizationURL := authz.uri))
  {
  }

  /** A successful DNS-01 start leaves the TXT record the CA will look up at
      "_acme-challenge." + name in the domain's zone, and every record that
      was there before. */
  lemma StartAuthDnsRecord(d: DomainRecord, w: World, c: Conditions, env: Env, envelopeId: UUID)
    requires StartAuthStep(d, w, c, env, envelopeId).0.Pass?
    requires d.challengeType == Dns01 && CreateRecordCall !in c.failing
    ensures var (_, _, after) := StartAuthStep(d, w, c, env, envelopeId);
      && RecordKey(d.name, RecordName(d.name), TxtType) in after.records
      && forall k :: k in w.records ==> k in after.records && after.records[k] == w.records[k]
  {
    StartAuthPassAccepted(d, w, c, env, envelopeId);
    var authz := env.ca.authorize(d.name).value;
    var chal := FirstOfType(authz.challenges, d.challengeType).value;
    C.PreparationCases(d.(authorizationURL := authz.uri), chal, w.zones, w.records, c.failing, env.auth);
  }

  /** No offered challenge of the domain's type: nothing is prepared,
      accepted or published, and NS1 is untouched; once the new URL is
      written, the outcome is "unable to find a valid challenge". */
  lemma StartAuthNoMatchingChallenge(d: DomainRecord, w: World, c: Conditions, env: Env, envelopeId: UUID)
    requires env.ca.authorize(d.name).Ok?
    requires FirstOfType(env.ca.authorize(d.name).value.challenges, d.challengeType).None?
    ensures var (r, _, after) := StartAuthStep(d, w, c, env, envelopeId);
      && r.Fail?
      && after.sent == w.sent && after.zones == w.zones && after.records == w.records
      && (c.writeError.None? ==>
            && r == Fail(NoValidChallenge + d.name)
            && LookupDomain(after.domains, d.account.id, d.name)
               == Ok(d.(authorizationURL := env.ca.authorize(d.name).value.uri)))
  {
  }

  /** The prepared domain is saved before the challenge is accepted: when
      the CA refuses it, the prepared domain stays stored, the wrapped accept
      error is the outcome, and nothing is published. */
  lemma AcceptFailureStoresPrepared(d: DomainRecord, chal: Challenge, w: World, c: Conditions, env: Env, envelopeId: UUID)
    requires C.Preparation(d, chal, w.zones, w.records, c.failing, env.auth).outcome.Pass?
    requires c.writeError.None? && env.ca.accept(chal).Err?
    ensures var p := C.Preparation(d, chal, w.zones, w.records, c.failing, env.auth);
      var (r, stored, after) := PrepareAcceptStep(d, chal, w, c, env, envelopeId);
      && r == Fail(Wrap(C.AcceptError + d.name, env.ca.accept(chal).error))
      && stored == p.domain
      && after.sent == w.sent && after.zones == p.zones && after.records == p.records
      && LookupDomain(after.domains, d.account.id, d.name) == Ok(p.domain)
  {
  }

  /** "authorization" is published only after a successful start: whenever
      the log grew, the CA authorised the name, a challenge of the domain's
      type was offered, and the CA accepted the first one. */
  lemma StartAuthPublishesOnlyAccepted(d: DomainRecord, w: World, c: Conditions, env: Env, envelopeId: UUID)
    ensures var (r, _, after) := StartAuthStep(d, w, c, env, envelopeId);
      after.sent != w.sent ==>
        && r.Pass?
        && env.ca.authorize(d.name).Ok?
        && FirstOfType(env.ca.authorize(d.name).value.challenges, d.challengeType).Some?
        && env.ca.accept(FirstOfType(env.ca.authorize(d.name).value.challenges, d.challengeType).value).Ok?
  {
  }

  /** What the polling and start steps publish is routed back to a handler
      that accepts its payload, so a delivered step is never refused as an
      invalid payload. */
  lemma PublishedStepsAccepted(d: DomainRecord, w: World, c: Conditions, env: Env, envelopeId: UUID)
    ensures var (_, _, after) := CheckAuthzStep(d, w, c, env, envelopeId);
      |after.sent| > |w.sent| ==>
        var m := after.sent[|after.sent| - 1].message;
        B.Route(m.topic).Some? && AcceptedPayload(B.Route(m.topic).value, m.payload)
    ensures var (_, _, after) := StartAuthStep(d, w, c, env, envelopeId);
      |after.sent| > |w.sent| ==>
        var m := after.sent[|after.sent| - 1].message;
        B.Route(m.topic).Some? && AcceptedPayload(B.Route(m.topic).value, m.payload)
  {
  }

  /** A failed validation is not final: the error makes the receiver nack the
      message, and the redelivered validation reads the stored domain again
      whatever its state, so an Invalid domain whose header now matches is
      saved Verified. */
  lemma FailedValidationRedelivered(m: B.Message, w: World, c: Conditions, env: Env, config: DomainsConfiguration)
    requires m.topic == B.Validation && m.payload.DomainPayload?
    requires LookupDomain(w.domains, m.payload.accountId, m.payload.domainName).Ok?
    requires LookupDomain(w.domains, m.payload.accountId, m.payload.domainName).value.state == Invalid
    requires c.writeError.None?
    ensures var (r, after) := ValidateDomainStep(m, w, c, env, config);
      var d := LookupDomain(w.domains, m.payload.accountId, m.payload.domainName).value;
      && (r.Fail? ==> B.Settle(Ok(m), r) == B.Nacked)
      && (ValidHeader(d.name, config.headerName, config.headerValue, env.http) ==>
            r == Pass && after.domains[DomainKey(d.account.id, d.name)] == d.(state := Verified))
  {
  }

  /** `AuthorizeDomain` branches on the stored authorisation URL. Without
      one it authorises anew: an authorisation error is returned and nothing
      changes, and otherwise (when the write works) the new URL is stored.
      With one it polls: a CA error is returned and nothing changes, and a
      decided status (when the write works) stores the domain Authorized. */
  lemma AuthorizeDomainBranches(m: B.Message, w: World, c: Conditions, env: Env, config: DomainsConfiguration,
                                envelopeId: UUID, d: DomainRecord)
    requires m.payload.DomainPayload?
    requires LookupDomain(w.domains, m.payload.accountId, m.payload.domainName) == Ok(d)
    requires C.NewClientWithAPIKey(d.account, config.ns1APIKey, env.pem, env.x509).Ok?
    ensures var (r, after) := AuthorizeDomainStep(m, w, c, env, config, envelopeId);
      d.authorizationURL == [] ==>
        && (env.ca.authorize(d.name).Err? ==> r == Fail(env.ca.authorize(d.name).error) && after == w)
        && (env.ca.authorize(d.name).Ok? && c.writeError.None? ==>
              var stored := LookupDomain(after.domains, d.account.id, d.name);
              stored.Ok? && stored.value.authorizationURL == env.ca.authorize(d.name).value.uri)
    ensures var (r, after) := AuthorizeDomainStep(m, w, c, env, config, envelopeId);
      d.authorizationURL != [] ==>
        && after.zones == w.zones && after.records == w.records
        && (env.ca.getAuthorization(d.authorizationURL).Err? ==>
              r == Fail(env.ca.getAuthorization(d.authorizationURL).error) && after == w)
        && (env.ca.getAuthorization(d.authorizationURL).Ok? && c.writeError.None?
            && Decided(env.ca.getAuthorization(d.authorizationURL).value.status) ==>
              LookupDomain(after.domains, d.account.id, d.name) == Ok(d.(state := Authorized)))
  {
    if d.authorizationURL == [] {
      StartAuthStoresUrl(d, w, c, env, envelopeId);
    } else {
      CheckAuthzStepCases(d, w, c, env, envelopeId);
    }
  }

  /** A handler that checks its payload fails on any other payload, changing
      nothing. */
  lemma HandleRejectsUnaccepted(h: B.Handler, m: B.Message, w: World, c: Conditions, env: Env,
                                config: DomainsConfiguration, domainId: UUID, envelopeId: UUID)
    requires !AcceptedPayload(h, m.payload)
    ensures HandleStep(h, m, w, c, env, config, domainId, envelopeId).0.Fail?
    ensures HandleStep(h, m, w, c, env, config, domainId, envelopeId).1 == w
  {
  }

  class DomainProcessor {
    const db: Bolt
    const broker: B.PubSubBroker
    const ns1: Ns1
    const config: DomainsConfiguration

    constructor (db: Bolt, broker: B.PubSubBroker, ns1: Ns1, config: DomainsConfiguration)
      ensures this.db == db && this.broker == broker && this.ns1 == ns1 && this.config == config
    {
      this.db, this.broker, this.ns1, this.config := db, broker, ns1, config;
    }

    /** The state the handlers change, as it now stands. */
    function WorldNow(): World
      reads db, broker, ns1
    {
      World(db.domains, broker.sent, ns1.zones, ns1.records)
    }

    /** What the handlers read and never change, as it now stands. */
    function ConditionsNow(): Conditions
      reads db, broker, ns1
    {
      Conditions(db.accounts, db.writeError, broker.topics, broker.publishError, ns1.failing)
    }

    /** `CreateDomain`: the account must be found with its token; the new
        domain is then saved. */
    method CreateDomain(m: B.Message, env: Env, domainId: UUID) returns (r: Outcome)
      modifies db
      ensures ConditionsNow() == old(ConditionsNow())
      ensures (r, WorldNow()) == CreateDomainStep(m, old(WorldNow()), ConditionsNow(), env, domainId)
    {
      if !m.payload.CreateDomainPayload? {
        return Fail(InvalidCreatePayload);
      }
      var p := m.payload;
      var a := db.GetAccount(p.accountId, p.accountToken);
      if a.Err? {
        return Fail(a.error);
      }
      var nd := NewDomainWithChallengeType(a.value, p.domainName, p.challengeType, domainId, env.publicSuffix);
      if nd.Err? {
        return Fail(nd.error);
      }
      var d := new Domain.FromRecord(nd.value);
      r := db.SaveDomain(d);
    }

    /** `ValidateDomain`: Verified when the ownership header matches, Invalid
        otherwise; saved either way before returning. */
    method ValidateDomain(m: B.Message, env: Env) returns (r: Outcome)
      modifies db
      ensures ConditionsNow() == old(ConditionsNow())
      ensures (r, WorldNow()) == ValidateDomainStep(m, old(WorldNow()), ConditionsNow(), env, config)
    {
      if !m.payload.DomainPayload? {
        return Fail(InvalidValidatePayload);
      }
      var found := db.GetDomain(m.payload.accountId, m.payload.domainName);
      if found.Err? {
        return Fail(found.error);
      }
      var d := found.value;
      var next := Verified;
      var vErr: Outcome := Pass;
      var valid := ValidHeader(d.name, config.headerName, config.headerValue, env.http);
      if !valid {
        next := Invalid;
        vErr := Fail(ValidationFailed + d.name);
      }
      d.state := next;
      var saved := db.SaveDomain(d);
      if saved.Fail? {
        return saved;
      }
      return vErr;
    }

    /** `checkAuthzState`: one poll. Decided: the domain becomes Authorized,
        is saved, and "cert_request" is published; undecided: the state is
        left as it is and "authorization" is published again. */
    method CheckAuthzState(d: Domain, env: Env, envelopeId: UUID) returns (r: Outcome)
      modifies d, db, broker
      ensures ConditionsNow() == old(ConditionsNow())
      ensures (r, d.Record(), WorldNow()) == CheckAuthzStep(old(d.Record()), old(WorldNow()), ConditionsNow(), env, envelopeId)
    {
      var authz := C.GetAuthorization(d.Record(), env.ca);
      if authz.Err? {
        return Fail(authz.error);
      }
      var payload := B.DomainPayload(d.account.id, d.name);
      if Decided(authz.value.status) {
        d.state := Authorized;
        var saved := db.SaveDomain(d);
        if saved.Fail? {
          return saved;
        }
        r := broker.Publish(B.CertRequest, payload, envelopeId, env.marshalError);
        return;
      }
      r := broker.Publish(B.Authorization, payload, envelopeId, env.marshalError);
    }

    /** `startAuthProcess` with the PrepareChallenge error returned: a new
        authorisation is requested and its URL saved at once; the first
        challenge of the domain's type is prepared, the domain saved, the
        challenge accepted, and "authorization" published to start polling. */
    method StartAuthProcess(d: Domain, env: Env, envelopeId: UUID) returns (r: Outcome)
      modifies d, db, broker, ns1
      ensures ConditionsNow() == old(ConditionsNow())
      ensures (r, d.Record(), WorldNow()) == StartAuthStep(old(d.Record()), old(WorldNow()), ConditionsNow(), env, envelopeId)
    {
      var authz := C.AuthorizeDomain(d.Record(), env.ca);
      if authz.Err? {
        return Fail(authz.error);
      }
      d.authorizationURL := authz.value.uri;
      var saved := db.SaveDomain(d);
      if saved.Fail? {
        return saved;
      }
      var chal := SelectChallenge(authz.value.challenges, d.challengeType);
      if chal.None? {
        return Fail(NoValidChallenge + d.name);
      }
      r := PrepareAndAccept(d, chal.value, env, envelopeId);
    }

    /** The second half of `startAuthProcess`, with the PrepareChallenge error
        returned: prepare the challenge, save the domain, accept the
        challenge, publish "authorization". */
    method PrepareAndAccept(d: Domain, chal: Challenge, env: Env, envelopeId: UUID) returns (r: Outcome)
      modifies d, db, broker, ns1
      ensures ConditionsNow() == old(ConditionsNow())
      ensures (r, d.Record(), WorldNow()) == PrepareAcceptStep(old(d.Record()), chal, old(WorldNow()), ConditionsNow(), env, envelopeId)
    {
      var prepared := C.PrepareChallenge(d, chal, ns1, env.auth);
      if prepared.Err? {
        return Fail(prepared.error);
      }
      var saved := db.SaveDomain(d);
      if saved.Fail? {
        return saved;
      }
      var accepted := C.AcceptChallenge(d.Record(), chal, env.ca);
      if accepted.Err? {
        return Fail(accepted.error);
      }
      r := broker.Publish(B.Authorization, B.DomainPayload(d.account.id, d.name), envelopeId, env.marshalError);
    }

    /** `AuthorizeDomain`: after the lookup and the client, the poll path when
        the domain already has an authorisation URL, the start path when not. */
    method AuthorizeDomain(m: B.Message, env: Env, envelopeId: UUID) returns (r: Outcome)
      modifies db, broker, ns1
      ensures ConditionsNow() == old(ConditionsNow())
      ensures (r, WorldNow()) == AuthorizeDomainStep(m, old(WorldNow()), ConditionsNow(), env, config, envelopeId)
    {
      if !m.payload.DomainPayload? {
        return Fail(InvalidAuthorizePayload);
      }
      var found := db.GetDomain(m.payload.accountId, m.payload.domainName);
      if found.Err? {
        return Fail(found.error);
      }
      var d := found.value;
      var client := C.NewClientWithAPIKey(d.account, config.ns1APIKey, env.pem, env.x509);
      if client.Err? {
        return Fail(client.error);
      }
      if d.authorizationURL != [] {
        r := CheckAuthzState(d, env, envelopeId);
      } else {
        r := StartAuthProcess(d, env, envelopeId);
      }
    }

    /** `ModifyDomain`: not implemented; succeeds and changes nothing. */
    method ModifyDomain(m: B.Message) returns (r: Outcome)
      ensures r == Pass
    {
      return Pass;
    }

    /** `RequestDomainCertificate`: not implemented; succeeds and changes nothing. */
    method RequestDomainCertificate(m: B.Message) returns (r: Outcome)
      ensures r == Pass
    {
      return Pass;
    }

    /** The receive callback of `Subscribe`: undecodable data is acked and
        runs nothing; otherwise the topic picks at most one handler, whose
        outcome and effect are its step's, and the message is nacked exactly
        when that handler failed. */
    method Receive(decoded: Result<B.Message>, env: Env, domainId: UUID, envelopeId: UUID)
      returns (ack: B.Ack, ran: Option<B.Handler>, outcome: Outcome)
      modifies db, broker, ns1
      ensures ConditionsNow() == old(ConditionsNow())
      ensures ack == B.Settle(decoded, outcome)
      ensures decoded.Err? ==> ran == None
      ensures decoded.Ok? ==> ran == B.Route(decoded.value.topic)
      ensures ran.Some? ==>
        (outcome, WorldNow()) == HandleStep(ran.value, decoded.value, old(WorldNow()), ConditionsNow(), env, config, domainId, envelopeId)
      ensures ran.None? ==> ack == B.Acked && WorldNow() == old(WorldNow())
    {
      ran, outcome := None, Pass;
      if decoded.Err? {
        return B.Acked, ran, outcome;
      }
      var m := decoded.value;
      ran := B.Route(m.topic);
      if ran == Some(B.CreateDomain) {
        outcome := CreateDomain(m, env, domainId);
      } else if ran == Some(B.ModifyDomain) {
        outcome := ModifyDomain(m);
      } else if ran == Some(B.ValidateDomain) {
        outcome := ValidateDomain(m, env);
      } else if ran == Some(B.AuthorizeDomain) {
        outcome := AuthorizeDomain(m, env, envelopeId);
      } else if ran == Some(B.RequestDomainCertificate) {
        outcome := RequestDomainCertificate(m);
      }
      if ran.Some? && outcome.Fail? {
        return B.Nacked, ran, outcome;
      }
      return B.Acked, ran, outcome;
    }
  }

  /** As written, a requeued "authorization" step (or the API's "creation"
      request) arrives with a nested payload: the handler rejects it and the
      message is nacked, to be redelivered and rejected again. */
  method NestedRequeueNackedAsWritten(p: DomainProcessor, env: Env, topic: string, inner: B.Payload,
                                      jobId: UUID, envelopeId: UUID, domainId: UUID)
    returns (ack: B.Ack)
    requires topic == B.Creation || topic == B.Validation || topic == B.Authorization
    modifies p.db, p.broker, p.ns1
    ensures ack == B.Nacked
  {
    var m := B.Message(envelopeId, topic, NestedPayloadAsWritten(jobId, inner));
    var ran, outcome;
    ack, ran, outcome := p.Receive(Ok(m), env, domainId, envelopeId);
    HandleRejectsUnaccepted(ran.value, m, old(p.WorldNow()), p.ConditionsNow(), env, p.config, domainId, envelopeId);
  }
}
