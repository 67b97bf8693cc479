# isard, modelled in Dafny

isard issues TLS certificates through ACME. A client creates an account over gRPC and then asks for a certificate for a domain. The request becomes a message on a Pub/Sub topic. A domain processor takes the domain through its lifecycle, one message at a time:
- create the domain record (common name and SAN names);
- check that the requester owns the host, via an HTTP response header;
- ask the CA for an authorisation;
- prepare the DNS-01 or HTTP-01 challenge (a TXT record at NS1, or a path and response on the domain);
- accept the challenge;
- poll the authorisation until the CA has decided.

Accounts and domains are kept in BoltDB. The certificate bundle is PEM-encoded.

The model has one module per source package:
- `Wrappers` (Option, Result, Outcome, and the `errors.Wrap` rendering "msg: cause") and `Uuid`;
- `Names`, `Domains`, `Validator`;
- `Pki`, `Accounts`, `Cryptopolis`, `Secrets`;
- `Storage`, `Challenges`, `Certificates`;
- `Broker`, `Processor`, `Api`.

Objects whose fields the code updates in place are classes: `Domain`, the BoltDB store `Bolt`, the NS1 store `Ns1`, `PubSubBroker`, `DomainProcessor` and `Api`. Their methods carry `modifies` clauses and state the whole new state.

Pure computations are functions: name extraction, key and PEM handling, lookups, routing and the acknowledgement decision. Properties that relate several calls are lemmas, for example:
- key round trips;
- injectivity of the storage key;
- idempotence of TXT record creation;
- convergence of the authorisation poll.

Everything outside the process is a parameter of the operation that uses it, and each is abstract:
- the ACME CA (`CaServer`);
- the HTTP client;
- the ACME key authorisation;
- PEM and x509 encoding;
- the public-suffix list;
- `json.Marshal` failures;
- `uuid.Parse`, and the outcomes of `uuid.New()` and of key generation;
- the clock.

Where the PEM and x509 codecs are needed to invert each other, the assumption is stated as a predicate (`Pki.DecodesWhatItEncodes`, `Pki.ParsesWhatItMarshals`) and required by the lemma that relies on it.

## Model

| member | source | states |
|---|---|---|
| Secrets.Encrypt | secrets/secrets.go:15 | The no-op backend hands back the data it receives |
| Secrets.Decrypt | secrets/secrets.go:18 | The no-op backend hands back the data it receives |
| Secrets.RoundTrip | secrets/secrets.go:15-18 | Decrypting what the no-op backend encrypted gives the data back |
| Secrets.EncryptIdempotent | secrets/secrets.go:15 | Encrypting twice is encrypting once (the backend is the identity) |
| Names.TrimLeft | domain/names.go:21 | The result is a suffix of the input, everything removed is in the cut set, and the result does not start with a cut-set character |
| Names.TrimPrefix | domain/names.go:21 | With the prefix present the input is prefix + result; otherwise the input is returned unchanged |
| Names.TrimLeftUnique | domain/names.go:21 | `TrimLeft` with a cut set is the unique suffix whose removed prefix lies wholly in the cut set and which does not itself start with a cut-set character |
| Names.ExtractNames | domain/names.go:20-39 | A public-suffix error is returned wrapped with "error looking up the correct domain name"; otherwise the SAN list has one or two names and starts with the CN |
| Names.ExtractNamesApex | domain/names.go:28-33 | When the name with its leading cut-set characters removed is the registrable domain, CN is that domain and SAN is [dn, "www." + dn] |
| Names.ExtractNamesOther | domain/names.go:35-38 | Otherwise CN is the name as given and SAN is exactly [name] |
| Names.ApexSansDistinct | domain/names.go:31 | The two SAN names of the apex case differ |
| Names.ExtractNamesWwwExample | domain/names_test.go:15 | "www.cabal.io" gives CN "cabal.io", SAN ["cabal.io", "www.cabal.io"] |
| Names.ExtractNamesPlainExamples | domain/names_test.go:16-17 | "cabal.io" gives the apex pair; "test.cabal.io" keeps only itself |
| Names.ExtractNamesMissesApexStartingWithW | domain/names.go:21 | As written, the registrable domain "wikipedia.org" trims to "ikipedia.org" and gets no "www." SAN |
| Names.ExtractNamesCorrected | domain/names.go:20-39 | Same error and shape guarantees as the code, with the literal "www." prefix removed instead of a cut set |
| Names.CorrectedApexIff | domain/names.go:28-38 | Corrected: the apex pair is produced if and only if the request is the registrable domain or "www." + it; otherwise SAN is [name] |
| Names.CorrectedKeepsApexStartingWithW | domain/names.go:21 | Corrected: "wikipedia.org" gets ["wikipedia.org", "www.wikipedia.org"] |
| Names.CorrectedExamples | domain/names_test.go:15-17 | The corrected extraction still meets the three table cases |
| Names.CorrectedAgreesElsewhere | domain/names.go:20-39 | The corrected and the as-written extraction give the same result for every name that does not start with 'w' or '.', on its own or after one "www." |
| Pki.ExtractSigner | account/signer.go:32-46 | An undecodable block is the decode error; an EC label yields the EC key or the parse error; an RSA label yields the PKCS#1 key or the parse error; any other label is "invalid key type"; never a key of another kind |
| Pki.EcBlockRoundTrip | account/signer.go:32-46 | Under codecs that invert each other, an EC key encoded under the EC label extracts to itself |
| Pki.RsaBlockRoundTrip | account/signer.go:32-46 | Likewise for an RSA key under the RSA label |
| Accounts.Contacts | account/account.go:26-32 | A list of the owners' length whose i-th entry is "mailto:" + the i-th owner |
| Accounts.ExtractPEMSigner | account/signer.go:32-46 | Signer extraction with the "ECDSA PRIVATE KEY"/"RSA PRIVATE KEY" labels: a decode failure is the decode error; an EC or RSA block gives the parser's key of that kind, or the parser's error; any other label is "invalid key type" with the label |
| Accounts.PrivateKeyOf | account/account.go:35-37 | The account's key is the signer extracted from its stored PEM, never an unsupported kind |
| Accounts.GeneratePEM | account/signer.go:13-30 | Fails exactly when generation or marshalling fails (generation errors wrapped); otherwise a PEM of the marshalled EC key |
| Accounts.GeneratedKeyRoundTrip | account/signer.go:13-46 | A generated key PEM extracts back to the same EC key |
| Accounts.NewAccountWithKey | account/account.go:46-70 | Staging directory, the given owners, id and token; an empty key is replaced by a generated one and a non-empty key is kept verbatim iff it extracts; failures are the generator's or extractor's error |
| Accounts.NewAccount | account/account.go:40-42 | Is `NewAccountWithKey` with an empty key |
| Accounts.NewAccountKeyUsable | account/account.go:35-70 | Every account created has a key `PrivateKey` accepts; a generated key reads back as itself |
| Cryptopolis.KeyBlock | cryptopolis/cryptopolis.go:74-103 | EC keys go under "EC PRIVATE KEY" (failing iff marshalling fails), RSA keys under "RSA PRIVATE TYPE", any other key is the invalid-type error |
| Cryptopolis.CertBlocks | cryptopolis/cryptopolis.go:65-71 | One "CERTIFICATE" block per DER certificate, in order |
| Cryptopolis.BundleBlocks | cryptopolis/cryptopolis.go:36-62 | The key block first, then one block per certificate; fails iff the key block does |
| Cryptopolis.EncodeBlocks | cryptopolis/cryptopolis.go:36-62 | Writing blocks succeeds iff every block encodes |
| Cryptopolis.EncodeBlocksSnoc | cryptopolis/cryptopolis.go:55-59 | Writing one more block appends its encoding, or fails with its error |
| Cryptopolis.EncodeCertificate | cryptopolis/cryptopolis.go:36-62 | The loop's buffer equals the encoding of the whole bundle: succeeds iff the key block and every block encode, with exactly that text; an unsupported key is the invalid-type error |
| Cryptopolis.ExtractPEMSigner | cryptopolis/cryptopolis.go:106-120 | Signer extraction with the "EC PRIVATE KEY"/"RSA PRIVATE TYPE" labels: a decode failure is the decode error; an EC or RSA block gives the parser's key of that kind, or the parser's error; any other label is "invalid key type" with the label |
| Cryptopolis.EncodedKeyRoundTrip | cryptopolis/cryptopolis.go:74-120 | A key encoded by this package extracts back to itself |
| Cryptopolis.GenerateECPrivateKeyPEM | cryptopolis/cryptopolis.go:123-135 | Generation errors are wrapped; otherwise the PEM of the EC key block, failing iff marshalling does |
| Cryptopolis.GeneratedECKeyRoundTrip | cryptopolis/cryptopolis.go:106-135 | A generated key PEM extracts back to the same key |
| Cryptopolis.AccountKeyRefusedHere | cryptopolis/cryptopolis.go:106-120 | An account key (labelled "ECDSA PRIVATE KEY" by the account package) is refused by this extractor |
| Domains.Ordinal | domain/domain.go:12-25 | Pending, Invalid, Provisioning, Authorized, Issued and Cancelled are 0 to 5 in declaration order, each iff; Verified is 6 |
| Domains.FromOrdinal | domain/domain.go:12-25 | Only 0..6 name a state |
| Domains.OrdinalRoundTrip | domain/domain.go:12-25 | Converting a state to its number and back gives the state |
| Domains.OrdinalInjective | domain/domain.go:12-25 | Different states have different numbers |
| Domains.Without | domain/domain_test.go:96-106 | The result holds exactly the list's names other than the removed one, and is no longer |
| Domains.WithoutAppend | domain/domain_test.go:96-106 | Removing a name from a concatenation removes it from each part |
| Domains.WithoutAbsent | domain/domain_test.go:96-106 | Removing an absent name changes nothing |
| Domains.WithoutNoDuplicates | domain/domain_test.go:96-106 | Removal keeps a duplicate-free list duplicate-free and drops the name |
| Domains.AddThenRemove | domain/domain_test.go:96-106 | Adding an absent name and removing it gives the list back |
| Domains.NewDomain | domain/domain.go:38-44 | Only account and name are set; every other field is zero (state Pending) |
| Domains.DefaultChallengeType | domain/domain_test.go:46-59 | An empty challenge type becomes "http-01", any other is kept |
| Domains.NewDomainWithChallengeType | domain/domain_test.go:31-79 | Fails iff name extraction fails; otherwise Pending, the given id and account, name = CN, SAN = extracted list (duplicate-free, containing the name), the defaulted challenge type |
| Domains.NewDomainAgreesWithProgram | domain/names.go:20-39 | For every name outside the names.go:21 defect, the domain gets exactly the CN and SAN list that the code's `ExtractNames` gives, and fails exactly when it fails |
| Domains.NewDomainDefault | domain/domain_test.go:16-29 | A domain created without a challenge type gets "http-01" |
| Domains.NewDomainExamples | domain/domain_test.go:16-79 | The five test cases: subdomain keeps its name and one SAN, explicit "dns-01" kept, apex and "www." + apex both give the apex with two SANs |
| Domains.Domain.FromRecord | storage/bolt.go:56-63 | The object holds exactly the decoded record |
| Domains.Domain.SANNames | certificates/certificates.go:81 | The names the CSR lists are the record's SAN list |
| Domains.Domain.AddSANName | domain/domain_test.go:81-94 | A present name is refused with the duplicate error and nothing changes; otherwise it is appended; no other field changes; the SAN invariant is kept |
| Domains.Domain.RemoveSANName | domain/domain_test.go:96-106 | A name present at creation or absent is left; otherwise it is removed; no other field changes; the invariant is kept |
| Domains.AddRemoveScenario | domain/domain_test.go:81-106 | The first add returns success, the second is refused with the duplicate error, and removal restores the original list |
| Validator.ReadHeader | domain/validator/headers.go:26-51 | Succeeds iff the request builds, the HEAD round trip succeeds, the status is 200..304 and the header is non-empty, and then returns that header; the Host is the given hostname |
| Validator.ValidHeader | domain/validator/headers.go:12-19 | True only when the header read from the host equals the expected value; any read error is false |
| Validator.ValidHeaderIff | domain/validator/headers.go:12-51 | Valid iff the round trip succeeds, the status is in 200..304 and the header equals the expected non-empty value |
| Validator.TransportErrorInvalid | domain/validator/headers.go:37-40 | A transport error means not valid |
| Validator.EmptyExpectedNeverValid | domain/validator/headers.go:46-49 | Expecting the empty value never validates (an absent header is an error) |
| Validator.StatusOutsideRangeInvalid | domain/validator/headers.go:42-44 | A status below 200 or above 304 means not valid |
| Storage.DomainKey | storage/bolt.go:53 | The key is the 36-character account ID, "@@", then the name |
| Storage.DomainKeyInjective | storage/bolt.go:90 | Different (account, name) pairs never share a key |
| Storage.LookupAccount | storage/bolt.go:26-44 | Found iff stored and the token matches; a missing key is the wrapped JSON error, a token mismatch "error retrieving account <id>" |
| Storage.LookupDomain | storage/bolt.go:47-64 | Found iff stored under the key; otherwise the wrapped JSON error naming the domain |
| Storage.Bolt.constructor | storage/bolt.go:98-132 | Both buckets exist and are empty |
| Storage.Bolt.GetAccount | storage/bolt.go:26-44 | Returns `LookupAccount` of the bucket, whose ID is the one asked for |
| Storage.Bolt.GetDomain | storage/bolt.go:47-64 | A new object holding `LookupDomain` of the bucket, or its error |
| Storage.Bolt.SaveAccount | storage/bolt.go:67-79 | Succeeds iff writes do; then the account is stored under its ID and nothing else changes; failure is wrapped and changes nothing |
| Storage.Bolt.SaveDomain | storage/bolt.go:82-95 | Likewise under (account ID, name), replacing what was there |
| Storage.SavedAccountFound | storage/storage_test.go:21-30 | A saved account is found with its own token |
| Storage.WrongTokenRefused | storage/storage_test.go:32-34 | Any other token is refused |
| Storage.SaveAccountLeavesOthers | storage/bolt.go:67-79 | Saving one account leaves every other lookup unchanged |
| Storage.SavedDomainFound | storage/storage_test.go:37-53 | A saved domain is found; an unsaved name of the same account is not |
| Storage.SaveDomainOverwrites | storage/bolt.go:82-95 | A second save of the same (account, name) replaces the first; other lookups are unchanged |
| Storage.BucketsIndependent | storage/bolt.go:67-95 | A domain save never changes account lookups and an account save never changes domain lookups |
| Challenges.RecordName | certificates/challenges/dns_resolver.go:100-102 | "_acme-challenge." followed by the domain |
| Challenges.RecordNameInjective | certificates/challenges/dns_resolver.go:100-102 | Different domains get different record names |
| Challenges.NewTxtRecord | certificates/challenges/dns_resolver.go:89-98 | A TXT record in the zone, at the challenge name, with one answer holding the value |
| Challenges.CreateRecord | certificates/challenges/dns_resolver.go:48-51 | An existing record is refused with "record already exists" and nothing changes; otherwise it is added |
| Challenges.CreateRecordIdempotent | certificates/challenges/dns_resolver.go:48-51 | Creating the same record twice leaves the store as creating it once, the second call reporting "exists" |
| Challenges.HostedZone | certificates/challenges/dns_resolver.go:67-87 | The zone set either stays or gains the domain; a zone found is the domain's |
| Challenges.HostedZoneCases | certificates/challenges/dns_resolver.go:67-87 | Existing zone: found, nothing created; missing zone: created then found; other lookup error: returned, nothing created |
| Challenges.ResolutionHoldsRecord | certificates/challenges/dns_resolver.go:36-54 | When a resolution succeeds and the record call works, the TXT record is at "_acme-challenge." + name in the domain's zone. A new record holds exactly the value. Every earlier record is kept |
| Challenges.DnsResolution | certificates/challenges/dns_resolver.go:36-54 | The DNS-01 resolution on values: a key-authorisation error is wrapped and changes nothing; zones and records are only ever added; a success had a value |
| Challenges.Ns1.GetHostedZone | certificates/challenges/dns_resolver.go:67-87 | The result and new zone set are `HostedZone` of the old ones; records untouched |
| Challenges.Ns1.Resolve | certificates/challenges/dns_resolver.go:36-54 | Errors computing the key authorisation change nothing. Zone errors are wrapped. The TXT record is created, and one that already exists is tolerated. Other record errors are wrapped. The new zones, the new records and the result are `DnsResolution`'s |
| Challenges.Ns1.Cleanup | certificates/challenges/dns_resolver.go:23-32 | Deletes exactly the domain's challenge record; zone and delete errors are reported |
| Challenges.ResolveTwice | certificates/challenges/dns_resolver.go:36-54 | Both calls succeed, and resolving twice leaves the store as resolving once |
| Challenges.HttpResolve | certificates/challenges/http_resolver.go:21-30 | The path is written first; a response error is wrapped with the name (path stays); otherwise the response is written and the same domain returned; nothing else changes |
| Challenges.HttpCleanup | certificates/challenges/http_resolver.go:15-17 | Nothing to undo; always succeeds |
| Certificates.NewClientWithAPIKey | certificates/certificates.go:124-140 | Fails iff the account key does not extract (that error); otherwise a client for the account, its directory and key, with the NS1 key |
| Certificates.NewClient | certificates/certificates.go:117-119 | A client with an empty NS1 key |
| Certificates.AuthorizeDomain | certificates/certificates.go:42-45 | The CA's authorisation for the domain's name. Its error is passed on unwrapped |
| Certificates.GetAuthorization | certificates/certificates.go:47-50 | The CA's authorisation behind the stored URL. Its error is passed on unwrapped |
| Certificates.AcceptChallenge | certificates/certificates.go:30-38 | The CA's accepted challenge, or its error wrapped with the domain name |
| Certificates.Register | certificates/certificates.go:104-113 | Registers with exactly the account's mailto contacts; the CA's answer is the result |
| Certificates.PrepareChallenge | certificates/certificates.go:53-69 | The domain object, the NS1 zones and records, and the result are `Preparation`'s. A resolver's error is returned as it is |
| Certificates.Preparation | certificates/certificates.go:53-69 | Only the two HTTP-01 fields of the domain can change |
| Certificates.PreparationCases | certificates/certificates.go:53-69 | An unsupported type is "unsupported ACME challenge" and changes nothing. "http-01" leaves NS1 alone and writes the path. It succeeds iff the response computes, and then writes the response; otherwise the error is wrapped with the name. "dns-01" leaves the domain alone. A key-authorisation error is wrapped and changes nothing. A success with a working record call leaves the TXT record in the store and keeps every earlier record |
| Certificates.CertificateRequestFor | certificates/certificates.go:79-82 | The CSR's common name is the domain name and its DNS names the SAN list |
| Certificates.FlattenLength | certificates/certificates.go:146-155 | The concatenated chain's length is the sum of the parts' lengths |
| Certificates.FlattenContains | certificates/certificates.go:151-155 | Each DER part sits in the concatenation at the offset of the lengths before it |
| Certificates.CheckLeaf | certificates/certificates.go:165-199 | The leaf is returned iff all three checks pass: the clock is in its validity window, the hostname verifies, and the public key matches the private key. Each failure has the code's text: before the window, after it, the wrapped hostname error, mismatched keys, or an unsupported key type |
| Certificates.ValidateCertificate | certificates/certificates.go:145-200 | The two loops build exactly the concatenation; a parse error or empty parse is "invalid public key"; otherwise the result is `CheckLeaf` of the first certificate |
| Certificates.FlattenTwo | certificates/certificates.go:146-155 | A two-part chain concatenates to a + b |
| Certificates.KeyMatchCases | certificates/certificates.go:177-197 | Mismatched key kinds and unsupported key types are refused; with the dates and hostname fine, the leaf is accepted iff the keys match |
| Certificates.RequestCertificate | certificates/certificates.go:73-101 | Key, signing and CA errors are each wrapped with "error requesting certificate for domain: " + name. Once the CA returns a chain, the result is its validation: a wrapped parse error, the empty-chain error, or `CheckLeaf` of the first certificate. A returned certificate matches the account key and is currently valid |
| Broker.NewMessageWithId | broker/message.go:17-22 | The message carries the job id and payload, no topic yet |
| Broker.Route | broker/pubsub_broker.go:82-93 | A topic routes to a handler iff it is one of the five lifecycle topics |
| Broker.RouteInverse | broker/pubsub_broker.go:82-93 | Each handler is reached from exactly its own topic |
| Broker.Settle | broker/pubsub_broker.go:76-99 | Nacked iff the data decoded, its topic routed, and the handler failed; acked otherwise |
| Broker.SettleNeverNacksUnrouted | broker/pubsub_broker.go:76-79 | Undecodable data and unknown topics are acked whatever a handler would say |
| Broker.PublishOutcome | broker/pubsub_broker.go:53-69 | Succeeds iff the message marshals, "isard-topic" exists and the service is reachable. A marshal error comes first, then NotFound |
| Broker.PubSubBroker.constructor | broker/pubsub_broker.go:106-121 | Only "isard-topic" exists and nothing has been sent |
| Broker.PubSubBroker.Send | broker/pubsub_broker.go:62-68 | Appended iff the topic exists and the service is reachable; a missing topic is NotFound |
| Broker.PubSubBroker.PublishAsWritten | broker/pubsub_broker.go:53-69 | A marshal error is returned; a success sent the stamped message to the topic of the same name; a missing topic sends nothing |
| Broker.PubSubBroker.Publish | broker/pubsub_broker.go:53-69 | Corrected: the result is `PublishOutcome`. A success sent the message, stamped with the stage topic, to "isard-topic". A failure sends nothing |
| Broker.Delivered | broker/pubsub_broker.go:72-104 | Nothing more is delivered than was sent |
| Broker.DeliveredIsFilter | broker/pubsub_broker.go:72-104 | A message is delivered iff it was sent to "isard-topic" |
| Broker.DeliveredSnoc | broker/pubsub_broker.go:72-104 | A publication is delivered iff it went to "isard-topic" |
| Broker.DeliveredAppend | broker/pubsub_broker.go:72-104 | Delivery keeps publication order: delivering a log that is a concatenation delivers each part, in order |
| Broker.StageTopicsNeverDeliveredAsWritten | broker/pubsub_broker.go:62 | As written, on the set-up service, publishing any lifecycle message sends nothing |
| Broker.PublishedIsDelivered | broker/pubsub_broker.go:53-104 | Corrected: publishing succeeds on a reachable service holding "isard-topic" (if the message marshals). A success delivers exactly the published message next, and it routes to its stage's handler. A failure delivers nothing |
| Processor.PollStep | broker/processor.go:139-148 | A decided status makes the domain Authorized and publishes "cert_request"; pending or processing leaves it and publishes "authorization" |
| Processor.PollRun | broker/processor.go:128-149 | Successive polls publish one topic per status, each "cert_request" or "authorization"; the domain ends unchanged or Authorized |
| Processor.PollConverges | broker/processor.go:128-149 | k undecided polls then a decided one publish k "authorization" requeues, then one "cert_request", and leave the domain Authorized with nothing else changed |
| Processor.NestedPayloadAsWritten | broker/pubsub_broker.go:54 | As written, the payload delivered is a message holding the caller's payload |
| Processor.NestedPayloadRejected | broker/processor.go:37-40 | A nested payload never passes a handler's payload type assertion |
| Processor.PublishedPayloadsAccepted | broker/processor.go:62-65 | Corrected: the creation payload and the domain payloads the pipeline publishes pass the assertion of the handler they route to |
| Processor.FirstOfType | broker/processor.go:162-172 | None iff no offered challenge has the domain's type. Otherwise, an offered challenge of that type with none of that type before it |
| Processor.SelectChallenge | broker/processor.go:162-172 | The loop returns `FirstOfType` of the offered challenges |
| Processor.SaveTargetAsWritten | broker/processor.go:174 | As written, what SaveDomain receives is nil exactly when PrepareChallenge failed |
| Processor.SaveStepOf | storage/bolt.go:90 | Saving dereferences the domain's account: nil is a nil dereference |
| Processor.UnsupportedChallengePanicsAsWritten | broker/processor.go:174-177 | As written, PrepareChallenge refuses a "tls-alpn-01" challenge with "unsupported ACME challenge: tls-alpn-01", and the save step taken from that result is the nil dereference |
| Processor.DomainProcessor.constructor | broker/processor.go:26-30 | The processor holds its store, broker, DNS provider and configuration |
| Processor.DomainProcessor.CreateDomain | broker/processor.go:62-79 | The outcome and the new domains bucket are `CreateDomainStep`'s. Accounts, write error, topics and NS1 are unchanged |
| Processor.DomainProcessor.ValidateDomain | broker/processor.go:98-126 | The outcome and the new domains bucket are `ValidateDomainStep`'s |
| Processor.DomainProcessor.CheckAuthzState | broker/processor.go:128-149 | The outcome, the domain object and the new store, log and NS1 state are `CheckAuthzStep`'s |
| Processor.DomainProcessor.StartAuthProcess | broker/processor.go:151-189 | Corrected: the outcome, the domain object and the new store, log and NS1 state are `StartAuthStep`'s, which returns the PrepareChallenge error |
| Processor.DomainProcessor.PrepareAndAccept | broker/processor.go:174-189 | Corrected: the outcome, the domain object and the new store, log and NS1 state are `PrepareAcceptStep`'s: prepare, save, accept, publish "authorization", stopping at the first error |
| Processor.DomainProcessor.AuthorizeDomain | broker/processor.go:36-56 | The outcome and the new store, log and NS1 state are `AuthorizeDomainStep`'s |
| Processor.DomainProcessor.ModifyDomain | broker/processor.go:85 | Not implemented: succeeds, changes nothing |
| Processor.DomainProcessor.RequestDomainCertificate | broker/processor.go:91 | Not implemented: succeeds, changes nothing |
| Processor.DomainProcessor.Receive | broker/pubsub_broker.go:74-100 | The handler is `Route` of the topic, or none for undecodable data. The outcome and new state are that handler's step (`HandleStep`). Unrouted data changes nothing and is acked. The ack is `Settle` of the outcome |
| Processor.CreateDomainStep | broker/processor.go:62-79 | Creation on values: only the domains bucket can change, and a failure changes nothing |
| Processor.ValidateDomainStep | broker/processor.go:98-126 | Validation on values: nothing is published and NS1 is untouched; a wrong payload is refused with "error verifying domain, invalid payload message" |
| Processor.CheckAuthzStep | broker/processor.go:128-149 | The poll on values: NS1 untouched, at most one message appended to the log, the domain unchanged or Authorized |
| Processor.PrepareAcceptStep | broker/processor.go:174-189 | Prepare and accept on values: at most one message appended, exactly one on success; NS1 zones and records are only ever added |
| Processor.StartAuthStep | broker/processor.go:151-189 | The start of authorisation on values: at most one message appended, exactly one on success; NS1 zones and records are only ever added |
| Processor.AuthorizeDomainStep | broker/processor.go:36-56 | `AuthorizeDomain` on values: at most one message appended; NS1 zones and records are only ever added |
| Processor.HandleStep | broker/pubsub_broker.go:81-93 | The routed handler on values: the log only grows, by at most one message; NS1 zones and records are only ever added; every handler other than authorization leaves the log and NS1 unchanged |
| Processor.CreateDomainStepCases | broker/processor.go:62-79 | Each failure (wrong payload, account lookup, domain creation, or write) returns its error and changes nothing. Otherwise the new Pending domain is stored and then found under its account and name. Nothing is published |
| Processor.ValidateDomainStepCases | broker/processor.go:98-126 | The found domain is saved as Verified when the header matches and as Invalid otherwise. The outcome is an error exactly when the check failed ("domain validation failed for domain: " + name) or the write did |
| Processor.CheckAuthzStepCases | broker/processor.go:128-149 | A CA error is returned and changes nothing. A decided status stores the domain as Authorized, found under its account and name. An undecided status stores nothing. A success published the poll's topic for this domain. NS1 is untouched |
| Processor.StartAuthStoresUrl | broker/processor.go:151-160 | An authorisation error is returned and changes nothing. Otherwise, once the write works, the stored domain carries the new authorisation URL whatever follows |
| Processor.StartAuthPassAccepted | broker/processor.go:151-189 | A success has all of the following: the first offered challenge of the domain's type was chosen and prepared, and the CA accepted it; the prepared domain with the new URL is stored; exactly one "authorization" step for this domain was published |
| Processor.StartAuthReturnsPrepareError | broker/processor.go:174-177 | Corrected: when preparing the chosen challenge fails, that error is the outcome, nothing is published, and the stored domain keeps its new URL |
| Processor.StartAuthDnsRecord | broker/processor.go:151-189 | A successful DNS-01 start leaves the TXT record at "_acme-challenge." + name in the domain's zone and keeps every earlier record |
| Processor.StartAuthNoMatchingChallenge | broker/processor.go:162-172 | With no offered challenge of the domain's type, nothing is prepared, accepted or published and NS1 is untouched; once the new URL is written, the outcome is "unable to find a valid challenge for domain: " + name |
| Processor.AcceptFailureStoresPrepared | broker/processor.go:175-181 | The domain is saved before the accept: when the CA refuses the challenge, the prepared domain stays stored, the wrapped accept error is the outcome, and nothing is published |
| Processor.StartAuthPublishesOnlyAccepted | broker/processor.go:179-188 | "authorization" is published only after a successful start: a grown log means the CA authorised the name, offered a challenge of the domain's type and accepted the first one |
| Processor.PublishedStepsAccepted | broker/processor.go:128-189 | The message the poll or the start publishes routes to a handler whose payload assertion accepts it |
| Processor.FailedValidationRedelivered | broker/processor.go:104-125 | A failed validation is nacked, and a redelivered validation of a stored Invalid domain whose header now matches saves it Verified and succeeds |
| Processor.AuthorizeDomainBranches | broker/processor.go:36-56 | Without an authorisation URL: an authorise error changes nothing; otherwise the new URL is stored. With one: NS1 is untouched; a CA error changes nothing; a decided status stores the domain as Authorized |
| Processor.HandleRejectsUnaccepted | broker/processor.go:37-40 | A handler given a payload of a type it does not accept fails and changes nothing |
| Processor.NestedRequeueNackedAsWritten | broker/processor.go:183-188 | As written, a requeued step or creation request is nacked on every delivery |
| Api.RequestedAccount | rpc/api/api.go:32-44 | Owners [owner], the drawn id and token, the supplied key when given, the production directory for production requests and staging otherwise; fails iff account creation does |
| Api.Api.constructor | rpc/api/api.go:19-23 | The API holds its configuration, store and broker |
| Api.Api.CreateAccount | rpc/api/api.go:26-54 | Creation errors change nothing; otherwise success iff the save does, answering with the id and token, which then find the stored account |
| Api.Api.CreateCertificate | rpc/api/api.go:63-86 | Unparsable id or token is refused with the wrapped error and nothing published. Once both parse, the result is `PublishOutcome` of the "creation" request, so a publish error is returned unchanged. A success published exactly one "creation" request with the parsed credentials, the domain and the challenge type |
| Api.Api.GetCertificate | rpc/api/api.go:99-128 | Parse, account and domain errors in order; a domain not Issued is "the certificate has not been issued yet"; otherwise its certificate, key and chain |
| Api.Api.NotImplemented | rpc/api/api.go:57-96 | UpdateAccount, ResolveCertificateChallenge and CheckCertificateState answer nothing |

## Left out

- JSON encoding and decoding are taken to give back what they encoded, with typed payloads. In Go, decoding into the message's `interface{}` payload yields a map, which no handler's type assertion accepts. The model keeps the typed payload so that the handlers' logic can be stated at all.
- The `%v` rendering of a rejected payload is left out of the invalid-payload error texts.
- Timestamps (`CreatedAt`, `UpdatedAt`) are not modelled.
- The Pub/Sub receive goroutine, contexts, concurrency and the 20-second ack deadline are not modelled. Redelivery is the `Nacked` decision.
- The channel broker and the Datastore backend are not part of this model (not core).
- The Go interfaces (`Broker`, `Bucket`, `Resolver`, `Processor`) are not modelled. Each is modelled by its one core implementation.
- broker/broker.go does not declare the topic constants that broker/pubsub_broker.go and rpc/api/api.go use. The model chooses the values "creation", "modification", "validation", "authorization" and "cert_request", and relies only on their being distinct and different from "isard-topic".
- The `Verified` state is not declared in domain/domain.go (which stops at `Cancelled`), although broker/processor.go assigns it. It is modelled as the seventh state.
- domain/domain.go declares only ID, Name, AuthorizationURL, State and Account. The other record fields come from the revision the tests and callers use:
  - `NewDomainWithChallengeType`, `SANNames`, `AddSANName` and `RemoveSANName`;
  - the challenge-type and HTTP-01 fields;
  - the certificate and protected names.
- No source file states the text of `ErrDuplicatedSANName` (domain_test.go:93 compares only with `ErrDuplicatedSANName.Error()`). The model chooses "duplicated SAN name".
- The NS1 client (the `dns` package) is reduced to a zone set and a record map, with `failing` naming the calls that fail. Its error texts ("zone not found", "record already exists", "record not found") stand for the library's sentinel errors.
- Header canonicalisation in `resp.Header.Get` is not modelled. Headers are looked up by exact name.
- The CA's JWS signing, nonces, the directory fetch and `AcceptTOS` are not modelled. The CA is an abstract `CaServer`.
- The `x509.ParseCertificates` parse, the `VerifyHostname` check and key comparison by modulus or point are abstract. They are parameters, or equality of the public key's value.
- main.go (wiring, flags, gRPC server), domain/dns.go (DNS lookups in tests), decoding/decoding.go and configuration loading are not part of this model.
- Processor.DomainProcessor.StartAuthProcess returns PrepareChallenge's error rather than modelling the nil dereference as written. The as-written behaviour is `Processor.UnsupportedChallengePanicsAsWritten`.
- Broker.PubSubBroker.Publish sends to "isard-topic" rather than the stage topic. The as-written behaviour is `Broker.PubSubBroker.PublishAsWritten`.
- Processor.DomainProcessor.CheckAuthzState, Processor.DomainProcessor.StartAuthProcess and Api.Api.CreateCertificate publish the payload itself, not a message wrapped in another. The as-written form is `Processor.NestedPayloadAsWritten`.
- Processor.ValidateDomainStep follows broker/processor.go:104-125, where a failed validation is not final. The model therefore does not promise that a failed validation ends the domain's processing or that an Invalid domain stays Invalid until it is created again. The handler returns the validation error, broker/pubsub_broker.go:95-97 nacks it, and the redelivered message validates again without looking at the stored state. An Invalid domain whose header now matches becomes Verified (`Processor.FailedValidationRedelivered`).
- Api.Api.GetCertificate answers the fixed "the certificate has not been issued yet" for every state other than Issued, Invalid included, as rpc/api/api.go:119-121 does. No validation error text is stored on the domain, so none is returned.
- Certificates.ValidateCertificate takes the clock as an integer `now` and compares it with the validity dates. Time zones and monotonic clocks are not modelled.
- Domains.NewDomainWithChallengeType is built on the corrected name extraction, because the names.go:21 defect is logged under Findings and the rest of the model uses the corrected behaviour. For a registrable domain starting with 'w' or '.' (such as "wikipedia.org"), it therefore adds the "www." SAN that the code omits. For every other name, `Domains.NewDomainAgreesWithProgram` proves that it gives exactly the code's CN and SAN list; the code's own behaviour is `Names.ExtractNames`.

## Findings

| source | as written | input that shows it | evidently intended | confidence | as-written member | corrected member |
|---|---|---|---|---|---|---|
| domain/names.go:21 | `strings.TrimLeft(name, "www.")` strips any leading run of the characters 'w' and '.', not the prefix "www." | "wikipedia.org", whose registrable domain is itself: it trims to "ikipedia.org", so the apex is not recognised and no "www.wikipedia.org" SAN is added | remove the literal prefix "www." | high, not executed | Names.ExtractNamesMissesApexStartingWithW | Names.CorrectedKeepsApexStartingWithW |
| broker/processor.go:174-177 | `d, err = c.PrepareChallenge(d, chal)` is followed by `if err := p.db.SaveDomain(d)`, which declares a new `err`; the PrepareChallenge error is never checked and `d` is nil when it failed | a domain whose challenge type is "tls-alpn-01" and the CA offers that challenge: PrepareChallenge refuses it, and SaveDomain dereferences `d.Account` (storage/bolt.go:90) on nil | return the PrepareChallenge error | high, not executed | Processor.UnsupportedChallengePanicsAsWritten | Processor.StartAuthReturnsPrepareError |
| broker/pubsub_broker.go:62 | `Publish` sends to a Pub/Sub topic named after the stage, but `setupPubSub` (broker/pubsub_broker.go:106-121) creates and subscribes only "isard-topic" | any `Publish(Creation, …)` on a freshly set-up service: the topic does not exist, the publish fails with NotFound and nothing is delivered | send every message to "isard-topic" with the stage in its Topic field, which the receiver switches on | medium, not executed | Broker.StageTopicsNeverDeliveredAsWritten | Broker.PublishedIsDelivered |
| broker/pubsub_broker.go:54 | `Publish` wraps its payload in a new message, and its callers (broker/processor.go:134-148, broker/processor.go:183-188, rpc/api/api.go:80-81) pass a message they already built | any CreateCertificate request: the delivered "creation" message's payload is a message, not a `*CreateDomainPayload`, so CreateDomain refuses it and the message is nacked on every redelivery | callers pass the payload itself | high, not executed | Processor.NestedRequeueNackedAsWritten | Processor.PublishedPayloadsAccepted |
