/** certificates/challenges: the DNS-01 resolver (a TXT record at
    "_acme-challenge." + name, section 8.4 of RFC 8555) against the NS1 zone
    and record store, and the HTTP-01 resolver (section 8.3 of RFC 8555),
    which keeps the challenge path and response on the domain. The ACME key
    authorisation computations are parameters. */
module Challenges {
  import opened Wrappers
  import opened Domains

  /** `acme.Challenge`: its type, its URI and its token. */
  datatype Challenge = Challenge(typ: string, uri: string, token: string)

  /** `DNS01ChallengeRecord`, `HTTP01ChallengePath` and `HTTP01ChallengeResponse`
      of the ACME client, as functions of the challenge token. */
  datatype KeyAuth = KeyAuth(
    dns01Record: string -> Result<string>,
    http01Path: string -> string,
    http01Response: string -> Result<string>)

  const RecordPrefix := "_acme-challenge."
  const TxtType := "TXT"

  /** NS1's sentinel errors. */
  const ErrZoneMissing := "zone not found"
  const ErrRecordExists := "record already exists"
  const ErrRecordMissing := "record not found"

  const DnsRecordError := "error getting the DNS challenge record for "
  const HostedZoneError := "error getting the hosted zone for domain: "
  const CreateRecordError := "error creating DNS record for domain challenge: "
  const DeleteRecordError := "error removing DNS record for domain challenge: "
  const HttpResponseError := "error generating response for http-01 challenge: "

  /** `recordName`: where the DNS-01 TXT record lives. */
  function RecordName(domain: string): (r: string)
    ensures |r| == |RecordPrefix| + |domain|
    ensures r[..|RecordPrefix|] == RecordPrefix && r[|RecordPrefix|..] == domain
  {
    RecordPrefix + domain
  }

  /** Different domains have different record names. */
  lemma RecordNameInjective(a: string, b: string)
    requires RecordName(a) == RecordName(b)
    ensures a == b
  {
    assert RecordName(a)[|RecordPrefix|..] == RecordName(b)[|RecordPrefix|..];
  }

  /** An NS1 record: type, zone, owner name, and its answers' rdata. */
  datatype DnsRecord = DnsRecord(recordType: string, zone: string, domain: string, answers: seq<seq<string>>)

  /** Where a record is stored: NS1 addresses records by zone, owner name and type. */
  datatype RecordKey = RecordKey(zone: string, domain: string, recordType: string)

  function KeyOf(rec: DnsRecord): RecordKey
  {
    RecordKey(rec.zone, rec.domain, rec.recordType)
  }

  /** `newTxtRecord`: one TXT answer holding exactly the challenge value. */
  function NewTxtRecord(zone: string, domain: string, value: string): (r: DnsRecord)
    ensures r.recordType == TxtType && r.zone == zone && r.domain == RecordName(domain)
    ensures |r.answers| == 1 && r.answers[0] == [value]
  {
    DnsRecord(TxtType, zone, RecordName(domain), [[value]])
  }

  /** `Records.Create` on the store: a record whose key is taken is refused
      and the existing one stays. */
  function CreateRecord(records: map<RecordKey, DnsRecord>, rec: DnsRecord): (r: (map<RecordKey, DnsRecord>, Outcome))
    ensures KeyOf(rec) in records ==> r == (records, Fail(ErrRecordExists))
    ensures KeyOf(rec) !in records ==> r.1 == Pass && r.0 == records[KeyOf(rec) := rec]
  {
    if KeyOf(rec) in records then (records, Fail(ErrRecordExists))
    else (records[KeyOf(rec) := rec], Pass)
  }

  /** Creating the same record twice leaves the store as creating it once. */
  lemma CreateRecordIdempotent(records: map<RecordKey, DnsRecord>, rec: DnsRecord)
    ensures CreateRecord(CreateRecord(records, rec).0, rec).0 == CreateRecord(records, rec).0
    ensures CreateRecord(CreateRecord(records, rec).0, rec).1 == Fail(ErrRecordExists)
  {
  }

  /** The NS1 calls the resolver makes. */
  datatype Op = GetZone | CreateZone | CreateRecordCall | DeleteRecordCall

  /** `Zones.Get`: the zone, ErrZoneMissing, or the error the call fails with. */
  function ZoneLookup(zones: set<string>, failing: map<Op, string>, domain: string): Result<string>
  {
    if GetZone in failing then Err(failing[GetZone])
    else if domain in zones then Ok(domain)
    else Err(ErrZoneMissing)
  }

  /** What `getHostedZone` returns and the zone set it leaves. */
  function HostedZone(zones: set<string>, failing: map<Op, string>, domain: string): (r: (Result<string>, set<string>))
    ensures r.1 == zones || r.1 == zones + {domain}
    ensures r.0.Ok? ==> r.0.value == domain
  {
    match ZoneLookup(zones, failing, domain)
    case Ok(z) => (Ok(z), zones)
    case Err(e) =>
      if e != ErrZoneMissing then (Err(e), zones)
      else if CreateZone in failing then (Err(failing[CreateZone]), zones)
      else (ZoneLookup(zones + {domain}, failing, domain), zones + {domain})
  }

  /** An existing zone is returned without creating anything; a missing one
      is created under the domain's name; a lookup error other than
      ErrZoneMissing is returned and nothing is created. */
  lemma HostedZoneCases(zones: set<string>, failing: map<Op, string>, domain: string)
    ensures GetZone !in failing && domain in zones ==> HostedZone(zones, failing, domain) == (Ok(domain), zones)
    ensures GetZone !in failing && CreateZone !in failing && domain !in zones ==>
      HostedZone(zones, failing, domain) == (Ok(domain), zones + {domain})
    ensures GetZone in failing && failing[GetZone] != ErrZoneMissing ==>
      HostedZone(zones, failing, domain) == (Err(failing[GetZone]), zones)
  {
  }

  /** What `DNSResolver.Resolve` leaves behind, from the store's zones and
      records, the failing calls, the domain's name and the outcome of
      computing the TXT value: the resolver's outcome, then the zones and
      the records. */
  function DnsResolution(zones: set<string>, records: map<RecordKey, DnsRecord>, failing: map<Op, string>,
                         name: string, value: Result<string>): (r: (Outcome, set<string>, map<RecordKey, DnsRecord>))
    ensures zones <= r.1 && records.Keys <= r.2.Keys
    ensures r.0.Pass? ==> value.Ok?
    ensures value.Err? ==> r == (Fail(Wrap(DnsRecordError + name, value.error)), zones, records)
  {
    if value.Err? then (Fail(Wrap(DnsRecordError + name, value.error)), zones, records)
    else
      var (zone, zonesAfter) := HostedZone(zones, failing, name);
      if zone.Err? then (Fail(Wrap(HostedZoneError + name, zone.error)), zonesAfter, records)
      else if CreateRecordCall in failing then
        (if failing[CreateRecordCall] == ErrRecordExists then Pass
         else Fail(Wrap(CreateRecordError + name, failing[CreateRecordCall])), zonesAfter, records)
      else (Pass, zonesAfter, CreateRecord(records, NewTxtRecord(name, name, value.value)).0)
  }

  /** A resolution that succeeds with the record call working leaves the TXT
      record at the challenge name in the domain's zone, and what was there
      before is never lost: the record a successful DNS-01 preparation
      promises the CA is in the store. */
  lemma ResolutionHoldsRecord(zones: set<string>, records: map<RecordKey, DnsRecord>, failing: map<Op, string>,
                              name: string, value: Result<string>)
    requires DnsResolution(zones, records, failing, name, value).0.Pass?
    requires CreateRecordCall !in failing
    ensures value.Ok?
    ensures var recs := DnsResolution(zones, records, failing, name, value).2;
      && RecordKey(name, RecordName(name), TxtType) in recs
      && (RecordKey(name, RecordName(name), TxtType) !in records ==>
            recs[RecordKey(name, RecordName(name), TxtType)].answers == [[value.value]])
      && forall k :: k in records ==> k in recs && recs[k] == records[k]
  {
  }

  /** The NS1 zone and record store. `failing` maps each call that currently
      fails to the error it reports. */
  class Ns1 {
    var zones: set<string>
    var records: map<RecordKey, DnsRecord>
    var failing: map<Op, string>

    /** `getHostedZone`: looks the zone up under the domain's name; on
        ErrZoneMissing creates it and looks it up again. */
    method GetHostedZone(domain: string) returns (r: Result<string>)
      modifies this
      ensures records == old(records) && failing == old(failing)
      ensures (r, zones) == HostedZone(old(zones), failing, domain)
    {
      var zone := ZoneLookup(zones, failing, domain);
      if zone.Err? {
        if zone.error != ErrZoneMissing {
          return Err(zone.error);
        }
        if CreateZone in failing {
          return Err(failing[CreateZone]);
        }
        zones := zones + {domain};
        zone := ZoneLookup(zones, failing, domain);
        if zone.Err? {
          return Err(zone.error);
        }
      }
      return zone;
    }

    /** `DNSResolver.Resolve` (in the `Resolver` interface form, returning the
        domain unchanged): computes the TXT value, finds or creates the zone
        and creates the record, tolerating one that already exists. Nothing
        is touched when the value cannot be computed. */
    method Resolve(d: Domain, chal: Challenge, auth: KeyAuth) returns (r: Result<Domain>)
      modifies this
      ensures failing == old(failing)
      ensures var (outcome, zonesAfter, recordsAfter) :=
                DnsResolution(old(zones), old(records), failing, d.name, auth.dns01Record(chal.token));
        && zones == zonesAfter && records == recordsAfter
        && r == (if outcome.Pass? then Ok(d) else Err(outcome.error))
      ensures auth.dns01Record(chal.token).Err? ==>
        && r == Err(Wrap(DnsRecordError + d.name, auth.dns01Record(chal.token).error))
        && zones == old(zones) && records == old(records)
      ensures auth.dns01Record(chal.token).Ok? ==>
        var (zone, zonesAfter) := HostedZone(old(zones), failing, d.name);
        var record := NewTxtRecord(d.name, d.name, auth.dns01Record(chal.token).value);
        && zones == zonesAfter
        && (zone.Err? ==> r == Err(Wrap(HostedZoneError + d.name, zone.error)) && records == old(records))
        && (zone.Ok? && CreateRecordCall !in failing ==>
              r == Ok(d) && records == CreateRecord(old(records), record).0)
        && (zone.Ok? && CreateRecordCall in failing ==> (
              && records == old(records)
              && r == if failing[CreateRecordCall] == ErrRecordExists then Ok(d)
                      else Err(Wrap(CreateRecordError + d.name, failing[CreateRecordCall]))))
    {
      var value := auth.dns01Record(chal.token);
      if value.Err? {
        return Err(Wrap(DnsRecordError + d.name, value.error));
      }
      var zone := GetHostedZone(d.name);
      if zone.Err? {
        return Err(Wrap(HostedZoneError + d.name, zone.error));
      }
      var record := NewTxtRecord(zone.value, d.name, value.value);
      var created: Outcome;
      if CreateRecordCall in failing {
        created := Fail(failing[CreateRecordCall]);
      } else {
        var (after, outcome) := CreateRecord(records, record);
        records := after;
        created := outcome;
      }
      if created.Fail? && created.error != ErrRecordExists {
        return Err(Wrap(CreateRecordError + d.name, created.error));
      }
      return Ok(d);
    }

    /** `DNSResolver.Cleanup`: deletes the TXT record at the challenge name in
        the domain's zone, and nothing else. */
    method Cleanup(d: Domain) returns (r: Outcome)
      modifies this
      ensures failing == old(failing)
      ensures
        var (zone, zonesAfter) := HostedZone(old(zones), failing, d.name);
        var key := RecordKey(d.name, RecordName(d.name), TxtType);
        && zones == zonesAfter
        && (zone.Err? ==> r == Fail(zone.error) && records == old(records))
        && (zone.Ok? && DeleteRecordCall in failing ==>
              r == Fail(Wrap(DeleteRecordError + d.name, failing[DeleteRecordCall])) && records == old(records))
        && (zone.Ok? && DeleteRecordCall !in failing ==>
              records == old(records) - {key} && (r.Pass? <==> key in old(records)))
    {
      var zone := GetHostedZone(d.name);
      if zone.Err? {
        return Fail(zone.error);
      }
      var key := RecordKey(zone.value, RecordName(d.name), TxtType);
      if DeleteRecordCall in failing {
        return Fail(Wrap(DeleteRecordError + d.name, failing[DeleteRecordCall]));
      }
      if key !in records {
        return Fail(Wrap(DeleteRecordError + d.name, ErrRecordMissing));
      }
      records := records - {key};
      return Pass;
    }
  }

  /** Resolving twice leaves the store as resolving once, and the second
      call succeeds too: a redelivered message is harmless. */
  method ResolveTwice(ns1: Ns1, d: Domain, chal: Challenge, auth: KeyAuth) returns (first: Result<Domain>, second: Result<Domain>)
    requires ns1.failing == map[] && auth.dns01Record(chal.token).Ok?
    modifies ns1
    ensures first == Ok(d) && second == Ok(d)
    ensures ns1.records == CreateRecord(old(ns1.records), NewTxtRecord(d.name, d.name, auth.dns01Record(chal.token).value)).0
  {
    HostedZoneCases(ns1.zones, ns1.failing, d.name);
    first := ns1.Resolve(d, chal, auth);
    HostedZoneCases(ns1.zones, ns1.failing, d.name);
    second := ns1.Resolve(d, chal, auth);
    CreateRecordIdempotent(old(ns1.records), NewTxtRecord(d.name, d.name, auth.dns01Record(chal.token).value));
  }

  /** `HTTPResolver.Resolve`: the challenge path is written first; when the
      response cannot be computed the error names the domain and the path
      stays written; otherwise the response is written too and the same
      domain is returned. */
  method HttpResolve(d: Domain, chal: Challenge, auth: KeyAuth) returns (r: Result<Domain>)
    modifies d
    ensures d.http01ChallengePath == auth.http01Path(chal.token)
    ensures auth.http01Response(chal.token).Err? ==>
      && r == Err(Wrap(HttpResponseError + d.name, auth.http01Response(chal.token).error))
      && d.Record() == old(d.Record()).(http01ChallengePath := auth.http01Path(chal.token))
    ensures auth.http01Response(chal.token).Ok? ==>
      && r == Ok(d)
      && d.Record() == old(d.Record()).(http01ChallengePath := auth.http01Path(chal.token),
                                        http01ChallengeResponse := auth.http01Response(chal.token).value)
  {
    d.http01ChallengePath := auth.http01Path(chal.token);
    var res := auth.http01Response(chal.token);
    if res.Err? {
      return Err(Wrap(HttpResponseError + d.name, res.error));
    }
    d.http01ChallengeResponse := res.value;
    return Ok(d);
  }

  /** `HTTPResolver.Cleanup`: nothing to undo. */
  method HttpCleanup(d: Domain) returns (r: Outcome)
    ensures r == Pass
  {
    return Pass;
  }
}
