/** domain/domain.go: the lifecycle states, the domain record and its SAN list.
    The record fields beyond ID, Name, AuthorizationURL, State and Account
    (challenge type, HTTP-01 artefacts, certificate, SAN names) are the ones
    the processor, the resolvers, the API and domain/domain_test.go use. */
module Domains {
  import opened Wrappers
  import opened Uuid
  import opened Names
  import opened Accounts
  import opened Cryptopolis

  /** `State`, declared with iota from Pending = 0 to Cancelled = 5; Verified
      is the extra state broker/processor.go assigns after a passed ownership
      check, numbered after the declared ones. */
  datatype State = Pending | Invalid | Provisioning | Authorized | Issued | Cancelled | Verified

  /** The integer value of a state. */
  function Ordinal(s: State): (n: nat)
    ensures n <= 6
    ensures s == Pending <==> n == 0
    ensures s == Invalid <==> n == 1
    ensures s == Provisioning <==> n == 2
    ensures s == Authorized <==> n == 3
    ensures s == Issued <==> n == 4
    ensures s == Cancelled <==> n == 5
    ensures s == Verified <==> n == 6
  {
    match s
    case Pending => 0
    case Invalid => 1
    case Provisioning => 2
    case Authorized => 3
    case Issued => 4
    case Cancelled => 5
    case Verified => 6
  }

  /** The state with a given integer value, if there is one. */
  function FromOrdinal(n: nat): (r: Option<State>)
    ensures r.None? <==> n > 6
  {
    if n == 0 then Some(Pending)
    else if n == 1 then Some(Invalid)
    else if n == 2 then Some(Provisioning)
    else if n == 3 then Some(Authorized)
    else if n == 4 then Some(Issued)
    else if n == 5 then Some(Cancelled)
    else if n == 6 then Some(Verified)
    else None
  }

  /** The values are distinct and follow declaration order: every state is
      recovered from its value, and every value up to 6 names a state. */
  lemma OrdinalRoundTrip(s: State, n: nat)
    ensures FromOrdinal(Ordinal(s)) == Some(s)
    ensures n <= 6 ==> Ordinal(FromOrdinal(n).value) == n
  {
  }

  /** Distinct states have distinct values. */
  lemma OrdinalInjective(s: State, t: State)
    requires Ordinal(s) == Ordinal(t)
    ensures s == t
  {
    OrdinalRoundTrip(s, 0);
    OrdinalRoundTrip(t, 0);
  }

  const Http01 := "http-01"
  const Dns01 := "dns-01"

  const ErrDuplicatedSANName := "duplicated SAN name"

  /** The zero uuid.UUID, printed. */
  const NilId: UUID := "00000000-0000-0000-0000-000000000000"

  const EmptyCertificate := Certificate([], [], [])

  /** A stored domain: what storage keeps and hands back. `protectedNames` are
      the SAN names present at creation. */
  datatype DomainRecord = DomainRecord(
    id: UUID,
    name: string,
    authorizationURL: string,
    state: State,
    account: Account,
    challengeType: string,
    http01ChallengePath: string,
    http01ChallengeResponse: string,
    certificate: Certificate,
    sanNames: seq<string>,
    protectedNames: set<string>)

  predicate NoDuplicates(s: seq<string>)
  {
    forall i, j :: 0 <= i < j < |s| ==> s[i] != s[j]
  }

  /** The SAN invariant: no name twice, and every name present at creation
      still present. */
  predicate ValidSans(sans: seq<string>, protectedNames: set<string>)
  {
    NoDuplicates(sans) && forall p :: p in protectedNames ==> p in sans
  }

  /** The SAN list with every copy of `n` removed, order kept. */
  function Without(s: seq<string>, n: string): (r: seq<string>)
    ensures forall x :: x in r <==> x in s && x != n
    ensures |r| <= |s|
  {
    if s == [] then []
    else (if s[0] == n then [] else [s[0]]) + Without(s[1..], n)
  }

  /** Removing distributes over concatenation. */
  lemma {:induction false} WithoutAppend(a: seq<string>, b: seq<string>, n: string)
    ensures Without(a + b, n) == Without(a, n) + Without(b, n)
  {
    if a == [] {
      assert a + b == b;
    } else {
      assert (a + b)[0] == a[0];
      assert (a + b)[1..] == a[1..] + b;
      WithoutAppend(a[1..], b, n);
    }
  }

  /** A name that is absent is not removed from anything. */
  lemma {:induction false} WithoutAbsent(s: seq<string>, n: string)
    requires n !in s
    ensures Without(s, n) == s
  {
    if s != [] {
      assert n !in s[1..];
      WithoutAbsent(s[1..], n);
    }
  }

  /** Removing keeps a list free of duplicates. */
  lemma {:induction false} WithoutNoDuplicates(s: seq<string>, n: string)
    requires NoDuplicates(s)
    ensures NoDuplicates(Without(s, n))
  {
    if s != [] {
      assert NoDuplicates(s[1..]) by {
        forall i, j | 0 <= i < j < |s[1..]| ensures s[1..][i] != s[1..][j] {
          assert s[1..][i] == s[i + 1] && s[1..][j] == s[j + 1];
        }
      }
      WithoutNoDuplicates(s[1..], n);
      var rest := Without(s[1..], n);
      assert s[0] !in s[1..];
      assert s[0] !in rest;
      var r := (if s[0] == n then [] else [s[0]]) + rest;
      forall i, j | 0 <= i < j < |r| ensures r[i] != r[j] {
        if s[0] != n && i == 0 {
          assert r[j] == rest[j - 1];
        } else if s[0] != n {
          assert r[i] == rest[i - 1] && r[j] == rest[j - 1];
        } else {
          assert r[i] == rest[i] && r[j] == rest[j];
        }
      }
    }
  }

  /** Adding a name that was absent, then removing it, gives the list back
      (domain_test.go: add "beta.cabal.io", remove it, one name left). */
  lemma AddThenRemove(s: seq<string>, n: string)
    requires n !in s
    ensures Without(s + [n], n) == s
  {
    WithoutAppend(s, [n], n);
    WithoutAbsent(s, n);
    assert Without([n], n) == [] + Without([], n);
  }

  /** `NewDomain` of domain/domain.go: only the account and the name are set;
      every other field keeps its zero value. */
  function NewDomain(account: Account, name: string): (r: DomainRecord)
    ensures r.account == account && r.name == name
    ensures r.authorizationURL == [] && Ordinal(r.state) == 0
    ensures r.id == NilId && r.sanNames == [] && r.challengeType == []
  {
    DomainRecord(NilId, name, [], Pending, account, [], [], [], EmptyCertificate, [], {})
  }

  /** The challenge type a new domain gets: "http-01" unless one is given. */
  function DefaultChallengeType(challengeType: string): (r: string)
    ensures challengeType != [] ==> r == challengeType
    ensures challengeType == [] ==> r == Http01
  {
    if challengeType == [] then Http01 else challengeType
  }

  /** `NewDomainWithChallengeType` (the revision domain_test.go exercises): a
      Pending domain with a fresh id (`id`, the outcome of uuid.New()), whose
      name is the CN and whose SAN list is the SAN computed from the requested
      name. A failed public-suffix lookup is returned as the error. */
  function NewDomainWithChallengeType(account: Account, name: string, challengeType: string, id: UUID,
                                      publicSuffix: string -> Result<string>): (r: Result<DomainRecord>)
    ensures r.Err? <==> ExtractNamesCorrected(name, publicSuffix).Err?
    ensures r.Err? ==> r.error == ExtractNamesCorrected(name, publicSuffix).error
    ensures r.Ok? ==>
      var n := ExtractNamesCorrected(name, publicSuffix).value;
      && r.value.name == n.cn && r.value.sanNames == n.san
      && r.value.id == id && r.value.account == account
      && r.value.state == Pending && r.value.authorizationURL == []
      && r.value.challengeType == DefaultChallengeType(challengeType)
      && ValidSans(r.value.sanNames, r.value.protectedNames)
      && r.value.name in r.value.sanNames
  {
    match ExtractNamesCorrected(name, publicSuffix)
    case Err(e) => Err(e)
    case Ok(n) =>
      ApexSansDistinct(n.cn);
      Ok(DomainRecord(id, n.cn, [], Pending, account, DefaultChallengeType(challengeType),
                      [], [], EmptyCertificate, n.san, set x | x in n.san))
  }

  /** Outside the names.go:21 defect, the domain gets exactly the names the
      program's own extraction gives: for a name that does not start with 'w'
      or '.', alone or behind one "www.". */
  lemma NewDomainAgreesWithProgram(account: Account, name: string, challengeType: string, id: UUID,
                                   publicSuffix: string -> Result<string>, rest: string)
    requires name == rest || name == WwwPrefix + rest
    requires rest == [] || rest[0] !in WwwCutset
    ensures var r := NewDomainWithChallengeType(account, name, challengeType, id, publicSuffix);
      && (r.Ok? <==> ExtractNames(name, publicSuffix).Ok?)
      && (r.Ok? ==> r.value.name == ExtractNames(name, publicSuffix).value.cn
                    && r.value.sanNames == ExtractNames(name, publicSuffix).value.san)
  {
    CorrectedAgreesElsewhere(name, publicSuffix, rest);
  }

  /** `NewDomain` of the same revision: no challenge type given. */
  function NewDomainDefault(account: Account, name: string, id: UUID,
                            publicSuffix: string -> Result<string>): (r: Result<DomainRecord>)
    ensures r == NewDomainWithChallengeType(account, name, [], id, publicSuffix)
    ensures r.Ok? ==> r.value.challengeType == Http01
  {
    NewDomainWithChallengeType(account, name, [], id, publicSuffix)
  }

  /** domain_test.go:16-79: a subdomain keeps its name, gets one SAN and the
      default challenge; the apex and "www." + apex both become the apex with
      two SAN names; an explicit "dns-01" is kept. */
  lemma NewDomainExamples(account: Account, id: UUID, publicSuffix: string -> Result<string>)
    requires publicSuffix("www.cabal.io") == Ok("cabal.io")
    requires publicSuffix("cabal.io") == Ok("cabal.io")
    requires publicSuffix("test.cabal.io") == Ok("cabal.io")
    ensures NewDomainDefault(account, "test.cabal.io", id, publicSuffix).Ok?
    ensures NewDomainDefault(account, "test.cabal.io", id, publicSuffix).value.sanNames == ["test.cabal.io"]
    ensures NewDomainDefault(account, "test.cabal.io", id, publicSuffix).value.name == "test.cabal.io"
    ensures NewDomainWithChallengeType(account, "test.cabal.io", Dns01, id, publicSuffix).Ok?
    ensures NewDomainWithChallengeType(account, "test.cabal.io", Dns01, id, publicSuffix).value.challengeType == Dns01
    ensures NewDomainDefault(account, "cabal.io", id, publicSuffix).Ok?
    ensures NewDomainDefault(account, "cabal.io", id, publicSuffix).value.name == "cabal.io"
    ensures NewDomainDefault(account, "cabal.io", id, publicSuffix).value.sanNames == ["cabal.io", "www.cabal.io"]
    ensures NewDomainDefault(account, "www.cabal.io", id, publicSuffix).Ok?
    ensures NewDomainDefault(account, "www.cabal.io", id, publicSuffix).value.name == "cabal.io"
    ensures NewDomainDefault(account, "www.cabal.io", id, publicSuffix).value.sanNames == ["cabal.io", "www.cabal.io"]
  {
    CorrectedExamples(publicSuffix);
  }

  /** A domain object: the processor, the resolvers and the SAN operations
      change its fields in place. */
  class Domain {
    var id: UUID
    var name: string
    var authorizationURL: string
    var state: State
    var account: Account
    var challengeType: string
    var http01ChallengePath: string
    var http01ChallengeResponse: string
    var certificate: Certificate
    var sanNames: seq<string>
    var protectedNames: set<string>

    /** The value the object currently holds. */
    function Record(): DomainRecord
      reads this
    {
      DomainRecord(id, name, authorizationURL, state, account, challengeType,
                   http01ChallengePath, http01ChallengeResponse, certificate, sanNames, protectedNames)
    }

    predicate Valid()
      reads this
    {
      ValidSans(sanNames, protectedNames)
    }

    /** A domain object holding a record (what decoding a stored record gives). */
    constructor FromRecord(r: DomainRecord)
      ensures Record() == r
    {
      id, name, authorizationURL, state, account := r.id, r.name, r.authorizationURL, r.state, r.account;
      challengeType, http01ChallengePath, http01ChallengeResponse := r.challengeType, r.http01ChallengePath, r.http01ChallengeResponse;
      certificate, sanNames, protectedNames := r.certificate, r.sanNames, r.protectedNames;
    }

    /** `SANNames`: the names the certificate is requested for. */
    function SANNames(): (r: seq<string>)
      reads this
      ensures r == Record().sanNames
    {
      sanNames
    }

    /** `AddSANName`: a new name is appended; a name already present is
      refused with ErrDuplicatedSANName and nothing changes. */
    method AddSANName(n: string) returns (r: Outcome)
      modifies this
      ensures n in old(sanNames) ==> r == Fail(ErrDuplicatedSANName) && sanNames == old(sanNames)
      ensures n !in old(sanNames) ==> r == Pass && sanNames == old(sanNames) + [n]
      ensures Record() == old(Record()).(sanNames := sanNames)
      ensures old(Valid()) ==> Valid()
    {
      if n in sanNames {
        return Fail(ErrDuplicatedSANName);
      }
      sanNames := sanNames + [n];
      r := Pass;
      forall i, j | 0 <= i < j < |sanNames| && old(Valid()) ensures sanNames[i] != sanNames[j] {
        if j == |sanNames| - 1 {
          assert sanNames[i] in old(sanNames);
        } else {
          assert sanNames[i] == old(sanNames)[i] && sanNames[j] == old(sanNames)[j];
        }
      }
    }

    /** `RemoveSANName`: a name present at creation, or absent, is left alone;
      any other name is removed. */
    method RemoveSANName(n: string)
      modifies this
      ensures n in old(protectedNames) || n !in old(sanNames) ==> sanNames == old(sanNames)
      ensures n !in old(protectedNames) && n in old(sanNames) ==> sanNames == Without(old(sanNames), n)
      ensures Record() == old(Record()).(sanNames := sanNames)
      ensures old(Valid()) ==> Valid()
    {
      if n in protectedNames || n !in sanNames {
        return;
      }
      if Valid() {
        WithoutNoDuplicates(sanNames, n);
      }
      sanNames := Without(sanNames, n);
    }
  }

  /** domain_test.go:81-106 end to end on an object: adding a new name
      succeeds, adding it again is refused, and removing it restores the
      list the domain was created with. */
  method AddRemoveScenario(d: Domain, n: string) returns (first: Outcome, second: Outcome)
    requires n !in d.sanNames && n !in d.protectedNames
    modifies d
    ensures first == Pass && second == Fail(ErrDuplicatedSANName)
    ensures d.sanNames == old(d.sanNames)
  {
    first := d.AddSANName(n);
    second := d.AddSANName(n);
    d.RemoveSANName(n);
    AddThenRemove(old(d.sanNames), n);
  }
}
