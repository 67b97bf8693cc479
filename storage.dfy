/** storage/bolt.go: accounts and domains kept in two BoltDB buckets. Each
    bucket is a map from key to stored record; JSON encoding is taken to give
    back what it stored, and `json.Unmarshal` of the nil value Bolt returns
    for a missing key is the lookup failure. */
module Storage {
  import opened Wrappers
  import opened Uuid
  import opened Accounts
  import opened Domains

  const KeySeparator := "@@"
  const AccountLookupError := "error retrieving account "
  const DomainLookupError := "error retrieving domain "
  const AccountSaveError := "error saving account "
  const DomainSaveError := "error saving domain "
  /** What `json.Unmarshal` reports for the nil value of a missing key. */
  const EmptyInputError := "unexpected end of JSON input"

  /** The key of a domain in the domains bucket: account ID, "@@", name. */
  function DomainKey(accountId: UUID, name: string): (k: string)
    ensures |k| == 38 + |name|
    ensures k[..36] == accountId && k[38..] == name
  {
    accountId + KeySeparator + name
  }

  /** Different (account, name) pairs never share a key: the account ID has a
      fixed width of 36 characters. */
  lemma DomainKeyInjective(a: UUID, n: string, b: UUID, m: string)
    requires DomainKey(a, n) == DomainKey(b, m)
    ensures a == b && n == m
  {
    assert DomainKey(a, n)[..36] == DomainKey(b, m)[..36];
    assert DomainKey(a, n)[38..] == DomainKey(b, m)[38..];
  }

  /** `GetAccount` on a bucket: the stored account, provided its token is the
      one given. */
  function LookupAccount(accounts: map<string, Account>, id: UUID, token: UUID): (r: Result<Account>)
    ensures r.Ok? <==> id in accounts && accounts[id].token == token
    ensures r.Ok? ==> r.value == accounts[id]
    ensures id !in accounts ==> r == Err(Wrap(AccountLookupError + id, EmptyInputError))
    ensures id in accounts && accounts[id].token != token ==> r == Err(AccountLookupError + id)
  {
    if id !in accounts then Err(Wrap(AccountLookupError + id, EmptyInputError))
    else if accounts[id].token != token then Err(AccountLookupError + id)
    else Ok(accounts[id])
  }

  /** `GetDomain` on a bucket: the record stored under (account ID, name). */
  function LookupDomain(domains: map<string, DomainRecord>, accountId: UUID, name: string): (r: Result<DomainRecord>)
    ensures r.Ok? <==> DomainKey(accountId, name) in domains
    ensures r.Ok? ==> r.value == domains[DomainKey(accountId, name)]
    ensures r.Err? ==> r.error == Wrap(DomainLookupError + name, EmptyInputError)
  {
    var key := DomainKey(accountId, name);
    if key in domains then Ok(domains[key]) else Err(Wrap(DomainLookupError + name, EmptyInputError))
  }

  /** Every stored record sits under the key its own fields give. */
  ghost predicate KeysMatch(accounts: map<string, Account>, domains: map<string, DomainRecord>)
  {
    && (forall k :: k in accounts ==> k == accounts[k].id)
    && (forall k :: k in domains ==> k == DomainKey(domains[k].account.id, domains[k].name))
  }

  class Bolt {
    var accounts: map<string, Account>
    var domains: map<string, DomainRecord>
    /** The error a bucket write reports, when writes fail (closed or
        read-only database, full disk). */
    var writeError: Option<string>

    ghost predicate Valid()
      reads this
    {
      KeysMatch(accounts, domains)
    }

    /** `NewBoltBucket`: both buckets created, empty. */
    constructor ()
      ensures accounts == map[] && domains == map[] && writeError == None
      ensures Valid()
    {
      accounts, domains, writeError := map[], map[], None;
    }

    /** `GetAccount`: reads the accounts bucket and checks the token. */
    method GetAccount(id: UUID, token: UUID) returns (r: Result<Account>)
      ensures r == LookupAccount(accounts, id, token)
      ensures r.Ok? ==> r.value.id == id || !Valid()
    {
      if id !in accounts {
        return Err(Wrap(AccountLookupError + id, EmptyInputError));
      }
      var account := accounts[id];
      if account.token != token {
        return Err(AccountLookupError + id);
      }
      return Ok(account);
    }

    /** `GetDomain`: a new domain object decoded from the stored record. */
    method GetDomain(accountId: UUID, name: string) returns (r: Result<Domain>)
      ensures r.Err? <==> LookupDomain(domains, accountId, name).Err?
      ensures r.Err? ==> r.error == LookupDomain(domains, accountId, name).error
      ensures r.Ok? ==> fresh(r.value) && r.value.Record() == LookupDomain(domains, accountId, name).value
    {
      var key := DomainKey(accountId, name);
      if key !in domains {
        return Err(Wrap(DomainLookupError + name, EmptyInputError));
      }
      var d := new Domain.FromRecord(domains[key]);
      return Ok(d);
    }

    /** `SaveAccount`: writes the account under its ID; the domains bucket is
        not touched. Succeeds exactly when the write does. */
    method SaveAccount(a: Account) returns (r: Outcome)
      modifies this
      ensures writeError == old(writeError) && domains == old(domains)
      ensures r.Pass? <==> writeError.None?
      ensures r.Pass? ==> accounts == old(accounts)[a.id := a]
      ensures r.Fail? ==> accounts == old(accounts) && r.error == Wrap(AccountSaveError + a.id, writeError.value)
      ensures old(Valid()) ==> Valid()
    {
      if writeError.Some? {
        return Fail(Wrap(AccountSaveError + a.id, writeError.value));
      }
      accounts := accounts[a.id := a];
      return Pass;
    }

    /** `SaveDomain`: writes the domain under (account ID, name), replacing
        what was there; the accounts bucket is not touched. */
    method SaveDomain(d: Domain) returns (r: Outcome)
      modifies this
      ensures writeError == old(writeError) && accounts == old(accounts)
      ensures r.Pass? <==> writeError.None?
      ensures r.Pass? ==> domains == old(domains)[DomainKey(d.account.id, d.name) := d.Record()]
      ensures r.Fail? ==> domains == old(domains) && r.error == Wrap(DomainSaveError + d.id, writeError.value)
      ensures old(Valid()) ==> Valid()
    {
      if writeError.Some? {
        return Fail(Wrap(DomainSaveError + d.id, writeError.value));
      }
      domains := domains[DomainKey(d.account.id, d.name) := d.Record()];
      return Pass;
    }
  }

  /** storage_test.go:21-30: a saved account is found with its own token. */
  lemma SavedAccountFound(accounts: map<string, Account>, a: Account)
    ensures LookupAccount(accounts[a.id := a], a.id, a.token) == Ok(a)
  {
  }

  /** storage_test.go:32-34: any other token is refused. */
  lemma WrongTokenRefused(accounts: map<string, Account>, a: Account, token: UUID)
    requires token != a.token
    ensures LookupAccount(accounts[a.id := a], a.id, token).Err?
  {
  }

  /** Saving one account leaves every other account's lookup as it was. */
  lemma SaveAccountLeavesOthers(accounts: map<string, Account>, a: Account, id: UUID, token: UUID)
    requires id != a.id
    ensures LookupAccount(accounts[a.id := a], id, token) == LookupAccount(accounts, id, token)
  {
  }

  /** storage_test.go:45-53: a saved domain is found under its account and
      name, and a name never saved is not found. */
  lemma SavedDomainFound(domains: map<string, DomainRecord>, d: DomainRecord, name: string)
    requires DomainKey(d.account.id, name) !in domains
    ensures LookupDomain(domains[DomainKey(d.account.id, d.name) := d], d.account.id, d.name) == Ok(d)
    ensures name != d.name ==> LookupDomain(domains[DomainKey(d.account.id, d.name) := d], d.account.id, name).Err?
  {
    if name != d.name && DomainKey(d.account.id, name) == DomainKey(d.account.id, d.name) {
      DomainKeyInjective(d.account.id, name, d.account.id, d.name);
    }
  }

  /** Saving a domain replaces the record of the same account and name and
      leaves every other (account, name) lookup as it was. */
  lemma SaveDomainOverwrites(domains: map<string, DomainRecord>, d: DomainRecord, e: DomainRecord,
                             accountId: UUID, name: string)
    requires e.account.id == d.account.id && e.name == d.name
    requires accountId != d.account.id || name != d.name
    ensures var after := domains[DomainKey(d.account.id, d.name) := d][DomainKey(e.account.id, e.name) := e];
      LookupDomain(after, d.account.id, d.name) == Ok(e)
    ensures LookupDomain(domains[DomainKey(d.account.id, d.name) := d], accountId, name)
         == LookupDomain(domains, accountId, name)
  {
    if DomainKey(accountId, name) == DomainKey(d.account.id, d.name) {
      DomainKeyInjective(accountId, name, d.account.id, d.name);
    }
  }

  /** The two buckets are independent: a domain save leaves account lookups
      as they were, and an account save leaves domain lookups as they were. */
  method BucketsIndependent(db: Bolt, a: Account, d: Domain, id: UUID, token: UUID, accountId: UUID, name: string)
    modifies db
    ensures LookupAccount(db.accounts, id, token) == LookupAccount(old(db.accounts), id, token)
      || (id == a.id)
    ensures LookupDomain(db.domains, accountId, name) == LookupDomain(old(db.domains), accountId, name)
      || DomainKey(accountId, name) == DomainKey(d.account.id, d.name)
  {
    var domainSaved := db.SaveDomain(d);
    var accountSaved := db.SaveAccount(a);
  }
}
