/** domain/names.go: the certificate common name and SAN list derived from a
    requested host name. The public-suffix lookup (`publicsuffix.Domain`) is a
    parameter: it maps a host name to its registrable domain or fails. */
module Names {
  import opened Wrappers

  /** The second argument of `strings.TrimLeft(name, "www.")`: TrimLeft treats it
      as a SET of characters, so it is {'w', '.'}, not the prefix "www.". */
  const WwwCutset: set<char> := {'w', '.'}

  const WwwPrefix := "www."

  const LookupError := "error looking up the correct domain name"

  /** The common name and the subject alternative names of a certificate. */
  datatype Names = Names(cn: string, san: seq<string>)

  /** `strings.TrimLeft`: drops the longest leading run of characters that
      belong to the cut set. */
  function TrimLeft(s: string, cutset: set<char>): (r: string)
    ensures |r| <= |s| && r == s[|s| - |r|..]
    ensures r == [] || r[0] !in cutset
    ensures forall i :: 0 <= i < |s| - |r| ==> s[i] in cutset
  {
    if s != [] && s[0] in cutset then
      var r := TrimLeft(s[1..], cutset);
      assert forall i :: 1 <= i < |s| - |r| ==> s[i] == s[1..][i - 1];
      r
    else
      s
  }

  /** `strings.TrimPrefix`: drops one leading copy of the prefix, if present. */
  function TrimPrefix(s: string, prefix: string): (r: string)
    ensures prefix <= s ==> s == prefix + r
    ensures !(prefix <= s) ==> r == s
  {
    if prefix <= s then s[|prefix|..] else s
  }

  /** An independent description of TrimLeft: a suffix of `s` that starts with a
      character outside the cut set (or is empty), preceded only by cut-set
      characters. */
  ghost predicate IsLeftTrim(s: string, cutset: set<char>, r: string)
  {
    && |r| <= |s|
    && r == s[|s| - |r|..]
    && (r == [] || r[0] !in cutset)
    && (forall i :: 0 <= i < |s| - |r| ==> s[i] in cutset)
  }

  /** TrimLeft is the ONLY string with that description: it strips a maximal
      run of cut-set characters, never a fixed prefix. */
  lemma {:induction false} TrimLeftUnique(s: string, cutset: set<char>, r: string)
    requires IsLeftTrim(s, cutset, r)
    ensures r == TrimLeft(s, cutset)
  {
    if s != [] && s[0] in cutset {
      if |r| == |s| {
        assert false;
      }
      assert s[1..][|s[1..]| - |r|..] == r;
      assert IsLeftTrim(s[1..], cutset, r);
      TrimLeftUnique(s[1..], cutset, r);
    } else {
      if |r| < |s| {
        assert false;
      }
    }
  }

  /** ExtractNames exactly as names.go:20-39 writes it, with the TrimLeft cut set. */
  function ExtractNames(name: string, publicSuffix: string -> Result<string>): (r: Result<Names>)
    ensures r.Err? <==> publicSuffix(name).Err?
    ensures r.Err? ==> r.error == Wrap(LookupError, publicSuffix(name).error)
    ensures r.Ok? ==> 1 <= |r.value.san| <= 2 && r.value.san[0] == r.value.cn
  {
    var normal := TrimLeft(name, WwwCutset);
    match publicSuffix(name)
    case Err(e) => Err(Wrap(LookupError, e))
    case Ok(dn) =>
      if normal == dn then Ok(Names(dn, [dn, WwwPrefix + dn]))
      else Ok(Names(name, [name]))
  }

  /** When the name, stripped of its leading 'w' and '.' characters, is the
      registrable domain: CN is that domain and SAN is [dn, "www." + dn]. */
  lemma ExtractNamesApex(name: string, publicSuffix: string -> Result<string>, dn: string)
    requires publicSuffix(name) == Ok(dn)
    requires IsLeftTrim(name, WwwCutset, dn)
    ensures ExtractNames(name, publicSuffix) == Ok(Names(dn, [dn, WwwPrefix + dn]))
  {
    TrimLeftUnique(name, WwwCutset, dn);
  }

  /** Otherwise CN is the name as given and SAN is exactly [name]. */
  lemma ExtractNamesOther(name: string, publicSuffix: string -> Result<string>, dn: string)
    requires publicSuffix(name) == Ok(dn)
    requires !IsLeftTrim(name, WwwCutset, dn)
    ensures ExtractNames(name, publicSuffix) == Ok(Names(name, [name]))
  {
    if TrimLeft(name, WwwCutset) == dn {
      assert IsLeftTrim(name, WwwCutset, dn);
    }
  }

  /** The two SAN entries of the apex case are different names. */
  lemma ApexSansDistinct(dn: string)
    ensures dn != WwwPrefix + dn
  {
    assert |WwwPrefix + dn| == |dn| + 4;
  }

  /** names_test.go:15: "www.cabal.io" trims to the registrable domain "cabal.io". */
  lemma ExtractNamesWwwExample(publicSuffix: string -> Result<string>)
    requires publicSuffix("www.cabal.io") == Ok("cabal.io")
    ensures ExtractNames("www.cabal.io", publicSuffix) == Ok(Names("cabal.io", ["cabal.io", "www.cabal.io"]))
  {
    var s := "www.cabal.io";
    assert s[4..] == "cabal.io";
    assert forall i :: 0 <= i < 4 ==> s[i] in WwwCutset;
    assert IsLeftTrim(s, WwwCutset, "cabal.io");
    TrimLeftUnique(s, WwwCutset, "cabal.io");
    assert WwwPrefix + "cabal.io" == s;
  }

  /** names_test.go:16-17: the apex keeps its name and gains "www.", a
      subdomain keeps only its own name. */
  lemma ExtractNamesPlainExamples(publicSuffix: string -> Result<string>)
    requires publicSuffix("cabal.io") == Ok("cabal.io")
    requires publicSuffix("test.cabal.io") == Ok("cabal.io")
    ensures ExtractNames("cabal.io", publicSuffix) == Ok(Names("cabal.io", ["cabal.io", "www.cabal.io"]))
    ensures ExtractNames("test.cabal.io", publicSuffix) == Ok(Names("test.cabal.io", ["test.cabal.io"]))
  {
    assert IsLeftTrim("cabal.io", WwwCutset, "cabal.io");
    TrimLeftUnique("cabal.io", WwwCutset, "cabal.io");
    assert WwwPrefix + "cabal.io" == "www.cabal.io";
    assert IsLeftTrim("test.cabal.io", WwwCutset, "test.cabal.io");
    TrimLeftUnique("test.cabal.io", WwwCutset, "test.cabal.io");
  }

  /** The cut set also eats the first letter of a registrable domain that starts
      with 'w': "wikipedia.org" trims to "ikipedia.org", so the apex branch is
      missed and no "www." name is added. */
  lemma ExtractNamesMissesApexStartingWithW(publicSuffix: string -> Result<string>)
    requires publicSuffix("wikipedia.org") == Ok("wikipedia.org")
    ensures ExtractNames("wikipedia.org", publicSuffix) == Ok(Names("wikipedia.org", ["wikipedia.org"]))
  {
    var s := "wikipedia.org";
    assert s[1..] == "ikipedia.org";
    assert IsLeftTrim(s, WwwCutset, "ikipedia.org");
    TrimLeftUnique(s, WwwCutset, "ikipedia.org");
  }

  /** The names computation with the literal prefix "www." removed, as the
      apex/www pairing in names_test.go intends. The rest of the model uses it. */
  function ExtractNamesCorrected(name: string, publicSuffix: string -> Result<string>): (r: Result<Names>)
    ensures r.Err? <==> publicSuffix(name).Err?
    ensures r.Err? ==> r.error == Wrap(LookupError, publicSuffix(name).error)
    ensures r.Ok? ==> 1 <= |r.value.san| <= 2 && r.value.san[0] == r.value.cn
  {
    var normal := TrimPrefix(name, WwwPrefix);
    match publicSuffix(name)
    case Err(e) => Err(Wrap(LookupError, e))
    case Ok(dn) =>
      if normal == dn then Ok(Names(dn, [dn, WwwPrefix + dn]))
      else Ok(Names(name, [name]))
  }

  /** With the prefix removed, the apex pair is chosen exactly when the request
      is the registrable domain itself or "www." followed by it. */
  lemma CorrectedApexIff(name: string, publicSuffix: string -> Result<string>, dn: string)
    requires publicSuffix(name) == Ok(dn)
    requires !(WwwPrefix <= dn)
    ensures ExtractNamesCorrected(name, publicSuffix) == Ok(Names(dn, [dn, WwwPrefix + dn]))
        <==> (name == dn || name == WwwPrefix + dn)
    ensures !(name == dn || name == WwwPrefix + dn) ==>
        ExtractNamesCorrected(name, publicSuffix) == Ok(Names(name, [name]))
  {
    if name == WwwPrefix + dn {
      assert WwwPrefix <= name;
      assert name[|WwwPrefix|..] == dn;
    }
    if TrimPrefix(name, WwwPrefix) == dn && WwwPrefix <= name {
      assert name == WwwPrefix + dn;
    }
    if name != dn && name != WwwPrefix + dn {
      ApexSansDistinct(dn);
      assert TrimPrefix(name, WwwPrefix) != dn;
    }
  }

  /** "wikipedia.org" now gets its "www." name. */
  lemma CorrectedKeepsApexStartingWithW(publicSuffix: string -> Result<string>)
    requires publicSuffix("wikipedia.org") == Ok("wikipedia.org")
    ensures ExtractNamesCorrected("wikipedia.org", publicSuffix)
         == Ok(Names("wikipedia.org", ["wikipedia.org", "www.wikipedia.org"]))
  {
    var s := "wikipedia.org";
    assert !(WwwPrefix <= s) by { assert s[1] != WwwPrefix[1]; }
    assert WwwPrefix + s == "www.wikipedia.org";
  }

  /** The two versions part only on names that begin with 'w' or '.' other
      than through one "www.": a name that starts with neither, alone or
      behind "www.", gets the same names from both. */
  lemma CorrectedAgreesElsewhere(name: string, publicSuffix: string -> Result<string>, rest: string)
    requires name == rest || name == WwwPrefix + rest
    requires rest == [] || rest[0] !in WwwCutset
    ensures ExtractNamesCorrected(name, publicSuffix) == ExtractNames(name, publicSuffix)
  {
    assert IsLeftTrim(name, WwwCutset, rest) by {
      if name == WwwPrefix + rest {
        assert name[|name| - |rest|..] == rest;
        assert forall i :: 0 <= i < |name| - |rest| ==> name[i] == WwwPrefix[i];
      }
    }
    TrimLeftUnique(name, WwwCutset, rest);
    if name == WwwPrefix + rest {
      assert WwwPrefix <= name;
      assert name[|WwwPrefix|..] == rest;
    } else {
      assert !(WwwPrefix <= name) by {
        assert name == [] || name[0] != WwwPrefix[0];
      }
    }
  }

  /** The corrected version agrees with the three names_test.go cases. */
  lemma CorrectedExamples(publicSuffix: string -> Result<string>)
    requires publicSuffix("www.cabal.io") == Ok("cabal.io")
    requires publicSuffix("cabal.io") == Ok("cabal.io")
    requires publicSuffix("test.cabal.io") == Ok("cabal.io")
    ensures ExtractNamesCorrected("www.cabal.io", publicSuffix) == Ok(Names("cabal.io", ["cabal.io", "www.cabal.io"]))
    ensures ExtractNamesCorrected("cabal.io", publicSuffix) == Ok(Names("cabal.io", ["cabal.io", "www.cabal.io"]))
    ensures ExtractNamesCorrected("test.cabal.io", publicSuffix) == Ok(Names("test.cabal.io", ["test.cabal.io"]))
  {
    assert !(WwwPrefix <= "cabal.io") by { assert "cabal.io"[0] != 'w'; }
    assert WwwPrefix <= "www.cabal.io";
    assert "www.cabal.io"[4..] == "cabal.io";
    assert !(WwwPrefix <= "test.cabal.io") by { assert "test.cabal.io"[0] != 'w'; }
  }
}
