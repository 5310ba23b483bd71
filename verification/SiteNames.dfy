/** The site's own names: one normal form for an operator's spelling, the
    renderer's port lookup and the validator's membership test over it. */
module SiteNames {
  import opened Text

  function LowerChar(c: char): char {
    if 'A' <= c <= 'Z' then ((c as int) - ('A' as int) + ('a' as int)) as char else c
  }

  predicate Kept(c: char) {
    'a' <= c <= 'z' || '0' <= c <= '9'
  }

  /** normalizePortKey and normalizeSiteName: lower case, letters and digits only. */
  function Normalize(s: string): (r: string)
    ensures forall c :: c in r ==> Kept(c)
  {
    if s == [] then []
    else (if Kept(LowerChar(s[0])) then [LowerChar(s[0])] else []) + Normalize(s[1..])
  }

  lemma {:induction false} NormalizeKept(s: string)
    requires forall c :: c in s ==> Kept(c)
    ensures Normalize(s) == s
  {
    if s != [] {
      assert Kept(s[0]);
      NormalizeKept(s[1..]);
      assert s == [s[0]] + s[1..];
    }
  }

  /** A second fold changes nothing. */
  lemma NormalizeTwice(s: string)
    ensures Normalize(Normalize(s)) == Normalize(s)
  {
    NormalizeKept(Normalize(s));
  }

  type PortMap = map<string, string>

  /** The logical names the site accepts, sorted. */
  function Known(m: PortMap): (names: seq<string>)
    ensures forall k :: k in names <==> k in m && m[k] != ""
    ensures Sorted(names) && Distinct(names)
  {
    SortedKeys(set k | k in m && m[k] != "")
  }

  function FirstSpelling(names: seq<string>, want: string): (r: Option<string>)
    ensures r.None? <==> forall i :: 0 <= i < |names| ==> Normalize(names[i]) != want
    ensures r.Some? ==> r.value in names && Normalize(r.value) == want
  {
    if names == [] then None
    else if Normalize(names[0]) == want then Some(names[0])
    else
      assert forall i :: 0 < i < |names| ==> names[i] == names[1..][i - 1];
      FirstSpelling(names[1..], want)
  }

  /** PortMapper.Port: the exact name, else the first known spelling of it. */
  function Port(m: PortMap, logical: string): (port: Option<string>)
    ensures port.Some? ==> port.value != ""
  {
    if logical in m && m[logical] != "" then Some(m[logical])
    else match FirstSpelling(Known(m), Normalize(logical))
      case None => None
      case Some(k) => Some(m[k])
  }

  /** knows. */
  predicate Knows(names: seq<string>, want: string) {
    FirstSpelling(names, Normalize(want)).Some?
  }

  /** The validator and the renderer agree: a name passes the inventory drawn
      from the port map exactly when the renderer resolves it. */
  lemma KnownNamesResolve(m: PortMap, logical: string)
    ensures Knows(Known(m), logical) <==> Port(m, logical).Some?
  {
    if logical in m && m[logical] != "" {
      assert logical in Known(m);
      var i :| 0 <= i < |Known(m)| && Known(m)[i] == logical;
    }
  }

  /** The scan of the source against its specification: a loop over the names. */
  method KnowsName(names: seq<string>, want: string) returns (found: bool)
    ensures found <==> Knows(names, want)
  {
    var norm := Normalize(want);
    for i := 0 to |names|
      invariant forall j :: 0 <= j < i ==> Normalize(names[j]) != norm
    {
      if Normalize(names[i]) == norm { return true; }
    }
    found := false;
  }
}
