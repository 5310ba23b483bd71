/** The names of identifier claims: deterministic, folded into a label and cut to
    its length, so that two attachments can end up with one claim. */
module ClaimNames {

  const Longest := 63

  predicate Alnum(c: char) {
    'a' <= c <= 'z' || 'A' <= c <= 'Z' || '0' <= c <= '9'
  }

  predicate Separator(c: char) {
    c == '-' || c == '.'
  }

  predicate Allowed(c: char) {
    Alnum(c) || Separator(c)
  }

  ghost predicate AllAllowed(s: string) {
    forall c :: c in s ==> Allowed(c)
  }

  function AfterRun(s: string): (r: string)
    ensures |r| <= |s|
  {
    if s == [] || Allowed(s[0]) then s else AfterRun(s[1..])
  }

  /** Every run of other characters becomes one hyphen. */
  function ReplaceRuns(s: string): string
    decreases |s|
  {
    if s == [] then []
    else if Allowed(s[0]) then [s[0]] + ReplaceRuns(s[1..])
    else "-" + ReplaceRuns(AfterRun(s[1..]))
  }

  function TrimLeft(s: string): string {
    if s == [] || !Separator(s[0]) then s else TrimLeft(s[1..])
  }

  function TrimRight(s: string): string {
    if s == [] || !Separator(s[|s| - 1]) then s else TrimRight(s[..|s| - 1])
  }

  function Trim(s: string): string {
    TrimRight(TrimLeft(s))
  }

  /** sanitize. */
  function Sanitize(s: string): string {
    var v := Trim(ReplaceRuns(s));
    var w := if |v| > Longest then Trim(v[..Longest]) else v;
    if w == "" then "default" else w
  }

  function Join(parts: seq<string>): string {
    if parts == [] then "" else if |parts| == 1 then parts[0] else parts[0] + "-" + Join(parts[1..])
  }

  function ClaimName(pool: string, corr: string, parts: seq<string>): string {
    Sanitize(Join([pool, "claim", corr] + parts))
  }

  /** What the folding produces: a label fragment between alphanumerics. */
  ghost predicate Label(s: string) {
    0 < |s| <= Longest && AllAllowed(s) && Alnum(s[0]) && Alnum(s[|s| - 1])
  }

  lemma {:induction false} ReplacedIsAllowed(s: string)
    ensures AllAllowed(ReplaceRuns(s))
    decreases |s|
  {
    if s != [] {
      if Allowed(s[0]) { ReplacedIsAllowed(s[1..]); } else { ReplacedIsAllowed(AfterRun(s[1..])); }
    }
  }

  lemma {:induction false} TrimmedLeft(s: string)
    requires AllAllowed(s)
    ensures var t := TrimLeft(s); AllAllowed(t) && |t| <= |s| && (t != [] ==> Alnum(t[0]))
  {
    if s != [] && Separator(s[0]) {
      assert AllAllowed(s[1..]);
      TrimmedLeft(s[1..]);
    } else if s != [] {
      assert s[0] in s;
    }
  }

  lemma {:induction false} TrimmedRight(s: string)
    requires AllAllowed(s)
    ensures var t := TrimRight(s); AllAllowed(t) && t <= s && (t != [] ==> Alnum(t[|t| - 1]))
  {
    if s != [] && Separator(s[|s| - 1]) {
      assert AllAllowed(s[..|s| - 1]);
      TrimmedRight(s[..|s| - 1]);
    } else if s != [] {
      assert s[|s| - 1] in s;
    }
  }

  lemma TrimmedEnds(s: string)
    requires AllAllowed(s)
    ensures var t := Trim(s); AllAllowed(t) && |t| <= |s| && (t != [] ==> Alnum(t[0]) && Alnum(t[|t| - 1]))
  {
    TrimmedLeft(s);
    TrimmedRight(TrimLeft(s));
  }

  /** Whatever the correlation id and the attachment look like, the name is a label. */
  lemma NamesAreLabels(pool: string, corr: string, parts: seq<string>)
    ensures Label(ClaimName(pool, corr, parts))
  {
    SanitizedIsLabel(Join([pool, "claim", corr] + parts));
  }

  lemma SanitizedIsLabel(s: string)
    ensures Label(Sanitize(s))
  {
    var v := Trim(ReplaceRuns(s));
    ReplacedIsAllowed(s);
    TrimmedEnds(ReplaceRuns(s));
    if |v| > Longest { CutIsTrimmed(v); }
    DefaultIsLabel();
  }

  lemma DefaultIsLabel()
    ensures Label("default")
  {
    var d := "default";
    assert forall i :: 0 <= i < |d| ==> Allowed(d[i]);
  }

  lemma CutIsTrimmed(v: string)
    requires AllAllowed(v) && |v| > Longest
    ensures var w := Trim(v[..Longest]); AllAllowed(w) && |w| <= Longest && (w != [] ==> Alnum(w[0]) && Alnum(w[|w| - 1]))
  {
    forall c | c in v[..Longest] ensures Allowed(c) { assert c in v; }
    TrimmedEnds(v[..Longest]);
  }

  // ---- words that need no folding --------------------------------------------------------

  /** Allowed characters only, between alphanumerics. */
  ghost predicate Clean(s: string) {
    s != [] && AllAllowed(s) && Alnum(s[0]) && Alnum(s[|s| - 1])
  }

  lemma {:induction false} AllowedIsKept(s: string)
    requires AllAllowed(s)
    ensures ReplaceRuns(s) == s
  {
    if s != [] {
      assert s[0] in s && AllAllowed(s[1..]);
      AllowedIsKept(s[1..]);
      assert s == [s[0]] + s[1..];
    }
  }

  lemma CleanIsKept(s: string)
    requires Clean(s)
    ensures Sanitize(s) == if |s| <= Longest then s else TrimRight(s[..Longest])
  {
    AllowedIsKept(s);
    assert TrimLeft(s) == s && TrimRight(s) == s;
    if |s| > Longest { CutIsKept(s); }
  }

  lemma CutIsKept(s: string)
    requires |s| > Longest && Alnum(s[0])
    ensures Trim(s[..Longest]) == TrimRight(s[..Longest]) != ""
  {
    var cut := s[..Longest];
    var first, rest := cut[..1], cut[1..];
    assert cut == first + rest && cut[0] == s[0];
    StartsKept(first, rest);
  }

  /** Trimming stops at an alphanumeric. */
  lemma {:induction false} StartsKept(head: string, rest: string)
    requires head != [] && !Separator(head[|head| - 1])
    ensures TrimRight(head + rest) == head + TrimRight(rest)
    decreases |rest|
  {
    if rest != [] && Separator(rest[|rest| - 1]) {
      StartsKept(head, rest[..|rest| - 1]);
      assert (head + rest)[..|head + rest| - 1] == head + rest[..|rest| - 1];
    } else if rest == [] {
      assert head + rest == head;
    }
  }

  /** Folding a name again changes nothing. */
  lemma SanitizeIsIdempotent(pool: string, corr: string, parts: seq<string>)
    ensures Sanitize(ClaimName(pool, corr, parts)) == ClaimName(pool, corr, parts)
  {
    NamesAreLabels(pool, corr, parts);
    CleanIsKept(ClaimName(pool, corr, parts));
  }

  // ---- when two names are one --------------------------------------------------------------

  /** What a name keeps of a last part when `room` characters are left for it. */
  function Stem(part: string, room: int): string {
    if |part| <= room then part else if room <= 0 then "" else TrimRight(part[..room])
  }

  /** A name is its head and the stem of its last part. */
  lemma HeadAndStem(head: string, part: string)
    requires Clean(head) && Clean(part) && |head| + 1 < Longest
    ensures Sanitize(head + "-" + part) == head + "-" + Stem(part, Longest - |head| - 1)
  {
    CleanJoin(head, part);
    CleanIsKept(head + "-" + part);
    if |head + "-" + part| > Longest { CutPart(head + "-", part, Longest - |head| - 1); }
  }

  lemma CutPart(head: string, part: string, room: nat)
    requires 0 < room < |part| && Alnum(part[0])
    ensures TrimRight((head + part)[..|head| + room]) == head + TrimRight(part[..room])
  {
    var first, rest := part[..1], part[1..room];
    assert part[..room] == first + rest;
    assert (head + part)[..|head| + room] == (head + first) + rest;
    StartsKept(first, rest);
    StartsKept(head + first, rest);
    assert (head + first) + TrimRight(rest) == head + (first + TrimRight(rest));
  }

  lemma CleanJoin(head: string, part: string)
    requires Clean(head) && Clean(part)
    ensures Clean(head + "-" + part)
  {
    var s := head + "-" + part;
    assert s[|s| - 1] == part[|part| - 1] && s[0] == head[0];
  }

  lemma SameHead(head: string, a: string, b: string)
    ensures head + "-" + a == head + "-" + b <==> a == b
  {
    assert (head + "-" + a)[|head| + 1..] == a && (head + "-" + b)[|head| + 1..] == b;
  }

  /** The pools the reconciler claims from. */
  const ServiceIds := "srv6-service-ids"
  const ClientPrefixes := "srv6-client-v4"

  lemma JoinCons(first: string, rest: seq<string>)
    requires rest != []
    ensures Join([first] + rest) == first + "-" + Join(rest)
  {
    assert ([first] + rest)[1..] == rest;
  }

  lemma HyphenAssoc(a: string, b: string, c: string)
    ensures a + "-" + (b + "-" + c) == a + "-" + b + "-" + c
  {
  }

  function Head(pool: string): string {
    pool + "-" + "claim"
  }

  lemma Spelled(pool: string, corr: string)
    ensures Join([pool, "claim", corr] + []) == Head(pool) + "-" + corr
  {
    var c := [corr];
    JoinCons("claim", c);
    JoinCons(pool, ["claim"] + c);
    assert [pool, "claim", corr] + [] == [pool] + (["claim"] + c);
    HyphenAssoc(pool, "claim", corr);
  }

  lemma SpelledPart(pool: string, corr: string, part: string)
    ensures Join([pool, "claim", corr] + [part]) == Head(pool) + "-" + corr + "-" + part
  {
    var d := [part];
    JoinCons(corr, d);
    JoinCons("claim", [corr] + d);
    JoinCons(pool, ["claim"] + ([corr] + d));
    assert [pool, "claim", corr] + [part] == [pool] + (["claim"] + ([corr] + d));
    HyphenAssoc("claim", corr, part);
    HyphenAssoc(pool, "claim", corr + "-" + part);
    HyphenAssoc(pool + "-" + "claim", corr, part);
  }

  /** The name of an attachment's claim up to the attachment. */
  function ClientHead(corr: string): string {
    Head(ClientPrefixes) + "-" + corr
  }

  lemma CleanHead(corr: string)
    requires Clean(corr)
    ensures Clean(ClientHead(corr)) && |ClientHead(corr)| == |corr| + 21
  {
    assert Head(ClientPrefixes) == "srv6-client-v4-claim";
    assert Clean("srv6-client-v4-claim");
    CleanJoin("srv6-client-v4-claim", corr);
  }

  /** The client prefixes of two attachments of a service rest on one claim
      exactly when the 41 characters left for the correlation id and the
      attachment do not tell them apart. */
  lemma AttachmentsShareAClaimExactly(corr: string, a: string, b: string)
    requires Clean(corr) && Clean(a) && Clean(b) && |corr| < 41
    ensures ClaimName(ClientPrefixes, corr, [a]) == ClaimName(ClientPrefixes, corr, [b])
      <==> Stem(a, 41 - |corr|) == Stem(b, 41 - |corr|)
  {
    var head := ClientHead(corr);
    CleanHead(corr);
    SpelledPart(ClientPrefixes, corr, a);
    SpelledPart(ClientPrefixes, corr, b);
    HeadAndStem(head, a);
    HeadAndStem(head, b);
    SameHead(head, Stem(a, 41 - |corr|), Stem(b, 41 - |corr|));
  }

  /** A longer correlation id leaves no room: every attachment has the one name. */
  lemma LongIdsShareOneClaim(corr: string, a: string, b: string)
    requires Clean(corr) && Clean(a) && Clean(b) && |corr| >= 41
    ensures ClaimName(ClientPrefixes, corr, [a]) == ClaimName(ClientPrefixes, corr, [b])
  {
    CleanHead(corr);
    CutBefore(corr, a);
    CutBefore(corr, b);
  }

  lemma CutBefore(corr: string, part: string)
    requires Clean(corr) && Clean(part) && |corr| >= 41
    ensures ClaimName(ClientPrefixes, corr, [part]) == TrimRight((ClientHead(corr) + "-")[..Longest])
  {
    CleanHead(corr);
    SpelledPart(ClientPrefixes, corr, part);
    LongHead(ClientHead(corr), part);
  }

  lemma LongHead(head: string, part: string)
    requires Clean(head) && Clean(part) && |head| + 1 >= Longest
    ensures Sanitize(head + "-" + part) == TrimRight((head + "-")[..Longest])
  {
    CleanJoin(head, part);
    CleanIsKept(head + "-" + part);
    assert (head + "-" + part)[..Longest] == (head + "-")[..Longest];
  }

  /** An object UID, the id of a service without a label, is 36 characters long:
      the attachments of leaf01 and leaf02 then share one claim, whatever their
      ports. */
  lemma UidAttachmentsShareAClaim(uid: string, p: string, q: string)
    requires Clean(uid) && |uid| == 36 && Clean(p) && Clean(q)
    ensures ClaimName(ClientPrefixes, uid, ["leaf01-" + p]) == ClaimName(ClientPrefixes, uid, ["leaf02-" + q])
  {
    var a, b := "leaf01-" + p, "leaf02-" + q;
    assert Clean("leaf01") && Clean("leaf02");
    CleanJoin("leaf01", p);
    CleanJoin("leaf02", q);
    assert "leaf01" + "-" + p == a && "leaf02" + "-" + q == b;
    assert a[..5] == "leaf0" == b[..5];
    AttachmentsShareAClaimExactly(uid, a, b);
  }

  /** Where everything fits, different attachments have different claims. */
  lemma FittingClaimsAreDistinct(corr: string, a: string, b: string)
    requires Clean(corr) && Clean(a) && Clean(b) && |corr| + |a| <= 41 && |corr| + |b| <= 41
    ensures ClaimName(ClientPrefixes, corr, [a]) == ClaimName(ClientPrefixes, corr, [b]) <==> a == b
  {
    AttachmentsShareAClaimExactly(corr, a, b);
  }

  /** Two services' id claims have one name exactly when the first 40 characters
      of their ids agree, up to a separator the cut leaves last. */
  lemma IdClaimsCollideExactly(corr: string, other: string)
    requires Clean(corr) && Clean(other)
    ensures ClaimName(ServiceIds, corr, []) == ClaimName(ServiceIds, other, []) <==> Stem(corr, 40) == Stem(other, 40)
  {
    var head := "srv6-service-ids-claim";
    assert Clean(head) && Head(ServiceIds) == head;
    Spelled(ServiceIds, corr);
    Spelled(ServiceIds, other);
    HeadAndStem(head, corr);
    HeadAndStem(head, other);
    SameHead(head, Stem(corr, 40), Stem(other, 40));
  }

  // ---- the create --------------------------------------------------------------------------

  /** How the server answers a request: it serves it, says the name exists, or fails. */
  datatype Reply = Served | SaysExists | Fails

  datatype Outcome = Mine | Collision(holder: string) | ApiError

  /** One pool's claims on the server: the label of each name. */
  class Authority {
    const pool: string
    var claims: map<string, string>

    constructor (p: string, held: map<string, string>)
      ensures pool == p && claims == held
    {
      pool, claims := p, held;
    }

    /** CreateClaim. A claim that is there under the same correlation id is taken
        for this one's; one under another id is a collision. */
    method CreateClaim(corr: string, parts: seq<string>, create: Reply, read: Reply) returns (name: string, out: Outcome)
      modifies this`claims
      ensures name == ClaimName(pool, corr, parts)
      ensures claims == old(claims) || (name !in old(claims) && create.Served? && claims == old(claims)[name := corr])
      ensures out.Mine? ==> (name in claims ==> claims[name] == corr) && (create.Served? && read.Served? ==> name in claims)
      ensures out.Collision? ==> name in claims && claims[name] == out.holder != corr
      ensures create.Served? && read.Served? ==> !out.ApiError? && (out.Mine? <==> name !in old(claims) || old(claims)[name] == corr)
    {
      name := ClaimName(pool, corr, parts);
      if create.Served? && name !in claims {
        claims := claims[name := corr];
        return name, Mine;
      }
      if create.Fails? { return name, ApiError; }
      if name !in claims && !read.Fails? { return name, Mine; }
      if read.Fails? { return name, ApiError; }
      if claims[name] != corr { return name, Collision(claims[name]); }
      out := Mine;
    }

    /** The claims of a service's attachments, in turn: the loop of Allocate. With
        an authority that serves, it goes through exactly when nobody else holds
        one of the names; each name is then held under this id, and nobody else's
        claim moved. */
    method ClaimAll(corr: string, attachments: seq<string>) returns (done: nat, out: Outcome)
      modifies this`claims
      ensures done <= |attachments| && claims == Granted(old(claims), NamesOf(pool, corr, attachments[..done]), corr)
      ensures out.Mine? ==> done == |attachments|
      ensures out.Mine? <==> Free(old(claims), NamesOf(pool, corr, attachments), corr)
    {
      done, out := 0, Mine;
      GrantNone(claims, corr);
      while done < |attachments|
        invariant out.Mine? && done <= |attachments|
        invariant claims == Granted(old(claims), NamesOf(pool, corr, attachments[..done]), corr)
        invariant Free(old(claims), NamesOf(pool, corr, attachments[..done]), corr)
      {
        out := ClaimNext(corr, attachments[done], old(claims), NamesOf(pool, corr, attachments[..done]));
        NamesNext(pool, corr, attachments, done);
        if !out.Mine? { return; }
        done := done + 1;
      }
      assert attachments[..done] == attachments;
    }

    method ClaimNext(corr: string, attachment: string, ghost before: map<string, string>, ghost names: set<string>)
      returns (out: Outcome)
      requires claims == Granted(before, names, corr) && Free(before, names, corr)
      modifies this`claims
      ensures var name := ClaimName(pool, corr, [attachment]);
        && (out.Mine? ==> claims == Granted(before, names + {name}, corr) && Free(before, names + {name}, corr))
        && (!out.Mine? ==> claims == old(claims) && name in before && before[name] != corr)
    {
      var name;
      name, out := CreateClaim(corr, [attachment], Served, Served);
      GrantNext(before, names, corr, name);
    }
  }

  function NamesOf(pool: string, corr: string, attachments: seq<string>): set<string> {
    if attachments == [] then {}
    else NamesOf(pool, corr, attachments[..|attachments| - 1]) + {ClaimName(pool, corr, [attachments[|attachments| - 1]])}
  }

  lemma {:induction false} NamesNext(pool: string, corr: string, attachments: seq<string>, i: nat)
    requires i < |attachments|
    ensures var name := ClaimName(pool, corr, [attachments[i]]);
      && NamesOf(pool, corr, attachments[..i + 1]) == NamesOf(pool, corr, attachments[..i]) + {name}
      && name in NamesOf(pool, corr, attachments)
    decreases |attachments|
  {
    var n := |attachments| - 1;
    assert attachments[..i + 1][..i] == attachments[..i];
    if i < n {
      var front := attachments[..n];
      assert front[..i] == attachments[..i] && front[..i + 1] == attachments[..i + 1];
      NamesNext(pool, corr, front, i);
    } else {
      assert attachments[..i + 1] == attachments;
    }
  }

  /** No other correlation id holds one of these names. */
  ghost predicate Free(claims: map<string, string>, names: set<string>, corr: string) {
    forall n :: n in names && n in claims ==> claims[n] == corr
  }

  /** The claims with these names added under one correlation id. */
  function Granted(claims: map<string, string>, names: set<string>, corr: string): map<string, string> {
    map n | n in claims.Keys + names :: if n in claims then claims[n] else corr
  }

  /** Two attachments with one claim name leave one claim between them: the second
      create is taken for the first one's. */
  lemma SharedNameIsOneClaim(claims: map<string, string>, pool: string, corr: string, a: string, b: string)
    requires ClaimName(pool, corr, [a]) == ClaimName(pool, corr, [b]) && ClaimName(pool, corr, [a]) !in claims
    ensures var names := NamesOf(pool, corr, [a, b]);
      names == {ClaimName(pool, corr, [a])} && Free(claims, names, corr) && |Granted(claims, names, corr)| == |claims| + 1
  {
    var atts, name := [a, b], ClaimName(pool, corr, [a]);
    NamesNext(pool, corr, atts, 0);
    NamesNext(pool, corr, atts, 1);
    assert atts[..0] == [] && atts[..2] == atts;
    assert NamesOf(pool, corr, atts) == {name};
    assert Granted(claims, {name}, corr) == claims[name := corr];
    assert claims[name := corr].Keys == claims.Keys + {name};
  }

  lemma GrantNone(claims: map<string, string>, corr: string)
    ensures Granted(claims, {}, corr) == claims && Free(claims, {}, corr)
  {
  }

  lemma GrantNext(claims: map<string, string>, names: set<string>, corr: string, name: string)
    requires Free(claims, names, corr)
    ensures var now := Granted(claims, names, corr);
      && (name in now && now[name] != corr <==> name in claims && claims[name] != corr)
      && (name in now && now[name] == corr ==> now == Granted(claims, names + {name}, corr))
      && (name !in now ==> now[name := corr] == Granted(claims, names + {name}, corr))
      && (name in claims ==> claims[name] == corr) == Free(claims, names + {name}, corr)
  {
  }
}
