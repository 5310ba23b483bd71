/** The executor's patch promotion: per-key adds into a table that does not exist
    become one add of the whole table. Patches apply as section 4 of RFC 6902
    says, with the pointers of section 4 of RFC 6901. */
module Promotion {
  import opened Text

  datatype Json = Obj(fields: map<string, Json>) | Leaf(text: string)

  datatype Step =
    | Add(path: string, value: Json)
    | Remove(path: string)
    | Replace(path: string, value: Json)

  // ---- pointers ------------------------------------------------------------------

  /** strings.Split at slashes. */
  function Split(s: string): (r: seq<string>)
    ensures r != []
  {
    if s == [] then [[]]
    else if s[0] == '/' then [[]] + Split(s[1..])
    else
      var rest := Split(s[1..]);
      [[s[0]] + rest[0]] + rest[1..]
  }

  /** ~1 stands for a slash and ~0 for a tilde. */
  function Decode(token: string): string {
    if token == [] then []
    else if |token| >= 2 && token[0] == '~' && token[1] == '1' then "/" + Decode(token[2..])
    else if |token| >= 2 && token[0] == '~' && token[1] == '0' then "~" + Decode(token[2..])
    else [token[0]] + Decode(token[1..])
  }

  function DecodeAll(tokens: seq<string>): (r: seq<string>)
    ensures |r| == |tokens|
  {
    if tokens == [] then [] else [Decode(tokens[0])] + DecodeAll(tokens[1..])
  }

  /** The reference tokens of a pointer; None when it is not one. */
  function Tokens(path: string): Option<seq<string>> {
    if path == [] then Some([])
    else if path[0] != '/' then None
    else Some(DecodeAll(Split(path[1..])))
  }

  lemma DecodePair(a: string, b: string)
    ensures DecodeAll([a]) == [Decode(a)]
    ensures DecodeAll([a, b]) == [Decode(a), Decode(b)]
  {
    assert [a][1..] == [] && [b][1..] == [] && [a, b][1..] == [b];
    assert DecodeAll([b]) == [Decode(b)];
  }

  lemma {:induction false} SplitPlain(s: string)
    requires '/' !in s
    ensures Split(s) == [s]
  {
    if s != [] {
      SplitPlain(s[1..]);
      assert s == [s[0]] + s[1..];
    }
  }

  lemma {:induction false} SplitAt(s: string, rest: string)
    requires '/' !in s
    ensures Split(s + "/" + rest) == [s] + Split(rest)
  {
    if s == [] {
      assert (s + "/" + rest)[1..] == rest;
    } else {
      SplitAt(s[1..], rest);
      assert (s + "/" + rest)[1..] == s[1..] + "/" + rest;
      assert s == [s[0]] + s[1..];
    }
  }

  lemma {:induction false} DecodePlain(s: string)
    requires '~' !in s
    ensures Decode(s) == s
  {
    if s != [] {
      DecodePlain(s[1..]);
      assert s == [s[0]] + s[1..];
    }
  }

  // ---- patches ----------------------------------------------------------------------

  datatype Edit = Put(value: Json) | Drop | Swap(value: Json)

  /** One edit at a location: the parent must be there, and for a removal or a
      replacement the member too. */
  function At(doc: Json, tokens: seq<string>, e: Edit): Option<Json>
    decreases |tokens|
  {
    if tokens == [] then (if e.Drop? then None else Some(e.value))
    else if !doc.Obj? then None
    else if |tokens| == 1 then
      (match e
       case Put(v) => Some(Obj(doc.fields[tokens[0] := v]))
       case Drop => if tokens[0] in doc.fields then Some(Obj(doc.fields - {tokens[0]})) else None
       case Swap(v) => if tokens[0] in doc.fields then Some(Obj(doc.fields[tokens[0] := v])) else None)
    else if tokens[0] !in doc.fields then None
    else match At(doc.fields[tokens[0]], tokens[1..], e)
      case None => None
      case Some(child) => Some(Obj(doc.fields[tokens[0] := child]))
  }

  function EditOf(s: Step): Edit {
    match s case Add(_, v) => Put(v) case Remove(_) => Drop case Replace(_, v) => Swap(v)
  }

  function Apply(doc: Json, s: Step): Option<Json> {
    match Tokens(s.path) case None => None case Some(tokens) => At(doc, tokens, EditOf(s))
  }

  /** A patch applies step by step, or not at all. */
  function ApplyAll(doc: Json, patch: seq<Step>): Option<Json>
    decreases |patch|
  {
    if patch == [] then Some(doc)
    else match Apply(doc, patch[0]) case None => None case Some(d) => ApplyAll(d, patch[1..])
  }

  // ---- promotion ----------------------------------------------------------------------

  predicate HasPrefix(s: string, prefix: string) {
    prefix <= s
  }

  /** The text up to the first slash. */
  function UpToSlash(s: string): (t: string)
    ensures '/' !in t && t <= s
  {
    if s == [] || s[0] == '/' then [] else [s[0]] + UpToSlash(s[1..])
  }

  function TrimSlashes(s: string): string
    decreases |s|
  {
    if s != [] && s[0] == '/' then TrimSlashes(s[1..])
    else if s != [] && s[|s| - 1] == '/' then TrimSlashes(s[..|s| - 1])
    else s
  }

  /** The table a step would want promoted: it adds below the table's own path. */
  function Wanted(s: Step): Option<string> {
    if !s.Add? || !HasPrefix(s.path, "/") then None
    else
      var table := UpToSlash(s.path[1..]);
      if table == "" || |Split(TrimSlashes(s.path))| < 2 then None else Some(table)
  }

  /** The first wanted table that the node does not have. */
  function Absent(patch: seq<Step>, present: set<string>): Option<string> {
    if patch == [] then None
    else if Wanted(patch[0]).Some? && Wanted(patch[0]).value !in present then Wanted(patch[0])
    else Absent(patch[1..], present)
  }

  predicate Into(s: Step, table: string) {
    s.Add? && HasPrefix(s.path, "/" + table + "/")
  }

  function KeyOf(s: Step, table: string): string
    requires Into(s, table)
  {
    s.path[|table| + 2..]
  }

  function Whole(patch: seq<Step>, table: string, m: map<string, Json>): map<string, Json>
    decreases |patch|
  {
    if patch == [] then m
    else if Into(patch[0], table) then Whole(patch[1..], table, m[KeyOf(patch[0], table) := patch[0].value])
    else Whole(patch[1..], table, m)
  }

  function Rest(patch: seq<Step>, table: string): seq<Step> {
    if patch == [] then []
    else (if Into(patch[0], table) then [] else [patch[0]]) + Rest(patch[1..], table)
  }

  function Promoted(patch: seq<Step>, present: set<string>): seq<Step> {
    match Absent(patch, present)
    case None => patch
    case Some(table) => [Add("/" + table, Obj(Whole(patch, table, map[])))] + Rest(patch, table)
  }

  /** applyGCU's rebuild as the loops it is. */
  method Promote(patch: seq<Step>, present: set<string>) returns (merged: seq<Step>)
    ensures merged == Promoted(patch, present)
  {
    for i := 0 to |patch|
      invariant Absent(patch, present) == Absent(patch[i..], present)
    {
      assert patch[i..][1..] == patch[i + 1..];
      var table := Wanted(patch[i]);
      if table.None? || table.value in present { continue; }
      var whole, rest := Collect(patch, table.value);
      return [Add("/" + table.value, Obj(whole))] + rest;
    }
    merged := patch;
  }

  method Collect(patch: seq<Step>, table: string) returns (whole: map<string, Json>, rest: seq<Step>)
    ensures whole == Whole(patch, table, map[]) && rest == Rest(patch, table)
  {
    whole, rest := map[], [];
    for j := 0 to |patch|
      invariant Whole(patch, table, map[]) == Whole(patch[j..], table, whole)
      invariant rest == Rest(patch[..j], table)
    {
      RestNext(patch, table, j);
      assert patch[j..][0] == patch[j] && patch[j..][1..] == patch[j + 1..];
      if Into(patch[j], table) {
        whole := whole[KeyOf(patch[j], table) := patch[j].value];
      } else {
        rest := rest + [patch[j]];
      }
    }
    assert patch[..|patch|] == patch;
  }

  lemma {:induction false} RestNext(patch: seq<Step>, table: string, j: nat)
    requires j < |patch|
    ensures Rest(patch[..j + 1], table) == Rest(patch[..j], table) + if Into(patch[j], table) then [] else [patch[j]]
  {
    if j == 0 {
      assert patch[..1][1..] == [] && patch[..1][0] == patch[0];
    } else {
      RestNext(patch[1..], table, j - 1);
      assert patch[..j + 1][1..] == patch[1..][..j] && patch[..j][1..] == patch[1..][..j - 1];
    }
  }

  // ---- what promotion preserves -----------------------------------------------------------

  predicate Plain(s: string) {
    '/' !in s && '~' !in s
  }

  /** The step adds one key to the table, escaped or not. */
  predicate AddsKey(s: Step, table: string) {
    Into(s, table) && '/' !in KeyOf(s, table)
  }

  /** The step is about something else: a pointer into another table, or none. */
  predicate Elsewhere(s: Step, table: string) {
    match Tokens(s.path)
    case None => true
    case Some(tokens) => tokens != [] && tokens[0] != table
  }

  /** Every step on the table is the addition of one key. */
  ghost predicate OnlyKeys(patch: seq<Step>, table: string) {
    forall i :: 0 <= i < |patch| ==> AddsKey(patch[i], table) || (Elsewhere(patch[i], table) && !Into(patch[i], table))
  }

  lemma AddsKeyTokens(s: Step, table: string)
    requires Plain(table) && AddsKey(s, table)
    ensures Tokens(s.path) == Some([table, Decode(KeyOf(s, table))])
  {
    var key := KeyOf(s, table);
    assert s.path == "/" + table + "/" + key;
    assert s.path[1..] == table + "/" + key;
    SplitAt(table, key);
    SplitPlain(key);
    DecodePlain(table);
    DecodePair(table, key);
  }

  lemma TableTokens(table: string)
    requires Plain(table)
    ensures Tokens("/" + table) == Some([table])
  {
    assert ("/" + table)[1..] == table;
    SplitPlain(table);
    DecodePlain(table);
    DecodePair(table, table);
  }

  function With(doc: Json, table: string, m: map<string, Json>): Json
    requires doc.Obj?
  {
    Obj(doc.fields[table := Obj(m)])
  }

  /** A step elsewhere does the same whatever the table holds. */
  lemma ElsewhereKeeps(doc: Json, s: Step, table: string, m: map<string, Json>)
    requires doc.Obj? && Elsewhere(s, table)
    ensures Apply(With(doc, table, m), s) ==
      match Apply(doc, s) case None => None case Some(d) => if d.Obj? then Some(With(d, table, m)) else None
    ensures Apply(doc, s).Some? ==> Apply(doc, s).value.Obj?
  {
    if Tokens(s.path).Some? {
      var tokens := Tokens(s.path).value;
      var here := With(doc, table, m);
      assert (tokens[0] in here.fields) == (tokens[0] in doc.fields);
      match At(doc, tokens, EditOf(s))
      case None =>
      case Some(d) => assert At(here, tokens, EditOf(s)).value.fields == With(d, table, m).fields;
    }
  }

  /** What the adds of the patch put in the table: each key as its pointer means it. */
  function Meant(patch: seq<Step>, table: string, m: map<string, Json>): map<string, Json>
    decreases |patch|
  {
    if patch == [] then m
    else if Into(patch[0], table) then Meant(patch[1..], table, m[Decode(KeyOf(patch[0], table)) := patch[0].value])
    else Meant(patch[1..], table, m)
  }

  /** Running the patch with the table there comes to running the other steps and
      putting the meant keys in. */
  lemma {:induction false} KeysCommute(doc: Json, patch: seq<Step>, table: string, m: map<string, Json>)
    requires doc.Obj? && Plain(table) && OnlyKeys(patch, table)
    ensures ApplyAll(With(doc, table, m), patch) ==
      match ApplyAll(doc, Rest(patch, table))
      case None => None
      case Some(d) => if d.Obj? then Some(With(d, table, Meant(patch, table, m))) else None
    decreases |patch|
  {
    if patch != [] {
      var s := patch[0];
      OnlyKeysTail(patch, table);
      if Into(s, table) {
        var m' := m[Decode(KeyOf(s, table)) := s.value];
        KeyAdded(doc, s, table, m);
        assert Rest(patch, table) == Rest(patch[1..], table);
        KeysCommute(doc, patch[1..], table, m');
      } else {
        ElsewhereKeeps(doc, s, table, m);
        assert Rest(patch, table) == [s] + Rest(patch[1..], table);
        assert ([s] + Rest(patch[1..], table))[1..] == Rest(patch[1..], table);
        if Apply(doc, s).Some? { KeysCommute(Apply(doc, s).value, patch[1..], table, m); }
      }
    }
  }

  lemma KeyAdded(doc: Json, s: Step, table: string, m: map<string, Json>)
    requires doc.Obj? && Plain(table) && AddsKey(s, table)
    ensures Apply(With(doc, table, m), s) == Some(With(doc, table, m[Decode(KeyOf(s, table)) := s.value]))
  {
    AddsKeyTokens(s, table);
    KeyPut(doc, table, Decode(KeyOf(s, table)), s.value, m);
  }

  lemma KeyPut(doc: Json, table: string, key: string, v: Json, m: map<string, Json>)
    requires doc.Obj?
    ensures At(With(doc, table, m), [table, key], Put(v)) == Some(With(doc, table, m[key := v]))
  {
    var here := With(doc, table, m);
    assert [table, key][1..] == [key];
    assert At(Obj(m), [key], Put(v)) == Some(Obj(m[key := v]));
    assert here.fields[table := Obj(m[key := v])] == doc.fields[table := Obj(m[key := v])];
  }

  lemma {:induction false} RestSteps(doc: Json, patch: seq<Step>, table: string, m: map<string, Json>)
    requires doc.Obj? && (forall i :: 0 <= i < |patch| ==> Elsewhere(patch[i], table))
    ensures ApplyAll(With(doc, table, m), patch) ==
      match ApplyAll(doc, patch) case None => None case Some(d) => if d.Obj? then Some(With(d, table, m)) else None
    decreases |patch|
  {
    if patch != [] {
      ElsewhereKeeps(doc, patch[0], table, m);
      forall i | 0 <= i < |patch[1..]| ensures Elsewhere(patch[1..][i], table) { assert patch[1..][i] == patch[i + 1]; }
      if Apply(doc, patch[0]).Some? { RestSteps(Apply(doc, patch[0]).value, patch[1..], table, m); }
    }
  }

  lemma {:induction false} RestElsewhere(patch: seq<Step>, table: string)
    requires OnlyKeys(patch, table)
    ensures forall i :: 0 <= i < |Rest(patch, table)| ==> Elsewhere(Rest(patch, table)[i], table)
  {
    if patch != [] {
      OnlyKeysTail(patch, table);
      RestElsewhere(patch[1..], table);
      var tail := Rest(patch[1..], table);
      assert Rest(patch, table) == (if Into(patch[0], table) then tail else [patch[0]] + tail);
    }
  }

  lemma OnlyKeysTail(patch: seq<Step>, table: string)
    requires patch != [] && OnlyKeys(patch, table)
    ensures OnlyKeys(patch[1..], table)
    ensures AddsKey(patch[0], table) || (Elsewhere(patch[0], table) && !Into(patch[0], table))
  {
    forall i | 0 <= i < |patch[1..]| ensures patch[1..][i] == patch[i + 1] {}
  }

  /** No key of the table has anything to decode. */
  ghost predicate NothingEscaped(patch: seq<Step>, table: string) {
    forall i :: 0 <= i < |patch| && Into(patch[i], table) ==> Decode(KeyOf(patch[i], table)) == KeyOf(patch[i], table)
  }

  /** The promoted patch means what adding an empty table and then running the original
      patch in order means, duplicates and failures included, exactly when no key has
      anything to decode, or the other steps fail anyway. */
  lemma PromotionMeansExactly(doc: Json, patch: seq<Step>, present: set<string>)
    requires doc.Obj? && Absent(patch, present).Some?
    requires var table := Absent(patch, present).value; Plain(table) && OnlyKeys(patch, table)
    ensures var table := Absent(patch, present).value;
      ApplyAll(doc, Promoted(patch, present)) == ApplyAll(doc, [Add("/" + table, Obj(map[]))] + patch) <==>
      ApplyAll(doc, Rest(patch, table)).None? || NothingEscaped(patch, table)
  {
    var table := Absent(patch, present).value;
    var whole, meant, rest := Whole(patch, table, map[]), Meant(patch, table, map[]), Rest(patch, table);
    TableAdded(doc, table, whole, rest);
    TableAdded(doc, table, map[], patch);
    RestElsewhere(patch, table);
    RestSteps(doc, rest, table, whole);
    KeysCommute(doc, patch, table, map[]);
    RestKeepsObj(doc, rest, table);
    if ApplyAll(doc, rest).Some? {
      SameTable(ApplyAll(doc, rest).value, table, whole, meant);
      WholeIsMeant(patch, table);
    }
  }

  lemma {:induction false} RestKeepsObj(doc: Json, patch: seq<Step>, table: string)
    requires doc.Obj? && forall i :: 0 <= i < |patch| ==> Elsewhere(patch[i], table)
    ensures ApplyAll(doc, patch).Some? ==> ApplyAll(doc, patch).value.Obj?
    decreases |patch|
  {
    if patch != [] && Apply(doc, patch[0]).Some? {
      ElsewhereKeeps(doc, patch[0], table, map[]);
      forall i | 0 <= i < |patch[1..]| ensures Elsewhere(patch[1..][i], table) { assert patch[1..][i] == patch[i + 1]; }
      RestKeepsObj(Apply(doc, patch[0]).value, patch[1..], table);
    }
  }

  lemma SameTable(doc: Json, table: string, a: map<string, Json>, b: map<string, Json>)
    requires doc.Obj?
    ensures With(doc, table, a) == With(doc, table, b) <==> a == b
  {
    if With(doc, table, a) == With(doc, table, b) {
      assert With(doc, table, a).fields[table] == Obj(a) && With(doc, table, b).fields[table] == Obj(b);
    }
  }

  lemma WholeIsMeant(patch: seq<Step>, table: string)
    ensures Whole(patch, table, map[]) == Meant(patch, table, map[]) <==> NothingEscaped(patch, table)
  {
    if NothingEscaped(patch, table) {
      KeptWhole(patch, table, map[]);
    } else {
      var i := LongestEscaped(patch, table);
      var key := KeyOf(patch[i], table);
      InWhole(patch, table, map[], key);
      if key in Meant(patch, table, map[]) {
        var j := InMeant(patch, table, map[], key);
        DecodeShrinks(KeyOf(patch[j], table));
      }
    }
  }

  lemma {:induction false} KeptWhole(patch: seq<Step>, table: string, m: map<string, Json>)
    requires NothingEscaped(patch, table)
    ensures Whole(patch, table, m) == Meant(patch, table, m)
    decreases |patch|
  {
    if patch != [] {
      forall i | 0 <= i < |patch[1..]| ensures patch[1..][i] == patch[i + 1] {}
      KeptWhole(patch[1..], table, if Into(patch[0], table) then m[KeyOf(patch[0], table) := patch[0].value] else m);
    }
  }

  /** Decoding shortens what it changes. */
  lemma {:induction false} DecodeShrinks(token: string)
    ensures |Decode(token)| <= |token|
    ensures Decode(token) != token ==> |Decode(token)| < |token|
    decreases |token|
  {
    if token != [] {
      if |token| >= 2 && token[0] == '~' && (token[1] == '1' || token[1] == '0') {
        DecodeShrinks(token[2..]);
      } else {
        DecodeShrinks(token[1..]);
        assert token == [token[0]] + token[1..];
      }
    }
  }

  predicate EscapedAt(patch: seq<Step>, table: string, i: nat) {
    i < |patch| && Into(patch[i], table) && Decode(KeyOf(patch[i], table)) != KeyOf(patch[i], table)
  }

  lemma LongestEscaped(patch: seq<Step>, table: string) returns (i: nat)
    requires !NothingEscaped(patch, table)
    ensures EscapedAt(patch, table, i)
    ensures forall j: nat :: EscapedAt(patch, table, j) ==> |KeyOf(patch[j], table)| <= |KeyOf(patch[i], table)|
  {
    var first :| 0 <= first < |patch| && Into(patch[first], table) && Decode(KeyOf(patch[first], table)) != KeyOf(patch[first], table);
    i := first;
    var k: nat := 0;
    while k < |patch|
      invariant k <= |patch| && EscapedAt(patch, table, i)
      invariant forall j: nat :: j < k && EscapedAt(patch, table, j) ==> |KeyOf(patch[j], table)| <= |KeyOf(patch[i], table)|
    {
      if EscapedAt(patch, table, k) && |KeyOf(patch[k], table)| > |KeyOf(patch[i], table)| { i := k; }
      k := k + 1;
    }
  }

  lemma {:induction false} InWhole(patch: seq<Step>, table: string, m: map<string, Json>, key: string)
    requires key in m || exists i: nat :: i < |patch| && Into(patch[i], table) && KeyOf(patch[i], table) == key
    ensures key in Whole(patch, table, m)
    decreases |patch|
  {
    if patch != [] {
      var m' := if Into(patch[0], table) then m[KeyOf(patch[0], table) := patch[0].value] else m;
      if key !in m' {
        var i: nat :| i < |patch| && Into(patch[i], table) && KeyOf(patch[i], table) == key;
        assert patch[1..][i - 1] == patch[i];
      }
      InWhole(patch[1..], table, m', key);
    }
  }

  lemma {:induction false} InMeant(patch: seq<Step>, table: string, m: map<string, Json>, key: string) returns (j: nat)
    requires key in Meant(patch, table, m) && key !in m
    ensures j < |patch| && Into(patch[j], table) && Decode(KeyOf(patch[j], table)) == key
    decreases |patch|
  {
    var m' := if Into(patch[0], table) then m[Decode(KeyOf(patch[0], table)) := patch[0].value] else m;
    if key in m' {
      j := 0;
    } else {
      j := InMeant(patch[1..], table, m', key);
      j := j + 1;
    }
  }

  lemma TableAdded(doc: Json, table: string, m: map<string, Json>, steps: seq<Step>)
    requires doc.Obj? && Plain(table)
    ensures ApplyAll(doc, [Add("/" + table, Obj(m))] + steps) == ApplyAll(With(doc, table, m), steps)
  {
    TableTokens(table);
    assert ([Add("/" + table, Obj(m))] + steps)[1..] == steps;
    assert Apply(doc, Add("/" + table, Obj(m))) == Some(With(doc, table, m));
  }

  /** With every wanted table there, the patch goes through as it is. */
  lemma PresentTablesAreLeftAlone(patch: seq<Step>, present: set<string>)
    requires forall i :: 0 <= i < |patch| && Wanted(patch[i]).Some? ==> Wanted(patch[i]).value in present
    ensures Promoted(patch, present) == patch
  {
    NothingAbsent(patch, present);
  }

  lemma {:induction false} NothingAbsent(patch: seq<Step>, present: set<string>)
    requires forall i :: 0 <= i < |patch| && Wanted(patch[i]).Some? ==> Wanted(patch[i]).value in present
    ensures Absent(patch, present).None?
  {
    if patch != [] {
      forall i | 0 <= i < |patch[1..]| ensures patch[1..][i] == patch[i + 1] {}
      NothingAbsent(patch[1..], present);
    }
  }

  // ---- more than one absent table --------------------------------------------------------------

  /** The step adds one plain key to a plain table. */
  predicate DepthTwo(s: Step) {
    Wanted(s).Some? && Plain(Wanted(s).value) && Into(s, Wanted(s).value) && Plain(KeyOf(s, Wanted(s).value))
  }

  ghost predicate AllDepthTwo(patch: seq<Step>) {
    forall i :: 0 <= i < |patch| ==> DepthTwo(patch[i])
  }

  /** A configuration of tables. */
  ghost predicate Tabular(doc: Json) {
    doc.Obj? && forall t :: t in doc.fields ==> doc.fields[t].Obj?
  }

  lemma DepthTwoStep(doc: Json, s: Step)
    requires Tabular(doc) && DepthTwo(s)
    ensures Apply(doc, s).Some? <==> Wanted(s).value in doc.fields
    ensures Apply(doc, s).Some? ==> Tabular(Apply(doc, s).value) && Apply(doc, s).value.fields.Keys == doc.fields.Keys
  {
    var t := Wanted(s).value;
    AddsKeyTokens(s, t);
    var tokens := Tokens(s.path).value;
    assert tokens[1..] == [tokens[1]];
    if t in doc.fields { assert At(doc.fields[t], [tokens[1]], Put(s.value)).Some?; }
  }

  /** A patch of such adds applies exactly when every table it adds to is there. */
  lemma {:induction false} AppliesWhereTablesAre(doc: Json, patch: seq<Step>)
    requires Tabular(doc) && AllDepthTwo(patch)
    ensures ApplyAll(doc, patch).Some? <==> forall i :: 0 <= i < |patch| ==> Wanted(patch[i]).value in doc.fields
    decreases |patch|
  {
    if patch != [] {
      forall i | 0 <= i < |patch[1..]| ensures patch[1..][i] == patch[i + 1] {}
      DepthTwoStep(doc, patch[0]);
      if Apply(doc, patch[0]).Some? {
        var d := Apply(doc, patch[0]).value;
        AppliesWhereTablesAre(d, patch[1..]);
        assert d.fields.Keys == doc.fields.Keys;
        forall i | 0 <= i < |patch| ensures Wanted(patch[i]).value in doc.fields <==> Wanted(patch[i]).value in d.fields {}
        if ApplyAll(d, patch[1..]).Some? {
          forall i | 0 <= i < |patch| ensures Wanted(patch[i]).value in doc.fields {
            if i > 0 { assert patch[1..][i - 1] == patch[i]; }
          }
        }
      }
    }
  }

  /** Any two absent tables the patch adds to are one. */
  ghost predicate AtMostOneAbsent(doc: Json, patch: seq<Step>)
    requires doc.Obj? && AllDepthTwo(patch)
  {
    forall i, j :: 0 <= i < |patch| && 0 <= j < |patch| && Wanted(patch[i]).value !in doc.fields && Wanted(patch[j]).value !in doc.fields
      ==> Wanted(patch[i]).value == Wanted(patch[j]).value
  }

  /** Promotion handles one absent table: a patch of plain adds goes through after it
      exactly when the tables it adds to lack at most one. */
  lemma AppliesAfterPromotionExactly(doc: Json, patch: seq<Step>)
    requires Tabular(doc) && AllDepthTwo(patch)
    ensures ApplyAll(doc, Promoted(patch, doc.fields.Keys)).Some? <==> AtMostOneAbsent(doc, patch)
  {
    match Absent(patch, doc.fields.Keys)
    case None =>
      NoneAbsent(patch, doc.fields.Keys);
      AppliesWhereTablesAre(doc, patch);
    case Some(t) =>
      var k := SomeAbsent(patch, doc.fields.Keys);
      var rest := Rest(patch, t);
      var here := With(doc, t, Whole(patch, t, map[]));
      TableAdded(doc, t, Whole(patch, t, map[]), rest);
      RestMeans(patch, t);
      AppliesWhereTablesAre(here, rest);
      RestTables(doc, patch, t);
  }

  lemma RestTables(doc: Json, patch: seq<Step>, t: string)
    requires Tabular(doc) && AllDepthTwo(patch) && Plain(t) && t !in doc.fields && (exists k :: 0 <= k < |patch| && Wanted(patch[k]).value == t)
    requires AllDepthTwo(Rest(patch, t)) && forall s :: s in Rest(patch, t) <==> s in patch && !Into(s, t)
    ensures (forall i :: 0 <= i < |Rest(patch, t)| ==> Wanted(Rest(patch, t)[i]).value in doc.fields.Keys + {t}) <==>
      AtMostOneAbsent(doc, patch)
  {
    var rest := Rest(patch, t);
    if forall i :: 0 <= i < |rest| ==> Wanted(rest[i]).value in doc.fields.Keys + {t} {
      forall i | 0 <= i < |patch| && Wanted(patch[i]).value !in doc.fields ensures Wanted(patch[i]).value == t {
        OnlyAbsent(doc, patch, t, i);
      }
    } else {
      var i :| 0 <= i < |rest| && Wanted(rest[i]).value !in doc.fields.Keys + {t};
      TwoAbsent(doc, patch, t, rest[i]);
    }
  }

  lemma TwoAbsent(doc: Json, patch: seq<Step>, t: string, s: Step)
    requires doc.Obj? && AllDepthTwo(patch) && t !in doc.fields && (exists k :: 0 <= k < |patch| && Wanted(patch[k]).value == t)
    requires s in patch && DepthTwo(s) && Wanted(s).value !in doc.fields && Wanted(s).value != t
    ensures !AtMostOneAbsent(doc, patch)
  {
    var k :| 0 <= k < |patch| && Wanted(patch[k]).value == t;
    var j :| 0 <= j < |patch| && patch[j] == s;
  }

  lemma OnlyAbsent(doc: Json, patch: seq<Step>, t: string, i: nat)
    requires Tabular(doc) && AllDepthTwo(patch) && Plain(t) && i < |patch|
    requires AllDepthTwo(Rest(patch, t)) && forall s :: s in Rest(patch, t) <==> s in patch && !Into(s, t)
    requires forall j :: 0 <= j < |Rest(patch, t)| ==> Wanted(Rest(patch, t)[j]).value in doc.fields.Keys + {t}
    ensures Wanted(patch[i]).value in doc.fields || Wanted(patch[i]).value == t
  {
    IntoItsTable(patch[i], t);
    if !Into(patch[i], t) {
      assert patch[i] in Rest(patch, t);
      var j :| 0 <= j < |Rest(patch, t)| && Rest(patch, t)[j] == patch[i];
    }
  }

  lemma IntoItsTable(s: Step, t: string)
    requires DepthTwo(s) && Plain(t)
    ensures Into(s, t) <==> Wanted(s).value == t
  {
    if Into(s, t) {
      assert s.path[1..] == t + "/" + s.path[|t| + 2..];
      SlashAt(t, s.path[|t| + 2..]);
    }
  }

  lemma {:induction false} RestMeans(patch: seq<Step>, t: string)
    requires AllDepthTwo(patch)
    ensures forall s :: s in Rest(patch, t) <==> s in patch && !Into(s, t)
    ensures AllDepthTwo(Rest(patch, t))
  {
    if patch != [] {
      forall i | 0 <= i < |patch[1..]| ensures patch[1..][i] == patch[i + 1] {}
      RestMeans(patch[1..], t);
      assert patch == [patch[0]] + patch[1..];
      var tail := Rest(patch[1..], t);
      assert Rest(patch, t) == (if Into(patch[0], t) then [] else [patch[0]]) + tail;
      forall i | 0 <= i < |Rest(patch, t)| ensures DepthTwo(Rest(patch, t)[i]) {
        assert Rest(patch, t)[i] in Rest(patch, t);
        assert DepthTwo(patch[0]);
      }
    }
  }

  lemma {:induction false} NoneAbsent(patch: seq<Step>, present: set<string>)
    requires AllDepthTwo(patch) && Absent(patch, present).None?
    ensures forall i :: 0 <= i < |patch| ==> Wanted(patch[i]).value in present
  {
    if patch != [] {
      forall i | 0 <= i < |patch[1..]| ensures patch[1..][i] == patch[i + 1] {}
      NoneAbsent(patch[1..], present);
      forall i | 0 <= i < |patch| ensures Wanted(patch[i]).value in present {
        if i > 0 { assert patch[1..][i - 1] == patch[i]; } else { assert DepthTwo(patch[0]); }
      }
    }
  }

  lemma {:induction false} SomeAbsent(patch: seq<Step>, present: set<string>) returns (k: nat)
    requires AllDepthTwo(patch) && Absent(patch, present).Some?
    ensures k < |patch| && Wanted(patch[k]).value == Absent(patch, present).value && Absent(patch, present).value !in present
    ensures Plain(Absent(patch, present).value)
  {
    assert DepthTwo(patch[0]);
    if Wanted(patch[0]).value !in present {
      k := 0;
    } else {
      forall i | 0 <= i < |patch[1..]| ensures patch[1..][i] == patch[i + 1] {}
      k := SomeAbsent(patch[1..], present);
      k := k + 1;
    }
  }

  lemma {:induction false} SlashAt(s: string, rest: string)
    requires '/' !in s
    ensures UpToSlash(s + "/" + rest) == s
  {
    if s != [] {
      SlashAt(s[1..], rest);
      assert (s + "/" + rest)[1..] == s[1..] + "/" + rest;
      assert s == [s[0]] + s[1..];
    }
  }
}
