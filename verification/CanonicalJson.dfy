/** The canonical JSON printer: object members in key order, strings escaped as
    the Go encoder escapes them. The output is a function of the value alone and
    determines it (sections 4, 5 and 7 of RFC 8259). */
module CanonicalJson {
  import opened StringSort
  import opened Text

  /** A number stands by its printed text, which is what the encoder yields. */
  datatype Json =
    | Null
    | Bool(b: bool)
    | Number(text: string)
    | Str(s: string)
    | Arr(items: seq<Json>)
    | Obj(members: map<string, Json>)

  // ---- strings ---------------------------------------------------------------------

  function Hex(d: nat): char
    requires d < 16
  {
    "0123456789abcdef"[d]
  }

  /** \u and four hexadecimal digits. */
  function UnicodeEscape(n: nat): (s: string)
    requires n < 0x1_0000
    ensures |s| == 6 && s[0] == '\\' && s[1] == 'u'
  {
    ['\\', 'u', Hex(n / 0x1000), Hex(n / 0x100 % 16), Hex(n / 0x10 % 16), Hex(n % 16)]
  }

  /** Characters the encoder writes as \u escapes besides the control characters. */
  predicate Guarded(c: char) {
    c == '<' || c == '>' || c == '&' || c as int == 0x2028 || c as int == 0x2029
  }

  function EscapeChar(c: char): (s: string)
    ensures s != []
  {
    if c == '"' then "\\\""
    else if c == '\\' then "\\\\"
    else if c as int == 8 then "\\b"
    else if c as int == 12 then "\\f"
    else if c == '\n' then "\\n"
    else if c == '\r' then "\\r"
    else if c == '\t' then "\\t"
    else if c as int < 0x20 || Guarded(c) then UnicodeEscape(c as int)
    else [c]
  }

  function Escaped(s: string): string {
    if s == [] then [] else EscapeChar(s[0]) + Escaped(s[1..])
  }

  function Quoted(s: string): string {
    "\"" + Escaped(s) + "\""
  }

  lemma UnicodeInjective(a: nat, b: nat)
    requires a < 0x1_0000 && b < 0x1_0000 && UnicodeEscape(a) == UnicodeEscape(b)
    ensures a == b
  {
    var s, t := UnicodeEscape(a), UnicodeEscape(b);
    HexInjective(a / 0x1000, b / 0x1000);
    HexInjective(a / 0x100 % 16, b / 0x100 % 16);
    HexInjective(a / 0x10 % 16, b / 0x10 % 16);
    HexInjective(a % 16, b % 16);
    assert s[2] == t[2] && s[3] == t[3] && s[4] == t[4] && s[5] == t[5];
    Digits(a);
    Digits(b);
  }

  lemma Digits(a: nat)
    requires a < 0x1_0000
    ensures a == (a / 0x1000) * 0x1000 + (a / 0x100 % 16) * 0x100 + (a / 0x10 % 16) * 0x10 + a % 16
  {
    assert a == a / 0x10 * 0x10 + a % 16;
    assert a / 0x10 == a / 0x100 * 16 + a / 0x10 % 16;
    assert a / 0x100 == a / 0x1000 * 16 + a / 0x100 % 16;
  }

  lemma HexInjective(a: nat, b: nat)
    requires a < 16 && b < 16
    ensures Hex(a) == Hex(b) ==> a == b
  {
  }

  /** No character's escape begins another's. */
  lemma EscapeIsPrefixFree(c: char, d: char, x: string, y: string)
    requires EscapeChar(c) + x == EscapeChar(d) + y
    ensures c == d && x == y
  {
    var e, f := EscapeChar(c), EscapeChar(d);
    assert (e + x)[0] == e[0] && (f + y)[0] == f[0];
    if e[0] == '\\' {
      assert |e| >= 2 && |f| >= 2;
      assert (e + x)[1] == e[1] && (f + y)[1] == f[1];
      if e[1] == 'u' {
        assert (e + x)[..6] == e && (f + y)[..6] == f;
        UnicodeInjective(c as int, d as int);
      }
    }
    assert c == d;
    assert (e + x)[|e|..] == x && (f + y)[|e|..] == y;
  }

  lemma EscapeNotQuote(c: char)
    ensures EscapeChar(c)[0] != '"'
  {
  }

  /** Only the closing quote reads as a quote. */
  lemma ClosesAtQuote(a: string, x: string)
    ensures |Escaped(a) + ("\"" + x)| > 0
    ensures (Escaped(a) + ("\"" + x))[0] == '"' <==> a == []
  {
    if a == [] {
      assert Escaped(a) + ("\"" + x) == "\"" + x;
    } else {
      EscapeNotQuote(a[0]);
      EscapedNext(a, x);
    }
  }

  lemma EscapedNext(a: string, x: string)
    requires a != []
    ensures Escaped(a) + ("\"" + x) == EscapeChar(a[0]) + (Escaped(a[1..]) + ("\"" + x))
  {
  }

  lemma {:induction false} EscapedUnique(a: string, b: string, x: string, y: string)
    requires Escaped(a) + ("\"" + x) == Escaped(b) + ("\"" + y)
    ensures a == b && x == y
  {
    ClosesAtQuote(a, x);
    ClosesAtQuote(b, y);
    if a == [] {
      assert ("\"" + x)[1..] == x && ("\"" + y)[1..] == y;
      assert Escaped(a) + ("\"" + x) == "\"" + x && Escaped(b) + ("\"" + y) == "\"" + y;
    } else {
      EscapedNext(a, x);
      EscapedNext(b, y);
      EscapeIsPrefixFree(a[0], b[0], Escaped(a[1..]) + ("\"" + x), Escaped(b[1..]) + ("\"" + y));
      EscapedUnique(a[1..], b[1..], x, y);
      assert a == [a[0]] + a[1..] && b == [b[0]] + b[1..];
    }
  }

  lemma QuotedUnique(a: string, b: string, x: string, y: string)
    requires Quoted(a) + x == Quoted(b) + y
    ensures a == b && x == y
  {
    QuotedParts(a, x);
    QuotedParts(b, y);
    EscapedUnique(a, b, x, y);
  }

  lemma QuotedParts(a: string, x: string)
    ensures |Quoted(a) + x| > 0 && (Quoted(a) + x)[1..] == Escaped(a) + ("\"" + x)
  {
    assert Quoted(a) + x == "\"" + (Escaped(a) + ("\"" + x));
  }

  // ---- numbers -----------------------------------------------------------------------

  predicate NumberChar(c: char) {
    '0' <= c <= '9' || c == '-' || c == '+' || c == '.' || c == 'e' || c == 'E'
  }

  predicate IsNumber(t: string) {
    t != [] && ('0' <= t[0] <= '9' || t[0] == '-') && forall i :: 0 <= i < |t| ==> NumberChar(t[i])
  }

  /** What may follow a value. */
  predicate Ends(x: string) {
    x == [] || x[0] == ',' || x[0] == ']' || x[0] == '}'
  }

  lemma NumberGoesOn(a: string, x: string)
    requires Ends(x) && forall i :: 0 <= i < |a| ==> NumberChar(a[i])
    ensures (a + x != [] && NumberChar((a + x)[0])) <==> a != []
  {
    if a == [] { assert a + x == x; } else { assert (a + x)[0] == a[0]; }
  }

  lemma {:induction false} NumberUnique(a: string, b: string, x: string, y: string)
    requires (forall i :: 0 <= i < |a| ==> NumberChar(a[i])) && (forall i :: 0 <= i < |b| ==> NumberChar(b[i]))
    requires Ends(x) && Ends(y) && a + x == b + y
    ensures a == b && x == y
  {
    NumberGoesOn(a, x);
    NumberGoesOn(b, y);
    if a == [] {
      assert a + x == x && b + y == y;
    } else {
      assert (a + x)[0] == a[0] && (b + y)[0] == b[0];
      assert (a + x)[1..] == a[1..] + x && (b + y)[1..] == b[1..] + y;
      NumberUnique(a[1..], b[1..], x, y);
      assert a == [a[0]] + a[1..] && b == [b[0]] + b[1..];
    }
  }

  // ---- printing ------------------------------------------------------------------------

  /** Every number in the value has a number's text. */
  ghost predicate WellFormed(v: Json)
    decreases v
  {
    match v
    case Number(t) => IsNumber(t)
    case Arr(items) => forall i :: 0 <= i < |items| ==> WellFormed(items[i])
    case Obj(members) => forall k :: k in members ==> WellFormed(members[k])
    case _ => true
  }

  function Print(v: Json): string
    decreases v, 1, 0
  {
    match v
    case Null => "null"
    case Bool(b) => if b then "true" else "false"
    case Number(t) => t
    case Str(s) => Quoted(s)
    case Arr(items) => "[" + PrintItems(v, items) + "]"
    case Obj(members) => "{" + PrintMembers(v, members, SortedKeys(members.Keys)) + "}"
  }

  function PrintItems(v: Json, items: seq<Json>): string
    requires forall i :: 0 <= i < |items| ==> items[i] < v
    decreases v, 0, |items|
  {
    if items == [] then ""
    else if |items| == 1 then Print(items[0])
    else Print(items[0]) + "," + PrintItems(v, items[1..])
  }

  function PrintMembers(v: Json, members: map<string, Json>, keys: seq<string>): string
    requires forall k :: k in keys ==> k in members && members[k] < v
    decreases v, 0, |keys|
  {
    if keys == [] then ""
    else if |keys| == 1 then Quoted(keys[0]) + ":" + Print(members[keys[0]])
    else Quoted(keys[0]) + ":" + Print(members[keys[0]]) + "," + PrintMembers(v, members, keys[1..])
  }

  // ---- unique decodability -----------------------------------------------------------------

  /** The first character of a printed value tells its kind. */
  function First(v: Json): char {
    match v
    case Null => 'n'
    case Bool(b) => if b then 't' else 'f'
    case Number(t) => if t == [] then '0' else t[0]
    case Str(_) => '"'
    case Arr(_) => '['
    case Obj(_) => '{'
  }

  lemma PrintStarts(v: Json, x: string)
    requires WellFormed(v)
    ensures Print(v) != [] && (Print(v) + x)[0] == First(v)
  {
  }

  lemma {:induction false} PrintUnique(v: Json, w: Json, x: string, y: string)
    requires WellFormed(v) && WellFormed(w) && Ends(x) && Ends(y)
    requires Print(v) + x == Print(w) + y
    ensures v == w && x == y
    decreases v, 2, 0
  {
    PrintStarts(v, x);
    PrintStarts(w, y);
    SameKind(v, w);
    match v
    case Null => DropSame("null", x, y);
    case Bool(b) => DropSame(Print(v), x, y);
    case Number(t) => NumberUnique(t, w.text, x, y);
    case Str(s) => QuotedUnique(s, w.s, x, y);
    case Arr(_) => ArrUnique(v, w, x, y);
    case Obj(_) => ObjUnique(v, w, x, y);
  }

  lemma SameKind(v: Json, w: Json)
    requires WellFormed(v) && WellFormed(w) && First(v) == First(w)
    ensures v.Null? == w.Null? && v.Bool? == w.Bool? && v.Number? == w.Number? && v.Str? == w.Str? && v.Arr? == w.Arr? && v.Obj? == w.Obj?
    ensures v.Bool? ==> v.b == w.b
  {
  }

  lemma {:induction false} ArrUnique(v: Json, w: Json, x: string, y: string)
    requires v.Arr? && w.Arr? && WellFormed(v) && WellFormed(w)
    requires Print(v) + x == Print(w) + y
    ensures v == w && x == y
    decreases v, 1, 0
  {
    Bracketed("[", PrintItems(v, v.items), "]", x);
    Bracketed("[", PrintItems(w, w.items), "]", y);
    DropSame("[", PrintItems(v, v.items) + ("]" + x), PrintItems(w, w.items) + ("]" + y));
    ItemsUnique(v, w, v.items, w.items, x, y);
  }

  lemma Bracketed(open: string, body: string, close: string, x: string)
    ensures open + body + close + x == open + (body + (close + x))
  {
  }

  lemma {:induction false} ObjUnique(v: Json, w: Json, x: string, y: string)
    requires v.Obj? && w.Obj? && WellFormed(v) && WellFormed(w)
    requires Print(v) + x == Print(w) + y
    ensures v == w && x == y
    decreases v, 1, 0
  {
    var ks, ls := SortedKeys(v.members.Keys), SortedKeys(w.members.Keys);
    Bracketed("{", PrintMembers(v, v.members, ks), "}", x);
    Bracketed("{", PrintMembers(w, w.members, ls), "}", y);
    DropSame("{", PrintMembers(v, v.members, ks) + ("}" + x), PrintMembers(w, w.members, ls) + ("}" + y));
    MembersUnique(v, w, v.members, w.members, ks, ls, x, y);
    SameMembers(v.members, w.members, ks, ls);
  }

  lemma DropSame(p: string, x: string, y: string)
    requires p + x == p + y
    ensures x == y
  {
    assert (p + x)[|p|..] == x && (p + y)[|p|..] == y;
  }

  lemma SameMembers(m: map<string, Json>, n: map<string, Json>, ks: seq<string>, ls: seq<string>)
    requires ks == ls && (forall k :: k in ks <==> k in m) && (forall k :: k in ls <==> k in n)
    requires forall i :: 0 <= i < |ks| ==> m[ks[i]] == n[ks[i]]
    ensures m == n
  {
    assert m.Keys == n.Keys;
    forall k | k in m ensures m[k] == n[k] {
      var i :| 0 <= i < |ks| && ks[i] == k;
    }
  }

  /** How the text of a list of items goes on: with the first item and what
      follows it, or with the closing bracket. */
  function ItemsTail(v: Json, items: seq<Json>, x: string): string
    requires items != [] && forall i :: 0 <= i < |items| ==> items[i] < v
  {
    if |items| == 1 then "]" + x else "," + (PrintItems(v, items[1..]) + ("]" + x))
  }

  lemma ItemsSplit(v: Json, items: seq<Json>, x: string)
    requires forall i :: 0 <= i < |items| ==> items[i] < v && WellFormed(items[i])
    ensures items == [] ==> PrintItems(v, items) + ("]" + x) == "]" + x
    ensures items != [] ==> PrintItems(v, items) + ("]" + x) == Print(items[0]) + ItemsTail(v, items, x)
    ensures (PrintItems(v, items) + ("]" + x))[0] == ']' <==> items == []
    ensures items != [] ==> Ends(ItemsTail(v, items, x))
  {
    if |items| == 1 {
      PrintStarts(items[0], "]" + x);
    } else if items != [] {
      assert PrintItems(v, items) == Print(items[0]) + "," + PrintItems(v, items[1..]);
      CommaAssoc(Print(items[0]), PrintItems(v, items[1..]), "]" + x);
      PrintStarts(items[0], ItemsTail(v, items, x));
    }
  }

  lemma CommaAssoc(a: string, b: string, c: string)
    ensures a + "," + b + c == a + ("," + (b + c))
  {
  }

  lemma {:induction false} ItemsUnique(v: Json, w: Json, items: seq<Json>, others: seq<Json>, x: string, y: string)
    requires forall i :: 0 <= i < |items| ==> items[i] < v && WellFormed(items[i])
    requires forall i :: 0 <= i < |others| ==> others[i] < w && WellFormed(others[i])
    requires PrintItems(v, items) + ("]" + x) == PrintItems(w, others) + ("]" + y)
    ensures items == others && x == y
    decreases v, 0, |items|, 0
  {
    ItemsSplit(v, items, x);
    ItemsSplit(w, others, y);
    if items == [] {
      DropSame("]", x, y);
    } else {
      HeadUnique(v, w, items, others, ItemsTail(v, items, x), ItemsTail(w, others, y));
      TailsAgree(v, w, items, others, x, y);
      RestUnique(v, w, items, others, x, y);
      assert items == [items[0]] + items[1..] && others == [others[0]] + others[1..];
    }
  }

  lemma {:induction false} HeadUnique(v: Json, w: Json, items: seq<Json>, others: seq<Json>, x: string, y: string)
    requires items != [] && items[0] < v && WellFormed(items[0])
    requires others != [] && others[0] < w && WellFormed(others[0])
    requires Ends(x) && Ends(y) && Print(items[0]) + x == Print(others[0]) + y
    ensures items[0] == others[0] && x == y
    decreases v, 0, 0, 0
  {
    PrintUnique(items[0], others[0], x, y);
  }

  lemma {:induction false} RestUnique(v: Json, w: Json, items: seq<Json>, others: seq<Json>, x: string, y: string)
    requires items != [] && forall i :: 0 <= i < |items| ==> items[i] < v && WellFormed(items[i])
    requires others != [] && forall i :: 0 <= i < |others| ==> others[i] < w && WellFormed(others[i])
    requires ItemsTail(v, items, x) == ItemsTail(w, others, y) && (|items| == 1 <==> |others| == 1)
    ensures items[1..] == others[1..] && x == y
    decreases v, 0, |items| - 1, 1
  {
    if |items| == 1 {
      DropSame("]", x, y);
    } else {
      DropSame(",", PrintItems(v, items[1..]) + ("]" + x), PrintItems(w, others[1..]) + ("]" + y));
      ItemsUnique(v, w, items[1..], others[1..], x, y);
    }
  }

  lemma TailsAgree(v: Json, w: Json, items: seq<Json>, others: seq<Json>, x: string, y: string)
    requires items != [] && (forall i :: 0 <= i < |items| ==> items[i] < v)
    requires others != [] && (forall i :: 0 <= i < |others| ==> others[i] < w)
    requires ItemsTail(v, items, x) == ItemsTail(w, others, y)
    ensures |items| == 1 <==> |others| == 1
  {
    assert ItemsTail(v, items, x)[0] == if |items| == 1 then ']' else ',';
    assert ItemsTail(w, others, y)[0] == if |others| == 1 then ']' else ',';
  }

  function MembersTail(v: Json, m: map<string, Json>, keys: seq<string>, x: string): string
    requires keys != [] && forall k :: k in keys ==> k in m && m[k] < v
  {
    if |keys| == 1 then "}" + x else "," + (PrintMembers(v, m, keys[1..]) + ("}" + x))
  }

  lemma MembersSplit(v: Json, m: map<string, Json>, keys: seq<string>, x: string)
    requires forall k :: k in keys ==> k in m && m[k] < v
    ensures keys == [] ==> PrintMembers(v, m, keys) + ("}" + x) == "}" + x
    ensures keys != [] ==> PrintMembers(v, m, keys) + ("}" + x) == Quoted(keys[0]) + (":" + (Print(m[keys[0]]) + MembersTail(v, m, keys, x)))
    ensures (PrintMembers(v, m, keys) + ("}" + x))[0] == '}' <==> keys == []
    ensures keys != [] ==> Ends(MembersTail(v, m, keys, x))
  {
    if |keys| == 1 {
      assert PrintMembers(v, m, keys) == Quoted(keys[0]) + ":" + Print(m[keys[0]]);
      Chained(Quoted(keys[0]), Print(m[keys[0]]), "}" + x);
    } else if keys != [] {
      assert PrintMembers(v, m, keys) == Quoted(keys[0]) + ":" + Print(m[keys[0]]) + "," + PrintMembers(v, m, keys[1..]);
      ChainedOn(Quoted(keys[0]), Print(m[keys[0]]), PrintMembers(v, m, keys[1..]), "}" + x);
    }
  }

  lemma Chained(k: string, val: string, x: string)
    requires k != [] && k[0] == '"'
    ensures k + ":" + val + x == k + (":" + (val + x))
    ensures (k + ":" + val + x)[0] == '"'
  {
  }

  lemma ChainedOn(k: string, val: string, more: string, x: string)
    requires k != [] && k[0] == '"'
    ensures k + ":" + val + "," + more + x == k + (":" + (val + ("," + (more + x))))
    ensures (k + ":" + val + "," + more + x)[0] == '"'
  {
    assert k + ":" + val + "," + more + x == k + ":" + val + ("," + (more + x));
    Chained(k, val, "," + (more + x));
  }

  lemma {:induction false} MembersUnique(v: Json, w: Json, m: map<string, Json>, n: map<string, Json>,
                                         ks: seq<string>, ls: seq<string>, x: string, y: string)
    requires forall k :: k in ks ==> k in m && m[k] < v && WellFormed(m[k])
    requires forall k :: k in ls ==> k in n && n[k] < w && WellFormed(n[k])
    requires PrintMembers(v, m, ks) + ("}" + x) == PrintMembers(w, n, ls) + ("}" + y)
    ensures ks == ls && x == y && forall i :: 0 <= i < |ks| ==> m[ks[i]] == n[ls[i]]
    decreases v, 0, |ks|
  {
    MembersSplit(v, m, ks, x);
    MembersSplit(w, n, ls, y);
    if ks == [] {
      DropSame("}", x, y);
    } else {
      MemberUnique(v, w, m, n, ks, ls, x, y);
      if |ks| == 1 {
        DropSame("}", x, y);
      } else {
        DropSame(",", PrintMembers(v, m, ks[1..]) + ("}" + x), PrintMembers(w, n, ls[1..]) + ("}" + y));
        MembersUnique(v, w, m, n, ks[1..], ls[1..], x, y);
      }
      assert ks == [ks[0]] + ks[1..] && ls == [ls[0]] + ls[1..];
      forall i | 0 <= i < |ks| ensures m[ks[i]] == n[ls[i]] {
        if i > 0 { assert ks[i] == ks[1..][i - 1] && ls[i] == ls[1..][i - 1]; }
      }
    }
  }

  lemma {:induction false} MemberUnique(v: Json, w: Json, m: map<string, Json>, n: map<string, Json>,
                                        ks: seq<string>, ls: seq<string>, x: string, y: string)
    requires ks != [] && forall k :: k in ks ==> k in m && m[k] < v && WellFormed(m[k])
    requires ls != [] && forall k :: k in ls ==> k in n && n[k] < w && WellFormed(n[k])
    requires Ends(MembersTail(v, m, ks, x)) && Ends(MembersTail(w, n, ls, y))
    requires Quoted(ks[0]) + (":" + (Print(m[ks[0]]) + MembersTail(v, m, ks, x)))
          == Quoted(ls[0]) + (":" + (Print(n[ls[0]]) + MembersTail(w, n, ls, y)))
    ensures ks[0] == ls[0] && m[ks[0]] == n[ls[0]] && MembersTail(v, m, ks, x) == MembersTail(w, n, ls, y)
    ensures |ks| == 1 <==> |ls| == 1
    decreases v, 0, 0
  {
    var a, b := Print(m[ks[0]]) + MembersTail(v, m, ks, x), Print(n[ls[0]]) + MembersTail(w, n, ls, y);
    QuotedUnique(ks[0], ls[0], ":" + a, ":" + b);
    DropSame(":", a, b);
    PrintUnique(m[ks[0]], n[ls[0]], MembersTail(v, m, ks, x), MembersTail(w, n, ls, y));
    assert MembersTail(v, m, ks, x)[0] == if |ks| == 1 then '}' else ',';
    assert MembersTail(w, n, ls, y)[0] == if |ls| == 1 then '}' else ',';
  }

  /** Two values with the same canonical text are the same value. */
  lemma CanonicalTextDeterminesValue(v: Json, w: Json)
    requires WellFormed(v) && WellFormed(w) && Print(v) == Print(w)
    ensures v == w
  {
    assert Print(v) + [] == Print(v) && Print(w) + [] == Print(w);
    PrintUnique(v, w, [], []);
  }

  // ---- the code ------------------------------------------------------------------------------

  function JoinComma(parts: seq<string>): string {
    if parts == [] then "" else if |parts| == 1 then parts[0] else parts[0] + "," + JoinComma(parts[1..])
  }

  lemma {:induction false} PartsAreMembers(v: Json, m: map<string, Json>, keys: seq<string>, parts: seq<string>)
    requires |parts| == |keys| && forall k :: k in keys ==> k in m && m[k] < v
    requires forall i :: 0 <= i < |keys| ==> parts[i] == Quoted(keys[i]) + ":" + Print(m[keys[i]])
    ensures JoinComma(parts) == PrintMembers(v, m, keys)
  {
    if |keys| > 1 { PartsAreMembers(v, m, keys[1..], parts[1..]); }
  }

  lemma {:induction false} PartsAreItems(v: Json, items: seq<Json>, parts: seq<string>)
    requires |parts| == |items| && forall i :: 0 <= i < |items| ==> items[i] < v && parts[i] == Print(items[i])
    ensures JoinComma(parts) == PrintItems(v, items)
  {
    if |items| > 1 { PartsAreItems(v, items[1..], parts[1..]); }
  }

  /** Collect the keys in whatever order the map yields them, and sort. */
  method SortedMemberKeys(members: map<string, Json>) returns (keys: seq<string>)
    ensures keys == SortedKeys(members.Keys)
  {
    var found: seq<string> := [];
    var todo := members.Keys;
    while todo != {}
      invariant todo <= members.Keys
      invariant forall k :: k in found <==> k in members.Keys - todo
      invariant Distinct(found)
      decreases |todo|
    {
      var k :| k in todo;
      DistinctSnoc(found, k);
      found := found + [k];
      todo := todo - {k};
    }
    var a := new string[|found|](i requires 0 <= i < |found| => found[i]);
    assert a[..] == found;
    SortStrings(a);
    keys := a[..];
    SameElements(keys, found);
    SortedUnique(keys, SortedKeys(members.Keys));
  }

  lemma DistinctSnoc(s: seq<string>, x: string)
    requires Distinct(s) && x !in s
    ensures Distinct(s + [x])
  {
  }

  lemma SameElements(a: seq<string>, b: seq<string>)
    requires multiset(a) == multiset(b) && Distinct(b)
    ensures Distinct(a) && forall x :: x in a <==> x in b
  {
    forall x ensures x in a <==> x in b {
      assert x in multiset(a) <==> x in multiset(b);
    }
    forall i, j | 0 <= i < j < |a| ensures a[i] != a[j] {
      if a[i] == a[j] {
        TwiceInMultiset(a, i, j);
        OnceInMultiset(b, a[i]);
      }
    }
  }

  lemma TwiceInMultiset(a: seq<string>, i: nat, j: nat)
    requires i < j < |a| && a[i] == a[j]
    ensures multiset(a)[a[i]] >= 2
  {
    assert a == a[..i] + [a[i]] + a[i + 1..j] + [a[j]] + a[j + 1..];
    assert multiset(a) == multiset(a[..i]) + multiset{a[i]} + multiset(a[i + 1..j]) + multiset{a[j]} + multiset(a[j + 1..]);
  }

  lemma {:induction false} OnceInMultiset(b: seq<string>, x: string)
    requires Distinct(b)
    ensures multiset(b)[x] <= 1
  {
    if b != [] {
      assert b == [b[0]] + b[1..];
      assert multiset(b) == multiset{b[0]} + multiset(b[1..]);
      OnceInMultiset(b[1..], x);
      if b[0] == x { assert x !in b[1..]; }
    }
  }

  /** marshalCanonical: the keys collected in map order and sorted, a part for
      each member or element, and the parts joined. */
  method MarshalCanonical(v: Json) returns (s: string)
    ensures s == Print(v)
    decreases v
  {
    match v
    case Obj(members) =>
      var keys := SortedMemberKeys(members);
      var parts: seq<string> := [];
      for i := 0 to |keys|
        invariant |parts| == i
        invariant forall j :: 0 <= j < i ==> parts[j] == Quoted(keys[j]) + ":" + Print(members[keys[j]])
      {
        assert keys[i] in members;
        var value := MarshalCanonical(members[keys[i]]);
        parts := parts + [Quoted(keys[i]) + ":" + value];
      }
      PartsAreMembers(v, members, keys, parts);
      s := "{" + JoinComma(parts) + "}";
    case Arr(items) =>
      var parts: seq<string> := [];
      for i := 0 to |items|
        invariant |parts| == i && forall j :: 0 <= j < i ==> parts[j] == Print(items[j])
      {
        var value := MarshalCanonical(items[i]);
        parts := parts + [value];
      }
      PartsAreItems(v, items, parts);
      s := "[" + JoinComma(parts) + "]";
    case _ => s := Print(v);
  }
}
