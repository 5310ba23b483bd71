/** Reading the pin back: the route table as text, the `via` of the pin line, and
    the spine whose leg it names. */
module PathTable {
  import opened Text
  import opened ServiceObjects
  import opened Srv6Render
  import opened Srv6Laws

  predicate IsSpace(c: char) {
    c == ' ' || c == '\t' || c == '\n' || c == '\r'
  }

  ghost predicate IsWord(s: string) {
    s != [] && forall i :: 0 <= i < |s| ==> !IsSpace(s[i])
  }

  /** strings.Split at line breaks. */
  function Lines(s: string): (r: seq<string>)
    ensures r != []
  {
    if s == [] then [[]]
    else if s[0] == '\n' then [[]] + Lines(s[1..])
    else
      var rest := Lines(s[1..]);
      [[s[0]] + rest[0]] + rest[1..]
  }

  function Join(lines: seq<string>): string
    requires lines != []
  {
    if |lines| == 1 then lines[0] else lines[0] + "\n" + Join(lines[1..])
  }

  /** Lines that hold no break come back from their joined text. */
  lemma {:induction false} LinesOfJoin(lines: seq<string>)
    requires lines != [] && forall i :: 0 <= i < |lines| ==> '\n' !in lines[i]
    ensures Lines(Join(lines)) == lines
    decreases |lines|
  {
    if |lines| == 1 {
      LinesOfOne(lines[0]);
    } else {
      LinesOfJoin(lines[1..]);
      LinesOfFirst(lines[0], Join(lines[1..]));
      assert Join(lines) == lines[0] + ("\n" + Join(lines[1..]));
    }
  }

  lemma {:induction false} LinesOfOne(line: string)
    requires '\n' !in line
    ensures Lines(line) == [line]
  {
    if line != [] {
      LinesOfOne(line[1..]);
      assert line == [line[0]] + line[1..];
    }
  }

  lemma {:induction false} LinesOfFirst(line: string, rest: string)
    requires '\n' !in line
    ensures Lines(line + ("\n" + rest)) == [line] + Lines(rest)
  {
    if line == [] {
      assert line + ("\n" + rest) == "\n" + rest && ("\n" + rest)[1..] == rest;
    } else {
      LinesOfFirst(line[1..], rest);
      var s := line + ("\n" + rest);
      assert s[1..] == line[1..] + ("\n" + rest);
      assert line == [line[0]] + line[1..];
    }
  }

  // ---- words ------------------------------------------------------------------------

  /** The leading run of characters that are no space. */
  function Word(s: string): (w: string)
    ensures w <= s && forall i :: 0 <= i < |w| ==> !IsSpace(w[i])
    ensures |w| < |s| ==> IsSpace(s[|w|])
  {
    if s == [] || IsSpace(s[0]) then [] else [s[0]] + Word(s[1..])
  }

  /** strings.Fields. */
  function Fields(s: string): seq<string>
    decreases |s|
  {
    if s == [] then []
    else if IsSpace(s[0]) then Fields(s[1..])
    else [Word(s)] + Fields(s[|Word(s)|..])
  }

  lemma FieldsOfWord(w: string, rest: string)
    requires IsWord(w) && (rest == [] || IsSpace(rest[0]))
    ensures Fields(w + rest) == [w] + Fields(rest)
  {
    WordOf(w, rest);
    assert (w + rest)[|w|..] == rest;
  }

  lemma {:induction false} WordOf(w: string, rest: string)
    requires (forall i :: 0 <= i < |w| ==> !IsSpace(w[i])) && (rest == [] || IsSpace(rest[0]))
    ensures Word(w + rest) == w
  {
    if w == [] {
      assert w + rest == rest;
    } else {
      assert (w + rest)[1..] == w[1..] + rest;
      WordOf(w[1..], rest);
    }
  }

  /** The token after the first `via` that has one. */
  function ViaOf(fields: seq<string>): Option<string> {
    if |fields| < 2 then None
    else if fields[0] == "via" then Some(fields[1])
    else ViaOf(fields[1..])
  }

  /** viaAddress as the scan it is. */
  method ViaAddress(line: string) returns (via: Option<string>)
    ensures via == ViaOf(Fields(line))
  {
    var fields := Fields(line);
    for i := 0 to |fields|
      invariant ViaOf(fields) == ViaOf(fields[i..])
    {
      assert fields[i..][1..] == fields[i + 1..];
      if fields[i] == "via" && i + 1 < |fields| { return Some(fields[i + 1]); }
    }
    via := None;
  }

  // ---- the pin line -----------------------------------------------------------------------

  predicate StartsWith(s: string, prefix: string) {
    prefix <= s
  }

  /** The via of the first line for the destination that carries one. */
  function PinVia(lines: seq<string>, dst: string): Option<string> {
    if lines == [] then None
    else if StartsWith(lines[0], dst + " ") && ViaOf(Fields(lines[0])).Some? then ViaOf(Fields(lines[0]))
    else PinVia(lines[1..], dst)
  }

  /** The spines whose leg on the node has the address. */
  function Serving(legs: map<string, string>, via: string): set<string> {
    set s | s in legs && legs[s] != "" && legs[s] == via
  }

  datatype Observation = Observation(active: string, via: string, down: bool)

  /** readPathTable: the first pin line decides; which spine is named when two
      legs share the address is left open, as map iteration leaves it. */
  method ReadPathTable(table: string, dst: string, legs: map<string, string>) returns (o: Observation)
    ensures PinVia(Lines(table), dst).None? ==> o == Observation("", "", true)
    ensures PinVia(Lines(table), dst).Some? ==>
      var via := PinVia(Lines(table), dst).value;
      && o.via == via
      && (o.down <==> Serving(legs, via) == {})
      && (if o.down then o.active == "" else o.active in Serving(legs, via))
  {
    var lines := Lines(table);
    for i := 0 to |lines|
      invariant PinVia(lines, dst) == PinVia(lines[i..], dst)
    {
      assert lines[i..][1..] == lines[i + 1..];
      if StartsWith(lines[i], dst + " ") {
        var via := ViaAddress(lines[i]);
        if via.Some? {
          var serving := Serving(legs, via.value);
          if serving == {} { return Observation("", via.value, true); }
          var spine :| spine in serving;
          return Observation(spine, via.value, false);
        }
      }
    }
    o := Observation("", "", true);
  }

  /** The line the kernel prints for the preferred pin. */
  function PinLine(dst: string, via: string, tail: string): string {
    dst + " from :: via " + via + tail
  }

  lemma PinLineVia(dst: string, via: string, tail: string)
    requires IsWord(dst) && dst != "via" && IsWord(via) && (tail == [] || IsSpace(tail[0]))
    ensures StartsWith(PinLine(dst, via, tail), dst + " ")
    ensures ViaOf(Fields(PinLine(dst, via, tail))) == Some(via)
  {
    var d := via + tail;
    var c := "via" + (" " + d);
    var b := "::" + (" " + c);
    var a := "from" + (" " + b);
    PinLineParts(dst, via, tail);
    FieldsOfWord(via, tail);
    WordThen("via", d);
    assert ViaOf(Fields(c)) == Some(via);
    SkipWord("::", c);
    SkipWord("from", b);
    SkipWord(dst, a);
  }

  lemma PinLineParts(dst: string, via: string, tail: string)
    ensures PinLine(dst, via, tail) == dst + (" " + ("from" + (" " + ("::" + (" " + ("via" + (" " + (via + tail))))))))
    ensures StartsWith(PinLine(dst, via, tail), dst + " ")
  {
    var d := via + tail;
    assert PinLine(dst, via, tail) == dst + (" from :: via " + d);
    assert " from :: via " + d == " " + ("from :: via " + d);
    assert "from :: via " + d == "from" + (" :: via " + d);
    assert " :: via " + d == " " + (":: via " + d);
    assert ":: via " + d == "::" + (" via " + d);
    assert " via " + d == " " + ("via " + d);
    assert "via " + d == "via" + (" " + d);
  }

  lemma WordThen(w: string, s: string)
    requires IsWord(w)
    ensures Fields(w + (" " + s)) == [w] + Fields(s)
  {
    FieldsOfWord(w, " " + s);
    assert (" " + s)[1..] == s;
  }

  lemma SkipWord(w: string, s: string)
    requires IsWord(w) && w != "via" && ViaOf(Fields(s)).Some?
    ensures ViaOf(Fields(w + (" " + s))) == ViaOf(Fields(s))
  {
    WordThen(w, s);
    assert ([w] + Fields(s))[1..] == Fields(s);
  }

  /** A table in which the first line for the destination is the pin line reads
      back the address of that line, whatever other routes it lists. */
  lemma {:induction false} TableReadsPin(before: seq<string>, dst: string, via: string, tail: string, after: seq<string>)
    requires IsWord(dst) && dst != "via" && IsWord(via) && (tail == [] || IsSpace(tail[0]))
    requires forall i :: 0 <= i < |before| ==> !StartsWith(before[i], dst + " ")
    ensures PinVia(before + [PinLine(dst, via, tail)] + after, dst) == Some(via)
  {
    var lines := before + [PinLine(dst, via, tail)] + after;
    if before == [] {
      PinLineVia(dst, via, tail);
      assert lines[0] == PinLine(dst, via, tail);
    } else {
      TableReadsPin(before[1..], dst, via, tail, after);
      assert lines[1..] == before[1..] + [PinLine(dst, via, tail)] + after;
      assert lines[0] == before[0];
    }
  }

  /** A steered plan's own pin, read back from the ingress leaf, names exactly the
      spines that share the preferred leg's address: the preferred spine alone
      when the leg addresses are distinct. */
  lemma RenderedPinReadsBack(spec: ServiceSpec, alloc: Allocations, facts: Facts, frame: Frame, n: Node,
                             self: Attach, peer: Attach, link: string, addr: string, np: NodePlan,
                             before: seq<string>, tail: string, after: seq<string>)
    requires MadeOf(spec, alloc, facts, frame, n, self, peer, link, addr, np) && SteeredIngress(spec, frame, n)
    requires IsWord(peer.sidFn) && peer.sidFn != "via" && IsWord(link) && (tail == [] || IsSpace(tail[0]))
    requires forall i :: 0 <= i < |before| ==> '\n' !in before[i] && !StartsWith(before[i], peer.sidFn + " ")
    requires '\n' !in tail && forall i :: 0 <= i < |after| ==> '\n' !in after[i]
    ensures Shell([ReplacePreferredPin(peer.sidFn, link)]) in np.ops
    ensures var legs := facts.spineLinks[n];
      var lines := before + [PinLine(peer.sidFn, link, tail)] + after;
      && PinVia(Lines(Join(lines)), peer.sidFn) == Some(link)
      && spec.preferredSpine in Serving(legs, link)
      && ((forall s, t :: s in legs && t in legs && s != t ==> legs[s] != legs[t]) ==> Serving(legs, link) == {spec.preferredSpine})
  {
    var line := PinLine(peer.sidFn, link, tail);
    var lines := before + [line] + after;
    assert '\n' !in line by {
      assert forall i :: 0 <= i < |peer.sidFn| ==> peer.sidFn[i] != '\n';
      assert forall i :: 0 <= i < |link| ==> link[i] != '\n';
    }
    LinesOfJoin(lines);
    TableReadsPin(before, peer.sidFn, link, tail, after);
    PinIsRendered(spec, frame, n, self, peer, link, addr);
  }

  lemma PinIsRendered(spec: ServiceSpec, frame: Frame, n: Node, self: Attach, peer: Attach, link: string, addr: string)
    requires SteeredIngress(spec, frame, n)
    ensures Shell([ReplacePreferredPin(peer.sidFn, link)]) in NodeOps(spec, frame, n, self, peer, link, addr)
  {
    assert NodeOps(spec, frame, n, self, peer, link, addr)[5] == Shell([ReplacePreferredPin(peer.sidFn, link)]);
  }

  // ---- the decision ---------------------------------------------------------------------------

  /** steerPathOutcome for a steered service. */
  datatype Outcome = Down | Proceed(active: string, skipRepair: bool)

  function SteerPathOutcome(spec: ServiceSpec, o: Observation, failed: Option<Kind>): Outcome {
    if o.down then Down
    else Proceed(o.active, failed == Some(CheckKind) && o.active != "" && o.active != spec.preferredSpine)
  }

  /** Failover and drift are told apart by the observed spine alone: a failed
      check is skipped exactly when the pin rides a named spine other than the
      preferred one, and a pin that is the plan's own is never skipped when leg
      addresses are distinct. */
  lemma OwnPinIsNeverFailover(spec: ServiceSpec, legs: map<string, string>, via: string, o: Observation, failed: Option<Kind>)
    requires forall s, t :: s in legs && t in legs && s != t ==> legs[s] != legs[t]
    requires spec.preferredSpine in legs && legs[spec.preferredSpine] != ""
    requires o.via == via && (o.down <==> Serving(legs, via) == {}) && (!o.down ==> o.active in Serving(legs, via))
    ensures via == legs[spec.preferredSpine] <==> SteerPathOutcome(spec, o, failed) == Proceed(spec.preferredSpine, false)
  {
    if via == legs[spec.preferredSpine] {
      assert spec.preferredSpine in Serving(legs, via);
    }
  }
}
