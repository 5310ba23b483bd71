/** Docker's stdio multiplexing: frames of an 8-byte header and a payload, split
    back into standard output and standard error. */
module StreamDemux {

  newtype Byte = x: int | 0 <= x < 256

  datatype Frame = Frame(kind: Byte, payload: seq<Byte>)

  function Uint32(b: seq<Byte>): (n: nat)
    requires |b| == 4
    ensures n < 0x1_0000_0000
  {
    (b[0] as int) * 0x100_0000 + (b[1] as int) * 0x1_0000 + (b[2] as int) * 0x100 + (b[3] as int)
  }

  function PutUint32(n: nat): (b: seq<Byte>)
    requires n < 0x1_0000_0000
    ensures |b| == 4
  {
    [(n / 0x100_0000) as Byte, (n / 0x1_0000 % 0x100) as Byte, (n / 0x100 % 0x100) as Byte, (n % 0x100) as Byte]
  }

  lemma Uint32RoundTrip(n: nat)
    requires n < 0x1_0000_0000
    ensures Uint32(PutUint32(n)) == n
  {
    assert n == n / 0x100 * 0x100 + n % 0x100;
    assert n / 0x100 == n / 0x1_0000 * 0x100 + n / 0x100 % 0x100;
    assert n / 0x1_0000 == n / 0x100_0000 * 0x100 + n / 0x1_0000 % 0x100;
  }

  function Encode(frames: seq<Frame>): seq<Byte>
    requires forall f :: f in frames ==> |f.payload| < 0x1_0000_0000
  {
    if frames == [] then []
    else [frames[0].kind, 0, 0, 0] + PutUint32(|frames[0].payload|) + frames[0].payload + Encode(frames[1..])
  }

  /** The payloads of one stream type, in order. */
  function Payloads(frames: seq<Frame>, kind: Byte): seq<Byte> {
    if frames == [] then []
    else (if frames[0].kind == kind then frames[0].payload else []) + Payloads(frames[1..], kind)
  }

  datatype Streams = Streams(out: seq<Byte>, err: seq<Byte>)

  /** What is left after a whole frame, and what the frame carried: all of its
      payload, or what there is of it. */
  function Carried(s: seq<Byte>): (p: seq<Byte>)
    requires |s| >= 8
    ensures |p| <= |s| - 8
  {
    var size := Uint32(s[4..8]);
    if size <= |s| - 8 then s[8..8 + size] else s[8..]
  }

  function Give(kind: Byte, p: seq<Byte>): Streams {
    Streams(if kind == 1 then p else [], if kind == 2 then p else [])
  }

  /** The streams a byte stream splits into, up to where it ends. */
  function Demux(s: seq<Byte>): Streams
    decreases |s|
  {
    if |s| < 8 then Streams([], [])
    else
      var p := Carried(s);
      var here := Give(s[0], p);
      if |p| < Uint32(s[4..8]) then here
      else
        Joined(here, Demux(s[8 + |p|..]))
  }

  /** demuxStream: a header array filled again and again, and two buffers; a
      short header or a short payload ends the loop. */
  method DemuxStream(s: seq<Byte>) returns (stdout: seq<Byte>, stderr: seq<Byte>)
    ensures Streams(stdout, stderr) == Demux(s)
  {
    hide Demux, Carried;
    stdout, stderr := [], [];
    var header := new Byte[8];
    var rest := s;
    while |rest| >= 8
      invariant Demux(s) == Joined(Streams(stdout, stderr), Demux(rest))
      decreases |rest|
    {
      ReadFull(header, rest);
      var size := Uint32(header[4..8]);
      var p := Carried(rest);
      DemuxStep(rest);
      ghost var sofar := Streams(stdout, stderr);
      match header[0] {
        case 1 => stdout := stdout + p;
        case 2 => stderr := stderr + p;
        case _ =>
      }
      assert Streams(stdout, stderr) == Joined(sofar, Give(rest[0], p));
      if |p| < size { return; }
      JoinedAssoc(sofar, Give(rest[0], p), Demux(rest[8 + |p|..]));
      rest := rest[8 + |p|..];
    }
    ShortRest(rest);
  }

  function Joined(a: Streams, b: Streams): Streams {
    Streams(a.out + b.out, a.err + b.err)
  }

  lemma JoinedAssoc(a: Streams, b: Streams, c: Streams)
    ensures Joined(a, Joined(b, c)) == Joined(Joined(a, b), c)
  {
  }

  method ReadFull(header: array<Byte>, s: seq<Byte>)
    requires header.Length == 8 <= |s|
    modifies header
    ensures header[..] == s[..8]
    ensures header[4..8] == s[4..8] && header[0] == s[0]
  {
    for i := 0 to 8
      invariant forall j :: 0 <= j < i ==> header[j] == s[j]
    {
      header[i] := s[i];
    }
  }

  lemma ShortRest(s: seq<Byte>)
    requires |s| < 8
    ensures Demux(s) == Streams([], [])
  {
  }

  lemma DemuxStep(s: seq<Byte>)
    requires |s| >= 8
    ensures var p := Carried(s);
      Demux(s) == if |p| < Uint32(s[4..8]) then Give(s[0], p)
                  else Joined(Give(s[0], p), Demux(s[8 + |p|..]))
  {
  }

  lemma FrameSplits(f: Frame, rest: seq<Byte>)
    requires |f.payload| < 0x1_0000_0000
    ensures var s := [f.kind, 0, 0, 0] + PutUint32(|f.payload|) + f.payload + rest;
      |s| >= 8 && s[0] == f.kind && Uint32(s[4..8]) == |f.payload| && Carried(s) == f.payload && s[8 + |f.payload|..] == rest
  {
    var s := [f.kind, 0, 0, 0] + PutUint32(|f.payload|) + f.payload + rest;
    assert s[4..8] == PutUint32(|f.payload|);
    Uint32RoundTrip(|f.payload|);
    assert s[8..8 + |f.payload|] == f.payload;
  }

  /** Parsing the encoding of any frames gives back, in order, what was written
      to each stream; frames of other types are dropped. */
  lemma {:induction false} DemuxRoundTrips(frames: seq<Frame>)
    requires forall f :: f in frames ==> |f.payload| < 0x1_0000_0000
    ensures Demux(Encode(frames)) == Streams(Payloads(frames, 1), Payloads(frames, 2))
    decreases |frames|
  {
    if frames != [] {
      var rest := Encode(frames[1..]);
      FrameSplits(frames[0], rest);
      DemuxStep(Encode(frames));
      DemuxRoundTrips(frames[1..]);
    }
  }

  /** Cut anywhere, a stream splits into prefixes of what the whole splits into. */
  lemma {:induction false} TruncationGivesPrefixes(s: seq<Byte>, n: nat)
    requires n <= |s|
    ensures Demux(s[..n]).out <= Demux(s).out && Demux(s[..n]).err <= Demux(s).err
    decreases |s|
  {
    if n >= 8 {
      var t := s[..n];
      var p, q := Carried(s), Carried(t);
      CutFrame(s, n);
      DemuxStep(s);
      DemuxStep(t);
      if |q| == Uint32(s[4..8]) {
        TruncationGivesPrefixes(s[8 + |p|..], n - 8 - |q|);
      }
    }
  }

  lemma CutFrame(s: seq<Byte>, n: nat)
    requires 8 <= n <= |s|
    ensures var p, q := Carried(s), Carried(s[..n]);
      && q <= p && s[..n][0] == s[0] && s[..n][4..8] == s[4..8]
      && Give(s[0], q).out <= Give(s[0], p).out && Give(s[0], q).err <= Give(s[0], p).err
      && (|q| == Uint32(s[4..8]) ==> q == p && s[..n][8 + |q|..] == s[8 + |p|..][..n - 8 - |q|])
  {
    var t := s[..n];
    assert t[4..8] == s[4..8];
    var size := Uint32(s[4..8]);
    var p, q := Carried(s), Carried(t);
    if size <= n - 8 {
      assert q == t[8..8 + size] == s[8..8 + size] == p;
      assert t[8 + size..] == s[8 + size..][..n - 8 - size];
    } else {
      assert q == t[8..] == s[8..n];
      assert s[8..n] <= p;
    }
  }

  /** In particular a cut encoding yields prefixes of the payloads. */
  lemma CutEncodingGivesPrefixes(frames: seq<Frame>, n: nat)
    requires forall f :: f in frames ==> |f.payload| < 0x1_0000_0000
    requires n <= |Encode(frames)|
    ensures Demux(Encode(frames)[..n]).out <= Payloads(frames, 1) && Demux(Encode(frames)[..n]).err <= Payloads(frames, 2)
  {
    DemuxRoundTrips(frames);
    TruncationGivesPrefixes(Encode(frames), n);
  }
}
