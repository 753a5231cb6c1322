/**
 * The wire format and the session reader: a four-byte little-endian length,
 * then that many payload bytes, read by two alternating asynchronous reads.
 */
module Framing {
  import opened Basics

  /** A header announcing this many bytes or more closes the connection. */
  const LENGTH_LIMIT: nat := 102400

  predicate LegalLength(n: nat) {
    0 < n < LENGTH_LIMIT
  }

  predicate LegalFrame(body: Bytes) {
    LegalLength(|body|)
  }

  // ---------------------------------------------------------------- headers

  function Pow2(k: nat): (p: nat)
    ensures p > 0
  {
    if k == 0 then 1 else 2 * Pow2(k - 1)
  }

  /** Bitwise or of two unsigned integers. */
  function BitOr(x: nat, y: nat): nat
    decreases x + y
  {
    if x == 0 && y == 0 then 0
    else 2 * BitOr(x / 2, y / 2) + (if x % 2 == 1 || y % 2 == 1 then 1 else 0)
  }

  function ShiftLeft(x: nat, k: nat): nat {
    x * Pow2(k)
  }

  /** The length the header handler computes, with shifts and ors. */
  function ShiftOrLength(h: Bytes): nat
    requires |h| == 4
  {
    BitOr(BitOr(BitOr(h[0], ShiftLeft(h[1], 8)), ShiftLeft(h[2], 16)), ShiftLeft(h[3], 24))
  }

  /** The number four little-endian bytes stand for. */
  function Length(h: Bytes): nat
    requires |h| == 4
  {
    var b0: int, b1: int, b2: int, b3: int := h[0], h[1], h[2], h[3];
    b0 + 256 * b1 + 65536 * b2 + 16777216 * b3
  }

  /** What a client sends: the length packed in four little-endian bytes. */
  function Header(n: nat): (h: Bytes)
    ensures |h| == 4
  {
    [n % 256, n / 256 % 256, n / 65536 % 256, n / 16777216 % 256]
  }

  /** An or of bits that do not overlap is a sum. */
  lemma {:induction false} DisjointOrIsSum(x: nat, z: nat, k: nat)
    requires x < Pow2(k)
    ensures BitOr(x, z * Pow2(k)) == x + z * Pow2(k)
    decreases k, x + z
  {
    if k == 0 {
      OrWithZero(z);
    } else {
      var y := z * Pow2(k);
      assert y == 2 * (z * Pow2(k - 1));
      DisjointOrIsSum(x / 2, z, k - 1);
    }
  }

  lemma {:induction false} OrWithZero(z: nat)
    ensures BitOr(0, z) == z
  {
    if z != 0 {
      OrWithZero(z / 2);
    }
  }

  lemma Powers()
    ensures Pow2(8) == 256 && Pow2(16) == 65536 && Pow2(24) == 16777216
  {
    assert Pow2(4) == 16;
    assert Pow2(8) == 256;
    assert Pow2(12) == 4096;
    assert Pow2(16) == 65536;
    assert Pow2(20) == 1048576;
    assert Pow2(24) == 16777216;
  }

  /** Shift-and-or decoding is the base-256 value, for every four bytes. */
  lemma ShiftOrIsLittleEndian(h: Bytes)
    requires |h| == 4
    ensures ShiftOrLength(h) == Length(h)
    ensures ShiftOrLength(h) == h[0] as int + 256 * (h[1] as int + 256 * (h[2] as int + 256 * h[3] as int))
  {
    Powers();
    var b0: int, b1: int, b2: int, b3: int := h[0], h[1], h[2], h[3];
    DisjointOrIsSum(b0, b1, 8);
    DisjointOrIsSum(b0 + b1 * 256, b2, 16);
    DisjointOrIsSum(b0 + b1 * 256 + b2 * 65536, b3, 24);
  }

  /** Decoding a packed header gives the length back, for every 32-bit length. */
  lemma PackedLengthDecodes(n: nat)
    requires n < 0x1_0000_0000
    ensures Length(Header(n)) == n
  {
    var q1, q2, q3 := n / 256, n / 65536, n / 16777216;
    assert q2 == q1 / 256 && q3 == q2 / 256;
    assert n == n % 256 + 256 * (q1 % 256 + 256 * (q2 % 256 + 256 * q3));
  }

  /** Packing a decoded length gives the header bytes back. */
  lemma DecodedLengthPacks(h: Bytes)
    requires |h| == 4
    ensures Header(Length(h)) == h
  {
    var b0: int, b1: int, b2: int, b3: int := h[0], h[1], h[2], h[3];
    var v := Length(h);
    assert v / 256 == b1 + 256 * b2 + 65536 * b3;
    assert v / 65536 == b2 + 256 * b3;
    assert v / 16777216 == b3;
  }

  // ------------------------------------------------------ whole-stream view

  datatype Parsed = Parsed(frames: seq<Bytes>, rest: Bytes)

  /** The stream cannot start with a complete legal frame. */
  predicate Incomplete(s: Bytes) {
    |s| < 4 || (LegalLength(Length(s[..4])) && |s| < 4 + Length(s[..4]))
  }

  predicate BadLength(s: Bytes) {
    |s| >= 4 && !LegalLength(Length(s[..4]))
  }

  function Parse(s: Bytes): Parsed
    decreases |s|
  {
    if Incomplete(s) || BadLength(s) then Parsed([], s)
    else
      var n := Length(s[..4]);
      var tail := Parse(s[4 + n..]);
      Parsed([s[4..4 + n]] + tail.frames, tail.rest)
  }

  function Frame(body: Bytes): Bytes {
    Header(|body|) + body
  }

  function Encode(bodies: seq<Bytes>): Bytes {
    if bodies == [] then [] else Frame(bodies[0]) + Encode(bodies[1..])
  }

  /** The first frame of a parsed stream is a prefix of it. */
  lemma FirstFrameIsPrefix(s: Bytes)
    requires !Incomplete(s) && !BadLength(s)
    ensures Frame(s[4..4 + Length(s[..4])]) + s[4 + Length(s[..4])..] == s
  {
    hide Length, Header;
    DecodedLengthPacks(s[..4]);
    var n := Length(s[..4]);
    assert |s[4..4 + n]| == n;
    assert s[..4] + s[4..4 + n] + s[4 + n..] == s;
  }

  /** What one parsing step puts in front still re-encodes to the stream. */
  lemma ReencodeStep(s: Bytes, body: Bytes, more: seq<Bytes>, rest: Bytes, tail: Bytes)
    requires Frame(body) + tail == s
    requires Encode(more) + rest == tail
    ensures Encode([body] + more) + rest == s
  {
    hide Frame;
    EncodeCons(body, more);
    assert (Frame(body) + Encode(more)) + rest == Frame(body) + (Encode(more) + rest);
  }

  /** Frames and remainder account for every byte of the stream, and parsing stops only for cause. */
  lemma {:induction false} ReencodeGivesBackStream(s: Bytes)
    ensures var p := Parse(s);
            && Encode(p.frames) + p.rest == s
            && (forall f :: f in p.frames ==> 1 <= |f| <= 102399)
            && (|p.rest| < 4
                || var n := Length(p.rest[..4]); n == 0 || n >= 102400 || |p.rest| < 4 + n)
    decreases |s|
  {
    hide Length, Header, Frame, Encode;
    if Incomplete(s) || BadLength(s) {
      assert Encode([]) == [] by { EncodeNil(); }
      assert [] + s == s;
    } else {
      var n := Length(s[..4]);
      var body, tail := s[4..4 + n], s[4 + n..];
      ReencodeGivesBackStream(tail);
      FirstFrameIsPrefix(s);
      ReencodeStep(s, body, Parse(tail).frames, Parse(tail).rest, tail);
    }
  }

  lemma EncodeNil()
    ensures Encode([]) == []
  {
  }

  lemma EncodeCons(body: Bytes, more: seq<Bytes>)
    ensures Encode([body] + more) == Frame(body) + Encode(more)
  {
    assert ([body] + more)[1..] == more;
  }

  /** A legal frame in front of a stream is the first thing parsed. */
  lemma ParseFrame(body: Bytes, rest: Bytes)
    requires LegalFrame(body)
    ensures Parse(Frame(body) + rest) == Parsed([body] + Parse(rest).frames, Parse(rest).rest)
  {
    PackedLengthDecodes(|body|);
    hide Length, Header;
    var s := Frame(body) + rest;
    assert s[..4] == Header(|body|);
    assert s[4..4 + |body|] == body;
    assert s[4 + |body|..] == rest;
  }

  /** Any legal frames put in front of any stream come out first and unchanged. */
  lemma {:induction false} FramingRoundTrip(bodies: seq<Bytes>, tail: Bytes)
    requires forall b :: b in bodies ==> 1 <= |b| <= 102399
    ensures Parse(Encode(bodies) + tail) == Parsed(bodies + Parse(tail).frames, Parse(tail).rest)
    decreases |bodies|
  {
    hide Parse, Frame;
    if bodies == [] {
      assert Encode(bodies) + tail == tail;
      assert bodies + Parse(tail).frames == Parse(tail).frames;
    } else {
      var body, more := bodies[0], bodies[1..];
      ParseFrame(body, Encode(more) + tail);
      FramingRoundTrip(more, tail);
      assert Frame(body) + Encode(more) + tail == Frame(body) + (Encode(more) + tail);
      assert [body] + (more + Parse(tail).frames) == bodies + Parse(tail).frames;
    }
  }

  /** There is only one way to cut a stream into legal frames and a stuck remainder. */
  lemma FramingIsUnique(s: Bytes, frames: seq<Bytes>, rest: Bytes)
    requires s == Encode(frames) + rest
    requires forall f :: f in frames ==> 1 <= |f| <= 102399
    requires |rest| < 4 || var n := Length(rest[..4]); n == 0 || n >= 102400 || |rest| < 4 + n
    ensures Parse(s) == Parsed(frames, rest)
  {
    FramingRoundTrip(frames, rest);
    assert frames + [] == frames;
  }

  // ------------------------------------------------------- the read machine

  /** Which read is outstanding, and how much of its buffer is filled. */
  datatype Phase =
    | ReadHeader(got: Bytes)
    | ReadBody(length: nat, got: Bytes)
    | Closed(header: Bytes)

  datatype Reader = Reader(phase: Phase, frames: seq<Bytes>)

  const FRESH := Reader(ReadHeader([]), [])

  predicate WellFormed(r: Reader) {
    match r.phase
    case ReadHeader(got) => |got| < 4
    case ReadBody(n, got) => LegalLength(n) && |got| < n
    case Closed(h) => |h| == 4
  }

  function HeaderDone(h: Bytes, frames: seq<Bytes>): Reader
    requires |h| == 4
  {
    var n := Length(h);
    Reader(if LegalLength(n) then ReadBody(n, []) else Closed(h), frames)
  }

  /** One more byte reaches the session; a filled buffer runs its completion handler. */
  function Absorb(r: Reader, b: Byte): (r': Reader)
    requires WellFormed(r)
    ensures WellFormed(r')
  {
    match r.phase
    case ReadHeader(got) =>
      if |got| < 3 then r.(phase := ReadHeader(got + [b])) else HeaderDone(got + [b], r.frames)
    case ReadBody(n, got) =>
      if |got| + 1 < n then r.(phase := ReadBody(n, got + [b]))
      else Reader(ReadHeader([]), r.frames + [got + [b]])
    case Closed(_) => r
  }

  function AbsorbAll(r: Reader, s: Bytes): (r': Reader)
    requires WellFormed(r)
    ensures WellFormed(r')
    decreases |s|
  {
    if s == [] then r else AbsorbAll(Absorb(r, s[0]), s[1..])
  }

  function AbsorbChunks(r: Reader, chunks: seq<Bytes>): (r': Reader)
    requires WellFormed(r)
    ensures WellFormed(r')
    decreases |chunks|
  {
    if chunks == [] then r else AbsorbChunks(AbsorbAll(r, chunks[0]), chunks[1..])
  }

  lemma {:induction false} AbsorbConcat(r: Reader, s: Bytes, t: Bytes)
    requires WellFormed(r)
    ensures AbsorbAll(r, s + t) == AbsorbAll(AbsorbAll(r, s), t)
    decreases |s|
  {
    if s == [] {
      assert s + t == t;
    } else {
      assert (s + t)[1..] == s[1..] + t;
      AbsorbConcat(Absorb(r, s[0]), s[1..], t);
    }
  }

  lemma {:induction false} AbsorbPartialHeader(r: Reader, s: Bytes)
    requires r.phase.ReadHeader? && |r.phase.got| + |s| < 4
    ensures AbsorbAll(r, s) == r.(phase := ReadHeader(r.phase.got + s))
    decreases |s|
  {
    if s == [] {
      assert r.phase.got + s == r.phase.got;
    } else {
      var got := r.phase.got;
      AbsorbPartialHeader(Absorb(r, s[0]), s[1..]);
      assert got + [s[0]] + s[1..] == got + s;
    }
  }

  lemma {:induction false} AbsorbPartialBody(r: Reader, s: Bytes)
    requires r.phase.ReadBody? && LegalLength(r.phase.length) && |r.phase.got| + |s| < r.phase.length
    ensures AbsorbAll(r, s) == r.(phase := ReadBody(r.phase.length, r.phase.got + s))
    decreases |s|
  {
    if s == [] {
      assert r.phase.got + s == r.phase.got;
    } else {
      var got := r.phase.got;
      AbsorbPartialBody(Absorb(r, s[0]), s[1..]);
      assert got + [s[0]] + s[1..] == got + s;
    }
  }

  lemma {:induction false} AbsorbClosed(r: Reader, s: Bytes)
    requires WellFormed(r) && r.phase.Closed?
    ensures AbsorbAll(r, s) == r
    decreases |s|
  {
    if s != [] {
      AbsorbClosed(r, s[1..]);
    }
  }

  /** Filling the rest of the outstanding buffer runs its handler. */
  lemma AbsorbFill(r: Reader, s: Bytes)
    requires WellFormed(r) && !r.phase.Closed?
    requires |s| == Missing(r.phase)
    ensures r.phase.ReadHeader? ==> AbsorbAll(r, s) == HeaderDone(r.phase.got + s, r.frames)
    ensures r.phase.ReadBody? ==> AbsorbAll(r, s) == Reader(ReadHeader([]), r.frames + [r.phase.got + s])
  {
    var k := |s| - 1;
    var front, last := s[..k], s[k];
    assert s == front + [last];
    AbsorbConcat(r, front, [last]);
    var got := r.phase.got;
    if r.phase.ReadHeader? {
      AbsorbPartialHeader(r, front);
    } else {
      AbsorbPartialBody(r, front);
    }
    assert got + front + [last] == got + s;
    var mid := AbsorbAll(r, front);
    assert AbsorbAll(mid, [last]) == AbsorbAll(Absorb(mid, last), []);
  }

  /** Bytes the outstanding read still waits for. */
  function Missing(p: Phase): int
    requires !p.Closed?
  {
    if p.ReadHeader? then 4 - |p.got| else p.length - |p.got|
  }

  /** Where a session stands when exactly this remainder is unparsed. */
  function PhaseOf(rest: Bytes): Phase {
    if |rest| < 4 then ReadHeader(rest)
    else if BadLength(rest) then Closed(rest[..4])
    else ReadBody(Length(rest[..4]), rest[4..])
  }

  /** A header and what follows it, when no complete frame is there. */
  lemma MachineStops(s: Bytes, before: seq<Bytes>)
    requires Incomplete(s) || BadLength(s)
    ensures AbsorbAll(Reader(ReadHeader([]), before), s) == Reader(PhaseOf(s), before)
  {
    hide Length;
    var r := Reader(ReadHeader([]), before);
    if |s| < 4 {
      AbsorbPartialHeader(r, s);
      assert [] + s == s;
    } else {
      var h, tail := s[..4], s[4..];
      assert s == h + tail;
      AbsorbConcat(r, h, tail);
      AbsorbFill(r, h);
      assert [] + h == h && [] + tail == tail;
      if BadLength(s) {
        AbsorbClosed(AbsorbAll(r, h), tail);
      } else {
        AbsorbPartialBody(AbsorbAll(r, h), tail);
      }
    }
  }

  lemma CutInThree(s: Bytes, i: nat, j: nat)
    requires i <= j <= |s|
    ensures s == s[..i] + (s[i..j] + s[j..])
  {
  }

  /** A complete frame is delivered and the machine is back at a header read. */
  lemma MachineDelivers(s: Bytes, n: nat, before: seq<Bytes>)
    requires |s| >= 4 && Length(s[..4]) == n && LegalLength(n) && |s| >= 4 + n
    ensures AbsorbAll(Reader(ReadHeader([]), before), s)
         == AbsorbAll(Reader(ReadHeader([]), before + [s[4..4 + n]]), s[4 + n..])
  {
    hide Length;
    var r := Reader(ReadHeader([]), before);
    var h, body, more := s[..4], s[4..4 + n], s[4 + n..];
    CutInThree(s, 4, 4 + n);
    AbsorbConcat(r, h, body + more);
    AbsorbFill(r, h);
    assert [] + h == h && [] + body == body;
    var r1 := AbsorbAll(r, h);
    AbsorbConcat(r1, body, more);
    AbsorbFill(r1, body);
  }

  /** The byte-at-a-time machine computes the whole-stream parse. */
  lemma {:induction false} MachineParses(s: Bytes, before: seq<Bytes>)
    ensures AbsorbAll(Reader(ReadHeader([]), before), s)
         == Reader(PhaseOf(Parse(s).rest), before + Parse(s).frames)
    decreases |s|
  {
    hide Length, PhaseOf;
    if Incomplete(s) || BadLength(s) {
      MachineStops(s, before);
      assert before + [] == before;
    } else {
      var n := Length(s[..4]);
      var body, more := s[4..4 + n], s[4 + n..];
      MachineDelivers(s, n, before);
      MachineParses(more, before + [body]);
      assert before + [body] + Parse(more).frames == before + ([body] + Parse(more).frames);
    }
  }

  lemma {:induction false} ChunksAreOneStream(r: Reader, chunks: seq<Bytes>)
    requires WellFormed(r)
    ensures AbsorbChunks(r, chunks) == AbsorbAll(r, Flatten(chunks))
    decreases |chunks|
  {
    if chunks != [] {
      ChunksAreOneStream(AbsorbAll(r, chunks[0]), chunks[1..]);
      AbsorbConcat(r, chunks[0], Flatten(chunks[1..]));
    }
  }

  lemma ClosedMeans(rest: Bytes)
    ensures PhaseOf(rest).Closed? <==> |rest| >= 4 && (Length(rest[..4]) == 0 || Length(rest[..4]) >= 102400)
  {
    hide Length;
  }

  /** However the network splits a stream, a session delivers the frames of the whole stream. */
  lemma ChunkIndependence(chunks: seq<Bytes>)
    ensures var r := AbsorbChunks(FRESH, chunks); var p := Parse(Flatten(chunks));
            && r.frames == p.frames
            && r.phase == PhaseOf(p.rest)
            && (r.phase.Closed? <==>
                |p.rest| >= 4 && (Length(p.rest[..4]) == 0 || Length(p.rest[..4]) >= 102400))
  {
    hide AbsorbChunks, AbsorbAll, Parse, PhaseOf, Encode, Length, Flatten;
    ChunksAreOneStream(FRESH, chunks);
    MachineParses(Flatten(chunks), []);
    ClosedMeans(Parse(Flatten(chunks)).rest);
    assert [] + Parse(Flatten(chunks)).frames == Parse(Flatten(chunks)).frames;
  }

  // ------------------------------------------------------------ the session

  /** The reading half of a session; completed bodies go to `delivered`. */
  class SessionReader {
    var phase: Phase
    var delivered: seq<Bytes>

    ghost function View(): Reader
      reads this
    {
      Reader(phase, delivered)
    }

    ghost predicate Valid()
      reads this
    {
      WellFormed(View())
    }

    constructor ()
      ensures Valid() && View() == FRESH
    {
      phase, delivered := ReadHeader([]), [];
    }

    /** The header handler: start the body read, or close on an illegal length. */
    method OnHeader(h: Bytes)
      requires |h| == 4
      modifies this
      ensures Valid() && View() == HeaderDone(h, old(delivered))
      ensures delivered == old(delivered)
      ensures phase == if 1 <= Length(h) <= 102399 then ReadBody(Length(h), []) else Closed(h)
    {
      var n := ShiftOrLength(h);
      ShiftOrIsLittleEndian(h);
      if n > 0 && n < LENGTH_LIMIT {
        phase := ReadBody(n, []);
      } else {
        phase := Closed(h);
      }
    }

    /** A segment arrives: fill the outstanding buffers one after another. */
    method Receive(chunk: Bytes)
      requires Valid()
      modifies this
      ensures Valid() && View() == AbsorbAll(old(View()), chunk)
    {
      var i := 0;
      while i < |chunk| && !phase.Closed?
        invariant 0 <= i <= |chunk|
        invariant Valid()
        invariant AbsorbAll(View(), chunk[i..]) == AbsorbAll(old(View()), chunk)
      {
        var missing := Missing(phase);
        ghost var before := View();
        var take := if missing <= |chunk| - i then missing else |chunk| - i;
        var part := chunk[i..i + take];
        assert chunk[i..] == part + chunk[i + take..];
        AbsorbConcat(before, part, chunk[i + take..]);
        var filled := phase.got + part;
        if take < missing {
          if phase.ReadHeader? {
            AbsorbPartialHeader(before, part);
            phase := ReadHeader(filled);
          } else {
            AbsorbPartialBody(before, part);
            phase := ReadBody(phase.length, filled);
          }
        } else {
          AbsorbFill(before, part);
          if phase.ReadHeader? {
            OnHeader(filled);
          } else {
            delivered := delivered + [filled];
            phase := ReadHeader([]);
          }
        }
        i := i + take;
      }
      if phase.Closed? {
        AbsorbClosed(View(), chunk[i..]);
      }
    }
  }
}
