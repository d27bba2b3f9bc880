/**
 The Connect envelope of internal/provider/cursor/connect.go: five header bytes
 (flags, then the payload length as a big-endian uint32) before each payload.
 The parser's arithmetic is uint32 in the source, so it is reduced modulo 2^32 here,
 and a slice whose upper bound lies below its lower bound panics.
 */
module Connect {
  import opened Sequences

  newtype byte = x: int | 0 <= x < 256

  const WORD := 0x1_0000_0000
  const HEADER := 5

  datatype Frame = Frame(flags: byte, payload: seq<byte>)
  datatype Event = Message(payload: seq<byte>) | End(payload: seq<byte>)

  /** What one or more pushes did: callbacks in order, bytes kept, and whether a slice panicked. */
  datatype Outcome = Outcome(events: seq<Event>, pending: seq<byte>, panicked: bool)

  function Put32(n: nat): (b: seq<byte>)
    ensures |b| == 4
  {
    var w := n % WORD;
    [(w / 0x100_0000) as byte, (w / 0x1_0000 % 0x100) as byte, (w / 0x100 % 0x100) as byte, (w % 0x100) as byte]
  }

  function Get32(b: seq<byte>): (n: nat)
    requires |b| == 4
    ensures n < WORD
  {
    b[0] as int * 0x100_0000 + b[1] as int * 0x1_0000 + b[2] as int * 0x100 + b[3] as int
  }

  lemma {:induction false} Get32Put32(n: nat)
    ensures Get32(Put32(n)) == n % WORD
  {
    var w := n % WORD;
    assert w / 0x100 == w / 0x1_0000 * 0x100 + w / 0x100 % 0x100;
    assert w / 0x1_0000 == w / 0x100_0000 * 0x100 + w / 0x1_0000 % 0x100;
  }

  function FrameBytes(f: Frame): seq<byte> {
    [f.flags] + Put32(|f.payload|) + f.payload
  }

  function Stream(frames: seq<Frame>): seq<byte> {
    if frames == [] then [] else FrameBytes(frames[0]) + Stream(frames[1..])
  }

  function EventOf(flags: byte, payload: seq<byte>): Event {
    if flags as int / 2 % 2 == 1 then End(payload) else Message(payload)
  }

  function Events(frames: seq<Frame>): seq<Event> {
    if frames == [] then [] else [EventOf(frames[0].flags, frames[0].payload)] + Events(frames[1..])
  }

  /** A frame is its flags, four bytes of length with the highest first, and its payload. */
  lemma {:induction false} FrameLayout(f: Frame)
    ensures var b := FrameBytes(f);
            && |b| == 5 + |f.payload| && b[0] == f.flags && b[5..] == f.payload
            && b[1] as int * 16777216 + b[2] as int * 65536 + b[3] as int * 256 + b[4] as int == |f.payload| % 4294967296
  {
    var b := FrameBytes(f);
    Get32Put32(|f.payload|);
    assert b[1..5] == Put32(|f.payload|);
    assert b[1] == b[1..5][0] && b[2] == b[1..5][1] && b[3] == b[1..5][2] && b[4] == b[1..5][3];
  }

  /** A frame ends the stream exactly when the bit for it is set in its flags. */
  lemma {:induction false} EndIsTheSecondBit(flags: byte, payload: seq<byte>)
    ensures EventOf(flags, payload) == if flags as bv8 & 2 != 0 then End(payload) else Message(payload)
  {
    SecondBit(flags as bv8);
  }

  lemma {:induction false} SecondBit(b: bv8)
    ensures b & 2 != 0 <==> b as int / 2 % 2 == 1
  {
    assert b & 2 != 0 <==> (b >> 1) & 1 == 1;
    assert (b >> 1) as int == b as int / 2;
    assert (b >> 1) & 1 == (b >> 1) % 2;
  }

  /** frameConnect: a fresh buffer holding the header and then the payload. */
  method FrameConnect(payload: seq<byte>, flags: byte) returns (out: array<byte>)
    ensures fresh(out)
    ensures out[..] == FrameBytes(Frame(flags, payload))
  {
    out := new byte[HEADER + |payload|](_ => 0);
    out[0] := flags;
    var length := Put32(|payload|);
    forall i | 0 <= i < 4 {
      out[1 + i] := length[i];
    }
    forall i | 0 <= i < |payload| {
      out[HEADER + i] := payload[i];
    }
  }

  /** 5 + msgLen in uint32 arithmetic. */
  function Needed(p: seq<byte>): (n: nat)
    requires |p| >= HEADER
    ensures n < WORD
  {
    (HEADER + Get32(p[1..5])) % WORD
  }

  /** The parser's loop on the bytes it holds. */
  function Drain(p: seq<byte>): (o: Outcome)
    decreases |p|
  {
    if |p| < HEADER || |p| % WORD < Needed(p) then Outcome([], p, false)
    else if Needed(p) < HEADER then Outcome([], p, true)
    else
      After([EventOf(p[0], p[HEADER..Needed(p)])], Drain(p[Needed(p)..]))
  }

  /** The outcome of a later step, with what was delivered before it put in front. */
  function After(events: seq<Event>, later: Outcome): Outcome {
    later.(events := events + later.events)
  }

  lemma {:induction false} AfterAfter(a: seq<Event>, b: seq<Event>, later: Outcome)
    ensures After(a, After(b, later)) == After(a + b, later)
  {
    assert a + (b + later.events) == (a + b) + later.events;
  }

  lemma {:induction false} DrainCases(p: seq<byte>)
    ensures |p| < HEADER ==> Drain(p) == Outcome([], p, false)
    ensures |p| >= HEADER && |p| % WORD < Needed(p) ==> Drain(p) == Outcome([], p, false)
    ensures |p| >= HEADER && Needed(p) <= |p| % WORD && Needed(p) < HEADER ==> Drain(p) == Outcome([], p, true)
    ensures |p| >= HEADER && HEADER <= Needed(p) <= |p| % WORD ==>
              Needed(p) <= |p| && Drain(p) == After([EventOf(p[0], p[HEADER..Needed(p)])], Drain(p[Needed(p)..]))
  {
  }

  lemma {:induction false} AfterNothing(later: Outcome)
    ensures After([], later) == later
    ensures forall a: seq<Event> :: a + [] == a
  {
    assert [] + later.events == later.events;
  }

  class FrameParser {
    var pending: seq<byte>

    constructor ()
      ensures pending == []
    {
      pending := [];
    }

    /** Appends the bytes and delivers every complete frame to onMessage or onEnd, in order. */
    method Push(incoming: seq<byte>) returns (events: seq<Event>, panicked: bool)
      modifies this
      ensures Outcome(events, pending, panicked) == Drain(old(pending) + incoming)
    {
      hide Drain, Needed, EventOf;
      pending := pending + incoming;
      ghost var start := pending;
      events := [];
      AfterNothing(Drain(start));
      while |pending| >= HEADER
        invariant Drain(start) == After(events, Drain(pending))
        decreases |pending|
      {
        var flags := pending[0];
        var needed := Needed(pending);
        DrainCases(pending);
        if |pending| % WORD < needed {
          return events, false;
        }
        if needed < HEADER {
          return events, true;
        }
        var msg := pending[HEADER..needed];
        AfterAfter(events, [EventOf(flags, msg)], Drain(pending[needed..]));
        pending := pending[needed..];
        events := events + [EventOf(flags, msg)];
      }
      DrainCases(pending);
      panicked := false;
    }
  }

  /** Pushing the pieces one after another; a panic ends the run. */
  function Feed(pending: seq<byte>, cuts: seq<seq<byte>>): (o: Outcome)
    decreases |cuts|
  {
    if cuts == [] then Outcome([], pending, false)
    else
      var head := Drain(pending + cuts[0]);
      if head.panicked then head
      else
        After(head.events, Feed(head.pending, cuts[1..]))
  }

  // ---------------------------------------------------------------------------------------------
  // Reading without a width
  // ---------------------------------------------------------------------------------------------

  /** The reference reading: the same loop with the length of what is held taken as it is. */
  function Parse(p: seq<byte>): (o: Outcome)
    decreases |p|
  {
    if |p| < HEADER || |p| < Needed(p) then Outcome([], p, false)
    else if Needed(p) < HEADER then Outcome([], p, true)
    else
      After([EventOf(p[0], p[HEADER..Needed(p)])], Parse(p[Needed(p)..]))
  }

  /** Fewer than 2^32 held bytes are read as by the reference. */
  lemma {:induction false} DrainIsParse(p: seq<byte>)
    requires |p| < WORD
    ensures Drain(p) == Parse(p)
    decreases |p|
  {
    if |p| >= HEADER && |p| >= Needed(p) >= HEADER {
      DrainIsParse(p[Needed(p)..]);
    }
  }

  lemma {:induction false} AfterTwice(x: seq<Event>, y: seq<Event>, later: Outcome)
    ensures After(x, After(y, later)) == After(x + y, later)
  {
    assert x + (y + later.events) == (x + y) + later.events;
  }

  /** Once read, the kept bytes hold no complete frame and are no more than there were. */
  lemma {:induction false} ParseSettles(p: seq<byte>)
    ensures !Parse(p).panicked ==> Settled(Parse(p).pending)
    ensures |Parse(p).pending| <= |p|
    decreases |p|
  {
    if |p| >= HEADER && |p| >= Needed(p) >= HEADER {
      ParseSettles(p[Needed(p)..]);
    }
  }

  predicate Settled(p: seq<byte>) {
    Parse(p) == Outcome([], p, false)
  }

  lemma {:induction false} SameFirstFrame(a: seq<byte>, b: seq<byte>)
    requires |a| >= HEADER && HEADER <= Needed(a) <= |a|
    ensures var n, first := Needed(a), [EventOf(a[0], a[HEADER..Needed(a)])];
            Parse(a) == After(first, Parse(a[n..])) && Parse(a + b) == After(first, Parse(a[n..] + b))
  {
    assert (a + b)[1..5] == a[1..5];
    var n := Needed(a);
    assert (a + b)[n..] == a[n..] + b;
    assert (a + b)[HEADER..n] == a[HEADER..n];
  }

  /** Reading early and reading late agree. */
  lemma {:induction false} ParseSplit(a: seq<byte>, b: seq<byte>)
    ensures Parse(a).panicked ==> Parse(a + b).panicked && Parse(a + b).events == Parse(a).events
    ensures !Parse(a).panicked ==> Parse(a + b) == After(Parse(a).events, Parse(Parse(a).pending + b))
    decreases |a|
  {
    if |a| < HEADER || |a| < Needed(a) {
      assert Parse(a) == Outcome([], a, false);
      assert After([], Parse(a + b)) == Parse(a + b);
    } else if Needed(a) < HEADER {
      assert (a + b)[1..5] == a[1..5];
    } else {
      var n := Needed(a);
      var first := [EventOf(a[0], a[HEADER..n])];
      ParseSplit(a[n..], b);
      SameFirstFrame(a, b);
      AfterTwice(first, Parse(a[n..]).events, Parse(Parse(a[n..]).pending + b));
    }
  }

  // ---------------------------------------------------------------------------------------------
  // Any cutting
  // ---------------------------------------------------------------------------------------------

  /** At no push are 2^32 bytes held; what was delivered before is not held any more. */
  predicate Fits(pending: seq<byte>, cuts: seq<seq<byte>>)
    decreases |cuts|
  {
    cuts == [] ||
    var held := pending + cuts[0];
    |held| < WORD && (Drain(held).panicked || Fits(Drain(held).pending, cuts[1..]))
  }

  /** However long the stream, a cutting that fits is read as the whole is by the reference. */
  lemma {:induction false} CuttingInvariance(pending: seq<byte>, cuts: seq<seq<byte>>)
    requires Settled(pending) && Fits(pending, cuts)
    ensures var fed, whole := Feed(pending, cuts), Parse(pending + Flatten(cuts));
            fed.events == whole.events && fed.panicked == whole.panicked && (!fed.panicked ==> fed == whole)
    decreases |cuts|
  {
    if cuts == [] {
      assert pending + Flatten(cuts) == pending;
    } else {
      var held, rest := pending + cuts[0], Flatten(cuts[1..]);
      assert pending + Flatten(cuts) == held + rest;
      DrainIsParse(held);
      ParseSplit(held, rest);
      if !Drain(held).panicked {
        ParseSettles(held);
        CuttingInvariance(Drain(held).pending, cuts[1..]);
      }
    }
  }

  /** A stream shorter than 2^32 bytes fits in any pieces. */
  lemma {:induction false} ShortFits(pending: seq<byte>, cuts: seq<seq<byte>>)
    requires |pending| + |Flatten(cuts)| < WORD
    ensures Fits(pending, cuts)
    decreases |cuts|
  {
    if cuts != [] {
      var held := pending + cuts[0];
      DrainIsParse(held);
      ParseSettles(held);
      ShortFits(Drain(held).pending, cuts[1..]);
    }
  }

  /** In particular any cutting of fewer than 2^32 bytes delivers what one push of them all delivers. */
  lemma {:induction false} CuttingIsOnePush(pending: seq<byte>, cuts: seq<seq<byte>>)
    requires |pending| + |Flatten(cuts)| < WORD && Settled(pending)
    ensures var fed, whole := Feed(pending, cuts), Drain(pending + Flatten(cuts));
            fed.events == whole.events && fed.panicked == whole.panicked && (!fed.panicked ==> fed == whole)
  {
    ShortFits(pending, cuts);
    DrainIsParse(pending + Flatten(cuts));
    CuttingInvariance(pending, cuts);
  }

  /** From 2^32 held bytes on, the truncated length keeps the parser from ever emptying its buffer. */
  lemma {:induction false} OversizeNeverDrains(p: seq<byte>)
    requires |p| >= WORD
    ensures |Drain(p).pending| >= WORD
    decreases |p|
  {
    var n := Needed(p);
    if HEADER <= n && |p| % WORD >= n {
      assert |p| - n >= |p| - |p| % WORD >= WORD;
      OversizeNeverDrains(p[n..]);
    }
  }

  /** Once 2^32 bytes are held they are held to the end, whatever comes after. */
  lemma {:induction false} OverfullStays(pending: seq<byte>, cuts: seq<seq<byte>>)
    requires |pending| >= WORD || !Fits(pending, cuts)
    ensures Feed(pending, cuts).panicked || |Feed(pending, cuts).pending| >= WORD
    decreases |cuts|
  {
    if cuts != [] {
      var held := pending + cuts[0];
      if |held| >= WORD {
        OversizeNeverDrains(held);
      }
      if !Drain(held).panicked {
        OverfullStays(Drain(held).pending, cuts[1..]);
      }
    }
  }

  // ---------------------------------------------------------------------------------------------
  // Deframing undoes framing
  // ---------------------------------------------------------------------------------------------

  /** The length of every frame, header included, is a 32-bit number. */
  predicate FramesFit(frames: seq<Frame>) {
    forall i :: 0 <= i < |frames| ==> |FrameBytes(frames[i])| < WORD
  }

  lemma {:induction false} FrameHeader(f: Frame, rest: seq<byte>)
    requires |FrameBytes(f)| < WORD
    ensures var p := FrameBytes(f) + rest;
            Needed(p) == |FrameBytes(f)| && p[0] == f.flags &&
            p[HEADER..Needed(p)] == f.payload && p[Needed(p)..] == rest
  {
    var p := FrameBytes(f) + rest;
    var n := |f.payload|;
    hide Put32, Get32;
    assert p == [f.flags] + Put32(n) + f.payload + rest;
    hide FrameBytes;
    assert p[1..5] == Put32(n);
    Get32Put32(n);
    assert Needed(p) == HEADER + n;
  }

  /** A proper part of a frame is held back. */
  lemma {:induction false} PartIsHeld(f: Frame, part: seq<byte>)
    requires |FrameBytes(f)| < WORD && part <= FrameBytes(f) && part != FrameBytes(f)
    ensures Settled(part)
  {
    if |part| >= HEADER {
      FrameHeader(f, []);
      assert FrameBytes(f) + [] == FrameBytes(f);
      assert part[1..5] == FrameBytes(f)[1..5];
    }
  }

  /** Whole frames followed by bytes that hold none: the frames come out, the rest is kept. */
  lemma {:induction false} ParseStream(frames: seq<Frame>, suffix: seq<byte>)
    requires FramesFit(frames) && Settled(suffix)
    ensures Parse(Stream(frames) + suffix) == Outcome(Events(frames), suffix, false)
    decreases |frames|
  {
    if frames == [] {
      assert Stream(frames) + suffix == suffix;
    } else {
      var rest := Stream(frames[1..]) + suffix;
      assert Stream(frames) + suffix == FrameBytes(frames[0]) + rest;
      assert |FrameBytes(frames[0])| < WORD;
      ParseFrame(frames[0], rest);
      hide FrameBytes, Parse, Settled;
      ParseStream(frames[1..], suffix);
    }
  }

  lemma {:induction false} ParseFrame(f: Frame, rest: seq<byte>)
    requires |FrameBytes(f)| < WORD
    ensures Parse(FrameBytes(f) + rest) == After([EventOf(f.flags, f.payload)], Parse(rest))
  {
    FrameHeader(f, rest);
    hide Needed;
    assert |FrameBytes(f)| >= HEADER;
  }

  ghost predicate Deframes(frames: seq<Frame>, cuts: seq<seq<byte>>) {
    Feed([], cuts) == Outcome(Events(frames), [], false)
  }

  function PayloadOf(e: Event): seq<byte> {
    e.payload
  }

  predicate ShortPayloads(events: seq<Event>) {
    forall i :: 0 <= i < |events| ==> HEADER + |PayloadOf(events[i])| < WORD
  }

  /** No payload is delivered whose frame has no 32-bit length. */
  lemma {:induction false} DrainDeliversShort(p: seq<byte>)
    ensures ShortPayloads(Drain(p).events)
    decreases |p|
  {
    if |p| >= HEADER && |p| % WORD >= Needed(p) >= HEADER {
      DrainDeliversShort(p[Needed(p)..]);
    }
  }

  lemma {:induction false} FeedDeliversShort(pending: seq<byte>, cuts: seq<seq<byte>>)
    ensures ShortPayloads(Feed(pending, cuts).events)
    decreases |cuts|
  {
    if cuts != [] {
      var head := Drain(pending + cuts[0]);
      DrainDeliversShort(pending + cuts[0]);
      if !head.panicked {
        FeedDeliversShort(head.pending, cuts[1..]);
      }
    }
  }

  lemma {:induction false} EventsAt(frames: seq<Frame>, i: nat)
    requires i < |frames|
    ensures |Events(frames)| == |frames| && PayloadOf(Events(frames)[i]) == frames[i].payload
    decreases |frames|
  {
    if i > 0 {
      EventsAt(frames[1..], i - 1);
    } else if |frames| > 1 {
      EventsAt(frames[1..], 0);
    }
  }

  /**
   A cutting of a framed stream, of any length, is deframed exactly when every frame has a 32-bit length and
   fewer than 2^32 bytes are held at every push.
   */
  lemma {:induction false} DeframesIffFits(frames: seq<Frame>, cuts: seq<seq<byte>>)
    requires Flatten(cuts) == Stream(frames)
    ensures Deframes(frames, cuts) <==> FramesFit(frames) && Fits([], cuts)
  {
    assert [] + Stream(frames) == Stream(frames) && Stream(frames) + [] == Stream(frames);
    if FramesFit(frames) && Fits([], cuts) {
      CuttingInvariance([], cuts);
      ParseStream(frames, []);
    }
    if !Fits([], cuts) {
      OverfullStays([], cuts);
    }
    if Deframes(frames, cuts) {
      FeedDeliversShort([], cuts);
      forall i | 0 <= i < |frames|
        ensures |FrameBytes(frames[i])| < WORD
      {
        EventsAt(frames, i);
      }
    }
  }

  /** Part of a stream of frames no longer than m leaves less than m held. */
  lemma {:induction false} LittleIsHeld(frames: seq<Frame>, p: seq<byte>, m: nat)
    requires p <= Stream(frames) && 0 < m < WORD
    requires forall i :: 0 <= i < |frames| ==> |FrameBytes(frames[i])| <= m
    ensures !Parse(p).panicked && |Parse(p).pending| < m
    decreases |frames|
  {
    if frames != [] {
      var f := frames[0];
      assert |FrameBytes(f)| <= m;
      if |p| < |FrameBytes(f)| {
        assert p == FrameBytes(f)[..|p|];
        PartIsHeld(f, p);
      } else {
        var rest := p[|FrameBytes(f)|..];
        assert p == FrameBytes(f) + rest;
        FrameHeader(f, rest);
        LittleIsHeld(frames[1..], rest, m);
      }
    }
  }

  /** The same reads after what was read before. */
  lemma {:induction false} SmallReadsFitFrom(frames: seq<Frame>, done: seq<byte>, cuts: seq<seq<byte>>, m: nat)
    requires done + Flatten(cuts) == Stream(frames) && 0 < m < WORD
    requires forall i :: 0 <= i < |frames| ==> |FrameBytes(frames[i])| <= m
    requires forall i :: 0 <= i < |cuts| ==> |cuts[i]| <= WORD - m
    ensures Fits(Parse(done).pending, cuts)
    decreases |cuts|
  {
    LittleIsHeld(frames, done, m);
    if cuts != [] {
      var held := Parse(done).pending + cuts[0];
      assert done + Flatten(cuts) == (done + cuts[0]) + Flatten(cuts[1..]);
      DrainIsParse(held);
      ParseSplit(done, cuts[0]);
      SmallReadsFitFrom(frames, done + cuts[0], cuts[1..], m);
    }
  }

  /** Reads of at most 2^32 less the longest frame deframe a stream of any length. */
  lemma {:induction false} SmallReadsDeframe(frames: seq<Frame>, cuts: seq<seq<byte>>, m: nat)
    requires Flatten(cuts) == Stream(frames) && 0 < m < WORD
    requires forall i :: 0 <= i < |frames| ==> |FrameBytes(frames[i])| <= m
    requires forall i :: 0 <= i < |cuts| ==> |cuts[i]| <= WORD - m
    ensures Deframes(frames, cuts)
  {
    assert [] + Flatten(cuts) == Stream(frames);
    SmallReadsFitFrom(frames, [], cuts, m);
    DeframesIffFits(frames, cuts);
  }

  lemma {:induction false} FrameInStream(frames: seq<Frame>, i: nat)
    requires i < |frames|
    ensures |FrameBytes(frames[i])| <= |Stream(frames)|
    decreases |frames|
  {
    if i > 0 {
      FrameInStream(frames[1..], i - 1);
    }
  }

  /** Deframing undoes framing under every cutting exactly when the framed stream is shorter than 2^32 bytes. */
  lemma {:induction false} DeframingUndoesFraming(frames: seq<Frame>)
    ensures (forall cuts :: Flatten(cuts) == Stream(frames) ==> Deframes(frames, cuts))
            <==> |Stream(frames)| < WORD
  {
    if |Stream(frames)| < WORD {
      forall i | 0 <= i < |frames|
        ensures |FrameBytes(frames[i])| < WORD
      {
        FrameInStream(frames, i);
      }
      forall cuts | Flatten(cuts) == Stream(frames)
        ensures Deframes(frames, cuts)
      {
        ShortFits([], cuts);
        DeframesIffFits(frames, cuts);
      }
    } else {
      var whole := [Stream(frames)];
      FlattenOne(Stream(frames));
      assert [] + whole[0] == Stream(frames);
      DeframesIffFits(frames, whole);
    }
  }

  /**
   At every moment of an unfinished delivery the kept bytes are the unfinished suffix: if the bytes received
   so far are whole frames, however many, and a proper part of the next one, those frames have been delivered
   and exactly that part is pending.
   */
  lemma {:induction false} PendingIsUnfinishedSuffix(frames: seq<Frame>, next: Frame, part: seq<byte>, cuts: seq<seq<byte>>)
    requires Flatten(cuts) == Stream(frames) + part
    requires part <= FrameBytes(next) && part != FrameBytes(next)
    requires FramesFit(frames) && |FrameBytes(next)| < WORD && Fits([], cuts)
    ensures Feed([], cuts) == Outcome(Events(frames), part, false)
  {
    PartIsHeld(next, part);
    ParseStream(frames, part);
    assert [] + Flatten(cuts) == Flatten(cuts);
    CuttingInvariance([], cuts);
  }
}
