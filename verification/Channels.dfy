/**
 The emit and finish discipline of a Cursor turn under every interleaving: the closures `emit`, `emitUsage`,
 `finish` and the closing mark of internal/provider/cursor/protocol.go, run by any number of callbacks at the
 grain of one lock, one channel operation or one append at a time.
 */
module Channels {
  import opened Chat

  /** The capacity of the out channel. */
  const ROOM := 32

  /** What an emit puts out: which call it was, and whether it is the mark that only goes to the channel. */
  datatype Item = Item(call: nat, mark: bool)

  /** Where a callback stands. E-points lie in an emit, F-points in finish. */
  datatype Point =
    | Idle
    | ELock(item: Item) | ECheck(item: Item) | EAppend(item: Item) | ESend(item: Item) | EUnlock
    | FOnce | FCloseDone | FLock | FCloseOut | FUnlock | FReturn

  datatype Once = Fresh | Running(runner: nat) | Completed

  /**
   What the callbacks share. `late` are the calls begun after done was closed, and `panicked` is what Go
   does on a send to a closed channel or a second close.
   */
  datatype Shared = Shared(
    stream: bool, lock: Option<nat>, once: Once, done: bool, outClosed: bool, panicked: bool,
    chunks: seq<Item>, buffer: seq<Item>, received: seq<Item>, calls: nat, late: set<nat>)

  datatype System = System(threads: seq<Point>, s: Shared)

  datatype Start = StartEmit | StartMark | StartFinish

  /** One scheduler choice: a callback begins something, goes one step further, or the reader takes an item. */
  datatype Move = Begin(t: nat, what: Start) | Advance(t: nat) | Receive

  type Step = Option<(Point, Shared)>

  function Init(stream: bool, n: nat): System {
    System(seq(n, _ => Idle), Shared(stream, None, Fresh, false, false, false, [], [], [], 0, {}))
  }

  /** The closing mark is only sent when streaming. */
  function BeginStep(s: Shared, p: Point, what: Start): Step {
    if !p.Idle? || (what.StartMark? && !s.stream) then None
    else if what.StartFinish? then Some((FOnce, s))
    else
      Some((ELock(Item(s.calls, what.StartMark?)),
            s.(calls := s.calls + 1, late := if s.done then s.late + {s.calls} else s.late)))
  }

  /** One step of emit, emitUsage or the mark; None while blocked. */
  function EmitStep(s: Shared, t: nat, p: Point): Step {
    match p
    case ELock(x) => if s.lock.None? then Some((ECheck(x), s.(lock := Some(t)))) else None
    case ECheck(x) => Some((if s.done then EUnlock else if x.mark then ESend(x) else EAppend(x), s))
    case EAppend(x) => Some((if s.stream then ESend(x) else EUnlock, s.(chunks := s.chunks + [x])))
    case ESend(x) =>
      if s.outClosed then Some((p, s.(panicked := true)))
      else if |s.buffer| < ROOM then Some((EUnlock, s.(buffer := s.buffer + [x])))
      else None
    case EUnlock => Some((Idle, s.(lock := None)))
    case _ => None
  }

  /** One step of finish under sync.Once. */
  function FinishStep(s: Shared, t: nat, p: Point): Step {
    match p
    case FOnce =>
      if s.once.Fresh? then Some((FCloseDone, s.(once := Running(t))))
      else if s.once.Completed? then Some((Idle, s))
      else None
    case FCloseDone => Some(if s.done then (p, s.(panicked := true)) else (FLock, s.(done := true)))
    case FLock => if s.lock.None? then Some((FCloseOut, s.(lock := Some(t)))) else None
    case FCloseOut =>
      Some(if s.stream && s.outClosed then (p, s.(panicked := true)) else (FUnlock, s.(outClosed := s.stream)))
    case FUnlock => Some((FReturn, s.(lock := None)))
    case FReturn => Some((Idle, s.(once := Completed)))
    case _ => None
  }

  function ThreadStep(s: Shared, t: nat, p: Point): Step {
    if p.FOnce? || Finishing(p) then FinishStep(s, t, p) else EmitStep(s, t, p)
  }

  function Put(y: System, t: nat, step: Step): Option<System>
    requires t < |y.threads|
  {
    if step.None? then None else Some(System(y.threads[t := step.value.0], step.value.1))
  }

  function Next(y: System, c: Move): Option<System> {
    match c
    case Begin(t, what) => if t < |y.threads| then Put(y, t, BeginStep(y.s, y.threads[t], what)) else None
    case Advance(t) => if t < |y.threads| then Put(y, t, ThreadStep(y.s, t, y.threads[t])) else None
    case Receive =>
      if y.s.buffer == [] then None
      else Some(y.(s := y.s.(buffer := y.s.buffer[1..], received := y.s.received + [y.s.buffer[0]])))
  }

  /** A run: the state after a sequence of moves, if each was possible. */
  function Exec(y: System, moves: seq<Move>): Option<System>
    decreases |moves|
  {
    if moves == [] then Some(y)
    else
      match Next(y, moves[0])
      case Some(y') => Exec(y', moves[1..])
      case None => None
  }

  // ---------------------------------------------------------------------------------------------
  // The invariant
  // ---------------------------------------------------------------------------------------------

  predicate Holding(p: Point) {
    p.ECheck? || p.EAppend? || p.ESend? || p.EUnlock? || p.FCloseOut? || p.FUnlock?
  }

  predicate Finishing(p: Point) {
    p.FCloseDone? || p.FLock? || p.FCloseOut? || p.FUnlock? || p.FReturn?
  }

  /** About to put something out. */
  predicate Putting(p: Point) {
    p.EAppend? || p.ESend?
  }

  /** Finish holds the lock for closing out, or is past that. */
  predicate Closing(p: Point) {
    p.FCloseOut? || p.FUnlock? || p.FReturn?
  }

  /** Callback t holds the lock exactly when it stands at such a point, and likewise for sync.Once. */
  predicate Located(s: Shared, t: nat, p: Point) {
    (Holding(p) <==> s.lock == Some(t)) && (Finishing(p) <==> s.once == Running(t))
  }

  /** What the running finish has done so far. */
  predicate Progress(s: Shared, p: Point) {
    Finishing(p) ==> (s.done <==> !p.FCloseDone?) && (s.outClosed <==> s.stream && (p.FUnlock? || p.FReturn?))
  }

  /** What holds of the item an emit carries. */
  predicate Carries(s: Shared, p: Point) {
    p.ELock? || p.ECheck? || Putting(p) ==>
      && p.item.call < s.calls
      && (Putting(p) ==> p.item.call !in s.late)
      && (p.EAppend? ==> !p.item.mark)
      && (p.ESend? || p.item.mark ==> s.stream)
  }

  predicate Fine(s: Shared, t: nat, p: Point) {
    Located(s, t, p) && Progress(s, p) && Carries(s, p)
  }

  /** Made by a call that began before done was closed. */
  predicate Timely(s: Shared, x: Item) {
    x.call < s.calls && x.call !in s.late
  }

  predicate AllTimely(s: Shared, xs: seq<Item>) {
    forall i :: 0 <= i < |xs| ==> Timely(s, xs[i])
  }

  predicate Outcome(s: Shared) {
    && !s.panicked
    && (s.once.Fresh? ==> !s.done && !s.outClosed)
    && (s.once.Completed? ==> s.done && s.outClosed == s.stream)
    && (s.late != {} ==> s.done)
    && (forall c :: c in s.late ==> c < s.calls)
    && AllTimely(s, s.chunks) && AllTimely(s, s.buffer) && AllTimely(s, s.received)
  }

  /** Finish has the lock, had it, or is over. */
  predicate Sealed(y: System) {
    y.s.once.Completed? || exists u :: 0 <= u < |y.threads| && Closing(y.threads[u])
  }

  predicate Quiet(y: System) {
    Sealed(y) ==> forall t :: 0 <= t < |y.threads| ==> !Putting(y.threads[t])
  }

  predicate Bounded(y: System) {
    && (y.s.lock.Some? ==> y.s.lock.value < |y.threads|)
    && (y.s.once.Running? ==> y.s.once.runner < |y.threads|)
  }

  predicate AllFine(y: System) {
    forall t :: 0 <= t < |y.threads| ==> Fine(y.s, t, y.threads[t])
  }

  function Unmarked(xs: seq<Item>): seq<Item> {
    if xs == [] then [] else Unmarked(xs[..|xs| - 1]) + if xs[|xs| - 1].mark then [] else [xs[|xs| - 1]]
  }

  /** The item of an emit that stands at such a point with the lock. */
  function Held(y: System): Point {
    if y.s.lock.Some? && y.s.lock.value < |y.threads| then y.threads[y.s.lock.value] else Idle
  }

  /** Appended but not yet in the channel. */
  function OnItsWay(p: Point): seq<Item> {
    if p.ESend? then [p.item] else []
  }

  /** Cleared for appending. */
  function InFlight(y: System): seq<Item> {
    if Held(y).EAppend? then [Held(y).item] else []
  }

  /** Everything sent or about to be sent is what was appended, in order, and nothing goes out without a stream. */
  predicate Conserved(s: Shared, held: Point) {
    && |s.buffer| <= ROOM
    && (s.stream ==> Unmarked(s.received + s.buffer + OnItsWay(held)) == s.chunks)
    && (!s.stream ==> s.received == [] && s.buffer == [])
  }

  predicate Inv(y: System) {
    Bounded(y) && AllFine(y) && Outcome(y.s) && Quiet(y) && Conserved(y.s, Held(y))
  }

  // ---------------------------------------------------------------------------------------------
  // Every step keeps it
  // ---------------------------------------------------------------------------------------------

  lemma {:induction false} StepIsFine(s: Shared, t: nat, p: Point)
    requires Fine(s, t, p) && Outcome(s) && (Putting(p) ==> !s.outClosed) && ThreadStep(s, t, p).Some?
    ensures var (p', s') := ThreadStep(s, t, p).value;
            Fine(s', t, p') && Outcome(s')
  {
    hide Timely;
    var (p', s') := ThreadStep(s, t, p).value;
    forall x | Timely(s, x)
      ensures Timely(s', x)
    {
      SameCallsSameTimely(s, s', x);
    }
    if Putting(p) {
      CarriedIsTimely(s, p);
    }
  }

  lemma {:induction false} SameCallsSameTimely(s: Shared, s': Shared, x: Item)
    requires s'.calls == s.calls && s'.late == s.late
    ensures Timely(s, x) == Timely(s', x)
  {
  }

  lemma {:induction false} CarriedIsTimely(s: Shared, p: Point)
    requires Putting(p) && Carries(s, p)
    ensures Timely(s, p.item)
  {
  }

  lemma {:induction false} StepLeavesOthers(s: Shared, t: nat, p: Point, u: nat, q: Point)
    requires Fine(s, t, p) && Fine(s, u, q) && t != u && ThreadStep(s, t, p).Some?
    ensures Fine(ThreadStep(s, t, p).value.1, u, q)
  {
  }

  lemma {:induction false} BeginIsFine(s: Shared, t: nat, p: Point, what: Start)
    requires Fine(s, t, p) && Outcome(s) && BeginStep(s, p, what).Some?
    ensures var (p', s') := BeginStep(s, p, what).value;
            Fine(s', t, p') && Outcome(s')
    ensures forall u: nat, q :: Fine(s, u, q) ==> Fine(BeginStep(s, p, what).value.1, u, q)
  {
    var (p', s') := BeginStep(s, p, what).value;
    forall x | Timely(s, x)
      ensures Timely(s', x)
    {
    }
  }

  lemma {:induction false} ReceiveIsFine(y: System)
    requires AllFine(y) && Outcome(y.s) && y.s.buffer != []
    ensures AllFine(Next(y, Receive).value) && Outcome(Next(y, Receive).value.s)
  {
    var s, s' := y.s, Next(y, Receive).value.s;
    forall x | Timely(s, x)
      ensures Timely(s', x)
    {
    }
    forall u: nat, q | Fine(s, u, q)
      ensures Fine(s', u, q)
    {
    }
  }

  lemma {:induction false} FineKept(y: System, c: Move)
    requires Inv(y) && Next(y, c).Some?
    ensures AllFine(Next(y, c).value) && Outcome(Next(y, c).value.s) && Bounded(Next(y, c).value)
  {
    hide Fine, Outcome, ThreadStep, BeginStep, Conserved;
    var y' := Next(y, c).value;
    match c
    case Begin(t, what) =>
      BeginIsFine(y.s, t, y.threads[t], what);
      StaysBounded(y, c);
    case Advance(t) =>
      if Putting(y.threads[t]) {
        PuttingMeansOpen(y, t);
      }
      StepIsFine(y.s, t, y.threads[t]);
      StaysBounded(y, c);
      forall u | 0 <= u < |y.threads| && u != t
        ensures Fine(y'.s, u, y'.threads[u])
      {
        StepLeavesOthers(y.s, t, y.threads[t], u, y.threads[u]);
      }
    case Receive => ReceiveIsFine(y);
  }

  /** A step passes the lock and the once only to the callback that makes it. */
  lemma {:induction false} OwnersAfter(s: Shared, t: nat, p: Point)
    requires ThreadStep(s, t, p).Some?
    ensures ThreadStep(s, t, p).value.1.lock in {s.lock, None, Some(t)}
    ensures ThreadStep(s, t, p).value.1.once in {s.once, Running(t), Completed}
  {
  }

  lemma {:induction false} OwnersAtBegin(s: Shared, p: Point, what: Start)
    requires BeginStep(s, p, what).Some?
    ensures BeginStep(s, p, what).value.1.lock == s.lock && BeginStep(s, p, what).value.1.once == s.once
  {
  }

  lemma {:induction false} StaysBounded(y: System, c: Move)
    requires Bounded(y) && Next(y, c).Some?
    ensures Bounded(Next(y, c).value)
  {
    hide ThreadStep, BeginStep;
    match c
    case Begin(t, what) => OwnersAtBegin(y.s, y.threads[t], what);
    case Advance(t) => OwnersAfter(y.s, t, y.threads[t]);
    case Receive =>
  }

  /** Once out is closed nobody is about to put anything out. */
  lemma {:induction false} PuttingMeansOpen(y: System, t: nat)
    requires Bounded(y) && AllFine(y) && Outcome(y.s) && Quiet(y) && t < |y.threads| && Putting(y.threads[t])
    ensures !y.s.outClosed
  {
    if y.s.outClosed && y.s.once.Running? {
      assert Fine(y.s, y.s.once.runner, y.threads[y.s.once.runner]);
      assert Closing(y.threads[y.s.once.runner]);
    }
  }

  lemma {:induction false} QuietKept(y: System, c: Move)
    requires Inv(y) && Next(y, c).Some?
    ensures Quiet(Next(y, c).value)
  {
    assert y.s.once.Completed? ==> y.s.done;
    hide Outcome, Conserved, Carries;
    if c.Advance? {
      QuietAdvance(y, c.t);
    }
  }

  lemma {:induction false} QuietAdvance(y: System, t: nat)
    requires Bounded(y) && AllFine(y) && Quiet(y) && (y.s.once.Completed? ==> y.s.done) && Next(y, Advance(t)).Some?
    ensures Quiet(Next(y, Advance(t)).value)
  {
    var y' := Next(y, Advance(t)).value;
    if Sealed(y') && !Sealed(y) {
      NowSealed(y, t);
    } else if Sealed(y) {
      SealedIsDone(y);
    }
  }

  lemma {:induction false} SealedIsDone(y: System)
    requires AllFine(y) && (y.s.once.Completed? ==> y.s.done) && Sealed(y)
    ensures y.s.done
  {
    if !y.s.once.Completed? {
      var u :| 0 <= u < |y.threads| && Closing(y.threads[u]);
      assert Fine(y.s, u, y.threads[u]);
    }
  }

  /** Only taking the lock for closing out seals the state, and then nobody else holds the lock. */
  lemma {:induction false} NowSealed(y: System, t: nat)
    requires Bounded(y) && AllFine(y) && !Sealed(y) && Next(y, Advance(t)).Some? && Sealed(Next(y, Advance(t)).value)
    ensures var y' := Next(y, Advance(t)).value;
            forall u :: 0 <= u < |y'.threads| ==> !Putting(y'.threads[u])
  {
    hide Carries, Progress;
    var y' := Next(y, Advance(t)).value;
    assert Fine(y.s, t, y.threads[t]);
    assert y.s.lock.None?;
    forall u | 0 <= u < |y'.threads|
      ensures !Putting(y'.threads[u])
    {
      assert Fine(y.s, u, y.threads[u]);
    }
  }

  lemma {:induction false} UnmarkedSnoc(xs: seq<Item>, x: Item)
    ensures Unmarked(xs + [x]) == Unmarked(xs) + if x.mark then [] else [x]
  {
    assert (xs + [x])[..|xs|] == xs;
  }

  /** A step of the callback that holds the lock, takes it or gives it back. */
  lemma {:induction false} HolderConserves(s: Shared, t: nat, p: Point)
    requires Fine(s, t, p) && Conserved(s, p) && ThreadStep(s, t, p).Some? && !s.panicked
    requires Putting(p) ==> !s.outClosed
    ensures Conserved(ThreadStep(s, t, p).value.1, ThreadStep(s, t, p).value.0)
  {
    hide Unmarked;
    var (p', s') := ThreadStep(s, t, p).value;
    var sent := s.received + s.buffer;
    assert sent + [] == sent;
    if p.ESend? {
      assert s'.received + s'.buffer + OnItsWay(p') == sent + [p.item];
    } else {
      assert s'.received + s'.buffer == sent;
      if p'.ESend? {
        UnmarkedSnoc(sent, p.item);
      }
    }
  }

  /** A step of any other callback leaves alone all that Conserved speaks of. */
  lemma {:induction false} OthersConserve(s: Shared, t: nat, p: Point)
    requires Fine(s, t, p) && ThreadStep(s, t, p).Some? && !Holding(p)
    ensures var (p', s') := ThreadStep(s, t, p).value;
            s'.chunks == s.chunks && s'.buffer == s.buffer && s'.received == s.received && s'.stream == s.stream &&
            !p'.ESend? && (s'.lock == s.lock || (s.lock.None? && s'.lock == Some(t)))
  {
  }

  /** Beginning something changes neither the holder nor what was sent. */
  lemma {:induction false} BeginConserves(y: System, t: nat, what: Start)
    requires AllFine(y) && Next(y, Begin(t, what)).Some?
    ensures var y' := Next(y, Begin(t, what)).value;
            && Held(y') == Held(y) && y'.s.stream == y.s.stream
            && y'.s.chunks == y.s.chunks && y'.s.buffer == y.s.buffer && y'.s.received == y.s.received
  {
    assert Fine(y.s, t, y.threads[t]);
    hide Progress, Carries;
  }

  lemma {:induction false} ConservedKept(y: System, c: Move)
    requires Inv(y) && Next(y, c).Some?
    ensures Conserved(Next(y, c).value.s, Held(Next(y, c).value))
  {
    hide ThreadStep, BeginStep, Unmarked, Outcome, Quiet, AllFine;
    var y' := Next(y, c).value;
    match c
    case Begin(t, what) => BeginConserves(y, t, what);
    case Receive =>
      assert y'.s.received + y'.s.buffer == y.s.received + y.s.buffer;
    case Advance(t) => AdvanceConserved(y, t);
  }

  lemma {:induction false} AdvanceConserved(y: System, t: nat)
    requires Inv(y) && Next(y, Advance(t)).Some?
    ensures Conserved(Next(y, Advance(t)).value.s, Held(Next(y, Advance(t)).value))
  {
    hide ThreadStep, Unmarked, Fine;
    var p, y' := y.threads[t], Next(y, Advance(t)).value;
    FineMeansLocated(y.s, t, p);
    if Holding(p) {
      if Putting(p) {
        PuttingMeansOpen(y, t);
      }
      HolderConserves(y.s, t, p);
      HolderStays(y.s, t, p);
    } else {
      OthersConserve(y.s, t, p);
    }
  }

  lemma {:induction false} FineMeansLocated(s: Shared, t: nat, p: Point)
    requires Fine(s, t, p)
    ensures Holding(p) <==> s.lock == Some(t)
  {
  }

  /** The holder keeps the lock or has nothing left to send. */
  lemma {:induction false} HolderStays(s: Shared, t: nat, p: Point)
    requires Holding(p) && ThreadStep(s, t, p).Some? && s.lock == Some(t)
    ensures var (p', s') := ThreadStep(s, t, p).value;
            s'.lock == Some(t) || (s'.lock.None? && OnItsWay(p') == [])
  {
  }

  lemma {:induction false} InvKept(y: System, c: Move)
    requires Inv(y) && Next(y, c).Some?
    ensures Inv(Next(y, c).value)
  {
    hide Bounded, AllFine, Outcome, Quiet, Conserved, Next;
    FineKept(y, c);
    QuietKept(y, c);
    ConservedKept(y, c);
  }

  lemma {:induction false} InvAlways(y: System, moves: seq<Move>)
    requires Inv(y) && Exec(y, moves).Some?
    ensures Inv(Exec(y, moves).value)
    decreases |moves|
  {
    hide Next, Inv;
    if moves != [] {
      InvKept(y, moves[0]);
      InvAlways(Next(y, moves[0]).value, moves[1..]);
    }
  }

  ghost predicate Reachable(y: System) {
    exists stream: bool, n: nat, moves: seq<Move> :: Exec(Init(stream, n), moves) == Some(y)
  }

  lemma {:induction false} InitInv(stream: bool, n: nat)
    ensures Inv(Init(stream, n))
  {
    var y := Init(stream, n);
    assert Held(y) == Idle && OnItsWay(Idle) == [];
    assert y.s.received + y.s.buffer + [] == [];
    assert AllFine(y);
  }

  lemma {:induction false} ReachableInv(y: System)
    requires Reachable(y)
    ensures Inv(y)
  {
    hide Inv, Exec;
    var stream: bool, n: nat, moves: seq<Move> :| Exec(Init(stream, n), moves) == Some(y);
    InitInv(stream, n);
    InvAlways(Init(stream, n), moves);
  }

  // ---------------------------------------------------------------------------------------------
  // What follows
  // ---------------------------------------------------------------------------------------------

  /** No run sends on the closed channel or closes a channel twice, and no late call is ever appended, sent or received. */
  lemma {:induction false} NoPanicNoLateOutput(y: System)
    requires Reachable(y)
    ensures !y.s.panicked
    ensures forall x :: x in y.s.chunks || x in y.s.buffer || x in y.s.received ==> x.call !in y.s.late
  {
    ReachableInv(y);
    hide AllFine, Conserved, Quiet;
    forall x | x in y.s.chunks || x in y.s.buffer || x in y.s.received
      ensures x.call !in y.s.late
    {
      assert Timely(y.s, x);
    }
  }

  lemma {:induction false} ClosedMeansSent(y: System)
    requires Bounded(y) && AllFine(y) && Outcome(y.s) && Quiet(y) && y.s.outClosed
    ensures y.s.stream && OnItsWay(Held(y)) == []
  {
    if y.s.once.Running? {
      assert Fine(y.s, y.s.once.runner, y.threads[y.s.once.runner]);
      assert Closing(y.threads[y.s.once.runner]);
    }
  }

  /** A reader that drained the closed channel has received every chunk, in the order they were appended. */
  lemma {:induction false} DrainedReaderHasAll(y: System)
    requires Reachable(y) && y.s.outClosed && y.s.buffer == []
    ensures Unmarked(y.s.received) == y.s.chunks
  {
    ReachableInv(y);
    hide Unmarked;
    ClosedMeansSent(y);
    assert y.s.received + [] + [] == y.s.received;
  }

  /** Whenever some callback is busy, a callback can go on or the reader can take an item. */
  lemma {:induction false} NoDeadlock(y: System, busy: nat)
    requires Reachable(y) && busy < |y.threads| && !y.threads[busy].Idle?
    ensures (exists t: nat :: t < |y.threads| && Next(y, Advance(t)).Some?) || Next(y, Receive).Some?
  {
    ReachableInv(y);
    var t := if y.s.lock.Some? then y.s.lock.value else if y.s.once.Running? then y.s.once.runner else busy;
    assert Fine(y.s, t, y.threads[t]);
    GoesOn(y.s, t, y.threads[t]);
    hide Inv, Fine, ThreadStep, Reachable;
    assert Next(y, Advance(t)).Some? || Next(y, Receive).Some?;
  }

  /** The holder of the lock, or else of the once, or else any busy callback, can go on unless the channel is full. */
  lemma {:induction false} GoesOn(s: Shared, t: nat, p: Point)
    requires Located(s, t, p) && !p.Idle?
    requires if s.lock.Some? then s.lock.value == t else if s.once.Running? then s.once.runner == t else true
    ensures ThreadStep(s, t, p).Some? || |s.buffer| >= ROOM
  {
  }

  /** A finish past its lock stays past it or completes. */
  lemma {:induction false} StillClosing(s: Shared, t: nat, p: Point)
    requires Closing(p) && Located(s, t, p) && ThreadStep(s, t, p).Some?
    ensures Closing(ThreadStep(s, t, p).value.0) || ThreadStep(s, t, p).value.1.once.Completed?
  {
  }

  lemma {:induction false} NothingPut(s: Shared, t: nat, p: Point)
    requires !Putting(p) && ThreadStep(s, t, p).Some?
    ensures var s' := ThreadStep(s, t, p).value.1;
            s'.chunks == s.chunks && s'.buffer == s.buffer && s'.received == s.received
    ensures s.once.Completed? && !Finishing(p) ==> ThreadStep(s, t, p).value.1.once.Completed?
  {
  }

  lemma {:induction false} SealedAdvance(y: System, t: nat)
    requires Bounded(y) && AllFine(y) && Quiet(y) && Sealed(y) && Next(y, Advance(t)).Some?
    ensures var y' := Next(y, Advance(t)).value;
            Sealed(y') && y'.s.chunks == y.s.chunks && y'.s.received + y'.s.buffer == y.s.received + y.s.buffer
  {
    hide ThreadStep, Progress, Carries;
    var y' := Next(y, Advance(t)).value;
    NothingPut(y.s, t, y.threads[t]);
    assert Fine(y.s, t, y.threads[t]);
    if !y.s.once.Completed? {
      var u :| 0 <= u < |y.threads| && Closing(y.threads[u]);
      if u == t {
        StillClosing(y.s, t, y.threads[t]);
      }
      assert y'.s.once.Completed? || Closing(y'.threads[u]);
    }
  }

  /** Past finish's lock, a step changes nothing that was appended or sent. */
  lemma {:induction false} SealedStep(y: System, c: Move)
    requires Inv(y) && Sealed(y) && Next(y, c).Some?
    ensures var y' := Next(y, c).value;
            Sealed(y') && y'.s.chunks == y.s.chunks && y'.s.received + y'.s.buffer == y.s.received + y.s.buffer
  {
    hide Outcome, Conserved, ThreadStep, Fine;
    match c
    case Begin(t, what) => SealedBegin(y, t, what);
    case Advance(t) => SealedAdvance(y, t);
    case Receive =>
  }

  lemma {:induction false} SealedBegin(y: System, t: nat, what: Start)
    requires Sealed(y) && Next(y, Begin(t, what)).Some?
    ensures var y' := Next(y, Begin(t, what)).value;
            Sealed(y') && y'.s.chunks == y.s.chunks && y'.s.received + y'.s.buffer == y.s.received + y.s.buffer
  {
    var y' := Next(y, Begin(t, what)).value;
    if !y.s.once.Completed? {
      var u :| 0 <= u < |y.threads| && Closing(y.threads[u]);
      assert u != t && Closing(y'.threads[u]);
    }
  }

  /** Past finish's lock, no run changes what was appended or sent. */
  lemma {:induction false} SealedForGood(y: System, moves: seq<Move>)
    requires Inv(y) && Sealed(y) && Exec(y, moves).Some?
    ensures var y' := Exec(y, moves).value;
            y'.s.chunks == y.s.chunks && y'.s.received + y'.s.buffer == y.s.received + y.s.buffer
    decreases |moves|
  {
    hide Inv, Next, Sealed;
    if moves != [] {
      InvKept(y, moves[0]);
      SealedStep(y, moves[0]);
      SealedForGood(Next(y, moves[0]).value, moves[1..]);
    }
  }

  /** With done closed a step clears no chunk, and appends only one that was cleared. */
  lemma {:induction false} StepWhenDone(s: Shared, t: nat, p: Point)
    requires s.done && Located(s, t, p) && ThreadStep(s, t, p).Some?
    ensures var (p', s') := ThreadStep(s, t, p).value;
            && s'.done && !p'.EAppend?
            && s'.chunks == s.chunks + (if p.EAppend? then [p.item] else [])
            && (p.EAppend? ==> s.lock == Some(t) && s'.lock == Some(t))
            && (s.lock.Some? && s.lock != Some(t) ==> s'.lock == s.lock)
            && (s.lock.None? ==> s'.lock in {None, Some(t)})
            && (s.lock == Some(t) ==> s'.lock in {None, Some(t)})
  {
  }

  lemma {:induction false} DoneStep(y: System, c: Move)
    requires Inv(y) && y.s.done && Next(y, c).Some?
    ensures var y' := Next(y, c).value;
            y'.s.done && ((y'.s.chunks == y.s.chunks && InFlight(y') == InFlight(y)) ||
                          (y'.s.chunks == y.s.chunks + InFlight(y) && InFlight(y') == []))
  {
    hide Outcome, Conserved, Carries, Progress, Quiet, ThreadStep;
    match c
    case Begin(t, what) => BeginConserves(y, t, what);
    case Advance(t) =>
      assert Fine(y.s, t, y.threads[t]);
      StepWhenDone(y.s, t, y.threads[t]);
      hide Fine;
    case Receive =>
  }

  /** After done is closed, at most the one chunk already cleared is still appended. */
  lemma {:induction false} DoneAddsAtMostInFlight(y: System, moves: seq<Move>)
    requires Inv(y) && y.s.done && Exec(y, moves).Some?
    ensures Exec(y, moves).value.s.chunks in {y.s.chunks, y.s.chunks + InFlight(y)}
    decreases |moves|
  {
    hide Inv, Next, InFlight;
    if moves != [] {
      var y' := Next(y, moves[0]).value;
      InvKept(y, moves[0]);
      DoneStep(y, moves[0]);
      DoneAddsAtMostInFlight(y', moves[1..]);
      assert y'.s.chunks + [] == y'.s.chunks;
    }
  }

  /**
   The collecting caller reads the chunks once done is closed. What it reads is final, whatever runs
   afterwards, exactly when no emit stood between its check and its append.
   */
  lemma {:induction false} FinalIffNoneInFlight(y: System)
    requires Reachable(y) && y.s.done
    ensures (forall moves :: Exec(y, moves).Some? ==> Exec(y, moves).value.s.chunks == y.s.chunks)
            <==> InFlight(y) == []
  {
    ReachableInv(y);
    hide Inv;
    if InFlight(y) == [] {
      hide InFlight;
      assert y.s.chunks + [] == y.s.chunks;
      forall moves | Exec(y, moves).Some?
        ensures Exec(y, moves).value.s.chunks == y.s.chunks
      {
        DoneAddsAtMostInFlight(y, moves);
      }
    } else {
      var now := Advance(y.s.lock.value);
      assert [now][1..] == [];
      assert Exec(y, [now]) == Next(y, now);
      assert |Exec(y, [now]).value.s.chunks| == |y.s.chunks| + 1;
    }
  }

  lemma {:induction false} RunStep(y: System, c: Move, y': System, rest: seq<Move>, last: System)
    requires Next(y, c).Some? && Exec(y', rest) == Some(last)
    requires var z := Next(y, c).value;
             z.s == y'.s && |z.threads| == |y'.threads| && forall t :: 0 <= t < |z.threads| ==> z.threads[t] == y'.threads[t]
    ensures Exec(y, [c] + rest) == Some(last)
  {
    assert Next(y, c).value.threads == y'.threads;
    assert ([c] + rest)[1..] == rest;
  }

  /** A callback begins an emit and passes its check; the other is idle throughout. */
  lemma {:induction false} EmitPasses(rest: seq<Move>, last: System)
    requires var s := Init(false, 2).s.(calls := 1, lock := Some(0));
             Exec(System([EAppend(Item(0, false)), Idle], s), rest) == Some(last)
    ensures Exec(Init(false, 2), [Begin(0, StartEmit)] + ([Advance(0)] + ([Advance(0)] + rest))) == Some(last)
  {
    hide Exec;
    var x, s := Item(0, false), Init(false, 2).s.(calls := 1);
    RunStep(System([ECheck(x), Idle], s.(lock := Some(0))), Advance(0), System([EAppend(x), Idle], s.(lock := Some(0))), rest, last);
    RunStep(System([ELock(x), Idle], s), Advance(0), System([ECheck(x), Idle], s.(lock := Some(0))), [Advance(0)] + rest, last);
    RunStep(Init(false, 2), Begin(0, StartEmit), System([ELock(x), Idle], s), [Advance(0)] + ([Advance(0)] + rest), last);
  }

  /** A second callback closes done while the first still has its chunk to append. */
  lemma {:induction false} FinishCloses(x: Item, s: Shared)
    requires s.once.Fresh? && !s.done
    ensures Exec(System([EAppend(x), Idle], s), [Begin(1, StartFinish)] + ([Advance(1)] + ([Advance(1)] + [])))
            == Some(System([EAppend(x), FLock], s.(once := Running(1), done := true)))
  {
    hide Exec;
    var s' := s.(once := Running(1));
    var last := System([EAppend(x), FLock], s'.(done := true));
    ExecNothing(last);
    RunStep(System([EAppend(x), FCloseDone], s'), Advance(1), last, [], last);
    RunStep(System([EAppend(x), FOnce], s), Advance(1), System([EAppend(x), FCloseDone], s'), [Advance(1)] + [], last);
    RunStep(System([EAppend(x), Idle], s), Begin(1, StartFinish), System([EAppend(x), FOnce], s),
            [Advance(1)] + ([Advance(1)] + []), last);
  }

  lemma {:induction false} ExecNothing(y: System)
    ensures Exec(y, []) == Some(y)
  {
  }

  /** Such a state is reached: an emit passes its check, finish closes done, and the chunk is still to come. */
  lemma {:induction false} DoneOvertakesAnEmit()
    ensures exists y :: Reachable(y) && y.s.done && !y.s.stream && InFlight(y) != []
  {
    hide Exec;
    var s := Init(false, 2).s.(calls := 1, lock := Some(0));
    var last := System([EAppend(Item(0, false)), FLock], s.(once := Running(1), done := true));
    FinishCloses(Item(0, false), s);
    EmitPasses([Begin(1, StartFinish)] + ([Advance(1)] + ([Advance(1)] + [])), last);
    assert Reachable(last);
  }
}
