/**
 * Connection accounting: the accept chain, the read and timer handlers of every
 * session, and the exactly-once cleanup, interleaved on any number of threads.
 */
module Sessions {

  const MAX_CONNECTIONS: nat := 20000

  /** The read side of a session: one outstanding read, or one handler running. */
  datatype ReadSide =
    | Unstarted        // constructed, first read not issued yet
    | Header           // header read outstanding
    | Body             // body read outstanding
    | Delivering       // body handler between cancelling the timer and the next read
    | ReadCleanup      // handler about to call cleanup
    | ReadDecrement    // handler won the exchange, decrement pending
    | ReadOver         // no read outstanding, no handler running

  datatype TimerSide =
    | Unset
    | Waiting          // wait outstanding
    | Fired            // expired, handler queued with success
    | Cancelled        // handler queued with an error
    | TimerCleanup     // handler about to call cleanup
    | TimerDecrement   // handler won the exchange, decrement pending
    | TimerOver

  datatype Session = Session(read: ReadSide, timer: TimerSide, cleaned: bool, decrements: nat)

  /** The single accept handler: waiting, past the limit check, or starting session k. */
  datatype Acceptor = Listening | Admitted | Starting(k: nat)

  datatype State = State(active: int, acceptor: Acceptor, sessions: seq<Session>)

  datatype Label =
    | AcceptCheck                      // accept completes, limit check
    | AcceptFails                      // accept or endpoint error, or a rejected socket
    | Construct                        // session built, counter incremented
    | StartTimer | StartRead
    | HeaderLegal(k: nat) | HeaderIllegal(k: nat) | ReadFails(k: nat)
    | BodyDone(k: nat) | NextHeader(k: nat)
    | ReadExchange(k: nat) | ReadDecrements(k: nat)
    | TimerExpires(k: nat) | TimerRuns(k: nat) | TimerAborted(k: nat)
    | TimerExchange(k: nat) | TimerDecrements(k: nat)

  const INIT := State(0, Listening, [])
  const NEW := Session(Unstarted, Unset, false, 0)

  /** The comparison of the signed counter with an unsigned constant converts it to 64 bits. */
  function ToSize(x: int): int {
    if x >= 0 then x else x + 0x1_0000_0000_0000_0000
  }

  predicate ReadIs(s: State, k: nat, r: ReadSide) {
    k < |s.sessions| && s.sessions[k].read == r
  }

  predicate TimerIs(s: State, k: nat, t: TimerSide) {
    k < |s.sessions| && s.sessions[k].timer == t
  }

  predicate Enabled(s: State, l: Label) {
    match l
    case AcceptCheck => s.acceptor == Listening
    case AcceptFails => s.acceptor == Listening || s.acceptor == Admitted
    case Construct => s.acceptor == Admitted
    case StartTimer => s.acceptor.Starting? && TimerIs(s, s.acceptor.k, Unset)
    case StartRead => s.acceptor.Starting? && ReadIs(s, s.acceptor.k, Unstarted) && !TimerIs(s, s.acceptor.k, Unset)
    case HeaderLegal(k) => ReadIs(s, k, Header)
    case HeaderIllegal(k) => ReadIs(s, k, Header)
    case ReadFails(k) => ReadIs(s, k, Header) || ReadIs(s, k, Body)
    case BodyDone(k) => ReadIs(s, k, Body)
    case NextHeader(k) => ReadIs(s, k, Delivering)
    case ReadExchange(k) => ReadIs(s, k, ReadCleanup)
    case ReadDecrements(k) => ReadIs(s, k, ReadDecrement)
    case TimerExpires(k) => TimerIs(s, k, Waiting)
    case TimerRuns(k) => TimerIs(s, k, Fired)
    case TimerAborted(k) => TimerIs(s, k, Cancelled)
    case TimerExchange(k) => TimerIs(s, k, TimerCleanup)
    case TimerDecrements(k) => TimerIs(s, k, TimerDecrement)
  }

  /** The effect of a handler step on its own session. */
  function Handle(x: Session, l: Label): Session {
    match l
    case StartTimer => x.(timer := Waiting)
    case StartRead => x.(read := Header)
    case HeaderLegal(_) => x.(read := Body)
    case HeaderIllegal(_) => x.(read := ReadCleanup)
    case ReadFails(_) => x.(read := ReadCleanup)
    case BodyDone(_) => x.(read := Delivering, timer := if x.timer == Waiting then Cancelled else x.timer)
    case NextHeader(_) => x.(read := Header)
    case ReadExchange(_) => x.(read := if x.cleaned then ReadOver else ReadDecrement, cleaned := true)
    case ReadDecrements(_) => x.(read := ReadOver, decrements := x.decrements + 1)
    case TimerExpires(_) => x.(timer := Fired)
    case TimerRuns(_) => x.(timer := TimerCleanup)
    case TimerAborted(_) => x.(timer := TimerOver)
    case TimerExchange(_) => x.(timer := if x.cleaned then TimerOver else TimerDecrement, cleaned := true)
    case TimerDecrements(_) => x.(timer := TimerOver, decrements := x.decrements + 1)
    case _ => x
  }

  predicate AcceptLabel(l: Label) {
    l.AcceptCheck? || l.AcceptFails? || l.Construct?
  }

  function Target(s: State, l: Label): nat
    requires Enabled(s, l) && !AcceptLabel(l)
    ensures Target(s, l) < |s.sessions|
  {
    if l.StartTimer? || l.StartRead? then s.acceptor.k else l.k
  }

  function Step(s: State, l: Label): State
    requires Enabled(s, l)
  {
    match l
    case AcceptCheck => if ToSize(s.active) >= MAX_CONNECTIONS then s else s.(acceptor := Admitted)
    case AcceptFails => s.(acceptor := Listening)
    case Construct => State(s.active + 1, Starting(|s.sessions|), s.sessions + [NEW])
    case _ =>
      var k := Target(s, l);
      s.(sessions := s.sessions[k := Handle(s.sessions[k], l)],
         active := if l.ReadDecrements? || l.TimerDecrements? then s.active - 1 else s.active,
         acceptor := if l.StartRead? then Listening else s.acceptor)
  }

  /** Cleanup bookkeeping of one session: at most one side ever owns the decrement. */
  predicate SessionOk(x: Session) {
    && x.decrements
       + (if x.read == ReadDecrement then 1 else 0)
       + (if x.timer == TimerDecrement then 1 else 0) == (if x.cleaned then 1 else 0)
    && (x.read == ReadOver ==> x.cleaned)
    && (x.timer == Unset ==> x.read == Unstarted)
  }

  function TotalDecrements(xs: seq<Session>): nat {
    if xs == [] then 0 else TotalDecrements(xs[..|xs| - 1]) + xs[|xs| - 1].decrements
  }

  lemma {:induction false} DecrementsAfterUpdate(xs: seq<Session>, k: nat, x: Session)
    requires k < |xs|
    ensures TotalDecrements(xs[k := x]) + xs[k].decrements == TotalDecrements(xs) + x.decrements
  {
    var n := |xs| - 1;
    if k == n {
      assert xs[k := x][..n] == xs[..n];
    } else {
      assert xs[k := x][..n] == xs[..n][k := x];
      DecrementsAfterUpdate(xs[..n], k, x);
    }
  }

  lemma {:induction false} DecrementsBounded(xs: seq<Session>)
    requires forall x :: x in xs ==> x.decrements <= 1
    ensures TotalDecrements(xs) <= |xs|
  {
    if xs != [] {
      DecrementsBounded(xs[..|xs| - 1]);
    }
  }

  predicate Inv(s: State) {
    && (forall x :: x in s.sessions ==> SessionOk(x))
    && s.active == |s.sessions| - TotalDecrements(s.sessions)
    && s.active <= MAX_CONNECTIONS
    && (s.acceptor == Admitted ==> s.active < MAX_CONNECTIONS)
    && (s.acceptor.Starting? ==> s.acceptor.k < |s.sessions|)
    && (forall k :: 0 <= k < |s.sessions| && s.sessions[k].read == Unstarted ==> s.acceptor == Starting(k))
  }

  lemma ActiveIsNeverNegative(s: State)
    requires Inv(s)
    ensures s.active >= 0
  {
    forall x | x in s.sessions ensures x.decrements <= 1 {
      assert SessionOk(x);
    }
    DecrementsBounded(s.sessions);
  }

  lemma HandlerKeepsSessionOk(s: State, l: Label)
    requires Enabled(s, l) && !AcceptLabel(l)
    requires SessionOk(s.sessions[Target(s, l)])
    ensures SessionOk(Handle(s.sessions[Target(s, l)], l))
    ensures Handle(s.sessions[Target(s, l)], l).decrements
         == s.sessions[Target(s, l)].decrements + if l.ReadDecrements? || l.TimerDecrements? then 1 else 0
  {
  }

  lemma AcceptStepKeepsInv(s: State, l: Label)
    requires Enabled(s, l) && Inv(s) && AcceptLabel(l)
    ensures Inv(Step(s, l))
  {
    ActiveIsNeverNegative(s);
    if l.Construct? {
      var xs := s.sessions + [NEW];
      assert xs[..|xs| - 1] == s.sessions;
      assert SessionOk(NEW);
      hide SessionOk;
    }
  }

  /** A handler never brings a started session back to unstarted. */
  lemma HandlerKeepsStarted(s: State, l: Label)
    requires Enabled(s, l) && !AcceptLabel(l)
    ensures Handle(s.sessions[Target(s, l)], l).read == Unstarted ==>
              s.sessions[Target(s, l)].read == Unstarted && !l.StartRead?
  {
  }

  lemma HandlerStepKeepsInv(s: State, l: Label)
    requires Enabled(s, l) && Inv(s) && !AcceptLabel(l)
    ensures Inv(Step(s, l))
  {
    var k := Target(s, l);
    var x := s.sessions[k];
    var y := Handle(x, l);
    assert x in s.sessions;
    HandlerKeepsSessionOk(s, l);
    HandlerKeepsStarted(s, l);
    DecrementsAfterUpdate(s.sessions, k, y);
    hide Handle, SessionOk, TotalDecrements;
    var s' := Step(s, l);
    assert s'.sessions == s.sessions[k := y];
    assert forall z :: z in s'.sessions ==> z == y || z in s.sessions;
    assert l.StartRead? ==> s.acceptor == Starting(k);
  }

  lemma StepKeepsInv(s: State, l: Label)
    requires Enabled(s, l) && Inv(s)
    ensures Inv(Step(s, l))
  {
    if AcceptLabel(l) {
      AcceptStepKeepsInv(s, l);
    } else {
      HandlerStepKeepsInv(s, l);
    }
  }

  predicate Legal(s: State, trace: seq<Label>)
    decreases |trace|
  {
    trace == [] || (Enabled(s, trace[0]) && Legal(Step(s, trace[0]), trace[1..]))
  }

  function After(s: State, trace: seq<Label>): State
    requires Legal(s, trace)
    decreases |trace|
  {
    if trace == [] then s else After(Step(s, trace[0]), trace[1..])
  }

  lemma {:induction false} RunKeepsInv(s: State, trace: seq<Label>)
    requires Legal(s, trace) && Inv(s)
    ensures Inv(After(s, trace))
    decreases |trace|
  {
    if trace != [] {
      StepKeepsInv(s, trace[0]);
      RunKeepsInv(Step(s, trace[0]), trace[1..]);
    }
  }

  /**
   * In every interleaving of accept, read and timer handlers the connection counter stays
   * within 0..20000, is sessions built minus decrements performed, no session decrements
   * twice, and one whose read side is over has been cleaned up.
   */
  lemma ConnectionsAreAccountedFor(trace: seq<Label>)
    requires Legal(INIT, trace)
    ensures var s := After(INIT, trace);
            && 0 <= s.active <= 20000
            && s.active == |s.sessions| - TotalDecrements(s.sessions)
            && forall x :: x in s.sessions ==>
                 && x.decrements <= 1
                 && (x.read == ReadOver ==> x.cleaned)
                 && (x.read == ReadOver && x.timer != TimerDecrement ==> x.decrements == 1)
  {
    RunKeepsInv(INIT, trace);
    ActiveIsNeverNegative(After(INIT, trace));
    forall x | x in After(INIT, trace).sessions
      ensures x.decrements <= 1 && (x.read == ReadOver ==> x.cleaned)
      ensures x.read == ReadOver && x.timer != TimerDecrement ==> x.decrements == 1
    {
      assert SessionOk(x);
    }
  }

  /**
   * A new connection is let in exactly while fewer than 20000 sessions are counted; it then gets a
   * session, which is counted, or its socket fails and the acceptor listens again.
   */
  lemma AcceptsExactlyBelowLimit(trace: seq<Label>)
    requires Legal(INIT, trace) && After(INIT, trace).acceptor == Listening
    ensures var s := After(INIT, trace); var s' := Step(s, AcceptCheck);
            if s.active < 20000 then
              && s' == s.(acceptor := Admitted)
              && Enabled(s', Construct) && Step(s', Construct).active == s.active + 1
              && Step(s', Construct).sessions == s.sessions + [NEW]
              && Enabled(s', AcceptFails) && Step(s', AcceptFails) == s
            else s' == s
  {
    RunKeepsInv(INIT, trace);
    ActiveIsNeverNegative(After(INIT, trace));
  }

  // ------------------------------------------------------------------- cleanup

  /** The read side of session k has ended, or is about to clean up. */
  predicate ReadEnds(s: State, k: nat) {
    ReadIs(s, k, ReadCleanup) || ReadIs(s, k, ReadDecrement) || ReadIs(s, k, ReadOver)
  }

  /** Session k is cleaned up, or its timer handler is about to do it. */
  predicate TimerEnds(s: State, k: nat) {
    k < |s.sessions| && (s.sessions[k].cleaned || s.sessions[k].timer == TimerCleanup)
  }

  lemma StepKeepsReadEnds(s: State, l: Label, k: nat)
    requires Enabled(s, l) && (ReadEnds(s, k) || l == ReadFails(k) || l == HeaderIllegal(k))
    ensures ReadEnds(Step(s, l), k)
  {
  }

  lemma StepKeepsTimerEnds(s: State, l: Label, k: nat)
    requires Enabled(s, l) && (TimerEnds(s, k) || l == TimerRuns(k))
    ensures TimerEnds(Step(s, l), k)
  {
  }

  lemma {:induction false} RunEnds(trace: seq<Label>, k: nat)
    requires Legal(INIT, trace)
    ensures ReadFails(k) in trace || HeaderIllegal(k) in trace ==> ReadEnds(After(INIT, trace), k)
    ensures TimerRuns(k) in trace ==> TimerEnds(After(INIT, trace), k)
    decreases |trace|
  {
    if trace != [] {
      var front, l := trace[..|trace| - 1], trace[|trace| - 1];
      assert trace == front + [l];
      LastStep(INIT, trace);
      RunEnds(front, k);
      hide Legal, After, Step, Enabled, ReadEnds, TimerEnds;
      var s := After(INIT, front);
      if ReadEnds(s, k) || l == ReadFails(k) || l == HeaderIllegal(k) {
        StepKeepsReadEnds(s, l, k);
      }
      if TimerEnds(s, k) || l == TimerRuns(k) {
        StepKeepsTimerEnds(s, l, k);
      }
    }
  }

  /** The steps of session k that are left until its place is given back. */
  function OwnSteps(x: Session, k: nat): seq<Label> {
    if x.decrements > 0 then []
    else if x.read == ReadDecrement then [ReadDecrements(k)]
    else if x.timer == TimerDecrement then [TimerDecrements(k)]
    else if x.read == ReadCleanup then [ReadExchange(k), ReadDecrements(k)]
    else [TimerExchange(k), TimerDecrements(k)]
  }

  /** Session k has been cleaned up and its place given back, once. */
  predicate Released(s: State, k: nat) {
    k < |s.sessions| && s.sessions[k].cleaned && s.sessions[k].decrements == 1
  }

  lemma OneStep(s: State, l: Label)
    requires Enabled(s, l)
    ensures Legal(s, [l]) && After(s, [l]) == Step(s, l)
  {
    hide Enabled, Step;
    assert [l][1..] == [];
  }

  lemma TwoSteps(s: State, l: Label, m: Label)
    requires Enabled(s, l) && Enabled(Step(s, l), m)
    ensures Legal(s, [l, m]) && After(s, [l, m]) == Step(Step(s, l), m)
  {
    hide Enabled, Step;
    OneStep(Step(s, l), m);
    assert [l, m][1..] == [m];
  }

  /** The handler that won the exchange gives the place back. */
  predicate CanDecrement(s: State, k: nat, l: Label) {
    || (l == ReadDecrements(k) && ReadIs(s, k, ReadDecrement))
    || (l == TimerDecrements(k) && TimerIs(s, k, TimerDecrement))
  }

  lemma DecrementReleases(s: State, k: nat, l: Label)
    requires CanDecrement(s, k, l) && s.sessions[k].cleaned && s.sessions[k].decrements == 0
    ensures Enabled(s, l) && Released(Step(s, l), k) && Step(s, l).active == s.active - 1
  {
  }

  lemma ExchangeWins(s: State, k: nat, l: Label, m: Label)
    requires || (ReadIs(s, k, ReadCleanup) && l == ReadExchange(k) && m == ReadDecrements(k))
             || (TimerIs(s, k, TimerCleanup) && l == TimerExchange(k) && m == TimerDecrements(k))
    requires !s.sessions[k].cleaned && s.sessions[k].decrements == 0
    ensures Enabled(s, l) && CanDecrement(Step(s, l), k, m) && Step(s, l).active == s.active
    ensures Step(s, l).sessions[k].cleaned && Step(s, l).sessions[k].decrements == 0
  {
  }

  /** Once an end is in sight, the session's own steps are enabled one after another and release it. */
  lemma OwnStepsRelease(s: State, k: nat)
    requires Inv(s) && (ReadEnds(s, k) || TimerEnds(s, k))
    ensures var rest := OwnSteps(s.sessions[k], k);
            && Legal(s, rest) && Released(After(s, rest), k)
            && After(s, rest).active == s.active - (1 - s.sessions[k].decrements)
  {
    var x := s.sessions[k];
    assert x in s.sessions && SessionOk(x);
    hide Inv, Legal, After, Enabled, Step;
    var rest := OwnSteps(x, k);
    if rest == [] {
      EmptyRun(s);
    } else if |rest| == 1 {
      DecrementReleases(s, k, rest[0]);
      OneStep(s, rest[0]);
    } else {
      ExchangeWins(s, k, rest[0], rest[1]);
      DecrementReleases(Step(s, rest[0]), k, rest[1]);
      TwoSteps(s, rest[0], rest[1]);
      assert rest == [rest[0], rest[1]];
    }
  }

  lemma InitSatisfiesInv()
    ensures Inv(INIT)
  {
  }

  /**
   * In every run, a read that fails, an illegal header and a timeout all lead to cleanup: steps of
   * the session itself, at most two and enabled one after another, release its place exactly once.
   */
  lemma FailedSessionsAreReleased(trace: seq<Label>, k: nat)
    requires Legal(INIT, trace)
    requires ReadFails(k) in trace || HeaderIllegal(k) in trace || TimerRuns(k) in trace
    ensures k < |After(INIT, trace).sessions|
    ensures var s := After(INIT, trace); var rest := OwnSteps(s.sessions[k], k);
            && |rest| <= 2 && Legal(s, rest) && Released(After(s, rest), k)
            && After(s, rest).active == s.active - (1 - s.sessions[k].decrements)
  {
    hide Legal, After, Inv;
    InitSatisfiesInv();
    RunKeepsInv(INIT, trace);
    RunEnds(trace, k);
    OwnStepsRelease(After(INIT, trace), k);
  }

  /** How far the read side of a session is from its end. */
  function Remaining(x: Session): nat {
    if x.timer == Unset then 4
    else match x.read
      case Unstarted => 3
      case Delivering => 2
      case Header => 1
      case Body => 1
      case _ => 0
  }

  /** The session's next step when its connection breaks. */
  function BreakingStep(s: State, k: nat): Label
    requires k < |s.sessions|
  {
    var x := s.sessions[k];
    if x.timer == Unset then StartTimer
    else if x.read == Unstarted then StartRead
    else if x.read == Delivering then NextHeader(k)
    else ReadFails(k)
  }

  lemma BreakingStepWorks(s: State, k: nat)
    requires Inv(s) && k < |s.sessions| && Remaining(s.sessions[k]) > 0
    ensures var l := BreakingStep(s, k);
            && Enabled(s, l) && k < |Step(s, l).sessions|
            && Remaining(Step(s, l).sessions[k]) < Remaining(s.sessions[k])
  {
    assert s.sessions[k] in s.sessions && SessionOk(s.sessions[k]);
  }

  lemma {:induction false} SessionCanBreak(s: State, k: nat) returns (rest: seq<Label>)
    requires Inv(s) && k < |s.sessions|
    ensures Legal(s, rest) && Released(After(s, rest), k)
    decreases Remaining(s.sessions[k])
  {
    if Remaining(s.sessions[k]) == 0 {
      rest := OwnSteps(s.sessions[k], k);
      assert ReadEnds(s, k);
      hide Inv, Released, Legal, After;
      OwnStepsRelease(s, k);
    } else {
      var l := BreakingStep(s, k);
      BreakingStepWorks(s, k);
      StepKeepsInv(s, l);
      hide Inv, Step, Enabled, Released, Remaining, BreakingStep;
      var more := SessionCanBreak(Step(s, l), k);
      rest := [l] + more;
      assert rest[1..] == more;
    }
  }

  /** Whatever has happened, every session can still come to an end and give its place back. */
  lemma EverySessionCanEnd(trace: seq<Label>, k: nat) returns (rest: seq<Label>)
    requires Legal(INIT, trace) && k < |After(INIT, trace).sessions|
    ensures Legal(After(INIT, trace), rest) && Released(After(After(INIT, trace), rest), k)
  {
    hide Legal, After, Inv;
    InitSatisfiesInv();
    RunKeepsInv(INIT, trace);
    rest := SessionCanBreak(After(INIT, trace), k);
  }

  // ------------------------------------------------------------- idle timeouts

  lemma {:induction false} LastStep(s: State, trace: seq<Label>)
    requires trace != [] && Legal(s, trace)
    ensures var front, l := trace[..|trace| - 1], trace[|trace| - 1];
            && Legal(s, front)
            && Enabled(After(s, front), l)
            && After(s, trace) == Step(After(s, front), l)
    decreases |trace|
  {
    hide Step, Enabled;
    var front := trace[..|trace| - 1];
    if |trace| > 1 {
      assert trace[1..][..|trace| - 2] == front[1..];
      LastStep(Step(s, trace[0]), trace[1..]);
    }
  }

  /** The timer of session k expired before the session's first complete frame. */
  predicate ExpiresFirst(trace: seq<Label>, k: nat) {
    exists i :: 0 <= i < |trace| && trace[i] == TimerExpires(k) && BodyDone(k) !in trace[..i]
  }

  lemma ExpiresFirstGrows(trace: seq<Label>, l: Label, k: nat)
    ensures ExpiresFirst(trace + [l], k)
       <==> ExpiresFirst(trace, k) || (l == TimerExpires(k) && BodyDone(k) !in trace)
  {
    var more := trace + [l];
    if ExpiresFirst(trace, k) {
      var i :| 0 <= i < |trace| && trace[i] == TimerExpires(k) && BodyDone(k) !in trace[..i];
      assert more[..i] == trace[..i] && more[i] == trace[i];
    }
    if ExpiresFirst(more, k) {
      var i :| 0 <= i < |more| && more[i] == TimerExpires(k) && BodyDone(k) !in more[..i];
      if i < |trace| {
        assert more[..i] == trace[..i] && more[i] == trace[i];
      } else {
        assert more[..i] == trace;
      }
    }
    if l == TimerExpires(k) && BodyDone(k) !in trace {
      assert more[|trace|] == l && more[..|trace|] == trace;
    }
  }

  function TimerOf(s: State, k: nat): TimerSide {
    if k < |s.sessions| then s.sessions[k].timer else Unset
  }

  /** What the timer of session k tells about the run so far. */
  ghost predicate TimerStory(t: TimerSide, trace: seq<Label>, k: nat) {
    && (t == Unset || t == Waiting ==> BodyDone(k) !in trace && !ExpiresFirst(trace, k))
    && (t == Cancelled ==> BodyDone(k) in trace && !ExpiresFirst(trace, k))
    && (t == Fired || t == TimerCleanup || t == TimerDecrement ==> ExpiresFirst(trace, k))
    && (t == TimerOver ==> BodyDone(k) in trace || ExpiresFirst(trace, k))
    && (TimerRuns(k) in trace <==> ExpiresFirst(trace, k) && t != Fired)
    && (TimerExpires(k) in trace <==> ExpiresFirst(trace, k))
  }

  /** How a step moves the timer of session k. */
  predicate TimerNext(t: TimerSide, l: Label, k: nat, t': TimerSide) {
    if l == TimerExpires(k) then t == Waiting && t' == Fired
    else if l == TimerRuns(k) then t == Fired && t' == TimerCleanup
    else if l == BodyDone(k) then t != Unset && t' == (if t == Waiting then Cancelled else t)
    else t' == t || (t == Unset && t' == Waiting) || (t == Cancelled && t' == TimerOver)
         || (t == TimerCleanup && (t' == TimerOver || t' == TimerDecrement)) || (t == TimerDecrement && t' == TimerOver)
  }

  lemma StepMovesTimer(s: State, l: Label, k: nat)
    requires Enabled(s, l) && Inv(s)
    ensures TimerNext(TimerOf(s, k), l, k, TimerOf(Step(s, l), k))
  {
    if !AcceptLabel(l) {
      assert s.sessions[Target(s, l)] in s.sessions;
      assert SessionOk(s.sessions[Target(s, l)]);
    }
  }

  lemma StepKeepsStory(t: TimerSide, t': TimerSide, trace: seq<Label>, l: Label, k: nat)
    requires TimerStory(t, trace, k) && TimerNext(t, l, k, t')
    ensures TimerStory(t', trace + [l], k)
  {
    ExpiresFirstGrows(trace, l, k);
    hide ExpiresFirst;
    assert forall x :: x in trace + [l] <==> x in trace || x == l;
  }

  lemma {:induction false} RunTellsStory(trace: seq<Label>, k: nat)
    requires Legal(INIT, trace)
    ensures TimerStory(TimerOf(After(INIT, trace), k), trace, k)
    decreases |trace|
  {
    if trace != [] {
      var front, l := trace[..|trace| - 1], trace[|trace| - 1];
      LastStep(INIT, trace);
      RunTellsStory(front, k);
      RunKeepsInv(INIT, front);
      hide Legal, After, Step, Enabled, TimerStory, Inv, TimerNext;
      StepMovesTimer(After(INIT, front), l, k);
      StepKeepsStory(TimerOf(After(INIT, front), k), TimerOf(After(INIT, trace), k), front, l, k);
      assert front + [l] == trace;
    }
  }

  /**
   * The idle timeout exactly: in every run the timer handler of session k cleans up, or is about to
   * run and will, if and only if the timer expired before the session's first complete frame.
   */
  lemma TimeoutOnlyBeforeFirstFrame(trace: seq<Label>, k: nat)
    requires Legal(INIT, trace)
    ensures TimerRuns(k) in trace || TimerOf(After(INIT, trace), k) == Fired <==> ExpiresFirst(trace, k)
    ensures TimerExpires(k) in trace <==> ExpiresFirst(trace, k)
    ensures BodyDone(k) in trace && !ExpiresFirst(trace, k) ==> SwitchedOff(After(INIT, trace), k)
  {
    RunTellsStory(trace, k);
    hide ExpiresFirst;
  }

  /** The timer of session k will never act again. */
  predicate SwitchedOff(s: State, k: nat) {
    TimerIs(s, k, Cancelled) || TimerIs(s, k, TimerOver)
  }

  /** A session that waits for a header, is not cleaned up, and has no timer left. */
  predicate Abandoned(s: State, k: nat) {
    ReadIs(s, k, Header) && SwitchedOff(s, k) && !s.sessions[k].cleaned && s.sessions[k].decrements == 0
  }

  /** Does this step complete the outstanding header read of session k? */
  predicate ReadCompletes(l: Label, k: nat) {
    l == HeaderLegal(k) || l == HeaderIllegal(k) || l == ReadFails(k)
  }

  lemma {:induction false} SwitchedOffForGood(s: State, k: nat, rest: seq<Label>)
    requires SwitchedOff(s, k) && Legal(s, rest)
    ensures SwitchedOff(After(s, rest), k) && TimerExpires(k) !in rest && TimerRuns(k) !in rest
    decreases |rest|
  {
    if rest != [] {
      SwitchedOffForGood(Step(s, rest[0]), k, rest[1..]);
    }
  }

  lemma {:induction false} AbandonedForGood(s: State, k: nat, rest: seq<Label>)
    requires Abandoned(s, k) && Legal(s, rest) && forall l :: l in rest ==> !ReadCompletes(l, k)
    ensures Abandoned(After(s, rest), k)
    decreases |rest|
  {
    if rest != [] {
      assert rest[0] in rest;
      AbandonedForGood(Step(s, rest[0]), k, rest[1..]);
    }
  }

  const SETUP := [AcceptCheck, Construct, StartTimer, StartRead]
  const ONE_FRAME := [HeaderLegal(0), BodyDone(0), NextHeader(0)]

  /**
   * A client that sends one frame and then falls silent is never timed out: no continuation in
   * which no read of that session completes cleans it up or frees its place.
   */
  lemma SilentClientKeepsItsPlace(rest: seq<Label>)
    ensures Legal(INIT, SETUP + ONE_FRAME)
    ensures var s := After(INIT, SETUP + ONE_FRAME);
            Legal(s, rest) && (forall l :: l in rest ==> !ReadCompletes(l, 0)) ==> Abandoned(After(s, rest), 0)
  {
    hide Legal, After;
    FirstSessionRun();
    OneFrameRun();
    RunsCompose(INIT, SETUP, ONE_FRAME);
    var s := After(INIT, SETUP + ONE_FRAME);
    if Legal(s, rest) && forall l :: l in rest ==> !ReadCompletes(l, 0) {
      AbandonedForGood(s, 0, rest);
    }
  }

  lemma RunFrom(s: State, trace: seq<Label>, s1: State, rest: seq<Label>, end: State)
    requires trace != [] && trace[1..] == rest && Enabled(s, trace[0]) && Step(s, trace[0]) == s1
    requires Legal(s1, rest) && After(s1, rest) == end
    ensures Legal(s, trace) && After(s, trace) == end
  {
    hide Step, Enabled;
  }

  /** The accept handler sets up session 0. */
  lemma FirstSessionRun()
    ensures Legal(INIT, SETUP)
    ensures After(INIT, SETUP) == State(1, Listening, [Session(Header, Waiting, false, 0)])
  {
    hide Legal, After;
    var end := State(1, Listening, [Session(Header, Waiting, false, 0)]);
    var s3 := State(1, Starting(0), [Session(Unstarted, Waiting, false, 0)]);
    EmptyRun(end);
    RunFrom(s3, [StartRead], end, [], end);
    RunFrom(State(1, Starting(0), [NEW]), [StartTimer, StartRead], s3, [StartRead], end);
    RunFrom(State(0, Admitted, []), [Construct, StartTimer, StartRead], State(1, Starting(0), [NEW]),
            [StartTimer, StartRead], end);
    RunFrom(INIT, SETUP, State(0, Admitted, []),
            [Construct, StartTimer, StartRead], end);
  }

  lemma EmptyRun(s: State)
    ensures Legal(s, []) && After(s, []) == s
  {
  }

  /** It reads one frame and waits for the next header. */
  lemma OneFrameRun()
    ensures var s := State(1, Listening, [Session(Header, Waiting, false, 0)]);
            Legal(s, ONE_FRAME) && After(s, ONE_FRAME) == State(1, Listening, [Session(Header, Cancelled, false, 0)])
  {
    hide Legal, After;
    var s := State(1, Listening, [Session(Header, Waiting, false, 0)]);
    var s1 := State(1, Listening, [Session(Body, Waiting, false, 0)]);
    var s2 := State(1, Listening, [Session(Delivering, Cancelled, false, 0)]);
    var end := State(1, Listening, [Session(Header, Cancelled, false, 0)]);
    EmptyRun(end);
    RunFrom(s2, [NextHeader(0)], end, [], end);
    RunFrom(s1, [BodyDone(0), NextHeader(0)], s2, [NextHeader(0)], end);
    RunFrom(s, ONE_FRAME, s1, [BodyDone(0), NextHeader(0)], end);
  }

  lemma {:induction false} RunsCompose(s: State, a: seq<Label>, b: seq<Label>)
    requires Legal(s, a) && Legal(After(s, a), b)
    ensures Legal(s, a + b) && After(s, a + b) == After(After(s, a), b)
    decreases |a|
  {
    hide Enabled, Step;
    if a == [] {
      assert a + b == b;
    } else {
      assert (a + b)[1..] == a[1..] + b;
      RunsCompose(Step(s, a[0]), a[1..], b);
    }
  }
}
