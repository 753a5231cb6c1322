/**
 * Shutdown comes to an end. Once `stop` has been called every step, except the flush thread's
 * rounds over an empty buffer, brings the end nearer, and some such step is always possible.
 */
module PipelineShutdown {
  import opened Basics
  import opened Pipeline
  import opened PipelineCounts
  import opened PipelineBags
  import opened PipelineSafety
  import opened PipelineAsks
  import opened PipelineTheorems
  import Limiter

  // ---------------------------------------------------------------- the measure

  /** Steps still ahead of a worker or the stopping thread, counting a save as one flush more. */
  function PointRank(t: Thread): nat {
    match t
    case Done => 0
    case Idle => 1
    case Ready => 2
    case Inserted(_) => 2
    case DeadWritten(_) => 2
    case Refused(_, _, _) => 2
    case Flushing(_, tries) => if tries < 3 then 6 - tries else 3
    case Saving(_) => 8
    case ProduceFailed(_) => 9
    case Admitted(_) => 10
    case Passed(_, _) => 11
    case Judged(_, _, _) => 12
    case Parsed(_) => 13
    case Received(_) => 14
    case Popped(_) => 15
  }

  /** The flush thread: its idle rounds are level until the store is being destroyed. */
  function FlusherRank(g: Stage, t: Thread): nat {
    match t
    case Done => 0
    case Idle => 2
    case Ready => if Rank(g) >= Rank(Destroying) then 3 else 2
    case _ => 1 + PointRank(t)
  }

  /** Work waiting in the queue and in the buffer. */
  function Load(sh: Shared): nat {
    15 * |sh.intake.queue| + 6 * |sh.disk.buffer|
  }

  function Measure(c: Config, s: State): nat
    requires |s.threads| == c.workers + 2
  {
    Sum(s.threads[..c.workers], PointRank)
    + FlusherRank(s.stage, s.threads[c.workers])
    + PointRank(s.threads[c.workers + 1])
    + Load(s.sh)
    + 2 * (6 - Rank(s.stage))
  }

  /** A round of the flush thread that finds nothing to flush. */
  predicate IdleRound(c: Config, s: State, l: Label) {
    Rank(s.stage) < Rank(Destroying) && (l == Loop(c.workers) || (l == Do(c.workers, Tick) && s.sh.disk.buffer == []))
  }

  lemma BufferAfter(c: Config, role: Role, sh: Shared, t: Thread, w: Work)
    requires CanAct(c, role, sh, t, w)
    ensures var n, n' := |sh.disk.buffer|, |NextDisk(c, role, sh, t, w).buffer|;
            n' == if w == Save then (if n + 1 < BATCH_SIZE then n + 1 else 0) else if w == Tick then 0 else n
  {
  }

  lemma QueueAfter(c: Config, role: Role, sh: Shared, t: Thread, w: Work)
    requires CanAct(c, role, sh, t, w)
    ensures |NextIntake(sh.intake, w).queue| == |sh.intake.queue| - if w == Pop then 1 else 0
  {
  }

  /** How a worker's or the stopping thread's own rank moves. */
  lemma RankAfter(c: Config, role: Role, sh: Shared, t: Thread, w: Work)
    requires CanAct(c, role, sh, t, w) && role != Flusher
    ensures var r, r' := PointRank(t), PointRank(NextPoint(c, role, sh, t, w));
            if w == Pop then r' < r + 15
            else if w == Save then r' + (if |sh.disk.buffer| + 1 < BATCH_SIZE then 6 else 0) < r
            else w != Tick && r' < r
  {
    hide NextIntake, News, NextMetrics, NextGate, NextDisk, Limiter.Last, Limiter.Allows;
  }

  lemma WorkDecreases(c: Config, role: Role, sh: Shared, t: Thread, w: Work)
    requires CanAct(c, role, sh, t, w) && role != Flusher
    ensures Load(Act(c, role, sh, t, w)) + PointRank(NextPoint(c, role, sh, t, w)) < Load(sh) + PointRank(t)
  {
    hide CanAct, NextPoint, NextIntake, News, NextMetrics, NextGate, NextDisk, PointRank;
    BufferAfter(c, role, sh, t, w);
    QueueAfter(c, role, sh, t, w);
    RankAfter(c, role, sh, t, w);
  }

  lemma FlusherRankAfter(c: Config, g: Stage, sh: Shared, t: Thread, w: Work)
    requires CanAct(c, Flusher, sh, t, w) && RoleOk(c, Flusher, t)
    ensures var r, r' := FlusherRank(g, t), FlusherRank(g, NextPoint(c, Flusher, sh, t, w));
            if w == Tick then
              if sh.disk.buffer == [] then r' <= r && (Rank(g) >= Rank(Destroying) ==> r' < r)
              else r' <= r + 5
            else w != Pop && w != Save && r' < r
  {
    hide NextIntake, News, NextMetrics, NextGate, NextDisk, Limiter.Last, Limiter.Allows;
  }

  lemma FlushWorkDecreases(c: Config, g: Stage, sh: Shared, t: Thread, w: Work)
    requires CanAct(c, Flusher, sh, t, w) && RoleOk(c, Flusher, t)
    ensures var before := Load(sh) + FlusherRank(g, t);
            var after := Load(Act(c, Flusher, sh, t, w)) + FlusherRank(g, NextPoint(c, Flusher, sh, t, w));
            after < before || (after == before && w == Tick && sh.disk.buffer == [] && Rank(g) < Rank(Destroying))
  {
    hide CanAct, NextPoint, NextIntake, News, NextMetrics, NextGate, NextDisk, FlusherRank;
    BufferAfter(c, Flusher, sh, t, w);
    QueueAfter(c, Flusher, sh, t, w);
    FlusherRankAfter(c, g, sh, t, w);
  }

  /** The measure after a step of thread i. */
  lemma DoDecreases(c: Config, s: State, i: nat, w: Work)
    requires Enabled(c, s, Do(i, w)) && Sound(c, s)
    ensures var s' := Step(c, s, Do(i, w));
            && Measure(c, s') <= Measure(c, s)
            && (IdleRound(c, s, Do(i, w)) || Measure(c, s') < Measure(c, s))
  {
    hide CanAct, Act, NextPoint, Sum, PointRank, FlusherRank, Load, SharedOk, DataOk;
    var n, t, t' := c.workers, s.threads[i], NextPoint(c, RoleOf(c, i), s.sh, s.threads[i], w);
    assert RoleOk(c, RoleOf(c, i), t);
    if i < n {
      WorkDecreases(c, Worker, s.sh, t, w);
      SumAfterUpdate(s.threads[..n], i, t', PointRank);
      assert s.threads[i := t'][..n] == s.threads[..n][i := t'];
    } else {
      assert s.threads[i := t'][..n] == s.threads[..n];
      if i == n {
        FlushWorkDecreases(c, s.stage, s.sh, t, w);
      } else {
        WorkDecreases(c, Stopper, s.sh, t, w);
      }
    }
  }

  lemma LoopDecreases(c: Config, s: State, i: nat)
    requires Enabled(c, s, Loop(i)) && Sound(c, s) && Rank(s.stage) >= Rank(Joining)
    ensures var s' := Step(c, s, Loop(i));
            && Measure(c, s') <= Measure(c, s)
            && (IdleRound(c, s, Loop(i)) || Measure(c, s') < Measure(c, s))
  {
    hide CanAct, Sum, Load, SharedOk, DataOk;
    var n, t' := c.workers, Step(c, s, Loop(i)).threads[i];
    if i < n {
      SumAfterUpdate(s.threads[..n], i, t', PointRank);
      assert s.threads[i := t'][..n] == s.threads[..n][i := t'];
    } else {
      assert s.threads[i := t'][..n] == s.threads[..n];
    }
  }

  lemma StopperFlushDecreases(c: Config, s: State, next: Stage)
    requires |s.threads| == c.workers + 2 && StopperIdle(c, s) && Rank(next) == Rank(s.stage) + 1
    requires next == Stopped || s.threads[c.workers] == Done
    ensures |StopperFlush(c, s, next).threads| == c.workers + 2
    ensures Measure(c, StopperFlush(c, s, next)) < Measure(c, s)
  {
    hide Sum;
    var n, k, t' := c.workers, StopperIndex(c), FlushPoint(s.sh.disk);
    assert s.threads[k := t'][..n] == s.threads[..n];
  }

  /** Once `stop` is called nothing arrives any more. */
  lemma IntakeIsClosed(c: Config, s: State, l: Label)
    requires StageOk(c, s) && Rank(s.stage) >= Rank(Joining) && IntakeLabel(l)
    ensures !Enabled(c, s, l)
  {
    hide CanAct;
  }

  lemma StageStepDecreases(c: Config, s: State, l: Label)
    requires Enabled(c, s, l) && |s.threads| == c.workers + 2
    requires l.JoinWorkers? || l.DrainEnd? || l.Destroy?
    ensures var s' := Step(c, s, l); |s'.threads| == c.workers + 2 && Measure(c, s') < Measure(c, s)
  {
    hide CanAct, Sum, Load, PointRank;
  }

  lemma FlushLabelDecreases(c: Config, s: State, l: Label)
    requires Enabled(c, s, l) && |s.threads| == c.workers + 2 && (l.StopFlush? || l.DestroyFlush?)
    ensures var s' := Step(c, s, l); |s'.threads| == c.workers + 2 && Measure(c, s') < Measure(c, s)
  {
    hide CanAct, Measure, StopperFlush;
    StopperFlushDecreases(c, s, if l.StopFlush? then Stopped else Destroyed);
  }

  /** After `stop` is called no step moves away from the end, and all but idle rounds move nearer. */
  lemma EveryStepNearsTheEnd(c: Config, s: State, l: Label)
    requires Enabled(c, s, l) && Inv(c, s) && Rank(s.stage) >= Rank(Joining)
    ensures |s.threads| == c.workers + 2 == |Step(c, s, l).threads|
    ensures Measure(c, Step(c, s, l)) <= Measure(c, s)
    ensures IdleRound(c, s, l) || Measure(c, Step(c, s, l)) < Measure(c, s)
  {
    hide Inv, Sound, StageOk, Enabled, Step, Measure, IdleRound;
    InvParts(c, s);
    StepKeepsInv(c, s, l);
    InvParts(c, Step(c, s, l));
    if IntakeLabel(l) {
      IntakeIsClosed(c, s, l);
    } else if l.Do? {
      DoDecreases(c, s, l.i, l.w);
    } else if l.Loop? {
      LoopDecreases(c, s, l.i);
    } else if l.StopFlush? || l.DestroyFlush? {
      FlushLabelDecreases(c, s, l);
    } else if l.StopCall? {
      StopIsCalledOnce(c, s);
    } else {
      StageStepDecreases(c, s, l);
    }
  }

  lemma StopIsCalledOnce(c: Config, s: State)
    requires Rank(s.stage) >= Rank(Joining)
    ensures !Enabled(c, s, StopCall)
  {
    hide CanAct;
  }

  // ------------------------------------------------------------ there is a next step

  /** The work a thread at this point can always do. */
  function NextWork(c: Config, role: Role, sh: Shared, t: Thread): Work
    requires !t.Idle? && !t.Done?
  {
    match t
    case Ready => if role == Flusher then Tick else if sh.intake.queue == [] then PopNothing else Pop
    case Popped(_) => CountReceived
    case Received(_) => Classify
    case Parsed(_) => Judge(0)
    case Judged(_, _, _) => CountJudged
    case Passed(_, _) =>
      if Limits(c, role)
      then Limit(if sh.gate.calls == [] then 0 else Limiter.Last(sh.gate.calls).time, Limiter.Answered)
      else SkipLimit
    case Refused(_, _, _) => CountLimited
    case Admitted(_) => Produce(true)
    case ProduceFailed(_) => CountKafkaFail
    case Saving(_) => Save
    case Flushing(_, tries) => if tries < 3 then Insert(true) else WriteDead(true, true)
    case Inserted(_) => CountStored
    case DeadWritten(_) => CountDead
  }

  lemma NextWorkIsPossible(c: Config, role: Role, sh: Shared, t: Thread)
    requires DataOk(c, t) && RoleOk(c, role, t) && !t.Idle? && !t.Done?
    ensures CanAct(c, role, sh, t, NextWork(c, role, sh, t))
    ensures role == Stopper ==> NextWork(c, role, sh, t) != Pop
  {
  }

  predicate Finished(c: Config, s: State) {
    s.stage == Destroyed && StopperIdle(c, s)
  }

  /** A thread that is neither resting nor done can step; a resting worker or flush thread can loop. */
  function ThreadLabel(c: Config, s: State, i: nat): Label
    requires i < |s.threads| && s.threads[i] != Done
  {
    if s.threads[i] == Idle then Loop(i) else Do(i, NextWork(c, RoleOf(c, i), s.sh, s.threads[i]))
  }

  lemma ThreadCanStep(c: Config, s: State, i: nat)
    requires Sound(c, s) && i < |s.threads| && s.threads[i] != Done
    requires s.threads[i] == Idle ==> RoleOf(c, i) != Stopper
    ensures Enabled(c, s, ThreadLabel(c, s, i))
  {
    hide CanAct, SharedOk;
    var t := s.threads[i];
    assert DataOk(c, t) && RoleOk(c, RoleOf(c, i), t);
    hide DataOk, RoleOk, NextWork;
    if t != Idle {
      NextWorkIsPossible(c, RoleOf(c, i), s.sh, t);
    }
  }

  /** Before the destructor waits for the flush thread, that thread's state does not matter. */
  lemma EarlyStopperStep(c: Config, s: State) returns (l: Label)
    requires StopperIdle(c, s) && Rank(Draining) <= Rank(s.stage) <= Rank(Stopped)
    ensures Enabled(c, s, l) && !IdleRound(c, s, l)
  {
    hide CanAct;
    StopperCanPop(c, s.sh);
    if s.stage == Draining {
      l := if s.sh.intake.queue == [] then DrainEnd else Do(StopperIndex(c), Pop);
    } else if s.stage == Drained {
      l := StopFlush;
    } else {
      l := Destroy;
    }
  }

  lemma JoiningStep(c: Config, s: State) returns (l: Label)
    requires Sound(c, s) && s.stage == Joining
    ensures Enabled(c, s, l) && !IdleRound(c, s, l)
  {
    hide CanAct, SharedOk, ThreadsOk, NextWork;
    if WorkersDone(c, s) {
      l := JoinWorkers;
    } else {
      var i :| 0 <= i < c.workers && i < |s.threads| && s.threads[i] != Done;
      ThreadCanStep(c, s, i);
      l := ThreadLabel(c, s, i);
    }
  }

  /** A thread's own next step is not an idle round, for the stopping thread or during destruction. */
  lemma ThreadLabelIsBusy(c: Config, s: State, i: nat)
    requires i < |s.threads| && s.threads[i] != Done
    requires i == StopperIndex(c) || Rank(s.stage) >= Rank(Destroying)
    ensures !IdleRound(c, s, ThreadLabel(c, s, i))
  {
    hide NextWork;
  }

  /** Some step that brings shutdown nearer to its end is always possible. */
  lemma NextShutdownStep(c: Config, s: State) returns (l: Label)
    requires Inv(c, s) && Rank(s.stage) >= Rank(Joining) && !Finished(c, s)
    ensures Enabled(c, s, l) && !IdleRound(c, s, l)
  {
    hide Inv, Sound, StageOk, Enabled, IdleRound, ThreadLabel;
    InvParts(c, s);
    var n, k := c.workers, StopperIndex(c);
    if s.stage == Joining {
      l := JoiningStep(c, s);
    } else if s.threads[k] != Idle {
      StopperIsNeverDone(c, s);
      ThreadCanStep(c, s, k);
      ThreadLabelIsBusy(c, s, k);
      l := ThreadLabel(c, s, k);
    } else if Rank(s.stage) <= Rank(Stopped) {
      l := EarlyStopperStep(c, s);
    } else if s.threads[n] != Done {
      ThreadCanStep(c, s, n);
      ThreadLabelIsBusy(c, s, n);
      l := ThreadLabel(c, s, n);
    } else {
      l := DestroyFlush;
      DestructorCanFlush(c, s);
    }
  }

  lemma DestructorCanFlush(c: Config, s: State)
    requires StopperIdle(c, s) && s.stage == Destroying && s.threads[c.workers] == Done
    ensures Enabled(c, s, DestroyFlush) && !IdleRound(c, s, DestroyFlush)
  {
    hide CanAct;
  }

  lemma StopperIsNeverDone(c: Config, s: State)
    requires Sound(c, s)
    ensures s.threads[StopperIndex(c)] != Done
  {
    assert RoleOk(c, RoleOf(c, StopperIndex(c)), s.threads[StopperIndex(c)]);
  }

  lemma StopperCanPop(c: Config, sh: Shared)
    ensures CanAct(c, Stopper, sh, Idle, Pop) <==> sh.intake.queue != []
  {
  }

  /** From any state after the call of `stop`, some run of at most `Measure` steps completes shutdown. */
  lemma {:induction false} ShutdownCompletes(c: Config, s: State) returns (trace: seq<Label>)
    requires Inv(c, s) && Rank(s.stage) >= Rank(Joining)
    ensures |s.threads| == c.workers + 2 && |trace| <= Measure(c, s)
    ensures Legal(c, s, trace) && Finished(c, After(c, s, trace)) && Inv(c, After(c, s, trace))
    decreases Measure(c, s)
  {
    hide Inv, Step, Enabled, Measure, IdleRound, Finished;
    hide Sound, StageOk, Counted, Batched, GateOk, TextOk, InOrder;
    InvParts(c, s);
    if Finished(c, s) {
      trace := [];
    } else {
      var l := NextShutdownStep(c, s);
      EveryStepNearsTheEnd(c, s, l);
      StepKeepsInv(c, s, l);
      StageOnlyAdvances(c, s, l);
      var rest := ShutdownCompletes(c, Step(c, s, l));
      trace := [l] + rest;
      assert trace[1..] == rest;
    }
  }

  lemma StageOnlyAdvances(c: Config, s: State, l: Label)
    requires Enabled(c, s, l)
    ensures Rank(Step(c, s, l).stage) >= Rank(s.stage)
  {
    hide CanAct, Act, NextPoint;
  }

  function BusySteps(c: Config, s: State, trace: seq<Label>): nat
    requires Legal(c, s, trace)
    decreases |trace|
  {
    if trace == [] then 0
    else (if IdleRound(c, s, trace[0]) then 0 else 1) + BusySteps(c, Step(c, s, trace[0]), trace[1..])
  }

  /** In every run after the call of `stop`, however long, all but `Measure` steps are idle rounds. */
  lemma {:induction false} ShutdownIsBounded(c: Config, s: State, trace: seq<Label>)
    requires Inv(c, s) && Rank(s.stage) >= Rank(Joining) && Legal(c, s, trace)
    ensures |s.threads| == c.workers + 2 && BusySteps(c, s, trace) <= Measure(c, s)
    decreases |trace|
  {
    hide Inv, Step, Enabled, Measure, IdleRound;
    hide Sound, StageOk, Counted, Batched, GateOk, TextOk, InOrder;
    InvParts(c, s);
    if trace != [] {
      EveryStepNearsTheEnd(c, s, trace[0]);
      StepKeepsInv(c, s, trace[0]);
      StageOnlyAdvances(c, s, trace[0]);
      ShutdownIsBounded(c, Step(c, s, trace[0]), trace[1..]);
    }
  }

  // ---------------------------------------------------------- over whole runs

  /** In every run, from the call of `stop` until the destructor is over, some useful step is enabled. */
  lemma ShutdownNeverDeadlocks(c: Config, past: Past, trace: seq<Label>) returns (l: Label)
    requires Legal(c, Init(c, past), trace)
    requires var s := After(c, Init(c, past), trace); Rank(s.stage) >= Rank(Joining) && !Finished(c, s)
    ensures var s := After(c, Init(c, past), trace); Enabled(c, s, l) && !IdleRound(c, s, l)
  {
    hide Legal, After, Inv, Enabled, IdleRound, Finished;
    ReachableInv(c, past, trace);
    l := NextShutdownStep(c, After(c, Init(c, past), trace));
  }

  /** However a run goes on after the call of `stop`, all but a bounded number of its steps are idle rounds. */
  lemma ShutdownRunsAreBounded(c: Config, past: Past, trace: seq<Label>, rest: seq<Label>)
    requires Legal(c, Init(c, past), trace)
    requires var s := After(c, Init(c, past), trace); Rank(s.stage) >= Rank(Joining) && Legal(c, s, rest)
    ensures var s := After(c, Init(c, past), trace);
            |s.threads| == c.workers + 2 && BusySteps(c, s, rest) <= Measure(c, s)
  {
    hide Legal, After, Inv, BusySteps, Measure;
    ReachableInv(c, past, trace);
    ShutdownIsBounded(c, After(c, Init(c, past), trace), rest);
  }

  /** Whatever has happened before, once `stop` is called the run can always be brought to its proper end. */
  lemma StopCanAlwaysComplete(c: Config, past: Past, trace: seq<Label>) returns (rest: seq<Label>)
    requires Legal(c, Init(c, past), trace)
    requires Rank(After(c, Init(c, past), trace).stage) >= Rank(Joining)
    ensures var s := After(c, Init(c, past), trace);
            && Legal(c, s, rest)
            && var e := After(c, s, rest); Finished(c, e) && e.sh.intake.queue == [] && e.sh.disk.buffer == []
  {
    hide Legal, After, Inv;
    ReachableInv(c, past, trace);
    rest := ShutdownCompletes(c, After(c, Init(c, past), trace));
    InvParts(c, After(c, After(c, Init(c, past), trace), rest));
    hide Sound;
  }

  // ----------------------------------------------------- before the call of stop

  /** What keeps `stop` from being called: frames not offered yet, drops not counted yet, IO threads. */
  function Unsettled(s: State): nat {
    if Rank(s.stage) >= Rank(Joining) then 0
    else if s.sh.intake.open then 2 + 2 * |s.sh.intake.arriving| + s.sh.intake.uncounted
    else 1
  }

  /** A step of the sessions or of main that brings the call of `stop` nearer. */
  lemma StepTowardsStop(c: Config, s: State) returns (l: Label)
    requires StageOk(c, s) && Rank(s.stage) < Rank(Joining)
    ensures Enabled(c, s, l) && Unsettled(Step(c, s, l)) < Unsettled(s)
  {
    hide CanAct;
    var q := s.sh.intake;
    if !q.open {
      l := StopCall;
    } else if q.arriving != multiset{} {
      var d :| d in q.arriving;
      l := Offer(d);
    } else if q.uncounted > 0 {
      l := CountDrop;
    } else {
      l := JoinIo;
    }
  }

  lemma {:induction false} StopCanBeCalled(c: Config, s: State) returns (rest: seq<Label>)
    requires Inv(c, s)
    ensures Legal(c, s, rest) && Inv(c, After(c, s, rest)) && Rank(After(c, s, rest).stage) >= Rank(Joining)
    decreases Unsettled(s)
  {
    if Rank(s.stage) >= Rank(Joining) {
      rest := [];
    } else {
      hide Inv, Step, Enabled, Unsettled, Sound, Counted, Batched, GateOk, TextOk, InOrder, StageOk;
      InvParts(c, s);
      var l := StepTowardsStop(c, s);
      StepKeepsInv(c, s, l);
      var more := StopCanBeCalled(c, Step(c, s, l));
      rest := [l] + more;
      assert rest[1..] == more;
    }
  }

  lemma {:induction false} RunsCompose(c: Config, s: State, a: seq<Label>, b: seq<Label>)
    requires Legal(c, s, a) && Legal(c, After(c, s, a), b)
    ensures Legal(c, s, a + b) && After(c, s, a + b) == After(c, After(c, s, a), b)
    decreases |a|
  {
    hide Enabled, Step;
    if a == [] {
      assert a + b == b;
    } else {
      assert (a + b)[1..] == a[1..] + b;
      RunsCompose(c, Step(c, s, a[0]), a[1..], b);
    }
  }

  /** No run paints itself into a corner: it can always be continued to the end of a proper shutdown. */
  lemma EveryRunCanShutDown(c: Config, past: Past, trace: seq<Label>) returns (rest: seq<Label>)
    requires Legal(c, Init(c, past), trace)
    ensures var s := After(c, Init(c, past), trace);
            && Legal(c, s, rest)
            && var e := After(c, s, rest); Finished(c, e) && e.sh.intake.queue == [] && e.sh.disk.buffer == []
  {
    hide Legal, After, Inv;
    ReachableInv(c, past, trace);
    var s := After(c, Init(c, past), trace);
    var first := StopCanBeCalled(c, s);
    RunsCompose(c, Init(c, past), trace, first);
    var second := StopCanAlwaysComplete(c, past, trace + first);
    RunsCompose(c, s, first, second);
    rest := first + second;
  }
}
