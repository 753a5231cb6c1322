/** What holds in every reachable state of the pipeline, and across whole runs. */
module PipelineTheorems {
  import opened Basics
  import opened Events
  import opened Pipeline
  import opened PipelineCounts
  import opened PipelineBags
  import opened PipelineSafety
  import opened PipelineAsks
  import DeadLetter
  import Limiter

  /** The inductive invariant. */
  ghost predicate Inv(c: Config, s: State) {
    && Counted(s)
    && IntakeOk(c, s.sh.intake)
    && Handed(s)
    && (c.storage ==> Delivered(s))
    && Fated(s)
    && Batched(s.sh.disk)
    && Sound(c, s)
    && StageOk(c, s)
    && GateOk(c, s.sh.gate)
    && AsksOk(c, s)
    && TextOk(s.sh.disk)
    && (c.workers == 1 ==> InOrder(c, s))
  }

  lemma StepKeepsInv(c: Config, s: State, l: Label)
    requires Enabled(c, s, l) && Inv(c, s)
    ensures Inv(c, Step(c, s, l))
  {
    StepKeepsCounted(c, s, l);
    StepKeepsIntake(c, s, l);
    StepKeepsHanded(c, s, l);
    StepKeepsFated(c, s, l);
    StepKeepsBatched(c, s, l);
    StepKeepsSound(c, s, l);
    StepKeepsStage(c, s, l);
    StepKeepsGate(c, s, l);
    StepKeepsAsks(c, s, l);
    StepKeepsText(c, s, l);
    if c.storage {
      StepKeepsDelivered(c, s, l);
    }
    if c.workers == 1 {
      StepKeepsOrder(c, s, l);
    }
    hide Enabled, Step, Counted, IntakeOk, Handed, Delivered, Fated, Batched, Sound, StageOk;
    hide GateOk, AsksOk, TextOk, InOrder;
  }

  lemma InvParts(c: Config, s: State)
    requires Inv(c, s)
    ensures Sound(c, s) && StageOk(c, s) && |s.threads| == c.workers + 2
    ensures Counted(s) && Batched(s.sh.disk) && GateOk(c, s.sh.gate) && TextOk(s.sh.disk)
    ensures c.workers == 1 ==> InOrder(c, s)
  {
    hide StageOk, SharedOk, ThreadsOk, Counted, IntakeOk, Handed, Delivered, Fated, Batched;
    hide GateOk, AsksOk, TextOk, InOrder;
  }

  lemma RestingSums(ts: seq<Thread>)
    requires forall t :: t in ts ==> t == Idle || t == Done
    ensures Sum(ts, AtPopped) == 0 && Sum(ts, AtReceived) == 0 && Sum(ts, AtParsed) == 0
    ensures Sum(ts, AtPassed) == 0 && Sum(ts, ToCountStored) == 0 && Sum(ts, ToCountDead) == 0
  {
    hide Sum;
    SumZero(ts, AtPopped);
    SumZero(ts, AtReceived);
    SumZero(ts, AtParsed);
    SumZero(ts, AtPassed);
    SumZero(ts, ToCountStored);
    SumZero(ts, ToCountDead);
  }

  lemma RestingBags(ts: seq<Thread>)
    requires forall t :: t in ts ==> t == Idle || t == Done
    ensures Bag(ts, HandBag) == multiset{} && Bag(ts, ToSaveBag) == multiset{} && Bag(ts, InFlight) == multiset{}
  {
    hide Bag;
    BagEmpty(ts, HandBag);
    BagEmpty(ts, ToSaveBag);
    BagEmpty(ts, InFlight);
  }

  lemma InitIsSound(c: Config, past: Past)
    ensures Sound(c, Init(c, past)) && StageOk(c, Init(c, past))
    ensures c.workers == 1 ==> InOrder(c, Init(c, past))
  {
  }

  lemma InitIsCounted(c: Config, past: Past)
    ensures var s := Init(c, past);
            Counted(s) && IntakeOk(c, s.sh.intake) && Handed(s) && Delivered(s) && Fated(s)
  {
    var ts := Init(c, past).threads;
    assert forall t :: t in ts ==> t == Idle || t == Done;
    RestingSums(ts);
    RestingBags(ts);
    hide Sum, Bag;
  }

  lemma InitIsAsked(c: Config, past: Past)
    ensures AsksOk(c, Init(c, past))
  {
    hide Bag;
    var ts := Init(c, past).threads;
    assert forall t :: t in ts ==> t == Idle || t == Done;
    RestingPends(ts);
    hide PendingBag, Decided, Answered;
  }

  lemma RestingPends(ts: seq<Thread>)
    requires forall t :: t in ts ==> t == Idle || t == Done
    ensures Bag(ts, PendingBag) == multiset{}
  {
    hide Bag;
    BagEmpty(ts, PendingBag);
  }

  lemma InitSatisfiesInv(c: Config, past: Past)
    ensures Inv(c, Init(c, past))
  {
    InitIsCounted(c, past);
    InitIsSound(c, past);
    InitIsAsked(c, past);
    hide Counted, IntakeOk, Handed, Delivered, Fated, Sound, StageOk, InOrder, AsksOk;
    assert Batches([]) == [];
  }

  /** The state after k steps of a run from a fresh start. */
  function At(c: Config, past: Past, trace: seq<Label>, k: nat): State
    requires Legal(c, Init(c, past), trace) && k <= |trace|
  {
    LegalPrefix(c, Init(c, past), trace, k);
    After(c, Init(c, past), trace[..k])
  }

  lemma {:induction false} LegalPrefix(c: Config, s: State, trace: seq<Label>, k: nat)
    requires Legal(c, s, trace) && k <= |trace|
    ensures Legal(c, s, trace[..k])
    decreases k
  {
    hide Step, Enabled;
    if k > 0 {
      assert trace[..k][1..] == trace[1..][..k - 1];
      LegalPrefix(c, Step(c, s, trace[0]), trace[1..], k - 1);
    }
  }

  lemma {:induction false} RunKeepsInv(c: Config, s: State, trace: seq<Label>)
    requires Legal(c, s, trace) && Inv(c, s)
    ensures Inv(c, After(c, s, trace))
    decreases |trace|
  {
    hide Step, Enabled, Inv;
    if trace != [] {
      StepKeepsInv(c, s, trace[0]);
      RunKeepsInv(c, Step(c, s, trace[0]), trace[1..]);
    }
  }

  /** Every reachable state satisfies the invariant. */
  lemma ReachableInv(c: Config, past: Past, trace: seq<Label>)
    requires Legal(c, Init(c, past), trace)
    ensures Inv(c, After(c, Init(c, past), trace))
  {
    hide Step, Enabled, Inv;
    InitSatisfiesInv(c, past);
    RunKeepsInv(c, Init(c, past), trace);
  }

  /** What was found at the start is remembered, except that a rotation starts an empty file. */
  predicate Remembers(past: Past, sh: Shared) {
    sh.gate.first == past.store && (sh.disk.base == past.file || sh.disk.base == [])
  }

  lemma StepRemembers(c: Config, s: State, l: Label, past: Past)
    requires Enabled(c, s, l) && Remembers(past, s.sh)
    ensures Remembers(past, Step(c, s, l).sh)
  {
    hide CanAct, NextPoint, NextIntake, NextMetrics, News, DeadLetter.Text;
  }

  lemma {:induction false} RunRemembers(c: Config, s: State, trace: seq<Label>, past: Past)
    requires Legal(c, s, trace) && Remembers(past, s.sh)
    ensures Remembers(past, After(c, s, trace).sh)
    decreases |trace|
  {
    hide Step, Enabled, Remembers;
    if trace != [] {
      StepRemembers(c, s, trace[0], past);
      RunRemembers(c, Step(c, s, trace[0]), trace[1..], past);
    }
  }

  lemma ReachableRemembers(c: Config, past: Past, trace: seq<Label>)
    requires Legal(c, Init(c, past), trace)
    ensures Remembers(past, After(c, Init(c, past), trace).sh)
  {
    hide Legal, After;
    RunRemembers(c, Init(c, past), trace, past);
  }

  // ------------------------------------------------------------- conservation

  /**
   * Every frame read is exactly one of: still with its session, dropped at a full queue, queued,
   * in a thread's hand, unparseable, invalid, rate-limited, forwarded.
   */
  lemma EveryFrameIsInOnePlace(c: Config, past: Past, trace: seq<Label>)
    requires Legal(c, Init(c, past), trace)
    ensures var s := After(c, Init(c, past), trace); var q, log := s.sh.intake, s.sh.log;
            q.read == q.arriving + q.dropped + multiset(q.queue) + Bag(s.threads, HandBag)
                      + multiset(Chosen(log, IsUnparseable)) + multiset(Chosen(log, IsInvalid))
                      + multiset(Chosen(log, IsLimited)) + multiset(Chosen(log, IsForwarded))
  {
    ReachableInv(c, past, trace);
    hide Legal, After, Bag, Chosen, Data;
    var s := After(c, Init(c, past), trace);
    VerdictsPartition(s.sh.log);
    var q := s.sh.intake;
    assert multiset(q.popped + q.queue) == multiset(q.popped) + multiset(q.queue);
    hide Inv;
  }

  /**
   * With storage on, every forwarded record is exactly one of: being produced or saved, buffered,
   * in a batch in flight, stored, dead-lettered, lost.
   */
  lemma EveryForwardedRecordIsInOnePlace(c: Config, past: Past, trace: seq<Label>)
    requires Legal(c, Init(c, past), trace) && c.storage
    ensures var s := After(c, Init(c, past), trace); var d := s.sh.disk;
            multiset(Chosen(s.sh.log, IsForwarded))
            == Bag(s.threads, ToSaveBag) + multiset(d.buffer) + Bag(s.threads, InFlight) + d.stored + d.dead + d.lost
  {
    ReachableInv(c, past, trace);
    hide Legal, After, Bag, Chosen;
    var s := After(c, Init(c, past), trace);
    assert Delivered(s) && Fated(s);
    hide Inv;
  }

  /** Counters are the sizes of the bags they count, up to threads between two increments. */
  lemma CountersMatchBags(c: Config, past: Past, trace: seq<Label>)
    requires Legal(c, Init(c, past), trace)
    ensures var s := After(c, Init(c, past), trace); var m, log := s.sh.m, s.sh.log;
            && m.received + Sum(s.threads, AtPopped) == |s.sh.intake.popped|
            && m.parsed + m.parseFail + Sum(s.threads, AtReceived) == m.received
            && m.valid + m.invalid + Sum(s.threads, AtParsed) == m.parsed
            && m.parseFail == |Chosen(log, IsUnparseable)|
            && m.invalid == |Chosen(log, IsInvalid)|
            && m.rateLimited == |Chosen(log, IsLimited)|
            && m.valid == m.rateLimited + |Chosen(log, IsForwarded)| + Sum(s.threads, AtPassed)
            && m.stored + Sum(s.threads, ToCountStored) == |s.sh.disk.stored|
            && m.storeDead + Sum(s.threads, ToCountDead) == |s.sh.disk.dead|
            && m.storeFail == 0
            && m.queueDrop + s.sh.intake.uncounted == |s.sh.intake.dropped|
  {
    hide Legal, After, Inv, Sum, Chosen, Sound, StageOk, Batched, GateOk, TextOk, InOrder;
    ReachableInv(c, past, trace);
    InvParts(c, After(c, Init(c, past), trace));
  }

  /**
   * Every logged verdict is the right one for its frame. Where the limiter is to be asked, it is
   * exactly its answer to one call, made for the user of that frame, that decides.
   */
  lemma VerdictsAreRight(c: Config, past: Past, trace: seq<Label>, e: Entry)
    requires Legal(c, Init(c, past), trace) && e in After(c, Init(c, past), trace).sh.log
    ensures var calls := After(c, Init(c, past), trace).sh.gate.calls;
            match c.parse(e.data)
            case None => e.verdict == Unparseable
            case Some(event) =>
              && !e.verdict.Unparseable?
              && (e.verdict.Invalid? <==> !Validate(event, e.verdict.now))
              && (Validate(event, e.verdict.now) && !Limits(c, e.role) ==>
                    e.verdict == Forwarded(e.verdict.now, None))
              && (Validate(event, e.verdict.now) && Limits(c, e.role) ==>
                    && AskOf(e.verdict).Some?
                    && var k := AskOf(e.verdict).value.index;
                    && k < |calls| && calls[k].user == event.userId
                    && (e.verdict.Forwarded? <==> Limiter.Answer(c.limiter.value, past.store, calls, k)))
  {
    hide Legal, After, Inv, Validate, Limiter.Answer, AskedOnce, Signed, AsksInOrder;
    ReachableInv(c, past, trace);
    ReachableRemembers(c, past, trace);
    InvDecides(c, After(c, Init(c, past), trace));
  }

  lemma InvDecides(c: Config, s: State)
    requires Inv(c, s)
    ensures forall e :: e in s.sh.log ==> EntryOk(c, e) && Decided(c, s.sh.gate, e)
    ensures AskedOnce(s) && Signed(s) && (c.workers == 1 ==> AsksInOrder(s))
  {
    hide Counted, IntakeOk, Handed, Delivered, Fated, Batched, StageOk, ThreadsOk, GateOk, TextOk, InOrder;
    hide EntryOk, Decided, Pends, AskedOnce, Signed, AsksInOrder;
  }

  /** Every limiter call decided exactly one frame: one logged, or one a worker is about to log. */
  lemma EveryCallDecidesOneFrame(c: Config, past: Past, trace: seq<Label>)
    requires Legal(c, Init(c, past), trace)
    ensures var s := After(c, Init(c, past), trace);
            multiset(UpTo(|s.sh.gate.calls|)) == multiset(Asks(s.sh.log)) + Bag(s.threads, PendingBag)
  {
    hide Legal, After, Inv, UpTo, Asks, Bag;
    ReachableInv(c, past, trace);
    InvDecides(c, After(c, Init(c, past), trace));
  }

  // ------------------------------------------------------------------- order

  lemma OrderAtRest(c: Config, s: State)
    requires InOrder(c, s) && c.storage && Plain(s.threads[0]) && Plain(s.threads[2])
    ensures Data(s.sh.log) == s.sh.intake.popped
    ensures s.sh.disk.saves == Chosen(s.sh.log, IsForwarded)
  {
    hide Data, Chosen;
    assert Data(s.sh.log) + [] == Data(s.sh.log);
    assert s.sh.disk.saves + [] == s.sh.disk.saves;
  }

  /** With one worker at rest the log follows frames and limiter calls alike. */
  lemma FollowsAtRest(c: Config, s: State)
    requires Inv(c, s) && c.workers == 1 && |s.threads| == 3 && Plain(s.threads[0])
    ensures Follows(c, s.sh.gate, s.sh.log)
  {
    hide Inv, Asks, UpTo, EntryOk, Decided, AskedOnce, Signed;
    InvDecides(c, s);
    assert Asks(s.sh.log) + [] == Asks(s.sh.log);
  }

  /**
   * With one worker, whenever nobody holds a record: the saved records, in order, are what the
   * sequential reference keeps of the popped frames, with the clock readings and limiter outcomes
   * of the run and the limiter's counters as they were found. The log names the same records.
   */
  lemma SingleWorkerSavesInOrder(c: Config, past: Past, trace: seq<Label>)
    requires Legal(c, Init(c, past), trace) && c.workers == 1 && c.storage
    requires var s := After(c, Init(c, past), trace);
             |s.threads| == 3 && Plain(s.threads[0]) && Plain(s.threads[2])
    ensures var s := After(c, Init(c, past), trace); var log := s.sh.log;
            && Data(log) == s.sh.intake.popped
            && s.sh.disk.saves == Chosen(log, IsForwarded)
            && |Moments(log)| == |s.sh.intake.popped|
            && s.sh.disk.saves == Sift(c, past.store, s.sh.intake.popped, Moments(log)).0
  {
    hide Legal, After, Inv, InOrder, Follows, Sift, Moments, Sound, StageOk, Counted, Batched, GateOk, TextOk;
    ReachableInv(c, past, trace);
    ReachableRemembers(c, past, trace);
    var s := After(c, Init(c, past), trace);
    InvParts(c, s);
    OrderAtRest(c, s);
    FollowsAtRest(c, s);
    LogFollowsReference(c, s.sh.gate, s.sh.log);
  }

  /** Batches in swap order, then the buffer, are all saves in lock order; batch sizes are as promised. */
  lemma BatchesAreSavesInLockOrder(c: Config, past: Past, trace: seq<Label>)
    requires Legal(c, Init(c, past), trace)
    ensures var s := After(c, Init(c, past), trace); var d := s.sh.disk;
            && Flatten(Batches(d.swaps)) + d.buffer == d.saves
            && |d.buffer| < 1000
            && (forall w :: w in d.swaps ==> 1 <= |w.records| <= 1000 && (w.full ==> |w.records| == 1000))
            && (forall i :: 0 <= i < |s.threads| && s.threads[i].Flushing? ==>
                  1 <= |s.threads[i].batch| <= 1000 && s.threads[i].tries <= 3)
  {
    hide Legal, After, Inv, Flatten, Batches, SharedOk, StageOk, Counted, GateOk, TextOk, InOrder;
    ReachableInv(c, past, trace);
    var s := After(c, Init(c, past), trace);
    InvParts(c, s);
    assert forall w :: w in s.sh.disk.swaps ==> SwapOk(w);
    assert forall i :: 0 <= i < |s.threads| ==> DataOk(c, s.threads[i]);
  }

  // --------------------------------------------------------- columns and files

  lemma BatchIsGood(c: Config, s: State, i: nat)
    requires Sound(c, s) && i < |s.threads| && s.threads[i].Flushing?
    ensures GoodBatch(c, s.threads[i].batch)
  {
    hide SharedOk, GoodBatch;
    assert DataOk(c, s.threads[i]);
  }

  /**
   * No batch ever holds an unparseable record, so every row built from one is the row of an event,
   * with its time stamp intact.
   */
  lemma BatchesHoldOnlyEvents(c: Config, past: Past, trace: seq<Label>, i: nat, d: Bytes)
    requires Legal(c, Init(c, past), trace)
    requires var s := After(c, Init(c, past), trace);
             i < |s.threads| && s.threads[i].Flushing? && d in s.threads[i].batch
    ensures c.parse(d).Some?
    ensures var e := c.parse(d).value;
            e.ts > 0 && RecordRow(c.parse, d)
                        == Row(eventId := e.eventId, userId := e.userId, eventType := e.eventType,
                               platform := e.platform, ts := e.ts, payload := e.payload)
  {
    hide Legal, After, Inv, Sound, StageOk, Counted, Batched, GateOk, TextOk, InOrder;
    ReachableInv(c, past, trace);
    InvParts(c, After(c, Init(c, past), trace));
    BatchIsGood(c, After(c, Init(c, past), trace), i);
    assert Storable(c, d);
  }

  lemma {:induction false} RunKeepsFile(c: Config, s: State, trace: seq<Label>)
    requires Legal(c, s, trace) && Inv(c, s) && FileOk(s.sh.disk)
    ensures FileOk(After(c, s, trace).sh.disk)
    decreases |trace|
  {
    hide Step, Enabled, FileOk;
    if trace != [] {
      StepKeepsInv(c, s, trace[0]);
      StepKeepsFile(c, s, trace[0]);
      hide Inv;
      RunKeepsFile(c, Step(c, s, trace[0]), trace[1..]);
    }
  }

  /** While rotations succeed, the dead-letter file never exceeds 207261600 bytes. */
  lemma DeadLetterFileIsBounded(c: Config, past: Past, trace: seq<Label>)
    requires Legal(c, Init(c, past), trace) && |past.file| <= 207261600
    ensures var d := After(c, Init(c, past), trace).sh.disk; d.renamesOk ==> |d.file| <= 207261600
  {
    hide Legal, After, Inv;
    InitSatisfiesInv(c, past);
    assert FILE_BOUND == 207261600;
    RunKeepsFile(c, Init(c, past), trace);
  }

  /**
   * Let the file found at the start hold the records `old`. Then splitting the current file at
   * separators gives back those of them it still holds and the records written since, in order, if
   * and only if every one of these is free of the separator.
   */
  lemma DeadLettersReadBack(c: Config, past: Past, trace: seq<Label>, earlier: seq<Bytes>)
    requires Legal(c, Init(c, past), trace) && past.file == DeadLetter.Text(earlier)
    ensures var d := After(c, Init(c, past), trace).sh.disk;
            var records := (if d.base == past.file then earlier else []) + d.written;
            && (DeadLetter.Split(d.file) == (records, []) <==> forall r :: r in records ==> DeadLetter.Clean(r))
            && multiset(d.written) <= d.dead
            && (d.base == past.file || d.base == [])
  {
    hide Legal, After, Inv, DeadLetter.Text, DeadLetter.Split, DeadLetter.Clean;
    hide Sound, StageOk, Counted, Batched, GateOk, InOrder;
    ReachableInv(c, past, trace);
    ReachableRemembers(c, past, trace);
    var d := After(c, Init(c, past), trace).sh.disk;
    InvParts(c, After(c, Init(c, past), trace));
    var kept := if d.base == past.file then earlier else [];
    DeadLetter.NoText();
    DeadLetter.TextConcat(kept, d.written);
    DeadLetter.SplitRecoversExactlyCleanRecords(kept + d.written);
  }

  // ---------------------------------------------------------------- shutdown

  lemma DrainedThreadsRest(c: Config, s: State)
    requires Sound(c, s) && StageOk(c, s) && Rank(s.stage) >= Rank(Drained)
    ensures forall t :: t in s.threads ==> Plain(t) || Flushes(t)
  {
    hide SharedOk, DataOk;
    forall t | t in s.threads
      ensures Plain(t) || Flushes(t)
    {
      var i :| 0 <= i < |s.threads| && s.threads[i] == t;
      assert RoleOk(c, RoleOf(c, i), t);
    }
  }

  lemma FlushingThreadsHoldNoFrame(ts: seq<Thread>)
    requires forall t :: t in ts ==> Plain(t) || Flushes(t)
    ensures Sum(ts, AtPopped) == 0 && Sum(ts, AtReceived) == 0
    ensures Sum(ts, AtParsed) == 0 && Sum(ts, AtPassed) == 0
    ensures Bag(ts, HandBag) == multiset{}
  {
    hide Sum, Bag;
    SumZero(ts, AtPopped);
    SumZero(ts, AtReceived);
    SumZero(ts, AtParsed);
    SumZero(ts, AtPassed);
    BagEmpty(ts, HandBag);
  }

  /** The drain's totals, in a state where no thread holds a frame. */
  lemma DrainedTotals(c: Config, s: State)
    requires Inv(c, s) && Rank(s.stage) >= Rank(Drained)
    ensures var q, m, log := s.sh.intake, s.sh.m, s.sh.log;
            && q.queue == [] && q.arriving == multiset{}
            && m.received == |q.accepted|
            && m.received == m.parsed + m.parseFail
            && m.parsed == m.valid + m.invalid
            && m.valid == m.rateLimited + |Chosen(log, IsForwarded)|
            && m.queueDrop == |q.dropped|
            && q.read == q.dropped + multiset(Data(log))
  {
    hide Sound, Delivered, Fated, Batched, GateOk, AsksOk, TextOk, InOrder;
    DrainedThreadsRest(c, s);
    FlushingThreadsHoldNoFrame(s.threads);
    hide Sum, Bag, Data, Chosen, Plain, Flushes;
    assert s.sh.intake.popped + [] == s.sh.intake.popped;
    assert multiset{} + s.sh.intake.dropped == s.sh.intake.dropped;
  }

  /** Once the drain is over the queue is empty and the counters of the worker chain add up exactly. */
  lemma DrainLosesNothing(c: Config, past: Past, trace: seq<Label>)
    requires Legal(c, Init(c, past), trace)
    requires Rank(After(c, Init(c, past), trace).stage) >= Rank(Drained)
    ensures var s := After(c, Init(c, past), trace); var q, m, log := s.sh.intake, s.sh.m, s.sh.log;
            && q.queue == [] && q.arriving == multiset{}
            && m.received == |q.accepted|
            && m.received == m.parsed + m.parseFail
            && m.parsed == m.valid + m.invalid
            && m.valid == m.rateLimited + |Chosen(log, IsForwarded)|
            && m.queueDrop == |q.dropped|
            && q.read == q.dropped + multiset(Data(log))
  {
    hide Legal, After, Inv;
    ReachableInv(c, past, trace);
    DrainedTotals(c, After(c, Init(c, past), trace));
  }

  lemma DestroyedThreadsRest(c: Config, s: State)
    requires StageOk(c, s) && s.stage == Destroyed && StopperIdle(c, s)
    ensures forall t :: t in s.threads ==> t == Idle || t == Done
    ensures s.sh.disk.buffer == []
  {
    forall t | t in s.threads
      ensures t == Idle || t == Done
    {
      var i :| 0 <= i < |s.threads| && s.threads[i] == t;
    }
  }

  lemma DestroyedTotals(c: Config, s: State)
    requires Inv(c, s) && c.storage && s.stage == Destroyed && StopperIdle(c, s)
    ensures var d, m := s.sh.disk, s.sh.m;
            && d.buffer == []
            && multiset(Chosen(s.sh.log, IsForwarded)) == d.stored + d.dead + d.lost
            && m.stored == |d.stored| && m.storeDead == |d.dead|
  {
    hide Sound, StageOk, Handed, Batched, GateOk, AsksOk, TextOk, InOrder;
    DestroyedThreadsRest(c, s);
    RestingSums(s.threads);
    RestingBags(s.threads);
    hide Sum, Bag, Chosen;
    var d := s.sh.disk;
    var none: multiset<Bytes> := multiset{};
    assert multiset(d.saves) + none == multiset(d.saves);
    assert none + d.stored + d.dead + d.lost + none == d.stored + d.dead + d.lost;
  }

  /**
   * After the store's destructor the buffer is empty and every forwarded record is stored,
   * dead-lettered or lost, as the counters say.
   */
  lemma DestructorResolvesEveryBatch(c: Config, past: Past, trace: seq<Label>)
    requires Legal(c, Init(c, past), trace) && c.storage
    requires var s := After(c, Init(c, past), trace); s.stage == Destroyed && StopperIdle(c, s)
    ensures var s := After(c, Init(c, past), trace); var d, m := s.sh.disk, s.sh.m;
            && d.buffer == []
            && multiset(Chosen(s.sh.log, IsForwarded)) == d.stored + d.dead + d.lost
            && m.stored == |d.stored| && m.storeDead == |d.dead|
  {
    hide Legal, After, Inv;
    ReachableInv(c, past, trace);
    DestroyedTotals(c, After(c, Init(c, past), trace));
  }
}
