/** What every step keeps about the data in transit, the stages of shutdown, the file and the limiter. */
module PipelineSafety {
  import opened Basics
  import opened Events
  import opened Pipeline
  import opened PipelineCounts
  import opened PipelineBags
  import Framing
  import Limiter
  import DeadLetter

  // -------------------------------------------------------- data in transit

  /** A record the store may receive: a legal frame that parses, with a positive time stamp. */
  predicate Storable(c: Config, d: Bytes) {
    Framing.LegalFrame(d) && c.parse(d).Some? && c.parse(d).value.ts > 0
  }

  predicate GoodBatch(c: Config, batch: seq<Bytes>) {
    1 <= |batch| <= BATCH_SIZE && forall d :: d in batch ==> Storable(c, d)
  }

  /** What is known about the data a thread holds at each program point. */
  predicate DataOk(c: Config, t: Thread) {
    match t
    case Popped(d) => Framing.LegalFrame(d)
    case Received(d) => Framing.LegalFrame(d)
    case Parsed(d) => Framing.LegalFrame(d) && c.parse(d).Some?
    case Judged(d, now, ok) =>
      Framing.LegalFrame(d) && c.parse(d).Some? && ok == Validate(c.parse(d).value, now)
    case Passed(d, now) => Framing.LegalFrame(d) && c.parse(d).Some? && Validate(c.parse(d).value, now)
    case Refused(d, now, _) =>
      Framing.LegalFrame(d) && c.parse(d).Some? && Validate(c.parse(d).value, now) && c.limiter.Some?
    case Admitted(d) => Storable(c, d)
    case ProduceFailed(d) => Storable(c, d)
    case Saving(d) => Storable(c, d) && c.storage
    case Flushing(batch, tries) => GoodBatch(c, batch) && tries <= 3 && c.storage
    case Inserted(batch) => GoodBatch(c, batch) && c.storage
    case DeadWritten(batch) => GoodBatch(c, batch) && c.storage
    case _ => true
  }

  predicate Flushes(t: Thread) {
    t.Flushing? || t.Inserted? || t.DeadWritten?
  }

  /** Which points a thread can reach in its role. */
  predicate RoleOk(c: Config, role: Role, t: Thread) {
    match role
    case Worker => true
    case Flusher => (t.Idle? || t.Ready? || t.Done? || Flushes(t)) && (c.storage || t.Done?)
    case Stopper => !t.Ready? && !t.Done? && !t.Refused?
  }

  /** A verdict fits its frame, and a thread asks the limiter exactly when its role says so. */
  predicate EntryOk(c: Config, e: Entry) {
    match e.verdict
    case Unparseable => c.parse(e.data).None?
    case Invalid(now) => c.parse(e.data).Some? && !Validate(c.parse(e.data).value, now)
    case Limited(now, _) => c.parse(e.data).Some? && Validate(c.parse(e.data).value, now) && Limits(c, e.role)
    case Forwarded(now, passage) =>
      && c.parse(e.data).Some? && Validate(c.parse(e.data).value, now)
      && (passage.Some? <==> Limits(c, e.role))
  }

  ghost predicate SharedOk(c: Config, sh: Shared) {
    && (forall d :: d in sh.intake.arriving ==> Framing.LegalFrame(d))
    && (forall d :: d in sh.intake.queue ==> Framing.LegalFrame(d))
    && (forall e :: e in sh.log ==> EntryOk(c, e))
    && (forall d :: d in sh.disk.buffer ==> Storable(c, d))
    && |sh.disk.buffer| < BATCH_SIZE
    && (!c.storage ==> sh.disk.buffer == [])
  }

  ghost predicate Sound(c: Config, s: State) {
    && |s.threads| == c.workers + 2
    && SharedOk(c, s.sh)
    && ThreadsOk(c, s.threads)
  }

  ghost predicate ThreadsOk(c: Config, ts: seq<Thread>) {
    forall i :: 0 <= i < |ts| ==> DataOk(c, ts[i]) && RoleOk(c, RoleOf(c, i), ts[i])
  }

  lemma NextPointOk(c: Config, role: Role, sh: Shared, t: Thread, w: Work)
    requires CanAct(c, role, sh, t, w) && SharedOk(c, sh) && DataOk(c, t) && RoleOk(c, role, t)
    ensures DataOk(c, NextPoint(c, role, sh, t, w))
    ensures RoleOk(c, role, NextPoint(c, role, sh, t, w))
  {
    hide Framing.LegalFrame, Limiter.Allows, Limiter.Last;
  }

  lemma NewsOk(c: Config, role: Role, sh: Shared, t: Thread, w: Work)
    requires CanAct(c, role, sh, t, w) && DataOk(c, t) && RoleOk(c, role, t)
    ensures forall e :: e in News(c, role, sh, t, w) ==> EntryOk(c, e)
  {
    hide Framing.LegalFrame, Limiter.Allows, Limiter.Last, Validate;
  }

  lemma NextDiskOk(c: Config, role: Role, sh: Shared, t: Thread, w: Work)
    requires CanAct(c, role, sh, t, w) && SharedOk(c, sh) && DataOk(c, t)
    ensures var d := NextDisk(c, role, sh, t, w);
            && (forall r :: r in d.buffer ==> Storable(c, r))
            && |d.buffer| < BATCH_SIZE
            && (!c.storage ==> d.buffer == [])
  {
    hide Framing.LegalFrame, Limiter.Last, DeadLetter.Text, Validate;
  }

  lemma ActKeepsShared(c: Config, role: Role, sh: Shared, t: Thread, w: Work)
    requires CanAct(c, role, sh, t, w) && SharedOk(c, sh) && DataOk(c, t) && RoleOk(c, role, t)
    ensures SharedOk(c, Act(c, role, sh, t, w))
  {
    NewsOk(c, role, sh, t, w);
    NextDiskOk(c, role, sh, t, w);
    hide CanAct, News, NextMetrics, NextDisk, NextGate, EntryOk, Storable, Framing.LegalFrame, DataOk, RoleOk;
  }

  lemma DoKeepsSound(c: Config, s: State, i: nat, w: Work)
    requires Enabled(c, s, Do(i, w)) && Sound(c, s)
    ensures Sound(c, Step(c, s, Do(i, w)))
  {
    hide CanAct, Act, NextPoint, DataOk, RoleOk, SharedOk;
    assert DataOk(c, s.threads[i]) && RoleOk(c, RoleOf(c, i), s.threads[i]);
    ActKeepsShared(c, RoleOf(c, i), s.sh, s.threads[i], w);
    NextPointOk(c, RoleOf(c, i), s.sh, s.threads[i], w);
  }

  lemma FlushKeepsShared(c: Config, sh: Shared)
    requires SharedOk(c, sh)
    ensures SharedOk(c, sh.(disk := FlushStep(sh.disk)))
    ensures c.storage ==> DataOk(c, FlushPoint(sh.disk))
  {
    hide EntryOk, Storable, Framing.LegalFrame;
  }

  lemma IntakeKeepsShared(c: Config, s: State, l: Label)
    requires Enabled(c, s, l) && SharedOk(c, s.sh) && IntakeLabel(l)
    ensures SharedOk(c, Step(c, s, l).sh)
  {
    hide CanAct, EntryOk, Storable, Framing.LegalFrame;
  }

  lemma StepKeepsSound(c: Config, s: State, l: Label)
    requires Enabled(c, s, l) && Sound(c, s)
    ensures Sound(c, Step(c, s, l))
  {
    hide CanAct, Act, NextPoint, SharedOk, OfferStep;
    if l.Do? {
      DoKeepsSound(c, s, l.i, l.w);
    } else if IntakeLabel(l) {
      IntakeKeepsShared(c, s, l);
    } else {
      FlushKeepsShared(c, s.sh);
      hide GoodBatch;
    }
  }

  // ------------------------------------------------------ stages of shutdown

  /** What each stage of shutdown guarantees. */
  ghost predicate StageOk(c: Config, s: State) {
    var q, g := s.sh.intake, Rank(s.stage);
    && |s.threads| == c.workers + 2
    && (g >= Rank(Joining) ==> !q.open)
    && (!q.open ==> q.arriving == multiset{} && q.uncounted == 0)
    && (g >= Rank(Draining) ==> WorkersDone(c, s))
    && (g < Rank(Draining) ==> StopperIdle(c, s))
    && (g >= Rank(Drained) ==> q.queue == [] && FlushMode(s.threads[StopperIndex(c)]))
    && (s.stage == Destroyed ==> s.threads[c.workers] == Done && s.sh.disk.buffer == [])
  }

  predicate FlushMode(t: Thread) {
    t.Idle? || Flushes(t)
  }

  lemma DoneIsStuck(c: Config, role: Role, sh: Shared, w: Work)
    ensures !CanAct(c, role, sh, Done, w)
  {
  }

  /** A thread that only flushes touches neither the queue nor the buffer. */
  lemma FlushModeIsQuiet(c: Config, sh: Shared, t: Thread, w: Work)
    requires CanAct(c, Stopper, sh, t, w) && FlushMode(t) && w != Pop
    ensures FlushMode(NextPoint(c, Stopper, sh, t, w))
    ensures NextDisk(c, Stopper, sh, t, w).buffer == sh.disk.buffer
  {
  }

  /** An idle stopping thread can only pop. */
  lemma IdleStopperPops(c: Config, sh: Shared, w: Work)
    requires CanAct(c, Stopper, sh, Idle, w)
    ensures w == Pop && sh.intake.queue != []
  {
  }

  lemma StopperKeepsStage(c: Config, s: State, i: nat, w: Work)
    requires Enabled(c, s, Do(i, w)) && StageOk(c, s) && RoleOf(c, i) == Stopper
    ensures StageOk(c, Step(c, s, Do(i, w)))
  {
    hide CanAct, NextPoint, News, NextMetrics, NextDisk, NextGate, Flushes;
    var t := s.threads[i];
    if t == Idle {
      IdleStopperPops(c, s.sh, w);
    } else if FlushMode(t) && w != Pop {
      FlushModeIsQuiet(c, s.sh, t, w);
    }
  }

  lemma WorkerKeepsStage(c: Config, s: State, i: nat, w: Work)
    requires Enabled(c, s, Do(i, w)) && StageOk(c, s) && RoleOf(c, i) != Stopper
    ensures StageOk(c, Step(c, s, Do(i, w)))
  {
    hide CanAct, NextPoint, News, NextMetrics, NextDisk, NextGate, FlushMode;
    DoneIsStuck(c, RoleOf(c, i), s.sh, w);
    assert s.threads[i] != Done;
  }

  lemma IntakeKeepsStage(c: Config, s: State, l: Label)
    requires Enabled(c, s, l) && StageOk(c, s) && IntakeLabel(l)
    ensures StageOk(c, Step(c, s, l))
  {
    hide CanAct, FlushMode;
  }

  lemma LoopKeepsStage(c: Config, s: State, i: nat)
    requires Enabled(c, s, Loop(i)) && StageOk(c, s)
    ensures StageOk(c, Step(c, s, Loop(i)))
  {
    hide CanAct, FlushMode;
  }

  lemma StageStepKeepsStage(c: Config, s: State, l: Label)
    requires Enabled(c, s, l) && StageOk(c, s) && (!c.storage ==> s.sh.disk.buffer == [])
    requires !l.Do? && !l.Loop? && !IntakeLabel(l)
    ensures StageOk(c, Step(c, s, l))
  {
    hide CanAct;
  }

  lemma StepKeepsStage(c: Config, s: State, l: Label)
    requires Enabled(c, s, l) && StageOk(c, s) && (!c.storage ==> s.sh.disk.buffer == [])
    ensures StageOk(c, Step(c, s, l))
  {
    hide Enabled, Step, StageOk;
    if l.Do? {
      if RoleOf(c, l.i) == Stopper {
        StopperKeepsStage(c, s, l.i, l.w);
      } else {
        WorkerKeepsStage(c, s, l.i, l.w);
      }
    } else if IntakeLabel(l) {
      IntakeKeepsStage(c, s, l);
    } else if l.Loop? {
      LoopKeepsStage(c, s, l.i);
    } else {
      StageStepKeepsStage(c, s, l);
    }
  }

  // ---------------------------------------------------- the dead-letter file

  const FILE_BOUND: nat := ROTATE_ABOVE + BATCH_SIZE * (Framing.LENGTH_LIMIT - 1 + 5)

  predicate FileOk(d: Disk) {
    d.renamesOk ==> |d.file| <= FILE_BOUND
  }

  lemma AppendKeepsFile(c: Config, d: Disk, batch: seq<Bytes>, renameOk: bool, openOk: bool)
    requires FileOk(d) && GoodBatch(c, batch)
    ensures FileOk(AppendDead(d, batch, renameOk, openOk))
  {
    var longest := Framing.LENGTH_LIMIT - 1;
    assert forall r :: r in batch ==> Storable(c, r) && |r| <= longest;
    DeadLetter.TextSize(batch, longest);
    Limiter.ProductMonotone(|batch|, BATCH_SIZE, longest + 5);
    hide DeadLetter.Text;
  }

  lemma StepKeepsFile(c: Config, s: State, l: Label)
    requires Enabled(c, s, l) && Sound(c, s) && FileOk(s.sh.disk)
    ensures FileOk(Step(c, s, l).sh.disk)
  {
    hide CanAct, NextPoint, NextIntake, NextMetrics, News, NextGate, SharedOk, AppendDead, GoodBatch;
    if l.Do? && l.w.WriteDead? {
      var t := s.threads[l.i];
      WriteDeadHolds(c, RoleOf(c, l.i), s.sh, t, l.w);
      assert DataOk(c, t);
      AppendKeepsFile(c, s.sh.disk, t.batch, l.w.renameOk, l.w.openOk);
    }
  }

  lemma WriteDeadHolds(c: Config, role: Role, sh: Shared, t: Thread, w: Work)
    requires CanAct(c, role, sh, t, w) && w.WriteDead?
    ensures t.Flushing?
  {
  }

  /** The file is what was there before, then the text of the records written since. */
  ghost predicate TextOk(d: Disk) {
    d.file == d.base + DeadLetter.Text(d.written) && multiset(d.written) <= d.dead
  }

  lemma AppendKeepsText(d: Disk, batch: seq<Bytes>, renameOk: bool, openOk: bool)
    requires TextOk(d)
    ensures TextOk(AppendDead(d, batch, renameOk, openOk))
  {
    hide DeadLetter.Text;
    var rotated := |d.file| > ROTATE_ABOVE && renameOk;
    var base, written := if rotated then [] else d.base, if rotated then [] else d.written;
    DeadLetter.NoText();
    DeadLetter.TextConcat(written, batch);
    assert base + (DeadLetter.Text(written) + DeadLetter.Text(batch))
        == base + DeadLetter.Text(written) + DeadLetter.Text(batch);
    assert multiset(written + batch) == multiset(written) + multiset(batch);
  }

  lemma StepKeepsText(c: Config, s: State, l: Label)
    requires Enabled(c, s, l) && TextOk(s.sh.disk)
    ensures TextOk(Step(c, s, l).sh.disk)
  {
    hide CanAct, NextPoint, NextIntake, NextMetrics, News, NextGate, AppendDead, DeadLetter.Text;
    if l.Do? && l.w.WriteDead? {
      var t := s.threads[l.i];
      WriteDeadHolds(c, RoleOf(c, l.i), s.sh, t, l.w);
      AppendKeepsText(s.sh.disk, t.batch, l.w.renameOk, l.w.openOk);
    }
  }

  // -------------------------------------------------------------- the limiter

  /** The limiter's store is the one its calls produce, and the calls are in time order. */
  ghost predicate GateOk(c: Config, g: Gate) {
    c.limiter.Some? ==>
      g.store == Limiter.StoreAfter(c.limiter.value, g.first, g.calls) && Limiter.Ordered(g.calls)
  }

  lemma StepKeepsGate(c: Config, s: State, l: Label)
    requires Enabled(c, s, l) && GateOk(c, s.sh.gate)
    ensures GateOk(c, Step(c, s, l).sh.gate)
  {
    if l.Do? && l.w.Limit? {
      var calls, calls' := s.sh.gate.calls, Step(c, s, l).sh.gate.calls;
      assert Limiter.Init(calls') == calls;
    }
    hide NextPoint, NextIntake, NextMetrics, News, NextDisk, Limiter.Serve;
  }

  // ------------------------------------------------------ order with one worker

  /** With one worker, disposal follows pop order and saving follows disposal. */
  ghost predicate InOrder(c: Config, s: State) {
    && |s.threads| == 3
    && s.sh.intake.popped == Data(s.sh.log) + (Hand(s.threads[0]) + Hand(s.threads[2]))
    && (c.storage ==> Chosen(s.sh.log, IsForwarded)
                      == s.sh.disk.saves + (ToSave(s.threads[0]) + ToSave(s.threads[2])))
  }

  /** A thread never holds two records at once. */
  lemma HoldsAtMostOne(c: Config, role: Role, sh: Shared, t: Thread, w: Work)
    requires CanAct(c, role, sh, t, w)
    ensures Taken(sh.intake, w) == [] || Hand(t) == []
    ensures Hits(News(c, role, sh, t, w), IsForwarded) == [] || ToSave(t) == []
  {
  }

  /** The flush thread takes and disposes of nothing. */
  lemma FlusherHoldsNothing(c: Config, sh: Shared, t: Thread, w: Work)
    requires CanAct(c, Flusher, sh, t, w) && RoleOk(c, Flusher, t)
    ensures Taken(sh.intake, w) == [] && News(c, Flusher, sh, t, w) == [] && Saved(t, w) == []
  {
  }

  /** One step of the only thread that holds anything. */
  lemma SoloStep(c: Config, role: Role, sh: Shared, t: Thread, w: Work)
    requires CanAct(c, role, sh, t, w)
    requires sh.intake.popped == Data(sh.log) + Hand(t)
    requires c.storage ==> Chosen(sh.log, IsForwarded) == sh.disk.saves + ToSave(t)
    ensures var sh', t' := Act(c, role, sh, t, w), NextPoint(c, role, sh, t, w);
            && sh'.intake.popped == Data(sh'.log) + Hand(t')
            && (c.storage ==> Chosen(sh'.log, IsForwarded) == sh'.disk.saves + ToSave(t'))
  {
    hide CanAct, NextPoint, NextIntake, News, NextMetrics, NextDisk, NextGate, Data, Chosen, Hits, Hand, ToSave;
    var t', news := NextPoint(c, role, sh, t, w), News(c, role, sh, t, w);
    var took, gave, hits := Taken(sh.intake, w), NewsData(news), Hits(news, IsForwarded);
    HoldsAtMostOne(c, role, sh, t, w);
    PoppedGrows(sh.intake, w);
    SavesGrow(c, role, sh, t, w);
    ActHandsOn(c, role, sh, t, w);
    LogGrows(sh.log, news, IsForwarded);
    assert Hand(t) + took == took + Hand(t);
    Reassociate(Data(sh.log), Hand(t), took, gave, Hand(t'));
    if c.storage {
      ActDelivers(c, role, sh, t, w);
      assert ToSave(t) + hits == hits + ToSave(t);
      Reassociate(sh.disk.saves, ToSave(t), hits, Saved(t, w), ToSave(t'));
    }
  }

  lemma Reassociate(front: seq<Bytes>, a: seq<Bytes>, b: seq<Bytes>, x: seq<Bytes>, y: seq<Bytes>)
    requires a + b == x + y
    ensures front + a + b == front + x + y
  {
    assert front + a + b == front + (a + b);
    assert front + x + y == front + (x + y);
  }

  lemma WorkerKeepsOrder(c: Config, s: State, w: Work)
    requires c.workers == 1 && Enabled(c, s, Do(0, w)) && StageOk(c, s) && InOrder(c, s)
    ensures InOrder(c, Step(c, s, Do(0, w)))
  {
    hide CanAct, NextPoint, NextIntake, News, NextMetrics, NextDisk, NextGate, Data, Chosen;
    var t, z := s.threads[0], s.threads[2];
    DoneIsStuck(c, Worker, s.sh, w);
    assert t != Done;
    assert z == Idle;
    assert Hand(t) + [] == Hand(t) && ToSave(t) + [] == ToSave(t);
    SoloStep(c, Worker, s.sh, t, w);
    var t' := NextPoint(c, Worker, s.sh, t, w);
    assert Hand(t') + [] == Hand(t') && ToSave(t') + [] == ToSave(t');
  }

  lemma FlusherKeepsOrder(c: Config, s: State, w: Work)
    requires c.workers == 1 && Enabled(c, s, Do(1, w)) && Sound(c, s) && InOrder(c, s)
    ensures InOrder(c, Step(c, s, Do(1, w)))
  {
    hide CanAct, NextPoint, NextIntake, News, NextMetrics, NextDisk, NextGate, Data, Chosen, Hand, ToSave;
    hide RoleOk, SharedOk;
    var t := s.threads[1];
    assert RoleOk(c, RoleOf(c, 1), t);
    FlusherHoldsNothing(c, s.sh, t, w);
    PoppedGrows(s.sh.intake, w);
    SavesGrow(c, Flusher, s.sh, t, w);
    assert s.sh.log + [] == s.sh.log;
    assert s.sh.intake.popped + [] == s.sh.intake.popped;
    assert s.sh.disk.saves + [] == s.sh.disk.saves;
  }

  lemma StopperKeepsOrder(c: Config, s: State, w: Work)
    requires c.workers == 1 && Enabled(c, s, Do(2, w)) && StageOk(c, s) && InOrder(c, s)
    ensures InOrder(c, Step(c, s, Do(2, w)))
  {
    hide CanAct, NextPoint, NextIntake, News, NextMetrics, NextDisk, NextGate, Data, Chosen;
    var t, z := s.threads[2], s.threads[0];
    if t == Idle {
      IdleStopperPops(c, s.sh, w);
    }
    assert z == Done;
    assert [] + Hand(t) == Hand(t) && [] + ToSave(t) == ToSave(t);
    SoloStep(c, Stopper, s.sh, t, w);
    var t' := NextPoint(c, Stopper, s.sh, t, w);
    assert [] + Hand(t') == Hand(t') && [] + ToSave(t') == ToSave(t');
  }

  lemma StepKeepsOrder(c: Config, s: State, l: Label)
    requires Enabled(c, s, l) && c.workers == 1 && Sound(c, s) && StageOk(c, s) && InOrder(c, s)
    ensures InOrder(c, Step(c, s, l))
  {
    hide CanAct, NextPoint, NextIntake, News, NextMetrics, NextDisk, NextGate, Data, Chosen, SharedOk, ThreadsOk;
    if l.Do? {
      if l.i == 0 {
        WorkerKeepsOrder(c, s, l.w);
      } else if l.i == 1 {
        FlusherKeepsOrder(c, s, l.w);
      } else {
        StopperKeepsOrder(c, s, l.w);
      }
    }
  }
}
