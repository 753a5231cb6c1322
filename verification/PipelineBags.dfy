/** Conservation of records: every frame read is in exactly one place, in every interleaving. */
module PipelineBags {
  import opened Basics
  import opened Pipeline
  import opened PipelineCounts
  import Events
  import Limiter
  import DeadLetter

  // ------------------------------------------------- read frames and the queue

  /** The queue is a bounded FIFO, and every frame read is arriving, dropped or accepted. */
  ghost predicate IntakeOk(c: Config, q: Intake) {
    && q.accepted == q.popped + q.queue
    && |q.queue| <= c.capacity
    && q.read == q.arriving + q.dropped + multiset(q.accepted)
  }

  lemma OneMovesOver(from: multiset<Bytes>, other: multiset<Bytes>, rest: multiset<Bytes>, d: Bytes)
    requires d in from
    ensures from + other + rest == (from - multiset{d}) + (other + multiset{d}) + rest
    ensures from + other + rest == (from - multiset{d}) + other + (rest + multiset{d})
  {
  }

  lemma OfferKeepsIntake(c: Config, q: Intake, d: Bytes)
    requires IntakeOk(c, q) && d in q.arriving
    ensures IntakeOk(c, OfferStep(c, q, d))
  {
    assert q.popped + (q.queue + [d]) == q.popped + q.queue + [d];
    OneMovesOver(q.arriving, q.dropped, multiset(q.accepted), d);
    assert multiset(q.accepted + [d]) == multiset(q.accepted) + multiset{d};
  }

  lemma WorkKeepsIntake(c: Config, q: Intake, w: Work)
    requires IntakeOk(c, q)
    ensures IntakeOk(c, NextIntake(q, w))
  {
    if q.queue != [] {
      assert q.popped + q.queue == q.popped + [q.queue[0]] + q.queue[1..];
    }
  }

  lemma StepKeepsIntake(c: Config, s: State, l: Label)
    requires Enabled(c, s, l) && IntakeOk(c, s.sh.intake)
    ensures IntakeOk(c, Step(c, s, l).sh.intake)
  {
    hide CanAct, NextPoint, NextMetrics, News, NextDisk, NextGate;
    if l.Offer? {
      OfferKeepsIntake(c, s.sh.intake, l.d);
    } else if l.Do? {
      WorkKeepsIntake(c, s.sh.intake, l.w);
    }
  }

  // ------------------------------------------------------- frames being handled

  /** Every popped frame is disposed of or in some thread's hand. */
  ghost predicate Handed(s: State) {
    multiset(s.sh.intake.popped) == multiset(Data(s.sh.log)) + Bag(s.threads, HandBag)
  }

  /** The frame a step takes off the queue. */
  function Taken(q: Intake, w: Work): seq<Bytes> {
    if w == Pop && q.queue != [] then [q.queue[0]] else []
  }

  function NewsData(news: seq<Entry>): seq<Bytes> {
    if news == [] then [] else [news[0].data]
  }

  /** A step hands on exactly what it took or held. */
  lemma ActHandsOn(c: Config, role: Role, sh: Shared, t: Thread, w: Work)
    requires CanAct(c, role, sh, t, w)
    ensures AtMostOne(News(c, role, sh, t, w))
    ensures Taken(sh.intake, w) + Hand(t) == NewsData(News(c, role, sh, t, w)) + Hand(NextPoint(c, role, sh, t, w))
  {
    hide Limiter.Allows, Limiter.Last, Events.Validate;
  }

  lemma PoppedGrows(q: Intake, w: Work)
    ensures NextIntake(q, w).popped == q.popped + Taken(q, w)
  {
    assert q.popped + [] == q.popped;
  }

  /** The bookkeeping identity behind the bag invariants. */
  lemma Rebalance<T>(total: multiset<T>, done: multiset<T>, held: multiset<T>, held': multiset<T>,
                     before: multiset<T>, after: multiset<T>, took: multiset<T>, gave: multiset<T>)
    requires total == done + held
    requires held' + before == held + after
    requires took + before == gave + after
    ensures total + took == done + gave + held'
  {
    forall x
      ensures (total + took)[x] == (done + gave + held')[x]
    {
      assert total[x] == (done + held)[x];
      assert (held' + before)[x] == (held + after)[x];
      assert (took + before)[x] == (gave + after)[x];
    }
  }

  lemma DoKeepsHanded(c: Config, s: State, i: nat, w: Work)
    requires Enabled(c, s, Do(i, w)) && Handed(s)
    ensures Handed(Step(c, s, Do(i, w)))
  {
    hide CanAct, NextPoint, NextIntake, NextMetrics, News, NextDisk, NextGate, Data, Chosen, Bag, Hand;
    var role, t := RoleOf(c, i), s.threads[i];
    var t', news := NextPoint(c, role, s.sh, t, w), News(c, role, s.sh, t, w);
    var took := Taken(s.sh.intake, w);
    ActHandsOn(c, role, s.sh, t, w);
    PoppedGrows(s.sh.intake, w);
    LogGrows(s.sh.log, news, IsForwarded);
    BagAfterUpdate(s.threads, i, t', HandBag);
    assert multiset(took + Hand(t)) == multiset(NewsData(news) + Hand(t'));
    Rebalance(multiset(s.sh.intake.popped), multiset(Data(s.sh.log)), Bag(s.threads, HandBag),
              Bag(s.threads[i := t'], HandBag), HandBag(t), HandBag(t'), multiset(took), multiset(NewsData(news)));
  }

  /** Between plain points a thread neither picks up nor puts down a record. */
  lemma PlainMoveKeepsBags(ts: seq<Thread>, i: nat, t: Thread)
    requires i < |ts| && Plain(ts[i]) && Plain(t)
    ensures Bag(ts[i := t], HandBag) == Bag(ts, HandBag)
    ensures Bag(ts[i := t], ToSaveBag) == Bag(ts, ToSaveBag)
  {
    hide Bag;
    PlainHoldsNothing(ts[i]);
    PlainHoldsNothing(t);
    hide HandBag, ToSaveBag, Plain;
    BagUnchanged(ts, i, t, HandBag);
    BagUnchanged(ts, i, t, ToSaveBag);
  }

  lemma PlainHoldsNothing(t: Thread)
    requires Plain(t)
    ensures HandBag(t) == multiset{} && ToSaveBag(t) == multiset{}
  {
  }

  lemma StepKeepsHanded(c: Config, s: State, l: Label)
    requires Enabled(c, s, l) && Handed(s)
    ensures Handed(Step(c, s, l))
  {
    hide CanAct, NextPoint, NextIntake, NextMetrics, News, NextDisk, NextGate, Data, Bag, HandBag, FlushStep;
    if l.Do? {
      DoKeepsHanded(c, s, l.i, l.w);
    } else if l.Loop? {
      PlainMoveKeepsBags(s.threads, l.i, Step(c, s, l).threads[l.i]);
    } else if l.StopFlush? || l.DestroyFlush? {
      PlainMoveKeepsBags(s.threads, StopperIndex(c), Step(c, s, l).threads[StopperIndex(c)]);
    }
  }

  // ---------------------------------------------------------- forwarded records

  /** Every forwarded record has been saved or is on its way to the store. */
  ghost predicate Delivered(s: State) {
    multiset(Chosen(s.sh.log, IsForwarded)) == multiset(s.sh.disk.saves) + Bag(s.threads, ToSaveBag)
  }

  function Saved(t: Thread, w: Work): seq<Bytes> {
    if w == Save && t.Saving? then [t.d] else []
  }

  lemma ActDelivers(c: Config, role: Role, sh: Shared, t: Thread, w: Work)
    requires CanAct(c, role, sh, t, w) && c.storage
    ensures AtMostOne(News(c, role, sh, t, w))
    ensures Hits(News(c, role, sh, t, w), IsForwarded) + ToSave(t)
         == Saved(t, w) + ToSave(NextPoint(c, role, sh, t, w))
  {
  }

  lemma SavesGrow(c: Config, role: Role, sh: Shared, t: Thread, w: Work)
    requires CanAct(c, role, sh, t, w)
    ensures NextDisk(c, role, sh, t, w).saves == sh.disk.saves + Saved(t, w)
  {
    assert sh.disk.saves + [] == sh.disk.saves;
  }

  lemma DoKeepsDelivered(c: Config, s: State, i: nat, w: Work)
    requires Enabled(c, s, Do(i, w)) && Delivered(s) && c.storage
    ensures Delivered(Step(c, s, Do(i, w)))
  {
    hide CanAct, NextPoint, NextIntake, NextMetrics, News, NextDisk, NextGate, Data, Chosen, Bag, Hits, ToSave;
    var role, t := RoleOf(c, i), s.threads[i];
    var t', news := NextPoint(c, role, s.sh, t, w), News(c, role, s.sh, t, w);
    ActDelivers(c, role, s.sh, t, w);
    SavesGrow(c, role, s.sh, t, w);
    LogGrows(s.sh.log, news, IsForwarded);
    BagAfterUpdate(s.threads, i, t', ToSaveBag);
    var took, gave := Hits(news, IsForwarded), Saved(t, w);
    assert multiset(took + ToSave(t)) == multiset(gave + ToSave(t'));
    Rebalance(multiset(Chosen(s.sh.log, IsForwarded)), multiset(s.sh.disk.saves), Bag(s.threads, ToSaveBag),
              Bag(s.threads[i := t'], ToSaveBag), ToSaveBag(t), ToSaveBag(t'), multiset(took), multiset(gave));
  }

  lemma StepKeepsDelivered(c: Config, s: State, l: Label)
    requires Enabled(c, s, l) && Delivered(s) && c.storage
    ensures Delivered(Step(c, s, l))
  {
    hide CanAct, NextPoint, NextIntake, NextMetrics, News, NextDisk, NextGate, Chosen, Bag, ToSaveBag;
    if l.Do? {
      DoKeepsDelivered(c, s, l.i, l.w);
    } else if l.Loop? {
      PlainMoveKeepsBags(s.threads, l.i, Step(c, s, l).threads[l.i]);
    } else if l.StopFlush? || l.DestroyFlush? {
      PlainMoveKeepsBags(s.threads, StopperIndex(c), Step(c, s, l).threads[StopperIndex(c)]);
    }
  }

  // ------------------------------------------------------------- saved records

  /** Every saved record is buffered, in a batch in flight, stored, dead-lettered or lost. */
  ghost predicate Fated(s: State) {
    var d := s.sh.disk;
    multiset(d.saves) == multiset(d.buffer) + d.stored + d.dead + d.lost + Bag(s.threads, InFlight)
  }

  /** All of a disk except the history of saves. */
  function Kept(d: Disk): multiset<Bytes> {
    multiset(d.buffer) + d.stored + d.dead + d.lost
  }

  lemma SaveKeepsRecords(d: Disk, r: Bytes)
    ensures var t' := if |d.buffer| + 1 < BATCH_SIZE then Idle else Flushing(d.buffer + [r], 0);
            multiset([r]) + Kept(d) == Kept(SaveStep(d, r)) + InFlight(t')
  {
    assert multiset(d.buffer + [r]) == multiset(d.buffer) + multiset([r]);
  }

  lemma AppendKeepsRecords(d: Disk, batch: seq<Bytes>, renameOk: bool, openOk: bool)
    ensures Kept(d) + multiset(batch) == Kept(AppendDead(d, batch, renameOk, openOk))
  {
    hide DeadLetter.Text;
  }

  lemma InsertKeepsRecords(d: Disk, batch: seq<Bytes>)
    ensures Kept(d) + multiset(batch) == Kept(d.(stored := d.stored + multiset(batch)))
  {
  }

  predicate TouchesDisk(w: Work) {
    w.Save? || w.Tick? || w.Insert? || w.WriteDead?
  }

  lemma OtherWorkLeavesDisk(c: Config, role: Role, sh: Shared, t: Thread, w: Work)
    requires CanAct(c, role, sh, t, w) && !TouchesDisk(w)
    ensures NextDisk(c, role, sh, t, w) == sh.disk && Saved(t, w) == []
    ensures InFlight(t) == multiset{} == InFlight(NextPoint(c, role, sh, t, w))
  {
  }

  lemma FlushKeepsRecords(d: Disk)
    ensures Kept(d) == Kept(FlushStep(d)) + InFlight(FlushPoint(d)) && FlushStep(d).saves == d.saves
  {
  }

  /** What a step saves or holds in flight before it is kept or in flight after it. */
  ghost predicate RecordsKept(c: Config, role: Role, sh: Shared, t: Thread, w: Work)
    requires CanAct(c, role, sh, t, w)
  {
    multiset(Saved(t, w)) + Kept(sh.disk) + InFlight(t)
    == Kept(NextDisk(c, role, sh, t, w)) + InFlight(NextPoint(c, role, sh, t, w))
  }

  lemma SaveActKeepsRecords(c: Config, role: Role, sh: Shared, t: Thread)
    requires CanAct(c, role, sh, t, Save)
    ensures RecordsKept(c, role, sh, t, Save)
  {
    hide SaveStep, Kept;
    SaveKeepsRecords(sh.disk, t.d);
  }

  lemma TickKeepsRecords(c: Config, role: Role, sh: Shared, t: Thread)
    requires CanAct(c, role, sh, t, Tick)
    ensures RecordsKept(c, role, sh, t, Tick)
  {
    hide FlushStep, FlushPoint, Kept;
    FlushKeepsRecords(sh.disk);
  }

  lemma WriteDeadKeepsRecords(c: Config, role: Role, sh: Shared, t: Thread, w: Work)
    requires CanAct(c, role, sh, t, w) && w.WriteDead?
    ensures RecordsKept(c, role, sh, t, w)
  {
    hide AppendDead, Kept;
    AppendKeepsRecords(sh.disk, t.batch, w.renameOk, w.openOk);
  }

  lemma InsertActKeepsRecords(c: Config, role: Role, sh: Shared, t: Thread, w: Work)
    requires CanAct(c, role, sh, t, w) && w.Insert?
    ensures RecordsKept(c, role, sh, t, w)
  {
    hide Kept;
    InsertKeepsRecords(sh.disk, t.batch);
  }

  lemma ActKeepsRecords(c: Config, role: Role, sh: Shared, t: Thread, w: Work)
    requires CanAct(c, role, sh, t, w)
    ensures RecordsKept(c, role, sh, t, w)
  {
    hide CanAct, NextPoint, NextDisk, Kept, InFlight;
    if w.Save? {
      SaveActKeepsRecords(c, role, sh, t);
    } else if w.Tick? {
      TickKeepsRecords(c, role, sh, t);
    } else if w.WriteDead? {
      WriteDeadKeepsRecords(c, role, sh, t, w);
    } else if w.Insert? {
      InsertActKeepsRecords(c, role, sh, t, w);
    } else {
      OtherWorkLeavesDisk(c, role, sh, t, w);
    }
  }

  lemma Refate(saves: multiset<Bytes>, kept: multiset<Bytes>, kept': multiset<Bytes>, flights: multiset<Bytes>,
               flights': multiset<Bytes>, before: multiset<Bytes>, after: multiset<Bytes>, new_: multiset<Bytes>)
    requires saves == kept + flights
    requires flights' + before == flights + after
    requires new_ + kept + before == kept' + after
    ensures saves + new_ == kept' + flights'
  {
    forall x
      ensures (saves + new_)[x] == (kept' + flights')[x]
    {
      assert saves[x] == (kept + flights)[x];
      assert (flights' + before)[x] == (flights + after)[x];
      assert (new_ + kept + before)[x] == (kept' + after)[x];
    }
  }

  lemma DoKeepsFated(c: Config, s: State, i: nat, w: Work)
    requires Enabled(c, s, Do(i, w)) && Fated(s)
    ensures Fated(Step(c, s, Do(i, w)))
  {
    hide CanAct, NextPoint, NextIntake, NextMetrics, News, NextDisk, NextGate, Bag, InFlight;
    var role, t := RoleOf(c, i), s.threads[i];
    var t', d' := NextPoint(c, role, s.sh, t, w), NextDisk(c, role, s.sh, t, w);
    ActKeepsRecords(c, role, s.sh, t, w);
    SavesGrow(c, role, s.sh, t, w);
    BagAfterUpdate(s.threads, i, t', InFlight);
    Refate(multiset(s.sh.disk.saves), Kept(s.sh.disk), Kept(d'), Bag(s.threads, InFlight),
           Bag(s.threads[i := t'], InFlight), InFlight(t), InFlight(t'), multiset(Saved(t, w)));
  }

  lemma StopperFlushKeepsFated(c: Config, s: State, next: Stage)
    requires StopperIdle(c, s) && Fated(s)
    ensures Fated(StopperFlush(c, s, next))
  {
    hide Bag;
    var k, t' := StopperIndex(c), FlushPoint(s.sh.disk);
    BagAfterUpdate(s.threads, k, t', InFlight);
    FlushKeepsRecords(s.sh.disk);
    hide InFlight, FlushStep, FlushPoint;
    assert InFlight(Idle) == multiset{} by { NoFlight(); }
    Refate(multiset(s.sh.disk.saves), Kept(s.sh.disk), Kept(FlushStep(s.sh.disk)), Bag(s.threads, InFlight),
           Bag(s.threads[k := t'], InFlight), multiset{}, InFlight(t'), multiset{});
  }

  lemma NoFlight()
    ensures InFlight(Idle) == multiset{}
  {
  }

  lemma StepKeepsFated(c: Config, s: State, l: Label)
    requires Enabled(c, s, l) && Fated(s)
    ensures Fated(Step(c, s, l))
  {
    hide CanAct, NextPoint, NextIntake, NextMetrics, News, NextDisk, NextGate, Bag, StopperFlush;
    if l.Do? {
      DoKeepsFated(c, s, l.i, l.w);
    } else if l.Loop? {
      BagUnchanged(s.threads, l.i, Step(c, s, l).threads[l.i], InFlight);
    } else if l.StopFlush? {
      StopperFlushKeepsFated(c, s, Stopped);
    } else if l.DestroyFlush? {
      StopperFlushKeepsFated(c, s, Destroyed);
    }
  }

  // ------------------------------------------------------------------- batches

  function Batches(swaps: seq<Swap>): seq<seq<Bytes>> {
    seq(|swaps|, i requires 0 <= i < |swaps| => swaps[i].records)
  }

  predicate SwapOk(w: Swap) {
    1 <= |w.records| <= BATCH_SIZE && (w.full ==> |w.records| == BATCH_SIZE)
  }

  /** Batches in swap order, then the buffer, are the saves in lock order; sizes are as promised. */
  ghost predicate Batched(d: Disk) {
    && Flatten(Batches(d.swaps)) + d.buffer == d.saves
    && |d.buffer| < BATCH_SIZE
    && forall w :: w in d.swaps ==> SwapOk(w)
  }

  lemma SwapOutKeepsOrder(d: Disk, full: bool)
    requires Flatten(Batches(d.swaps)) + d.buffer == d.saves
    ensures Flatten(Batches(SwapOut(d, full).swaps)) + SwapOut(d, full).buffer == d.saves
  {
    var w := Swap(d.buffer, full);
    assert Batches(d.swaps + [w]) == Batches(d.swaps) + [d.buffer];
    FlattenAppend(Batches(d.swaps), d.buffer);
    assert d.saves + [] == d.saves;
  }

  lemma SaveKeepsBatched(d: Disk, r: Bytes)
    requires Batched(d)
    ensures Batched(SaveStep(d, r))
  {
    hide Flatten;
    var more := d.(buffer := d.buffer + [r], saves := d.saves + [r]);
    assert Flatten(Batches(d.swaps)) + (d.buffer + [r]) == Flatten(Batches(d.swaps)) + d.buffer + [r];
    SwapOutKeepsOrder(more, true);
  }

  lemma FlushKeepsBatched(d: Disk)
    requires Batched(d)
    ensures Batched(FlushStep(d))
  {
    hide Flatten;
    SwapOutKeepsOrder(d, false);
  }

  lemma StepKeepsBatched(c: Config, s: State, l: Label)
    requires Enabled(c, s, l) && Batched(s.sh.disk)
    ensures Batched(Step(c, s, l).sh.disk)
  {
    hide CanAct, NextPoint, NextIntake, NextMetrics, News, NextGate, SaveStep, FlushStep, Flatten;
    if l.Do? && l.w.Save? {
      assert s.threads[l.i].Saving? by { SaveHolds(c, RoleOf(c, l.i), s.sh, s.threads[l.i]); }
      SaveKeepsBatched(s.sh.disk, s.threads[l.i].d);
    }
    FlushKeepsBatched(s.sh.disk);
  }

  lemma SaveHolds(c: Config, role: Role, sh: Shared, t: Thread)
    requires CanAct(c, role, sh, t, Save)
    ensures t.Saving?
  {
  }
}
