/** What the steps of a run say about inserts and the broker, counted over the run itself. */
module PipelineHistory {
  import opened Basics
  import opened Pipeline
  import opened PipelineCounts
  import opened PipelineBags
  import opened PipelineSafety
  import opened PipelineAsks
  import opened PipelineTheorems
  import PipelineScrape
  import Limiter

  // ------------------------------------------------------------------- inserts

  /** Does this step bring thread i to another program point? */
  predicate Moves(c: Config, l: Label, i: nat) {
    l == Loop(i) || (l.Do? && l.i == i) || (i == StopperIndex(c) && (l.StopFlush? || l.DestroyFlush?))
  }

  /** The inserts of thread i that have failed since it last did anything else. */
  function FailedInserts(c: Config, trace: seq<Label>, i: nat): nat {
    if trace == [] then 0
    else
      var front, l := trace[..|trace| - 1], trace[|trace| - 1];
      if l == Do(i, Insert(false)) then FailedInserts(c, front, i) + 1
      else if Moves(c, l, i) then 0
      else FailedInserts(c, front, i)
  }

  ghost predicate CountsTries(t: Thread, n: nat) {
    t.Flushing? ==> t.tries == n
  }

  lemma ActCountsTries(c: Config, role: Role, sh: Shared, t: Thread, w: Work, n: nat)
    requires CanAct(c, role, sh, t, w) && CountsTries(t, n)
    ensures CountsTries(NextPoint(c, role, sh, t, w), if w == Insert(false) then n + 1 else 0)
  {
    hide Limiter.Allows, Limiter.Last;
  }

  lemma StepCountsTries(c: Config, s: State, l: Label, i: nat, n: nat)
    requires Enabled(c, s, l) && i < |s.threads| && CountsTries(s.threads[i], n)
    ensures |Step(c, s, l).threads| == |s.threads|
    ensures CountsTries(Step(c, s, l).threads[i],
                        if l == Do(i, Insert(false)) then n + 1 else if Moves(c, l, i) then 0 else n)
  {
    hide CanAct, Act, NextPoint;
    if l.Do? && l.i == i {
      ActCountsTries(c, RoleOf(c, i), s.sh, s.threads[i], l.w, n);
    }
  }

  lemma {:induction false} RunCountsTries(c: Config, past: Past, trace: seq<Label>, i: nat)
    requires Legal(c, Init(c, past), trace)
    ensures var s := After(c, Init(c, past), trace);
            i < |s.threads| ==> CountsTries(s.threads[i], FailedInserts(c, trace, i))
    decreases |trace|
  {
    if trace != [] {
      var front, l := trace[..|trace| - 1], trace[|trace| - 1];
      hide Step, Enabled, Init, CountsTries;
      PipelineScrape.LastStep(c, Init(c, past), trace);
      RunCountsTries(c, past, front, i);
      hide Legal, After;
      var s := After(c, Init(c, past), front);
      if i < |s.threads| {
        StepCountsTries(c, s, l, i, FailedInserts(c, front, i));
      } else {
        ThreadsStay(c, s, l);
      }
    }
  }

  lemma ThreadsStay(c: Config, s: State, l: Label)
    requires Enabled(c, s, l)
    ensures |Step(c, s, l).threads| == |s.threads|
  {
    hide CanAct, Act, NextPoint;
  }

  /** In every run a batch goes to the dead-letter file exactly after three failed inserts in a row. */
  lemma ThreeInsertsBeforeDeadLetter(c: Config, past: Past, trace: seq<Label>, i: nat, w: Work)
    requires Legal(c, Init(c, past), trace) && Enabled(c, After(c, Init(c, past), trace), Do(i, w))
    ensures w.WriteDead? ==> FailedInserts(c, trace, i) == 3
    ensures w.Insert? ==> FailedInserts(c, trace, i) < 3
  {
    hide Legal, After, Inv, SharedOk, StageOk, Counted, Batched, GateOk, TextOk, InOrder, FailedInserts;
    ReachableInv(c, past, trace);
    RunCountsTries(c, past, trace, i);
    var s := After(c, Init(c, past), trace);
    InvParts(c, s);
    assert DataOk(c, s.threads[i]);
    hide DataOk, RoleOk, GoodBatch;
    FlushWorkCounts(c, RoleOf(c, i), s.sh, s.threads[i], w);
  }

  lemma FlushWorkCounts(c: Config, role: Role, sh: Shared, t: Thread, w: Work)
    requires CanAct(c, role, sh, t, w)
    ensures w.WriteDead? ==> t.Flushing? && t.tries >= 3
    ensures w.Insert? ==> t.Flushing? && t.tries < 3
  {
  }

  // -------------------------------------------------------------------- broker

  /** How many steps of a run are of a kind. */
  function Count(trace: seq<Label>, kind: Label -> bool): nat {
    if trace == [] then 0
    else Count(trace[..|trace| - 1], kind) + if kind(trace[|trace| - 1]) then 1 else 0
  }

  predicate IsProduce(l: Label) { l.Do? && l.w.Produce? }
  predicate IsRefusal(l: Label) { l.Do? && l.w == Produce(false) }

  function AtAdmitted(t: Thread): nat { if t.Admitted? then 1 else 0 }
  function AtProduceFailed(t: Thread): nat { if t.ProduceFailed? then 1 else 0 }

  /** Every forwarded record meets the broker once, and every refusal is counted once. */
  ghost predicate BrokerOk(c: Config, s: State, produced: nat, refused: nat) {
    && produced + Sum(s.threads, AtAdmitted) == |Chosen(s.sh.log, IsForwarded)|
    && s.sh.m.kafkaFail + Sum(s.threads, AtProduceFailed) == (if c.kafka then refused else 0)
    && s.sh.m.kafkaOk == 0
  }

  lemma ActMeetsBroker(c: Config, role: Role, sh: Shared, t: Thread, w: Work)
    requires CanAct(c, role, sh, t, w)
    ensures var m, m', t' := sh.m, NextMetrics(c, role, sh, t, w), NextPoint(c, role, sh, t, w);
            var news := News(c, role, sh, t, w);
            && AtMostOne(news)
            && AtAdmitted(t') + (if w.Produce? then 1 else 0) == AtAdmitted(t) + |Hits(news, IsForwarded)|
            && m'.kafkaFail + AtProduceFailed(t')
               == m.kafkaFail + AtProduceFailed(t) + (if c.kafka && w == Produce(false) then 1 else 0)
            && m'.kafkaOk == m.kafkaOk
  {
    hide Limiter.Allows, Limiter.Last;
  }

  lemma DoKeepsBroker(c: Config, s: State, i: nat, w: Work, produced: nat, refused: nat)
    requires Enabled(c, s, Do(i, w)) && BrokerOk(c, s, produced, refused)
    ensures BrokerOk(c, Step(c, s, Do(i, w)), produced + (if w.Produce? then 1 else 0),
                     refused + if w == Produce(false) then 1 else 0)
  {
    hide CanAct, NextPoint, NextIntake, News, NextMetrics, NextDisk, NextGate, Sum, Chosen, Data, Hits;
    hide AtAdmitted, AtProduceFailed;
    var role, t := RoleOf(c, i), s.threads[i];
    var t' := NextPoint(c, role, s.sh, t, w);
    ActMeetsBroker(c, role, s.sh, t, w);
    LogGrows(s.sh.log, News(c, role, s.sh, t, w), IsForwarded);
    SumAfterUpdate(s.threads, i, t', AtAdmitted);
    SumAfterUpdate(s.threads, i, t', AtProduceFailed);
  }

  lemma PlainMoveKeepsBroker(ts: seq<Thread>, i: nat, t: Thread)
    requires i < |ts| && Plain(ts[i]) && Plain(t)
    ensures Sum(ts[i := t], AtAdmitted) == Sum(ts, AtAdmitted)
    ensures Sum(ts[i := t], AtProduceFailed) == Sum(ts, AtProduceFailed)
  {
    hide Sum;
    SumAfterUpdate(ts, i, t, AtAdmitted);
    SumAfterUpdate(ts, i, t, AtProduceFailed);
  }

  lemma StepKeepsBroker(c: Config, s: State, l: Label, produced: nat, refused: nat)
    requires Enabled(c, s, l) && BrokerOk(c, s, produced, refused)
    ensures BrokerOk(c, Step(c, s, l), produced + (if IsProduce(l) then 1 else 0),
                     refused + if IsRefusal(l) then 1 else 0)
  {
    hide CanAct, NextPoint, Act, Sum, Chosen, FlushStep, OfferStep;
    if l.Do? {
      DoKeepsBroker(c, s, l.i, l.w, produced, refused);
    } else if l.Loop? {
      PlainMoveKeepsBroker(s.threads, l.i, Step(c, s, l).threads[l.i]);
    } else if l.StopFlush? || l.DestroyFlush? {
      PlainMoveKeepsBroker(s.threads, StopperIndex(c), Step(c, s, l).threads[StopperIndex(c)]);
    }
  }

  lemma InitMeetsBroker(c: Config, past: Past)
    ensures BrokerOk(c, Init(c, past), 0, 0)
  {
    hide Sum;
    var ts := Init(c, past).threads;
    assert forall t :: t in ts ==> t == Idle || t == Done;
    SumZero(ts, AtAdmitted);
    SumZero(ts, AtProduceFailed);
  }

  /**
   * In every run each forwarded record is offered to the broker exactly once, unless a thread is
   * just about to, and the failure counter counts the offers refused, if there is a broker.
   */
  lemma {:induction false} BrokerMeetsEveryRecord(c: Config, past: Past, trace: seq<Label>)
    requires Legal(c, Init(c, past), trace)
    ensures var s := After(c, Init(c, past), trace);
            && Count(trace, IsProduce) + Sum(s.threads, AtAdmitted) == |Chosen(s.sh.log, IsForwarded)|
            && s.sh.m.kafkaFail + Sum(s.threads, AtProduceFailed) == (if c.kafka then Count(trace, IsRefusal) else 0)
            && s.sh.m.kafkaOk == 0
    decreases |trace|
  {
    if trace == [] {
      InitMeetsBroker(c, past);
    } else {
      var front, l := trace[..|trace| - 1], trace[|trace| - 1];
      hide Step, Enabled, Init, Sum, Chosen;
      PipelineScrape.LastStep(c, Init(c, past), trace);
      BrokerMeetsEveryRecord(c, past, front);
      hide Legal, After;
      StepKeepsBroker(c, After(c, Init(c, past), front), l, Count(front, IsProduce), Count(front, IsRefusal));
    }
  }

  // -------------------------------------------------------------------- intake

  lemma IntakeSteps(c: Config, s: State, d: Bytes)
    requires s.sh.intake.open && 1 <= |d| <= 102399
    ensures Enabled(c, s, Arrive(d)) && Enabled(c, Step(c, s, Arrive(d)), Offer(d))
    ensures var q := s.sh.intake; var read := q.read + multiset{d};
            var s2 := Step(c, Step(c, s, Arrive(d)), Offer(d));
            if |q.queue| < c.capacity then
              s2 == s.(sh := s.sh.(intake := q.(read := read, queue := q.queue + [d], accepted := q.accepted + [d])))
            else
              s2 == s.(sh := s.sh.(intake := q.(read := read, dropped := q.dropped + multiset{d},
                                                uncounted := q.uncounted + 1)))
  {
    hide CanAct;
    assert s.sh.intake.arriving + multiset{d} - multiset{d} == s.sh.intake.arriving;
  }

  lemma OneStep(c: Config, s: State, l: Label)
    requires Enabled(c, s, l)
    ensures Legal(c, s, [l]) && After(c, s, [l]) == Step(c, s, l)
  {
    hide Enabled, Step;
    assert [l][1..] == [];
  }

  lemma Prepend(c: Config, s: State, l: Label, rest: seq<Label>)
    requires Enabled(c, s, l) && Legal(c, Step(c, s, l), rest)
    ensures Legal(c, s, [l] + rest) && After(c, s, [l] + rest) == After(c, Step(c, s, l), rest)
  {
    hide Enabled, Step;
    assert ([l] + rest)[1..] == rest;
  }

  lemma CountDropStep(c: Config, s: State)
    requires s.sh.intake.uncounted > 0
    ensures Enabled(c, s, CountDrop)
    ensures Step(c, s, CountDrop)
         == s.(sh := s.sh.(intake := s.sh.intake.(uncounted := s.sh.intake.uncounted - 1),
                           m := s.sh.m.(queueDrop := s.sh.m.queueDrop + 1)))
  {
    hide CanAct;
  }

  /**
   * While the sessions run, a frame of 1 to 102399 bytes can be read at any moment, and then its
   * offer puts it last in the queue if there is room; otherwise it is dropped and counted at once.
   */
  lemma ReadFrameIsQueuedOrDropped(c: Config, s: State, d: Bytes) returns (trace: seq<Label>)
    requires s.sh.intake.open && 1 <= |d| <= 102399
    ensures Legal(c, s, trace) && |trace| >= 2 && trace[..2] == [Arrive(d), Offer(d)]
    ensures var q, s' := s.sh.intake, After(c, s, trace); var read := q.read + multiset{d};
            if |q.queue| < c.capacity then
              s' == s.(sh := s.sh.(intake := q.(read := read, queue := q.queue + [d], accepted := q.accepted + [d])))
            else
              s' == s.(sh := s.sh.(intake := q.(read := read, dropped := q.dropped + multiset{d}),
                                   m := s.sh.m.(queueDrop := s.sh.m.queueDrop + 1)))
  {
    hide Step, Enabled;
    IntakeSteps(c, s, d);
    var s1 := Step(c, s, Arrive(d));
    var s2 := Step(c, s1, Offer(d));
    if |s.sh.intake.queue| < c.capacity {
      trace := [Arrive(d), Offer(d)];
      OneStep(c, s1, Offer(d));
      Prepend(c, s, Arrive(d), [Offer(d)]);
      assert trace == [Arrive(d)] + [Offer(d)];
    } else {
      CountDropStep(c, s2);
      var s3 := Step(c, s2, CountDrop);
      trace := [Arrive(d), Offer(d), CountDrop];
      OneStep(c, s2, CountDrop);
      Prepend(c, s1, Offer(d), [CountDrop]);
      Prepend(c, s, Arrive(d), [Offer(d)] + [CountDrop]);
      assert trace == [Arrive(d)] + ([Offer(d)] + [CountDrop]);
    }
  }
}
