/** Conservation in the pipeline: what every step keeps about counters and bags of records. */
module PipelineCounts {
  import opened Basics
  import opened Pipeline
  import DeadLetter

  // -------------------------------------------------------- sums over threads

  function Sum(ts: seq<Thread>, w: Thread -> nat): nat {
    if ts == [] then 0 else w(ts[0]) + Sum(ts[1..], w)
  }

  function Bag<T>(ts: seq<Thread>, w: Thread -> multiset<T>): multiset<T> {
    if ts == [] then multiset{} else w(ts[0]) + Bag(ts[1..], w)
  }

  lemma {:induction false} SumAfterUpdate(ts: seq<Thread>, i: nat, t: Thread, w: Thread -> nat)
    requires i < |ts|
    ensures Sum(ts[i := t], w) + w(ts[i]) == Sum(ts, w) + w(t)
  {
    if i == 0 {
      assert ts[i := t][1..] == ts[1..];
    } else {
      assert ts[i := t][1..] == ts[1..][i - 1 := t];
      SumAfterUpdate(ts[1..], i - 1, t, w);
    }
  }

  lemma {:induction false} BagAfterUpdate<T>(ts: seq<Thread>, i: nat, t: Thread, w: Thread -> multiset<T>)
    requires i < |ts|
    ensures Bag(ts[i := t], w) + w(ts[i]) == Bag(ts, w) + w(t)
  {
    if i == 0 {
      assert ts[i := t][1..] == ts[1..];
    } else {
      assert ts[i := t][1..] == ts[1..][i - 1 := t];
      BagAfterUpdate(ts[1..], i - 1, t, w);
      var a, rest := w(ts[0]), Bag(ts[1..], w);
      assert a + (rest + w(t)) == (a + rest) + w(t);
      assert Bag(ts[i := t], w) + w(ts[i]) == a + (Bag(ts[1..][i - 1 := t], w) + w(ts[i]));
    }
  }

  lemma {:induction false} BagUnchanged<T>(ts: seq<Thread>, i: nat, t: Thread, w: Thread -> multiset<T>)
    requires i < |ts| && w(ts[i]) == w(t)
    ensures Bag(ts[i := t], w) == Bag(ts, w)
  {
    if i == 0 {
      assert ts[i := t][1..] == ts[1..];
    } else {
      assert ts[i := t][1..] == ts[1..][i - 1 := t];
      BagUnchanged(ts[1..], i - 1, t, w);
    }
  }

  lemma {:induction false} SumZero(ts: seq<Thread>, w: Thread -> nat)
    requires forall t :: t in ts ==> w(t) == 0
    ensures Sum(ts, w) == 0
  {
    if ts != [] {
      SumZero(ts[1..], w);
    }
  }

  lemma {:induction false} BagEmpty<T>(ts: seq<Thread>, w: Thread -> multiset<T>)
    requires forall t :: t in ts ==> w(t) == multiset{}
    ensures Bag(ts, w) == multiset{}
  {
    if ts != [] {
      BagEmpty(ts[1..], w);
    }
  }

  // What a thread holds, by program point.
  function AtPopped(t: Thread): nat { if t.Popped? then 1 else 0 }
  function AtReceived(t: Thread): nat { if t.Received? then 1 else 0 }
  function AtParsed(t: Thread): nat { if t.Parsed? || t.Judged? then 1 else 0 }
  function AtPassed(t: Thread): nat { if t.Passed? || t.Refused? then 1 else 0 }
  function ToCountStored(t: Thread): nat { if t.Inserted? then |t.batch| else 0 }
  function ToCountDead(t: Thread): nat { if t.DeadWritten? then |t.batch| else 0 }

  /** The frame a thread has popped but not disposed of. */
  function Hand(t: Thread): seq<Bytes> {
    if t.Popped? || t.Received? || t.Parsed? || t.Judged? || t.Passed? || t.Refused? then [t.d] else []
  }

  /** The record a thread has forwarded but not saved. */
  function ToSave(t: Thread): seq<Bytes> {
    if t.Admitted? || t.ProduceFailed? || t.Saving? then [t.d] else []
  }

  function HandBag(t: Thread): multiset<Bytes> { multiset(Hand(t)) }
  function ToSaveBag(t: Thread): multiset<Bytes> { multiset(ToSave(t)) }

  /** The batch a thread is trying to get rid of. */
  function InFlight(t: Thread): multiset<Bytes> {
    if t.Flushing? then multiset(t.batch) else multiset{}
  }

  // ----------------------------------------------------------------- the log

  function Data(log: seq<Entry>): seq<Bytes> {
    if log == [] then [] else Data(log[..|log| - 1]) + [log[|log| - 1].data]
  }

  /** The logged frames whose verdict is in `v`, in order. */
  function Chosen(log: seq<Entry>, v: Verdict -> bool): seq<Bytes> {
    if log == [] then []
    else Chosen(log[..|log| - 1], v)
         + if v(log[|log| - 1].verdict) then [log[|log| - 1].data] else []
  }

  predicate IsUnparseable(v: Verdict) { v.Unparseable? }
  predicate IsInvalid(v: Verdict) { v.Invalid? }
  predicate IsLimited(v: Verdict) { v.Limited? }
  predicate IsForwarded(v: Verdict) { v.Forwarded? }

  /** At most one new entry, as a sequence. */
  predicate AtMostOne(news: seq<Entry>) {
    |news| <= 1
  }

  function Hits(news: seq<Entry>, v: Verdict -> bool): seq<Bytes> {
    if news != [] && v(news[0].verdict) then [news[0].data] else []
  }

  lemma LogGrows(log: seq<Entry>, news: seq<Entry>, v: Verdict -> bool)
    requires AtMostOne(news)
    ensures Chosen(log + news, v) == Chosen(log, v) + Hits(news, v)
    ensures Data(log + news) == Data(log) + if news == [] then [] else [news[0].data]
  {
    if news == [] {
      assert log + news == log;
    } else {
      assert (log + news)[..|log|] == log;
    }
  }

  /** The four verdicts split the disposed frames. */
  lemma {:induction false} VerdictsPartition(log: seq<Entry>)
    ensures multiset(Data(log))
         == multiset(Chosen(log, IsUnparseable)) + multiset(Chosen(log, IsInvalid))
            + multiset(Chosen(log, IsLimited)) + multiset(Chosen(log, IsForwarded))
  {
    if log != [] {
      VerdictsPartition(log[..|log| - 1]);
    }
  }

  // ---------------------------------------------------------------- counters

  /** Counters against histories, up to the threads that are between two increments. */
  ghost predicate Counted(s: State) {
    var m, log, ts := s.sh.m, s.sh.log, s.threads;
    && m.received + Sum(ts, AtPopped) == |s.sh.intake.popped|
    && m.parsed + m.parseFail + Sum(ts, AtReceived) == m.received
    && m.valid + m.invalid + Sum(ts, AtParsed) == m.parsed
    && m.rateLimited + |Chosen(log, IsForwarded)| + Sum(ts, AtPassed) == m.valid
    && m.parseFail == |Chosen(log, IsUnparseable)|
    && m.invalid == |Chosen(log, IsInvalid)|
    && m.rateLimited == |Chosen(log, IsLimited)|
    && m.stored + Sum(ts, ToCountStored) == |s.sh.disk.stored|
    && m.storeDead + Sum(ts, ToCountDead) == |s.sh.disk.dead|
    && m.storeFail == 0
    && m.queueDrop + s.sh.intake.uncounted == |s.sh.intake.dropped|
  }

  /** One thread step moves every counter and history together with what the thread holds. */
  lemma ActBalancesReceived(c: Config, role: Role, sh: Shared, t: Thread, w: Work)
    requires CanAct(c, role, sh, t, w)
    ensures var m, m', t' := sh.m, NextMetrics(c, role, sh, t, w), NextPoint(c, role, sh, t, w);
            && m'.received + AtPopped(t') - |NextIntake(sh.intake, w).popped|
               == m.received + AtPopped(t) - |sh.intake.popped|
            && m'.parsed + m'.parseFail + AtReceived(t') - m'.received
               == m.parsed + m.parseFail + AtReceived(t) - m.received
            && m'.valid + m'.invalid + AtParsed(t') - m'.parsed == m.valid + m.invalid + AtParsed(t) - m.parsed
            && m'.queueDrop == m.queueDrop && m'.storeFail == m.storeFail
  {
    hide News;
  }

  lemma NewsMoveCounters(c: Config, role: Role, sh: Shared, t: Thread, w: Work)
    requires CanAct(c, role, sh, t, w)
    ensures var m, m', t' := sh.m, NextMetrics(c, role, sh, t, w), NextPoint(c, role, sh, t, w);
            var news := News(c, role, sh, t, w);
            && AtMostOne(news)
            && m'.rateLimited + |Hits(news, IsForwarded)| + AtPassed(t') - m'.valid
               == m.rateLimited + AtPassed(t) - m.valid
            && m'.parseFail == m.parseFail + |Hits(news, IsUnparseable)|
            && m'.invalid == m.invalid + |Hits(news, IsInvalid)|
            && m'.rateLimited == m.rateLimited + |Hits(news, IsLimited)|
  {
  }

  lemma ActBalancesLog(c: Config, role: Role, sh: Shared, t: Thread, w: Work)
    requires CanAct(c, role, sh, t, w)
    ensures var m, m', t' := sh.m, NextMetrics(c, role, sh, t, w), NextPoint(c, role, sh, t, w);
            var log, log' := sh.log, sh.log + News(c, role, sh, t, w);
            && m'.rateLimited + |Chosen(log', IsForwarded)| + AtPassed(t') - m'.valid
               == m.rateLimited + |Chosen(log, IsForwarded)| + AtPassed(t) - m.valid
            && m'.parseFail - |Chosen(log', IsUnparseable)| == m.parseFail - |Chosen(log, IsUnparseable)|
            && m'.invalid - |Chosen(log', IsInvalid)| == m.invalid - |Chosen(log, IsInvalid)|
            && m'.rateLimited - |Chosen(log', IsLimited)| == m.rateLimited - |Chosen(log, IsLimited)|
  {
    hide NextPoint, NextMetrics, CanAct, News, Chosen, Data, Hits;
    var news := News(c, role, sh, t, w);
    NewsMoveCounters(c, role, sh, t, w);
    LogGrows(sh.log, news, IsForwarded);
    LogGrows(sh.log, news, IsUnparseable);
    LogGrows(sh.log, news, IsInvalid);
    LogGrows(sh.log, news, IsLimited);
  }

  /** What is stored or written but not yet counted. */
  ghost predicate DiskBalances(c: Config, role: Role, sh: Shared, t: Thread, w: Work)
    requires CanAct(c, role, sh, t, w)
  {
    var m, m', t' := sh.m, NextMetrics(c, role, sh, t, w), NextPoint(c, role, sh, t, w);
    var disk, disk' := sh.disk, NextDisk(c, role, sh, t, w);
    && m'.stored + ToCountStored(t') - |disk'.stored| == m.stored + ToCountStored(t) - |disk.stored|
    && m'.storeDead + ToCountDead(t') - |disk'.dead| == m.storeDead + ToCountDead(t) - |disk.dead|
  }

  lemma WriteDeadBalances(c: Config, role: Role, sh: Shared, t: Thread, w: Work)
    requires CanAct(c, role, sh, t, w) && w.WriteDead?
    ensures DiskBalances(c, role, sh, t, w)
  {
    hide DeadLetter.Text;
  }

  lemma FlushWorkBalances(c: Config, role: Role, sh: Shared, t: Thread, w: Work)
    requires CanAct(c, role, sh, t, w) && (w.Insert? || w.CountStored? || w.CountDead?)
    ensures DiskBalances(c, role, sh, t, w)
  {
  }

  lemma OtherWorkBalances(c: Config, role: Role, sh: Shared, t: Thread, w: Work)
    requires CanAct(c, role, sh, t, w) && !w.WriteDead? && !w.Insert? && !w.CountStored? && !w.CountDead?
    ensures DiskBalances(c, role, sh, t, w)
  {
  }

  lemma ActBalancesDisk(c: Config, role: Role, sh: Shared, t: Thread, w: Work)
    requires CanAct(c, role, sh, t, w)
    ensures DiskBalances(c, role, sh, t, w)
  {
    hide CanAct, DiskBalances;
    if w.WriteDead? {
      WriteDeadBalances(c, role, sh, t, w);
    } else if w.Insert? || w.CountStored? || w.CountDead? {
      FlushWorkBalances(c, role, sh, t, w);
    } else {
      OtherWorkBalances(c, role, sh, t, w);
    }
  }

  /** A thread that moves between points holding nothing countable leaves all sums alone. */
  lemma UpdateSums(ts: seq<Thread>, i: nat, t: Thread)
    requires i < |ts|
    ensures Sum(ts[i := t], AtPopped) + AtPopped(ts[i]) == Sum(ts, AtPopped) + AtPopped(t)
    ensures Sum(ts[i := t], AtReceived) + AtReceived(ts[i]) == Sum(ts, AtReceived) + AtReceived(t)
    ensures Sum(ts[i := t], AtParsed) + AtParsed(ts[i]) == Sum(ts, AtParsed) + AtParsed(t)
    ensures Sum(ts[i := t], AtPassed) + AtPassed(ts[i]) == Sum(ts, AtPassed) + AtPassed(t)
    ensures Sum(ts[i := t], ToCountStored) + ToCountStored(ts[i]) == Sum(ts, ToCountStored) + ToCountStored(t)
    ensures Sum(ts[i := t], ToCountDead) + ToCountDead(ts[i]) == Sum(ts, ToCountDead) + ToCountDead(t)
  {
    SumAfterUpdate(ts, i, t, AtPopped);
    SumAfterUpdate(ts, i, t, AtReceived);
    SumAfterUpdate(ts, i, t, AtParsed);
    SumAfterUpdate(ts, i, t, AtPassed);
    SumAfterUpdate(ts, i, t, ToCountStored);
    SumAfterUpdate(ts, i, t, ToCountDead);
  }

  lemma DoKeepsCounted(c: Config, s: State, i: nat, w: Work)
    requires Enabled(c, s, Do(i, w)) && Counted(s)
    ensures Counted(Step(c, s, Do(i, w)))
  {
    hide CanAct, NextPoint, NextMetrics, News, NextDisk, NextGate, Sum, Chosen;
    var t := s.threads[i];
    ActBalancesReceived(c, RoleOf(c, i), s.sh, t, w);
    ActBalancesLog(c, RoleOf(c, i), s.sh, t, w);
    ActBalancesDisk(c, RoleOf(c, i), s.sh, t, w);
    UpdateSums(s.threads, i, NextPoint(c, RoleOf(c, i), s.sh, t, w));
  }

  /** Points at which a thread holds nothing a counter waits for. */
  predicate Plain(t: Thread) {
    t.Idle? || t.Ready? || t.Done? || t.Flushing?
  }

  /** Moving a thread between plain points, with counters and counted histories as they were. */
  lemma PlainMoveKeepsCounted(s: State, s': State, i: nat, t: Thread)
    requires Counted(s)
    requires i < |s.threads| && Plain(s.threads[i]) && Plain(t) && s'.threads == s.threads[i := t]
    requires s'.sh.m == s.sh.m && s'.sh.log == s.sh.log && s'.sh.intake == s.sh.intake
    requires s'.sh.disk.stored == s.sh.disk.stored && s'.sh.disk.dead == s.sh.disk.dead
    ensures Counted(s')
  {
    hide Sum, Chosen;
    UpdateSums(s.threads, i, t);
  }

  predicate IntakeLabel(l: Label) {
    l.Arrive? || l.Offer? || l.CountDrop? || l.JoinIo?
  }

  lemma IntakeKeepsCounted(c: Config, s: State, l: Label)
    requires Enabled(c, s, l) && Counted(s) && IntakeLabel(l)
    ensures Counted(Step(c, s, l))
  {
    hide CanAct, Act, Sum, Chosen;
  }

  lemma StepKeepsCounted(c: Config, s: State, l: Label)
    requires Enabled(c, s, l) && Counted(s)
    ensures Counted(Step(c, s, l))
  {
    hide Act, CanAct, Counted;
    var s' := Step(c, s, l);
    if IntakeLabel(l) {
      IntakeKeepsCounted(c, s, l);
    } else if l.Do? {
      DoKeepsCounted(c, s, l.i, l.w);
    } else if l.Loop? {
      PlainMoveKeepsCounted(s, s', l.i, s'.threads[l.i]);
    } else if l.StopFlush? || l.DestroyFlush? {
      PlainMoveKeepsCounted(s, s', StopperIndex(c), s'.threads[StopperIndex(c)]);
    } else {
      CountedIgnoresStage(s, s'.stage);
    }
  }

  lemma CountedIgnoresStage(s: State, g: Stage)
    requires Counted(s)
    ensures Counted(s.(stage := g))
  {
    hide Sum, Chosen;
  }
}
