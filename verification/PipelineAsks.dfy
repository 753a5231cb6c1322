/** The limiter's part in the pipeline: which call decided which frame, in every interleaving. */
module PipelineAsks {
  import opened Basics
  import opened Events
  import opened Pipeline
  import opened PipelineCounts
  import opened PipelineBags
  import opened PipelineSafety
  import Limiter

  /** The limiter call a verdict rests on. */
  function AskOf(v: Verdict): Option<Ask> {
    match v
    case Limited(_, ask) => Some(ask)
    case Forwarded(_, ask) => ask
    case _ => None
  }

  // --------------------------------------------------- verdicts are the answers

  /** The call was made for the user of frame d, and its answer was `passed`. */
  ghost predicate Answered(c: Config, g: Gate, d: Bytes, ask: Ask, passed: bool) {
    && c.limiter.Some? && c.parse(d).Some?
    && ask.call.user == c.parse(d).value.userId
    && ask.index < |g.calls| && g.calls[ask.index] == ask.call
    && (Limiter.Answer(c.limiter.value, g.first, g.calls, ask.index) <==> passed)
  }

  /** An entry that rests on a limiter call says what the limiter said. */
  ghost predicate Decided(c: Config, g: Gate, e: Entry) {
    AskOf(e.verdict).Some? ==> Answered(c, g, e.data, AskOf(e.verdict).value, e.verdict.Forwarded?)
  }

  ghost predicate Pends(c: Config, g: Gate, t: Thread) {
    t.Refused? ==> Answered(c, g, t.d, t.ask, false)
  }

  ghost predicate AllDecided(c: Config, s: State) {
    && (forall e :: e in s.sh.log ==> Decided(c, s.sh.gate, e))
    && (forall t :: t in s.threads ==> Pends(c, s.sh.gate, t))
  }

  /** Later calls do not change earlier answers. */
  lemma AnswerStays(c: Config, g: Gate, g': Gate, d: Bytes, ask: Ask, passed: bool)
    requires Answered(c, g, d, ask, passed) && g'.first == g.first && g.calls <= g'.calls
    ensures Answered(c, g', d, ask, passed)
  {
    assert g'.calls[..ask.index] == g.calls[..ask.index];
  }

  lemma DecisionsStay(c: Config, s: State, g': Gate)
    requires AllDecided(c, s) && g'.first == s.sh.gate.first && s.sh.gate.calls <= g'.calls
    ensures forall e :: e in s.sh.log ==> Decided(c, g', e)
    ensures forall t :: t in s.threads ==> Pends(c, g', t)
  {
    hide Answered;
    var g := s.sh.gate;
    forall e | e in s.sh.log
      ensures Decided(c, g', e)
    {
      if AskOf(e.verdict).Some? {
        AnswerStays(c, g, g', e.data, AskOf(e.verdict).value, e.verdict.Forwarded?);
      }
    }
    forall t | t in s.threads
      ensures Pends(c, g', t)
    {
      if t.Refused? {
        AnswerStays(c, g, g', t.d, t.ask, false);
      }
    }
  }

  lemma GateGrows(c: Config, role: Role, sh: Shared, t: Thread, w: Work)
    requires CanAct(c, role, sh, t, w)
    ensures var g, g' := sh.gate, NextGate(c, role, sh, t, w);
            g'.first == g.first && g.calls <= g'.calls && (!w.Limit? ==> g' == g)
  {
  }

  lemma LimitDecides(c: Config, role: Role, sh: Shared, t: Thread, w: Work)
    requires CanAct(c, role, sh, t, w) && w.Limit? && GateOk(c, sh.gate)
    ensures var g' := NextGate(c, role, sh, t, w);
            && (forall e :: e in News(c, role, sh, t, w) ==> Decided(c, g', e))
            && Pends(c, g', NextPoint(c, role, sh, t, w))
  {
    hide Limiter.StoreAfter, Limiter.Allows, Limiter.Serve;
    var calls := NextGate(c, role, sh, t, w).calls;
    assert calls[..|sh.gate.calls|] == sh.gate.calls;
  }

  lemma OtherWorkDecides(c: Config, role: Role, sh: Shared, t: Thread, w: Work)
    requires CanAct(c, role, sh, t, w) && !w.Limit? && Pends(c, sh.gate, t)
    ensures forall e :: e in News(c, role, sh, t, w) ==> Decided(c, sh.gate, e)
    ensures Pends(c, sh.gate, NextPoint(c, role, sh, t, w))
  {
    hide Answered, Limiter.Last;
  }

  lemma DoKeepsDecided(c: Config, s: State, i: nat, w: Work)
    requires Enabled(c, s, Do(i, w)) && GateOk(c, s.sh.gate) && AllDecided(c, s)
    ensures AllDecided(c, Step(c, s, Do(i, w)))
  {
    hide CanAct, NextPoint, NextIntake, News, NextMetrics, NextDisk, NextGate, Answered, GateOk;
    var role, t := RoleOf(c, i), s.threads[i];
    var g, g' := s.sh.gate, NextGate(c, role, s.sh, t, w);
    GateGrows(c, role, s.sh, t, w);
    assert Pends(c, g, t);
    DecisionsStay(c, s, g');
    hide Decided, Pends;
    if w.Limit? {
      LimitDecides(c, role, s.sh, t, w);
    } else {
      OtherWorkDecides(c, role, s.sh, t, w);
    }
  }

  lemma StepKeepsDecided(c: Config, s: State, l: Label)
    requires Enabled(c, s, l) && GateOk(c, s.sh.gate) && AllDecided(c, s)
    ensures AllDecided(c, Step(c, s, l))
  {
    hide CanAct, NextPoint, Act, Answered, GateOk, Decided;
    if l.Do? {
      DoKeepsDecided(c, s, l.i, l.w);
    }
  }

  // ------------------------------------------------- each call decides one frame

  function Index(v: Verdict): seq<nat> {
    if AskOf(v).Some? then [AskOf(v).value.index] else []
  }

  /** The calls the log rests on, in log order. */
  function Asks(log: seq<Entry>): seq<nat> {
    if log == [] then [] else Asks(log[..|log| - 1]) + Index(log[|log| - 1].verdict)
  }

  /** The refusal a thread has still to log. */
  function Pending(t: Thread): seq<nat> {
    if t.Refused? then [t.ask.index] else []
  }

  function PendingBag(t: Thread): multiset<nat> {
    multiset(Pending(t))
  }

  function UpTo(n: nat): seq<nat> {
    seq(n, i => i)
  }

  /** Every limiter call decided exactly one frame. */
  ghost predicate AskedOnce(s: State) {
    multiset(UpTo(|s.sh.gate.calls|)) == multiset(Asks(s.sh.log)) + Bag(s.threads, PendingBag)
  }

  function NewCall(g: Gate, w: Work): seq<nat> {
    if w.Limit? then [|g.calls|] else []
  }

  function NewsAsks(news: seq<Entry>): seq<nat> {
    if news == [] then [] else Index(news[0].verdict)
  }

  lemma AsksGrow(log: seq<Entry>, news: seq<Entry>)
    requires AtMostOne(news)
    ensures Asks(log + news) == Asks(log) + NewsAsks(news)
  {
    if news == [] {
      assert log + news == log;
    } else {
      assert (log + news)[..|log|] == log;
    }
  }

  lemma CallsGrow(c: Config, role: Role, sh: Shared, t: Thread, w: Work)
    requires CanAct(c, role, sh, t, w)
    ensures UpTo(|NextGate(c, role, sh, t, w).calls|) == UpTo(|sh.gate.calls|) + NewCall(sh.gate, w)
  {
  }

  lemma ActHandsOnAsks(c: Config, role: Role, sh: Shared, t: Thread, w: Work)
    requires CanAct(c, role, sh, t, w)
    ensures AtMostOne(News(c, role, sh, t, w))
    ensures NewCall(sh.gate, w) + Pending(t)
         == NewsAsks(News(c, role, sh, t, w)) + Pending(NextPoint(c, role, sh, t, w))
    ensures NewCall(sh.gate, w) == [] || Pending(t) == []
  {
    hide Limiter.Allows, Limiter.Last;
  }

  lemma DoKeepsAskedOnce(c: Config, s: State, i: nat, w: Work)
    requires Enabled(c, s, Do(i, w)) && AskedOnce(s)
    ensures AskedOnce(Step(c, s, Do(i, w)))
  {
    hide CanAct, NextPoint, NextIntake, News, NextMetrics, NextDisk, NextGate, Asks, UpTo, Bag, Pending;
    var role, t := RoleOf(c, i), s.threads[i];
    var t', news := NextPoint(c, role, s.sh, t, w), News(c, role, s.sh, t, w);
    var took, gave := NewCall(s.sh.gate, w), NewsAsks(news);
    ActHandsOnAsks(c, role, s.sh, t, w);
    CallsGrow(c, role, s.sh, t, w);
    AsksGrow(s.sh.log, news);
    BagAfterUpdate(s.threads, i, t', PendingBag);
    assert multiset(took + Pending(t)) == multiset(gave + Pending(t'));
    Rebalance(multiset(UpTo(|s.sh.gate.calls|)), multiset(Asks(s.sh.log)), Bag(s.threads, PendingBag),
              Bag(s.threads[i := t'], PendingBag), PendingBag(t), PendingBag(t'), multiset(took), multiset(gave));
  }

  lemma PlainMoveKeepsPending(ts: seq<Thread>, i: nat, t: Thread)
    requires i < |ts| && Plain(ts[i]) && Plain(t)
    ensures Bag(ts[i := t], PendingBag) == Bag(ts, PendingBag)
  {
    hide Bag;
    BagUnchanged(ts, i, t, PendingBag);
  }

  lemma StepKeepsAskedOnce(c: Config, s: State, l: Label)
    requires Enabled(c, s, l) && AskedOnce(s)
    ensures AskedOnce(Step(c, s, l))
  {
    hide CanAct, NextPoint, Act, Asks, UpTo, Bag, PendingBag, FlushStep;
    if l.Do? {
      DoKeepsAskedOnce(c, s, l.i, l.w);
    } else if l.Loop? {
      PlainMoveKeepsPending(s.threads, l.i, Step(c, s, l).threads[l.i]);
    } else if l.StopFlush? || l.DestroyFlush? {
      PlainMoveKeepsPending(s.threads, StopperIndex(c), Step(c, s, l).threads[StopperIndex(c)]);
    }
  }

  // ------------------------------------------------------- who disposed of what

  /** Until the drain begins, workers have disposed of everything. */
  ghost predicate Signed(s: State) {
    Rank(s.stage) < Rank(Draining) ==> forall e :: e in s.sh.log ==> e.role == Worker
  }

  lemma NewsAreSigned(c: Config, role: Role, sh: Shared, t: Thread, w: Work)
    requires CanAct(c, role, sh, t, w)
    ensures forall e :: e in News(c, role, sh, t, w) ==> e.role == role
  {
    hide Limiter.Allows, Limiter.Last;
  }

  lemma StepKeepsSigned(c: Config, s: State, l: Label)
    requires Enabled(c, s, l) && Sound(c, s) && StageOk(c, s) && Signed(s)
    ensures Signed(Step(c, s, l))
  {
    hide CanAct, NextPoint, NextIntake, News, NextMetrics, NextDisk, NextGate, SharedOk;
    if l.Do? && Rank(s.stage) < Rank(Draining) {
      var role, t := RoleOf(c, l.i), s.threads[l.i];
      NewsAreSigned(c, role, s.sh, t, l.w);
      if role == Flusher {
        assert RoleOk(c, role, t);
        FlusherHoldsNothing(c, s.sh, t, l.w);
      } else if role == Stopper {
        IdleStopperPops(c, s.sh, l.w);
      }
    }
  }

  // ---------------------------------------------------------- with one worker

  /** With one worker the log follows the calls one by one. */
  ghost predicate AsksInOrder(s: State) {
    |s.threads| > 0 && UpTo(|s.sh.gate.calls|) == Asks(s.sh.log) + Pending(s.threads[0])
  }

  lemma WorkerKeepsAsks(c: Config, role: Role, sh: Shared, t: Thread, w: Work)
    requires CanAct(c, role, sh, t, w)
    requires UpTo(|sh.gate.calls|) == Asks(sh.log) + Pending(t)
    ensures UpTo(|NextGate(c, role, sh, t, w).calls|)
         == Asks(sh.log + News(c, role, sh, t, w)) + Pending(NextPoint(c, role, sh, t, w))
  {
    hide CanAct, NextPoint, News, NextGate, Asks, UpTo, Pending, NewsAsks;
    var news, t', new_ := News(c, role, sh, t, w), NextPoint(c, role, sh, t, w), NewCall(sh.gate, w);
    ActHandsOnAsks(c, role, sh, t, w);
    CallsGrow(c, role, sh, t, w);
    AsksGrow(sh.log, news);
    assert Pending(t) + new_ == new_ + Pending(t);
    assert Asks(sh.log) + Pending(t) + new_ == Asks(sh.log) + (Pending(t) + new_);
    assert Asks(sh.log) + NewsAsks(news) + Pending(t') == Asks(sh.log) + (NewsAsks(news) + Pending(t'));
  }

  /** Only workers ask. */
  lemma OthersDoNotAsk(c: Config, role: Role, sh: Shared, t: Thread, w: Work)
    requires CanAct(c, role, sh, t, w) && role != Worker && RoleOk(c, role, t)
    ensures NewCall(sh.gate, w) == [] && Pending(t) == []
  {
  }

  lemma OthersKeepAsks(c: Config, role: Role, sh: Shared, t: Thread, w: Work)
    requires CanAct(c, role, sh, t, w) && role != Worker && RoleOk(c, role, t)
    ensures |NextGate(c, role, sh, t, w).calls| == |sh.gate.calls|
    ensures Asks(sh.log + News(c, role, sh, t, w)) == Asks(sh.log)
  {
    hide CanAct, NextPoint, News, Asks, Pending, NewsAsks, RoleOk;
    OthersDoNotAsk(c, role, sh, t, w);
    ActHandsOnAsks(c, role, sh, t, w);
    AsksGrow(sh.log, News(c, role, sh, t, w));
    assert NewsAsks(News(c, role, sh, t, w)) == [];
  }

  lemma StepKeepsAsksInOrder(c: Config, s: State, l: Label)
    requires Enabled(c, s, l) && c.workers == 1 && Sound(c, s) && AsksInOrder(s)
    ensures AsksInOrder(Step(c, s, l))
  {
    hide CanAct, NextPoint, NextIntake, News, NextMetrics, NextDisk, NextGate, Asks, UpTo, SharedOk;
    if l.Do? {
      var t := s.threads[l.i];
      if l.i == 0 {
        WorkerKeepsAsks(c, Worker, s.sh, t, l.w);
      } else {
        assert RoleOk(c, RoleOf(c, l.i), t);
        hide RoleOk;
        OthersKeepAsks(c, RoleOf(c, l.i), s.sh, t, l.w);
      }
    }
  }

  // ------------------------------------------------------------------- together

  /** All the invariant says about the limiter's part. */
  ghost predicate AsksOk(c: Config, s: State) {
    AllDecided(c, s) && AskedOnce(s) && Signed(s) && (c.workers == 1 ==> AsksInOrder(s))
  }

  lemma StepKeepsAsks(c: Config, s: State, l: Label)
    requires Enabled(c, s, l) && Sound(c, s) && StageOk(c, s) && GateOk(c, s.sh.gate) && AsksOk(c, s)
    ensures AsksOk(c, Step(c, s, l))
  {
    hide Enabled, Step, Sound, StageOk, GateOk, AllDecided, AskedOnce, Signed, AsksInOrder;
    StepKeepsDecided(c, s, l);
    StepKeepsAskedOnce(c, s, l);
    StepKeepsSigned(c, s, l);
    if c.workers == 1 {
      StepKeepsAsksInOrder(c, s, l);
    }
  }

  // ---------------------------------------------------- a sequential reference

  /** What the outside contributed to the disposal of one frame. */
  datatype Moment = Moment(role: Role, now: int, time: int, outcome: Limiter.Outcome)

  /**
   * The reference, one frame: keep it if it parses, is valid at its moment and, when a worker
   * takes it, is let through by the limiter.
   */
  function SiftOne(c: Config, kept: seq<Bytes>, store: Limiter.Store, d: Bytes, m: Moment)
    : (seq<Bytes>, Limiter.Store)
  {
    match c.parse(d)
    case None => (kept, store)
    case Some(e) =>
      if !Validate(e, m.now) then (kept, store)
      else if !Limits(c, m.role) then (kept + [d], store)
      else
        var call := Limiter.Call(e.userId, m.time, m.outcome);
        (if Limiter.Allows(c.limiter.value, store, call) then kept + [d] else kept,
         Limiter.Serve(c.limiter.value, store, call))
  }

  /** The reference: the frames one after another, with a limiter that starts from `store`. */
  function Sift(c: Config, store: Limiter.Store, frames: seq<Bytes>, ms: seq<Moment>): (seq<Bytes>, Limiter.Store)
    requires |frames| == |ms|
  {
    if frames == [] then ([], store)
    else
      var n := |frames| - 1;
      var (kept, now) := Sift(c, store, frames[..n], ms[..n]);
      SiftOne(c, kept, now, frames[n], ms[n])
  }

  function MomentOf(e: Entry): Moment {
    var now := match e.verdict
      case Unparseable => 0
      case Invalid(now) => now
      case Limited(now, _) => now
      case Forwarded(now, _) => now;
    match AskOf(e.verdict)
    case None => Moment(e.role, now, 0, Limiter.Answered)
    case Some(ask) => Moment(e.role, now, ask.call.time, ask.call.outcome)
  }

  function Moments(log: seq<Entry>): seq<Moment> {
    seq(|log|, i requires 0 <= i < |log| => MomentOf(log[i]))
  }

  function StoreNow(c: Config, first: Limiter.Store, calls: seq<Limiter.Call>): Limiter.Store {
    if c.limiter.None? then first else Limiter.StoreAfter(c.limiter.value, first, calls)
  }

  lemma {:induction false} DataLength(log: seq<Entry>)
    ensures |Data(log)| == |log|
  {
    if log != [] {
      DataLength(log[..|log| - 1]);
    }
  }

  /** Verdicts that follow the calls one by one are those of the reference. */
  ghost predicate Follows(c: Config, g: Gate, log: seq<Entry>) {
    && (forall e :: e in log ==> EntryOk(c, e) && Decided(c, g, e))
    && Asks(log) == UpTo(|g.calls|)
  }

  lemma FollowsBefore(c: Config, g: Gate, log: seq<Entry>) returns (calls: seq<Limiter.Call>)
    requires log != [] && Follows(c, g, log)
    ensures calls <= g.calls && Follows(c, g.(calls := calls), log[..|log| - 1])
    ensures match AskOf(log[|log| - 1].verdict)
            case None => calls == g.calls
            case Some(ask) => g.calls == calls + [ask.call] && ask.index == |calls|
  {
    var front, e := log[..|log| - 1], log[|log| - 1];
    assert e in log;
    match AskOf(e.verdict)
    case None =>
      calls := g.calls;
      assert Asks(front) + [] == Asks(front);
    case Some(ask) =>
      var n := |g.calls| - 1;
      LastAsk(log, ask.index, |g.calls|);
      calls := g.calls[..n];
      hide EntryOk, Asks, UpTo;
      forall x | x in front
        ensures EntryOk(c, x) && Decided(c, g.(calls := calls), x)
      {
        assert x in log;
        StaysDecided(c, g, front, x, n);
      }
  }

  lemma LastAsk(log: seq<Entry>, k: nat, n: nat)
    requires log != [] && Index(log[|log| - 1].verdict) == [k] && Asks(log) == UpTo(n)
    ensures k == n - 1 && Asks(log[..|log| - 1]) == UpTo(n - 1)
  {
    assert Asks(log)[|Asks(log)| - 1] == k;
    assert Asks(log[..|log| - 1]) == Asks(log)[..n - 1];
  }

  lemma StaysDecided(c: Config, g: Gate, log: seq<Entry>, e: Entry, n: nat)
    requires e in log && Decided(c, g, e) && n <= |g.calls| && Asks(log) == UpTo(n)
    ensures Decided(c, g.(calls := g.calls[..n]), e)
  {
    if AskOf(e.verdict).Some? {
      var k := AskOf(e.verdict).value.index;
      AskIsListed(log, e);
      assert k in UpTo(n);
      assert g.calls[..n][..k] == g.calls[..k];
    }
  }

  lemma {:induction false} AskIsListed(log: seq<Entry>, e: Entry)
    requires e in log && AskOf(e.verdict).Some?
    ensures AskOf(e.verdict).value.index in Asks(log)
  {
    var front := log[..|log| - 1];
    if e != log[|log| - 1] {
      assert e in front;
      AskIsListed(front, e);
    }
  }

  lemma LastFollows(c: Config, g: Gate, calls: seq<Limiter.Call>, kept: seq<Bytes>, e: Entry)
    requires EntryOk(c, e) && Decided(c, g, e)
    requires match AskOf(e.verdict)
             case None => calls == g.calls
             case Some(ask) => g.calls == calls + [ask.call] && ask.index == |calls|
    ensures SiftOne(c, kept, StoreNow(c, g.first, calls), e.data, MomentOf(e))
         == (kept + (if e.verdict.Forwarded? then [e.data] else []), StoreNow(c, g.first, g.calls))
  {
    assert kept + [] == kept;
    if AskOf(e.verdict).Some? {
      assert Limiter.Init(g.calls) == calls == g.calls[..|calls|];
    }
    hide Validate, Limiter.Allows, Limiter.Serve;
  }

  lemma {:induction false} LogFollowsReference(c: Config, g: Gate, log: seq<Entry>)
    requires Follows(c, g, log)
    ensures |Data(log)| == |Moments(log)|
    ensures Sift(c, g.first, Data(log), Moments(log))
         == (Chosen(log, IsForwarded), StoreNow(c, g.first, g.calls))
    decreases |log|
  {
    DataLength(log);
    hide SiftOne, MomentOf;
    if log == [] {
      assert |g.calls| == |UpTo(|g.calls|)| == 0;
    } else {
      var front, e := log[..|log| - 1], log[|log| - 1];
      var calls := FollowsBefore(c, g, log);
      LogFollowsReference(c, g.(calls := calls), front);
      assert Moments(log)[..|front|] == Moments(front);
      DataLength(front);
      assert Data(log)[..|front|] == Data(front);
      LastFollows(c, g, calls, Chosen(front, IsForwarded), e);
    }
  }
}
