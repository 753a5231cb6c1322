/** The rate limit seen end to end: how many of a user's records the workers forward. */
module PipelineLimits {
  import opened Basics
  import opened Pipeline
  import opened PipelineCounts
  import opened PipelineBags
  import opened PipelineSafety
  import opened PipelineAsks
  import opened PipelineTheorems
  import Limiter

  /**
   * Is this a record of `user` that a worker forwarded, unless the limiter was asked about it
   * outside [a, b]? A record forwarded without asking is in every interval.
   */
  predicate PassedFor(c: Config, e: Entry, user: Bytes, a: int, b: int) {
    && e.role == Worker && e.verdict.Forwarded?
    && c.parse(e.data).Some? && c.parse(e.data).value.userId == user
    && (e.verdict.passage.Some? ==> a <= e.verdict.passage.value.call.time <= b)
  }

  function PassedIn(c: Config, log: seq<Entry>, user: Bytes, a: int, b: int): nat {
    if log == [] then 0
    else PassedIn(c, log[..|log| - 1], user, a, b) + if PassedFor(c, log[|log| - 1], user, a, b) then 1 else 0
  }

  /** With a limiter, what the workers forwarded is what it admitted. */
  ghost predicate Matches(c: Config, sh: Shared, user: Bytes, a: int, b: int) {
    c.limiter.Some? ==>
      PassedIn(c, sh.log, user, a, b)
      == Limiter.Admitted(c.limiter.value, sh.gate.first, sh.gate.calls, user, a, b)
  }

  lemma PassedGrows(c: Config, log: seq<Entry>, news: seq<Entry>, user: Bytes, a: int, b: int)
    requires |news| <= 1
    ensures PassedIn(c, log + news, user, a, b)
         == PassedIn(c, log, user, a, b) + if news != [] && PassedFor(c, news[0], user, a, b) then 1 else 0
  {
    if news != [] {
      assert (log + news)[..|log|] == log;
    } else {
      assert log + news == log;
    }
  }

  lemma LimitKeepsMatch(c: Config, role: Role, sh: Shared, t: Thread, w: Work, user: Bytes, a: int, b: int)
    requires CanAct(c, role, sh, t, w) && w.Limit? && GateOk(c, sh.gate) && Matches(c, sh, user, a, b)
    ensures Matches(c, Act(c, role, sh, t, w), user, a, b)
  {
    hide NextPoint, NextIntake, NextMetrics, NextDisk, PassedIn, Limiter.StoreAfter, Limiter.Serve, Limiter.Allows;
    var calls := NextGate(c, role, sh, t, w).calls;
    assert Limiter.Init(calls) == sh.gate.calls;
    PassedGrows(c, sh.log, News(c, role, sh, t, w), user, a, b);
  }

  /** Only the limiter call adds a passage. */
  lemma OtherWorkPassesNobody(c: Config, role: Role, sh: Shared, t: Thread, w: Work, user: Bytes, a: int, b: int)
    requires CanAct(c, role, sh, t, w) && !w.Limit? && c.limiter.Some?
    ensures var news := News(c, role, sh, t, w);
            |news| <= 1 && (news != [] ==> !PassedFor(c, news[0], user, a, b))
    ensures NextGate(c, role, sh, t, w) == sh.gate
  {
  }

  lemma OtherWorkKeepsMatch(c: Config, role: Role, sh: Shared, t: Thread, w: Work, user: Bytes, a: int, b: int)
    requires CanAct(c, role, sh, t, w) && !w.Limit? && Matches(c, sh, user, a, b)
    ensures Matches(c, Act(c, role, sh, t, w), user, a, b)
  {
    hide CanAct, NextPoint, NextIntake, NextMetrics, NextDisk, NextGate, News, PassedIn, PassedFor, Limiter.Admitted;
    if c.limiter.Some? {
      OtherWorkPassesNobody(c, role, sh, t, w, user, a, b);
      PassedGrows(c, sh.log, News(c, role, sh, t, w), user, a, b);
    }
  }

  lemma StepKeepsMatch(c: Config, s: State, l: Label, user: Bytes, a: int, b: int)
    requires Enabled(c, s, l) && GateOk(c, s.sh.gate) && Matches(c, s.sh, user, a, b)
    ensures Matches(c, Step(c, s, l).sh, user, a, b)
  {
    hide CanAct, NextPoint, Act, GateOk, PassedIn, Limiter.Admitted;
    if l.Do? {
      if l.w.Limit? {
        LimitKeepsMatch(c, RoleOf(c, l.i), s.sh, s.threads[l.i], l.w, user, a, b);
      } else {
        OtherWorkKeepsMatch(c, RoleOf(c, l.i), s.sh, s.threads[l.i], l.w, user, a, b);
      }
    }
  }

  lemma {:induction false} RunKeepsMatch(c: Config, s: State, trace: seq<Label>, user: Bytes, a: int, b: int)
    requires Legal(c, s, trace) && Inv(c, s) && Matches(c, s.sh, user, a, b)
    ensures Matches(c, After(c, s, trace).sh, user, a, b)
    decreases |trace|
  {
    hide Step, Enabled, Matches, Inv, Sound, StageOk, Counted, Batched, GateOk, TextOk, InOrder;
    if trace != [] {
      InvParts(c, s);
      StepKeepsInv(c, s, trace[0]);
      StepKeepsMatch(c, s, trace[0], user, a, b);
      RunKeepsMatch(c, Step(c, s, trace[0]), trace[1..], user, a, b);
    }
  }

  /**
   * In every run, in any interval of at most m minutes, the workers forward at most
   * (m + 1) * limit of a user's records, plus one per limiter error on that user's calls.
   * Until the drain begins these are all the records forwarded.
   */
  lemma WorkersRespectTheRateLimit(
    c: Config, past: Past, trace: seq<Label>, user: Bytes, a: int, b: int, m: nat)
    requires Legal(c, Init(c, past), trace) && c.limiter.Some?
    requires b - a <= m * 60000
    ensures var sh := After(c, Init(c, past), trace).sh;
            PassedIn(c, sh.log, user, a, b)
            <= (m + 1) * c.limiter.value.limit + Limiter.Errors(sh.gate.calls, user, a, b)
    ensures var s := After(c, Init(c, past), trace);
            Rank(s.stage) < Rank(Draining) ==> forall e :: e in s.sh.log ==> e.role == Worker
  {
    hide Legal, After, Inv, PassedIn, Limiter.Errors, Limiter.Admitted;
    hide Sound, StageOk, Counted, Batched, TextOk, InOrder, EntryOk, Decided, AskedOnce, AsksInOrder;
    InitSatisfiesInv(c, past);
    NobodyPassedYet(c, past, user, a, b);
    RunKeepsMatch(c, Init(c, past), trace, user, a, b);
    ReachableInv(c, past, trace);
    var s := After(c, Init(c, past), trace);
    InvParts(c, s);
    InvDecides(c, s);
    Limiter.IntervalBound(c.limiter.value, s.sh.gate.first, s.sh.gate.calls, user, a, b, m);
  }

  lemma NobodyPassedYet(c: Config, past: Past, user: Bytes, a: int, b: int)
    ensures Matches(c, Init(c, past).sh, user, a, b)
  {
  }
}
