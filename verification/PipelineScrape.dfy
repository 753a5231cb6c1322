/**
 * Metric scrapes of a live pipeline: twelve counters loaded one after another while every
 * other thread keeps running, so the values come from up to twelve different moments.
 */
module PipelineScrape {
  import opened Basics
  import opened Pipeline
  import opened PipelineCounts
  import opened PipelineBags
  import opened PipelineSafety
  import opened PipelineTheorems

  /** The counters, in the order in which a scrape loads them. */
  function Counter(m: Metrics, k: nat): nat
    requires k < 12
  {
    match k
    case 0 => m.received
    case 1 => m.parsed
    case 2 => m.valid
    case 3 => m.invalid
    case 4 => m.parseFail
    case 5 => m.rateLimited
    case 6 => m.kafkaOk
    case 7 => m.kafkaFail
    case 8 => m.stored
    case 9 => m.storeFail
    case 10 => m.storeDead
    case _ => m.queueDrop
  }

  /** One scrape of a run: `times[k]` is how many steps had been taken when counter k was loaded. */
  predicate Scrape(trace: seq<Label>, times: seq<nat>) {
    && |times| == 12
    && (forall j, k :: 0 <= j < k < 12 ==> times[j] <= times[k])
    && times[11] <= |trace|
  }

  /** The counters at the moment at which a scrape loads counter k. */
  function MetricsAt(c: Config, past: Past, trace: seq<Label>, times: seq<nat>, k: nat): Metrics
    requires Legal(c, Init(c, past), trace) && Scrape(trace, times) && k < 12
  {
    assert times[k] <= times[11];
    At(c, past, trace, times[k]).sh.m
  }

  /** The value a scrape reports for counter k. */
  function Loaded(c: Config, past: Past, trace: seq<Label>, times: seq<nat>, k: nat): nat
    requires Legal(c, Init(c, past), trace) && Scrape(trace, times) && k < 12
  {
    Counter(MetricsAt(c, past, trace, times, k), k)
  }

  // ---------------------------------------------------------------- monotony

  predicate NoLess(m: Metrics, m': Metrics) {
    && m.received <= m'.received && m.parsed <= m'.parsed && m.valid <= m'.valid && m.invalid <= m'.invalid
    && m.parseFail <= m'.parseFail && m.rateLimited <= m'.rateLimited
    && m.kafkaOk <= m'.kafkaOk && m.kafkaFail <= m'.kafkaFail
    && m.stored <= m'.stored && m.storeFail <= m'.storeFail && m.storeDead <= m'.storeDead
    && m.queueDrop <= m'.queueDrop
  }

  lemma WorkCountsUp(c: Config, role: Role, sh: Shared, t: Thread, w: Work)
    requires CanAct(c, role, sh, t, w)
    ensures NoLess(sh.m, NextMetrics(c, role, sh, t, w))
  {
  }

  lemma StepCountsUp(c: Config, s: State, l: Label)
    requires Enabled(c, s, l)
    ensures NoLess(s.sh.m, Step(c, s, l).sh.m)
  {
    hide CanAct, NextPoint, NextIntake, NextMetrics, News, NextDisk, NextGate;
    if l.Do? {
      WorkCountsUp(c, RoleOf(c, l.i), s.sh, s.threads[l.i], l.w);
    }
  }

  /** The run is a chain of steps. */
  lemma {:induction false} LastStep(c: Config, s: State, trace: seq<Label>)
    requires trace != [] && Legal(c, s, trace)
    ensures var front, l := trace[..|trace| - 1], trace[|trace| - 1];
            && Legal(c, s, front)
            && Enabled(c, After(c, s, front), l)
            && After(c, s, trace) == Step(c, After(c, s, front), l)
    decreases |trace|
  {
    hide Step, Enabled;
    var front := trace[..|trace| - 1];
    LegalPrefix(c, s, trace, |trace| - 1);
    if |trace| > 1 {
      assert trace[1..][..|trace| - 2] == front[1..];
      LastStep(c, Step(c, s, trace[0]), trace[1..]);
    }
  }

  /** Between any two moments of a run no counter goes down. */
  lemma {:induction false} CountersNeverDecrease(c: Config, past: Past, trace: seq<Label>, i: nat, j: nat)
    requires Legal(c, Init(c, past), trace) && i <= j <= |trace|
    ensures NoLess(At(c, past, trace, i).sh.m, At(c, past, trace, j).sh.m)
    decreases j - i
  {
    hide Step, Enabled, Init;
    if i < j {
      CountersNeverDecrease(c, past, trace, i, j - 1);
      LegalPrefix(c, Init(c, past), trace, j);
      LastStep(c, Init(c, past), trace[..j]);
      assert trace[..j][..j - 1] == trace[..j - 1];
      StepCountsUp(c, At(c, past, trace, j - 1), trace[j - 1]);
    }
  }

  // --------------------------------------------- how many threads are in between

  lemma {:induction false} SumOfFew(ts: seq<Thread>, w: Thread -> nat, n: nat)
    requires forall i :: 0 <= i < |ts| ==> w(ts[i]) <= 1 && (i >= n ==> w(ts[i]) == 0)
    ensures Sum(ts, w) <= n
  {
    if ts != [] {
      if n == 0 {
        SumOfFew(ts[1..], w, 0);
      } else {
        SumOfFew(ts[1..], w, n - 1);
      }
    }
  }

  lemma {:induction false} SumOfLast(ts: seq<Thread>, w: Thread -> nat)
    requires ts != [] && forall i :: 0 <= i < |ts| - 1 ==> w(ts[i]) == 0
    ensures Sum(ts, w) == w(ts[|ts| - 1])
  {
    if |ts| > 1 {
      SumOfLast(ts[1..], w);
    }
  }

  function InBetween(c: Config): nat {
    if c.workers == 0 then 1 else c.workers
  }

  /** Either the workers or the stopping thread handle frames, never both. */
  lemma FewInBetween(c: Config, s: State, w: Thread -> nat)
    requires Sound(c, s) && StageOk(c, s)
    requires forall t :: w(t) <= 1 && (Plain(t) || Flushes(t) ==> w(t) == 0)
    ensures Sum(s.threads, w) <= InBetween(c)
  {
    hide SharedOk, DataOk, Sum;
    var ts := s.threads;
    assert RoleOk(c, RoleOf(c, c.workers), ts[c.workers]);
    if Rank(s.stage) < Rank(Draining) {
      SumOfFew(ts, w, c.workers);
    } else {
      SumOfLast(ts, w);
    }
  }

  lemma ChainGaps(c: Config, s: State)
    requires Sound(c, s) && StageOk(c, s) && Counted(s)
    ensures s.sh.m.received <= s.sh.m.parsed + s.sh.m.parseFail + InBetween(c)
    ensures s.sh.m.parsed <= s.sh.m.valid + s.sh.m.invalid + InBetween(c)
  {
    hide Sum, Chosen, Sound, StageOk;
    FewInBetween(c, s, AtReceived);
    FewInBetween(c, s, AtParsed);
  }

  lemma GapsAt(c: Config, past: Past, trace: seq<Label>, k: nat)
    requires Legal(c, Init(c, past), trace) && k <= |trace|
    ensures var m := At(c, past, trace, k).sh.m;
            m.received <= m.parsed + m.parseFail + InBetween(c) && m.parsed <= m.valid + m.invalid + InBetween(c)
  {
    hide Legal, After, Init, Inv, Sound, StageOk, Counted, Batched, GateOk, TextOk, InOrder, InBetween;
    LegalPrefix(c, Init(c, past), trace, k);
    ReachableInv(c, past, trace[..k]);
    InvParts(c, At(c, past, trace, k));
    ChainGaps(c, At(c, past, trace, k));
  }

  /**
   * A torn scrape is still nearly consistent: because upstream counters are loaded first, it never
   * shows more than one unaccounted frame per worker at either stage of the chain.
   */
  lemma TornScrapesStayBounded(c: Config, past: Past, trace: seq<Label>, times: seq<nat>)
    requires Legal(c, Init(c, past), trace) && Scrape(trace, times)
    ensures MetricsAt(c, past, trace, times, 0).received
         <= MetricsAt(c, past, trace, times, 1).parsed + MetricsAt(c, past, trace, times, 4).parseFail
            + (if c.workers == 0 then 1 else c.workers)
    ensures MetricsAt(c, past, trace, times, 1).parsed
         <= MetricsAt(c, past, trace, times, 2).valid + MetricsAt(c, past, trace, times, 3).invalid
            + (if c.workers == 0 then 1 else c.workers)
  {
    assert times[0] <= times[1] <= times[2] <= times[3] <= times[4] <= times[11];
    hide Legal, After, Init;
    GapsAt(c, past, trace, times[0]);
    GapsAt(c, past, trace, times[1]);
    CountersNeverDecrease(c, past, trace, times[0], times[1]);
    CountersNeverDecrease(c, past, trace, times[0], times[4]);
    CountersNeverDecrease(c, past, trace, times[1], times[2]);
    CountersNeverDecrease(c, past, trace, times[1], times[3]);
  }

  /** A scrape that starts after another has ended reports no smaller value for any counter. */
  lemma LaterScrapesReportNoLess(c: Config, past: Past, trace: seq<Label>, first: seq<nat>, second: seq<nat>, k: nat)
    requires Legal(c, Init(c, past), trace) && Scrape(trace, first) && Scrape(trace, second)
    requires first[11] <= second[0] && k < 12
    ensures NoLess(MetricsAt(c, past, trace, first, k), MetricsAt(c, past, trace, second, k))
    ensures Loaded(c, past, trace, first, k) <= Loaded(c, past, trace, second, k)
  {
    assert first[k] <= first[11] <= second[0] <= second[k] <= second[11];
    hide Legal, After, Init;
    CountersNeverDecrease(c, past, trace, first[k], second[k]);
  }
}
