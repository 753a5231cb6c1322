/**
 * The fixed-window rate limiter: an INCR / EXPIRE script run atomically by the
 * key-value store, one counter per user, the expiry set on the first hit only.
 */
module Limiter {
  import opened Basics

  /** Window length in milliseconds. */
  const WINDOW: nat := 60000

  /** How one call ends: answered, executed with the reply lost, or never executed. */
  datatype Outcome = Answered | ReplyLost | NotExecuted

  datatype Call = Call(user: Bytes, time: int, outcome: Outcome)

  /** A key exists only once it has been incremented. */
  type Hits = n: int | n > 0 witness 1

  datatype Slot = Slot(count: Hits, expiry: int)

  type Store = map<Bytes, Slot>

  /** `lag`: how many milliseconds past its expiry the store still serves a key. */
  datatype Params = Params(limit: nat, lag: nat)

  function Key(user: Bytes): Bytes {
    [114, 108, 58] + user  // "rl:"
  }

  predicate Live(p: Params, slot: Slot, now: int) {
    now < slot.expiry + p.lag
  }

  predicate HasWindow(p: Params, store: Store, user: Bytes, now: int) {
    Key(user) in store && Live(p, store[Key(user)], now)
  }

  /** The slot of `user` after the script has run. */
  function Bumped(p: Params, store: Store, user: Bytes, now: int): Slot {
    if HasWindow(p, store, user, now)
    then Slot(store[Key(user)].count + 1, store[Key(user)].expiry)
    else Slot(1, now + WINDOW)
  }

  function Serve(p: Params, store: Store, c: Call): Store {
    if c.outcome == NotExecuted then store
    else store[Key(c.user) := Bumped(p, store, c.user, c.time)]
  }

  /** What `allow` returns: the counter against the limit, or true on any error. */
  predicate Allows(p: Params, store: Store, c: Call) {
    c.outcome == Answered ==> Bumped(p, store, c.user, c.time).count <= p.limit
  }

  // ------------------------------------------------------------------ traces

  function Init(calls: seq<Call>): seq<Call>
    requires calls != []
  {
    calls[..|calls| - 1]
  }

  function Last(calls: seq<Call>): Call
    requires calls != []
  {
    calls[|calls| - 1]
  }

  predicate Ordered(calls: seq<Call>) {
    forall i, j :: 0 <= i < j < |calls| ==> calls[i].time <= calls[j].time
  }

  function StoreAfter(p: Params, store: Store, calls: seq<Call>): Store {
    if calls == [] then store else Serve(p, StoreAfter(p, store, Init(calls)), Last(calls))
  }

  /** The answer to call k of a trace that starts from `store`. */
  predicate Answer(p: Params, store: Store, calls: seq<Call>, k: nat)
    requires k < |calls|
  {
    Allows(p, StoreAfter(p, store, calls[..k]), calls[k])
  }

  predicate Within(c: Call, user: Bytes, a: int, b: int) {
    c.user == user && a <= c.time <= b
  }

  /** Calls of `user` in [a, b] that were let through. */
  function Admitted(p: Params, store: Store, calls: seq<Call>, user: Bytes, a: int, b: int): nat {
    if calls == [] then 0
    else
      Admitted(p, store, Init(calls), user, a, b)
      + if Within(Last(calls), user, a, b) && Allows(p, StoreAfter(p, store, Init(calls)), Last(calls)) then 1 else 0
  }

  function Errors(calls: seq<Call>, user: Bytes, a: int, b: int): nat {
    if calls == [] then 0
    else
      Errors(Init(calls), user, a, b)
      + if Within(Last(calls), user, a, b) && Last(calls).outcome != Answered then 1 else 0
  }

  function Min(x: int, y: int): int {
    if x < y then x else y
  }

  /** How long a window can serve calls. */
  function Life(p: Params): nat {
    WINDOW + p.lag
  }

  /**
   * Bookkeeping behind the interval bound: while the trace is inside [a, b], the calls admitted so
   * far fill at most j earlier windows and the current one. If the first of these windows was open
   * before a, one of its calls is not in the interval.
   */
  ghost predicate Budget(p: Params, store: Store, user: Bytes, a: int, b: int, n: int, j: nat) {
    n <= 0 || (
      && Key(user) in store
      && var slot := store[Key(user)];
      && var start, most := slot.expiry - WINDOW, j * p.limit + Min(slot.count, p.limit);
      && (j > 0 ==> start <= b)
      && ((start >= a + j * Life(p) && n <= most)
          || (start > a + j * Life(p) - Life(p) && n <= most - 1)))
  }

  lemma BudgetStep(p: Params, store: Store, c: Call, user: Bytes, a: int, b: int, n: int, j: nat) returns (j': nat)
    requires Budget(p, store, user, a, b, n, j)
    requires c.time <= b && (c.time >= a || n <= 0)
    ensures var more := if c.user == user && c.time >= a && c.outcome == Answered && Allows(p, store, c) then 1 else 0;
            Budget(p, Serve(p, store, c), user, a, b, n + more, j')
  {
    j' := j;
    if c.user != user {
      KeyInjective(c.user, user);
    } else if c.outcome != NotExecuted && c.time >= a {
      if n <= 0 {
        j' := 0;
      } else if !HasWindow(p, store, user, c.time) {
        j' := j + 1;
        assert j' * p.limit == j * p.limit + p.limit;
        assert j' * Life(p) == j * Life(p) + Life(p);
      }
    }
  }

  lemma KeyInjective(u: Bytes, v: Bytes)
    ensures Key(u) == Key(v) ==> u == v
  {
    assert Key(u)[3..] == u && Key(v)[3..] == v;
  }

  lemma {:induction false} BudgetHolds(p: Params, store: Store, calls: seq<Call>, user: Bytes, a: int, b: int)
    returns (j: nat)
    requires Ordered(calls)
    requires calls != [] ==> Last(calls).time <= b
    ensures Budget(p, StoreAfter(p, store, calls), user, a, b,
                   Admitted(p, store, calls, user, a, b) - Errors(calls, user, a, b), j)
    ensures calls == [] || Last(calls).time < a ==> Admitted(p, store, calls, user, a, b) == 0
  {
    if calls == [] {
      j := 0;
    } else {
      var front, c := Init(calls), Last(calls);
      j := BudgetHolds(p, store, front, user, a, b);
      var n := Admitted(p, store, front, user, a, b) - Errors(front, user, a, b);
      assert c.time >= a || Admitted(p, store, front, user, a, b) == 0;
      j := BudgetStep(p, StoreAfter(p, store, front), c, user, a, b, n, j);
    }
  }

  lemma ProductMonotone(x: int, y: int, z: nat)
    requires x <= y
    ensures x * z <= y * z
  {
  }

  lemma QuotientIsLargest(j: nat, life: nat, length: nat)
    requires life > 0
    ensures j * life <= length <==> j <= length / life
  {
    var q := length / life;
    assert q * life <= length < (q + 1) * life;
    if j <= q {
      ProductMonotone(j, q, life);
    } else {
      ProductMonotone(q + 1, j, life);
    }
  }

  /** The most calls of one user that an interval of this length can let through without errors. */
  function Best(p: Params, length: nat): int {
    if p.limit == 0 then 0
    else if length % Life(p) == 0 then (length / Life(p) + 1) * p.limit
    else (length / Life(p) + 2) * p.limit - 1
  }

  lemma BudgetIsBounded(p: Params, store: Store, user: Bytes, a: int, b: int, n: int, j: nat)
    requires Budget(p, store, user, a, b, n, j) && a <= b
    ensures n <= Best(p, b - a)
  {
    var life, length := Life(p), b - a;
    var q := length / life;
    if n <= 0 {
      ProductMonotone(1, q + 2, p.limit);
      ProductMonotone(0, q + 1, p.limit);
    } else {
      assert (j + 1) * p.limit == j * p.limit + p.limit;
      if j > 0 && length < j * life {
        assert (j - 1) * life == j * life - life;
        QuotientIsLargest(j - 1, life, length);
        QuotientIsLargest(j, life, length);
        assert length % life == 0 ==> q * life == length;
        assert length % life == 0 ==> j - 1 != q;
        ProductMonotone(j + 1, q + 2, p.limit);
        assert length % life == 0 ==> j + 1 <= q + 1;
        if length % life == 0 {
          ProductMonotone(j + 1, q + 1, p.limit);
        }
      } else {
        QuotientIsLargest(j, life, length);
        ProductMonotone(j + 1, q + 1, p.limit);
        assert (q + 2) * p.limit == (q + 1) * p.limit + p.limit;
      }
    }
  }

  /** In any trace, from any store, an interval lets a user through at most `Best` times, plus once per error. */
  lemma {:induction false} ExactIntervalBound(p: Params, store: Store, calls: seq<Call>, user: Bytes, a: int, b: int)
    requires Ordered(calls) && a <= b
    ensures Admitted(p, store, calls, user, a, b) <= Best(p, b - a) + Errors(calls, user, a, b)
  {
    if calls != [] && Last(calls).time > b {
      ExactIntervalBound(p, store, Init(calls), user, a, b);
    } else {
      var j := BudgetHolds(p, store, calls, user, a, b);
      BudgetIsBounded(p, StoreAfter(p, store, calls), user, a, b,
                      Admitted(p, store, calls, user, a, b) - Errors(calls, user, a, b), j);
    }
  }

  /** For m windows `Best` is at most (m + 1) * limit, and exactly that only if keys expire on time. */
  lemma BestOfWindows(p: Params, m: nat, length: nat)
    requires length <= m * WINDOW
    ensures Best(p, length) <= (m + 1) * p.limit
    ensures length == m * WINDOW ==>
              (Best(p, length) == (m + 1) * p.limit <==> p.lag == 0 || m == 0 || p.limit == 0)
  {
    var life, q := Life(p), length / Life(p);
    ProductMonotone(WINDOW, life, m);
    QuotientIsLargest(q, life, length);
    assert (m + 1) * life == m * life + life;
    if q > m {
      ProductMonotone(m + 1, q, life);
      assert false;
    }
    assert length % life == length - q * life;
    if q == m {
      assert length == m * life;
      assert length == m * WINDOW && m > 0 ==> p.lag == 0 by { LagStretches(p, m); }
    } else {
      ProductMonotone(q + 2, m + 1, p.limit);
      assert (q + 2) * p.limit == (q + 1) * p.limit + p.limit;
      assert length == m * WINDOW ==> p.lag != 0 && m != 0;
    }
  }

  lemma LagStretches(p: Params, m: nat)
    ensures m * Life(p) == m * WINDOW ==> p.lag == 0 || m == 0
  {
    assert m * Life(p) == m * WINDOW + m * p.lag;
  }

  /**
   * In any trace, from any store, an interval of at most m minutes lets a user
   * through at most (m + 1) * limit times, plus once per store error.
   */
  lemma IntervalBound(p: Params, store: Store, calls: seq<Call>, user: Bytes, a: int, b: int, m: nat)
    requires Ordered(calls)
    requires b - a <= m * 60000
    ensures Admitted(p, store, calls, user, a, b) <= (m + 1) * p.limit + Errors(calls, user, a, b)
  {
    if a <= b {
      ExactIntervalBound(p, store, calls, user, a, b);
      BestOfWindows(p, m, b - a);
    } else {
      NobodyInNoTime(p, store, calls, user, a, b);
      ProductMonotone(0, m + 1, p.limit);
    }
  }

  lemma {:induction false} NobodyInNoTime(p: Params, store: Store, calls: seq<Call>, user: Bytes, a: int, b: int)
    requires b < a
    ensures Admitted(p, store, calls, user, a, b) == 0
  {
    if calls != [] {
      NobodyInNoTime(p, store, Init(calls), user, a, b);
    }
  }

  // ------------------------------------------------- the bound is attained

  function Burst(user: Bytes, time: int, n: nat): seq<Call> {
    seq(n, _ => Call(user, time, Answered))
  }

  /** Bursts of `limit` calls at the start of each of m + 1 adjacent windows. */
  function Train(p: Params, user: Bytes, time: int, m: nat): seq<Call> {
    if m == 0 then Burst(user, time, p.limit)
    else Train(p, user, time, m - 1) + Burst(user, time + m * Life(p), p.limit)
  }

  /** Answered calls of one user within a stretch of time, in order. */
  predicate Regular(calls: seq<Call>, user: Bytes, from: int, to: int) {
    Ordered(calls) && forall c :: c in calls ==> c.user == user && c.outcome == Answered && from <= c.time <= to
  }

  lemma RegularConcat(x: seq<Call>, y: seq<Call>, user: Bytes, from: int, mid: int, to: int)
    requires Regular(x, user, from, mid) && Regular(y, user, mid, to) && from <= mid <= to
    ensures Regular(x + y, user, from, to)
  {
    forall i, j | 0 <= i < j < |x + y|
      ensures (x + y)[i].time <= (x + y)[j].time
    {
      assert (x + y)[i] in x || (x + y)[i] in y;
      assert i < |x| ==> (x + y)[i] in x;
      assert j >= |x| ==> (x + y)[j] in y;
    }
  }

  lemma RegularWiden(calls: seq<Call>, user: Bytes, from: int, to: int, earlier: int)
    requires Regular(calls, user, from, to) && earlier <= from
    ensures Regular(calls, user, earlier, to)
  {
  }

  lemma BurstIsRegular(user: Bytes, time: int, n: nat, earlier: int)
    requires earlier <= time
    ensures Regular(Burst(user, time, n), user, earlier, time)
  {
  }

  lemma {:induction false} TrainIsRegular(p: Params, user: Bytes, time: int, m: nat)
    ensures Regular(Train(p, user, time, m), user, time, time + m * Life(p))
  {
    if m == 0 {
      BurstIsRegular(user, time, p.limit, time);
    } else {
      hide Regular, Burst, Life;
      var life := Life(p);
      var mid, end := time + (m - 1) * life, time + m * life;
      assert m * life == (m - 1) * life + life;
      ProductMonotone(0, m - 1, life);
      TrainIsRegular(p, user, time, m - 1);
      BurstIsRegular(user, end, p.limit, mid);
      RegularConcat(Train(p, user, time, m - 1), Burst(user, end, p.limit), user, time, mid, end);
    }
  }

  /** What the current window of `user` has already counted. */
  function Spent(p: Params, store: Store, user: Bytes, time: int): nat {
    if HasWindow(p, store, user, time) then store[Key(user)].count else 0
  }

  /** The window of `user` after a call at `time`. */
  function WindowEnd(p: Params, store: Store, user: Bytes, time: int): int {
    if HasWindow(p, store, user, time) then store[Key(user)].expiry else time + WINDOW
  }

  /** One more answered call is counted, and admitted if the window has room. */
  lemma CallAdmitted(p: Params, calls: seq<Call>, user: Bytes, time: int, a: int, b: int)
    requires calls != [] && Last(calls) == Call(user, time, Answered) && a <= time <= b
    requires Spent(p, StoreAfter(p, map[], Init(calls)), user, time) < p.limit
    ensures var before, after := StoreAfter(p, map[], Init(calls)), StoreAfter(p, map[], calls);
            && Admitted(p, map[], calls, user, a, b) == Admitted(p, map[], Init(calls), user, a, b) + 1
            && after == before[Key(user) := Slot(Spent(p, before, user, time) + 1, WindowEnd(p, before, user, time))]
            && Spent(p, after, user, time) == Spent(p, before, user, time) + 1
            && WindowEnd(p, after, user, time) == WindowEnd(p, before, user, time)
  {
  }

  /** Every call of a burst is admitted as long as the window has room. */
  lemma {:induction false} BurstAdmitted(
    p: Params, front: seq<Call>, user: Bytes, time: int, n: nat, a: int, b: int)
    requires a <= time <= b
    requires Spent(p, StoreAfter(p, map[], front), user, time) + n <= p.limit
    ensures var calls, before := front + Burst(user, time, n), StoreAfter(p, map[], front);
            var after := StoreAfter(p, map[], calls);
            && Admitted(p, map[], calls, user, a, b) == Admitted(p, map[], front, user, a, b) + n
            && Spent(p, after, user, time) == Spent(p, before, user, time) + n
            && WindowEnd(p, after, user, time) == WindowEnd(p, before, user, time)
            && (n > 0 ==> Key(user) in after && after[Key(user)].expiry == WindowEnd(p, before, user, time))
  {
    var calls := front + Burst(user, time, n);
    if n == 0 {
      assert calls == front;
    } else {
      var shorter := front + Burst(user, time, n - 1);
      assert Init(calls) == shorter;
      assert Last(calls) == Call(user, time, Answered);
      hide Burst, StoreAfter, Admitted, Spent, WindowEnd;
      BurstAdmitted(p, front, user, time, n - 1, a, b);
      CallAdmitted(p, calls, user, time, a, b);
    }
  }

  lemma {:induction false} TrainAdmitted(
    p: Params, front: seq<Call>, user: Bytes, time: int, m: nat, a: int, b: int)
    requires p.limit > 0 && a <= time && time + m * Life(p) <= b
    requires !HasWindow(p, StoreAfter(p, map[], front), user, time)
    ensures var calls := front + Train(p, user, time, m);
            && Admitted(p, map[], calls, user, a, b) == Admitted(p, map[], front, user, a, b) + (m + 1) * p.limit
            && Key(user) in StoreAfter(p, map[], calls)
            && StoreAfter(p, map[], calls)[Key(user)].expiry == time + m * Life(p) + WINDOW
    decreases m
  {
    hide StoreAfter, Admitted, Burst;
    if m == 0 {
      BurstAdmitted(p, front, user, time, p.limit, a, b);
    } else {
      var before, next := front + Train(p, user, time, m - 1), time + m * Life(p);
      assert m * Life(p) == (m - 1) * Life(p) + Life(p);
      ProductMonotone(0, m - 1, Life(p));
      TrainAdmitted(p, front, user, time, m - 1, a, b);
      BurstAdmitted(p, before, user, next, p.limit, a, b);
      assert front + Train(p, user, time, m) == before + Burst(user, next, p.limit);
      assert (m + 1) * p.limit == m * p.limit + p.limit;
    }
  }

  /** Open a window, and use up the rest of it just before it ends. */
  function Prelude(p: Params, user: Bytes): seq<Call>
    requires p.limit > 0
  {
    [Call(user, 0, Answered)] + Burst(user, Life(p) - 1, p.limit - 1)
  }

  lemma PreludeIsRegular(p: Params, user: Bytes)
    requires p.limit > 0
    ensures Regular(Prelude(p, user), user, 0, Life(p) - 1)
  {
    var first := [Call(user, 0, Answered)];
    assert Regular(first, user, 0, Life(p) - 1);
    RegularConcat(first, Burst(user, Life(p) - 1, p.limit - 1), user, 0, Life(p) - 1, Life(p) - 1);
  }

  lemma OpenerIsOutside(p: Params, user: Bytes, b: int)
    requires p.limit > 0
    ensures var calls := [Call(user, 0, Answered)];
            && Admitted(p, map[], calls, user, Life(p) - 1, b) == 0
            && StoreAfter(p, map[], calls) == map[Key(user) := Slot(1, WINDOW)]
  {
    assert Init([Call(user, 0, Answered)]) == [];
  }

  lemma PreludeAdmitted(p: Params, user: Bytes, b: int)
    requires p.limit > 0 && Life(p) - 1 <= b
    ensures Admitted(p, map[], Prelude(p, user), user, Life(p) - 1, b) == p.limit - 1
    ensures !HasWindow(p, StoreAfter(p, map[], Prelude(p, user)), user, Life(p))
  {
    hide StoreAfter, Admitted, Burst;
    OpenerIsOutside(p, user, b);
    BurstAdmitted(p, [Call(user, 0, Answered)], user, Life(p) - 1, p.limit - 1, Life(p) - 1, b);
  }

  lemma FreshStart(p: Params, user: Bytes, a: int, b: int)
    ensures !HasWindow(p, StoreAfter(p, map[], []), user, a)
    ensures Admitted(p, map[], [], user, a, b) == 0
  {
  }

  /** `Best` is attained, for every limit, lag and length, by a trace in time order and without errors. */
  lemma ExactBoundIsAttained(p: Params, user: Bytes, length: nat) returns (calls: seq<Call>, a: int)
    ensures Ordered(calls) && ErrorFree(calls)
    ensures Errors(calls, user, a, a + length) == 0
    ensures Admitted(p, map[], calls, user, a, a + length) == Best(p, length)
  {
    hide StoreAfter, Admitted, Errors, Train, Prelude, HasWindow;
    var life, q := Life(p), length / Life(p);
    QuotientIsLargest(q, life, length);
    assert length % life == length - q * life;
    FreshStart(p, user, 0, length);
    if p.limit == 0 {
      calls, a := [], 0;
    } else if length % life == 0 {
      calls, a := Train(p, user, 0, q), 0;
      TrainIsRegular(p, user, 0, q);
      TrainAdmitted(p, [], user, 0, q, 0, length);
      assert [] + calls == calls;
    } else {
      var first, rest := Prelude(p, user), Train(p, user, life, q);
      calls, a := first + rest, life - 1;
      PreludeAdmitted(p, user, a + length);
      PreludeIsRegular(p, user);
      TrainIsRegular(p, user, life, q);
      RegularWiden(rest, user, life, life + q * life, life - 1);
      RegularConcat(first, rest, user, 0, life - 1, life + q * life);
      TrainAdmitted(p, first, user, life, q, a, a + length);
      assert (q + 2) * p.limit == (q + 1) * p.limit + p.limit;
    }
    NoErrors(calls, user, a, a + length);
  }

  lemma {:induction false} NoErrors(calls: seq<Call>, user: Bytes, a: int, b: int)
    requires ErrorFree(calls)
    ensures Errors(calls, user, a, b) == 0
  {
    if calls != [] {
      assert Last(calls) in calls;
      NoErrors(Init(calls), user, a, b);
    }
  }

  predicate ErrorFree(calls: seq<Call>) {
    forall c :: c in calls ==> c.outcome == Answered
  }

  // ----------------------------------------------------- exactness by window

  predicate SameSlot(s: Store, t: Store, key: Bytes) {
    (key in s <==> key in t) && (key in s ==> s[key] == t[key])
  }

  /** A call of `user` that the store counted, whether or not the answer came back. */
  predicate Counts(c: Call, user: Bytes) {
    c.user == user && c.outcome != NotExecuted
  }

  /** The last counted call of `user` in a trace. */
  function LastBy(calls: seq<Call>, user: Bytes): (r: Option<nat>)
    ensures r.None? ==> forall i :: 0 <= i < |calls| ==> !Counts(calls[i], user)
    ensures r.Some? ==> r.value < |calls| && Counts(calls[r.value], user)
    ensures r.Some? ==> forall i :: r.value < i < |calls| ==> !Counts(calls[i], user)
  {
    if calls == [] then None
    else if Counts(Last(calls), user) then Some(|calls| - 1)
    else LastBy(Init(calls), user)
  }

  /**
   * When the window of call k began: with its predecessor's, if that one is still open, or with the
   * one found in the store; otherwise the call opens a new one. Answers play no part in it.
   */
  function WindowStart(p: Params, store: Store, calls: seq<Call>, k: nat): int
    requires k < |calls|
    decreases k
  {
    var user, time := calls[k].user, calls[k].time;
    match LastBy(calls[..k], user)
    case None => if HasWindow(p, store, user, time) then store[Key(user)].expiry - WINDOW else time
    case Some(j) =>
      var start := WindowStart(p, store, calls, j);
      if time < start + Life(p) then start else time
  }

  /** How many of the first n calls were counted for `user` in the window that began at `start`. */
  function CallsInWindow(p: Params, store: Store, calls: seq<Call>, n: nat, user: Bytes, start: int): nat
    requires n <= |calls|
  {
    if n == 0 then 0
    else CallsInWindow(p, store, calls, n - 1, user, start)
         + if Counts(calls[n - 1], user) && WindowStart(p, store, calls, n - 1) == start then 1 else 0
  }

  /** What the store had already counted in that window. */
  function Inherited(store: Store, user: Bytes, start: int): nat {
    if Key(user) in store && store[Key(user)].expiry - WINDOW == start then store[Key(user)].count else 0
  }

  lemma {:induction false} NoneInWindow(p: Params, store: Store, calls: seq<Call>, n: nat, user: Bytes, start: int)
    requires n <= |calls|
    requires forall i :: 0 <= i < n && Counts(calls[i], user) ==> WindowStart(p, store, calls, i) != start
    ensures CallsInWindow(p, store, calls, n, user, start) == 0
  {
    if n > 0 {
      NoneInWindow(p, store, calls, n - 1, user, start);
    }
  }

  /** The slot is the window that began at `start`, which is the latest so far. */
  ghost predicate Tracks(p: Params, store: Store, calls: seq<Call>, n: nat, user: Bytes, slot: Slot, start: int)
    requires n <= |calls|
  {
    && slot.expiry == start + WINDOW
    && slot.count == Inherited(store, user, start) + CallsInWindow(p, store, calls, n, user, start)
    && (Key(user) in store ==> store[Key(user)].expiry - WINDOW <= start)
    && (forall i :: 0 <= i < n && Counts(calls[i], user) ==> WindowStart(p, store, calls, i) <= start)
  }

  /** After n calls the slot of `user` is the window of that user's last call, or as it was found. */
  ghost predicate Tracked(p: Params, store: Store, calls: seq<Call>, n: nat, user: Bytes)
    requires n <= |calls|
  {
    var now := StoreAfter(p, store, calls[..n]);
    match LastBy(calls[..n], user)
    case None => SameSlot(now, store, Key(user))
    case Some(j) =>
      && Key(user) in now
      && Tracks(p, store, calls, n, user, now[Key(user)], WindowStart(p, store, calls, j))
  }

  lemma LastByGrows(calls: seq<Call>, n: nat, user: Bytes)
    requires n < |calls|
    ensures LastBy(calls[..n + 1], user) == if Counts(calls[n], user) then Some(n) else LastBy(calls[..n], user)
  {
    assert Init(calls[..n + 1]) == calls[..n];
  }

  lemma FirstCallTracks(p: Params, store: Store, calls: seq<Call>, n: nat, user: Bytes, now: Store)
    requires n < |calls| && Counts(calls[n], user) && LastBy(calls[..n], user).None?
    requires SameSlot(now, store, Key(user))
    ensures Tracks(p, store, calls, n + 1, user, Bumped(p, now, user, calls[n].time), WindowStart(p, store, calls, n))
  {
    assert forall i :: 0 <= i < n ==> calls[..n][i] == calls[i];
    NoneInWindow(p, store, calls, n, user, WindowStart(p, store, calls, n));
  }

  lemma SameWindowTracks(p: Params, store: Store, calls: seq<Call>, n: nat, user: Bytes, slot: Slot, start: int)
    requires n < |calls| && Counts(calls[n], user) && WindowStart(p, store, calls, n) == start
    requires Tracks(p, store, calls, n, user, slot, start)
    ensures Tracks(p, store, calls, n + 1, user, Slot(slot.count + 1, slot.expiry), start)
  {
    hide WindowStart, Inherited;
  }

  lemma NewWindowTracks(p: Params, store: Store, calls: seq<Call>, n: nat, user: Bytes, slot: Slot, start: int)
    requires n < |calls| && Counts(calls[n], user) && WindowStart(p, store, calls, n) == calls[n].time > start
    requires Tracks(p, store, calls, n, user, slot, start)
    ensures Tracks(p, store, calls, n + 1, user, Slot(1, calls[n].time + WINDOW), calls[n].time)
  {
    hide WindowStart;
    NoneInWindow(p, store, calls, n, user, calls[n].time);
  }

  lemma LaterCallTracks(p: Params, store: Store, calls: seq<Call>, n: nat, user: Bytes, now: Store, j: nat)
    requires n < |calls| && Counts(calls[n], user) && LastBy(calls[..n], user) == Some(j)
    requires Key(user) in now && Tracks(p, store, calls, n, user, now[Key(user)], WindowStart(p, store, calls, j))
    ensures Tracks(p, store, calls, n + 1, user, Bumped(p, now, user, calls[n].time), WindowStart(p, store, calls, n))
  {
    var slot, time, start := now[Key(user)], calls[n].time, WindowStart(p, store, calls, j);
    assert WindowStart(p, store, calls, n) == if time < start + Life(p) then start else time;
    assert slot.expiry == start + WINDOW;
    hide WindowStart, LastBy, Tracks;
    if time < start + Life(p) {
      SameWindowTracks(p, store, calls, n, user, slot, start);
    } else {
      NewWindowTracks(p, store, calls, n, user, slot, start);
    }
  }

  /** A call that ran changes the slot of its own user only. */
  lemma StoreGrows(p: Params, store: Store, calls: seq<Call>, n: nat)
    requires n < |calls|
    ensures var now, c := StoreAfter(p, store, calls[..n]), calls[n];
            StoreAfter(p, store, calls[..n + 1])
            == if c.outcome == NotExecuted then now else now[Key(c.user) := Bumped(p, now, c.user, c.time)]
  {
    assert Init(calls[..n + 1]) == calls[..n];
  }

  lemma OwnCallTracked(p: Params, store: Store, calls: seq<Call>, n: nat, user: Bytes)
    requires n < |calls| && Counts(calls[n], user)
    requires Tracked(p, store, calls, n, user)
    ensures var now := StoreAfter(p, store, calls[..n]);
            Tracks(p, store, calls, n + 1, user, Bumped(p, now, user, calls[n].time), WindowStart(p, store, calls, n))
    ensures Tracked(p, store, calls, n + 1, user)
  {
    hide StoreAfter, WindowStart, Tracks, Bumped, LastBy;
    var now := StoreAfter(p, store, calls[..n]);
    LastByGrows(calls, n, user);
    StoreGrows(p, store, calls, n);
    match LastBy(calls[..n], user)
    case None => FirstCallTracks(p, store, calls, n, user, now);
    case Some(j) => LaterCallTracks(p, store, calls, n, user, now, j);
  }

  lemma OtherCallTracked(p: Params, store: Store, calls: seq<Call>, n: nat, user: Bytes)
    requires n < |calls| && !Counts(calls[n], user)
    requires Tracked(p, store, calls, n, user)
    ensures Tracked(p, store, calls, n + 1, user)
  {
    hide StoreAfter, WindowStart, Bumped, LastBy;
    LastByGrows(calls, n, user);
    StoreGrows(p, store, calls, n);
    KeyInjective(calls[n].user, user);
  }

  lemma {:induction false} Tracking(p: Params, store: Store, calls: seq<Call>, n: nat, user: Bytes)
    requires n <= |calls|
    ensures Tracked(p, store, calls, n, user)
  {
    if n > 0 {
      Tracking(p, store, calls, n - 1, user);
      hide Tracked;
      if Counts(calls[n - 1], user) {
        OwnCallTracked(p, store, calls, n - 1, user);
      } else {
        OtherCallTracked(p, store, calls, n - 1, user);
      }
    }
  }

  /**
   * From any store, with any errors, a call is refused exactly when it is answered and at least
   * `limit` calls of that user were already counted in its window: those before it in the trace,
   * and those the store had counted before the trace began. A call whose answer is lost is counted
   * all the same, one that never ran is not, and neither is refused.
   */
  lemma RefusedExactlyWhenWindowIsFull(p: Params, store: Store, calls: seq<Call>, k: nat)
    requires k < |calls|
    ensures var user, start := calls[k].user, WindowStart(p, store, calls, k);
            !Answer(p, store, calls, k)
            <==> calls[k].outcome == Answered
                 && Inherited(store, user, start) + CallsInWindow(p, store, calls, k, user, start) >= p.limit
  {
    hide Tracked, WindowStart, StoreAfter;
    Tracking(p, store, calls, k, calls[k].user);
    if calls[k].outcome == Answered {
      OwnCallTracked(p, store, calls, k, calls[k].user);
    }
  }

  /** A later call shares a window with an earlier counted one exactly when it comes before that window ends. */
  lemma {:induction false} WindowsAreIntervals(p: Params, store: Store, calls: seq<Call>, j: nat, k: nat)
    requires Ordered(calls) && j < k < |calls| && Counts(calls[j], calls[k].user)
    ensures WindowStart(p, store, calls, k) == WindowStart(p, store, calls, j)
       <==> calls[k].time < WindowStart(p, store, calls, j) + Life(p)
    decreases k
  {
    assert calls[..k][j] == calls[j];
    var i := LastBy(calls[..k], calls[k].user).value;
    assert i >= j && calls[..k][i] == calls[i];
    if i > j {
      WindowsAreIntervals(p, store, calls, j, i);
      assert calls[i].time <= calls[k].time;
    }
  }

  // ------------------------------------------------------- non-interference

  function Only(calls: seq<Call>, user: Bytes): seq<Call> {
    if calls == [] then []
    else Only(Init(calls), user) + if Last(calls).user == user then [Last(calls)] else []
  }

  /** The answers given to `user`, in order. */
  function AnswersTo(p: Params, store: Store, calls: seq<Call>, user: Bytes): seq<bool> {
    if calls == [] then []
    else AnswersTo(p, store, Init(calls), user)
         + if Last(calls).user == user then [Allows(p, StoreAfter(p, store, Init(calls)), Last(calls))] else []
  }

  /** A user's answers do not depend on other users' calls, with or without errors. */
  lemma {:induction false} OtherUsersDoNotInterfere(p: Params, store: Store, calls: seq<Call>, user: Bytes)
    ensures AnswersTo(p, store, Only(calls, user), user) == AnswersTo(p, store, calls, user)
    ensures SameSlot(StoreAfter(p, store, Only(calls, user)), StoreAfter(p, store, calls), Key(user))
  {
    if calls != [] {
      var front, c := Init(calls), Last(calls);
      OtherUsersDoNotInterfere(p, store, front, user);
      if c.user == user {
        var mine := Only(front, user);
        assert Init(mine + [c]) == mine && Last(mine + [c]) == c;
      } else {
        KeyInjective(c.user, user);
        assert Only(calls, user) == Only(front, user);
      }
    }
  }

  // --------------------------------------------------------------- the class

  class RateLimiter {
    const limitPerMin: nat
    const lag: nat
    var redis: Store

    ghost function P(): Params {
      Params(limitPerMin, lag)
    }

    constructor (limitPerMin: nat, lag: nat, redis: Store)
      ensures P() == Params(limitPerMin, lag) && this.redis == redis
    {
      this.limitPerMin, this.lag, this.redis := limitPerMin, lag, redis;
    }

    /** The script: INCR, then EXPIRE when the counter has just been created. */
    method Eval(key: Bytes, now: int) returns (count: Hits)
      modifies this
      ensures key in redis && redis == old(redis)[key := redis[key]] && redis[key].count == count
      ensures var was := old(redis);
              redis[key] == if key in was && now < was[key].expiry + lag
                            then Slot(was[key].count + 1, was[key].expiry) else Slot(1, now + 60000)
    {
      count := 1;
      var expiry := now;
      if key in redis && now < redis[key].expiry + lag {
        count := redis[key].count + 1;
        expiry := redis[key].expiry;
      }
      if count == 1 {
        expiry := now + WINDOW;
      }
      redis := redis[key := Slot(count, expiry)];
    }

    method Allow(user: Bytes, now: int, outcome: Outcome) returns (ok: bool)
      modifies this
      ensures ok == Allows(P(), old(redis), Call(user, now, outcome))
      ensures redis == Serve(P(), old(redis), Call(user, now, outcome))
      ensures outcome != Answered ==> ok
      ensures outcome == Answered ==>
                var key := [114, 108, 58] + user; key in redis && (ok <==> redis[key].count <= limitPerMin)
      ensures outcome == NotExecuted ==> redis == old(redis)
      ensures forall key :: key != [114, 108, 58] + user && key in old(redis) ==>
                key in redis && redis[key] == old(redis)[key]
    {
      if outcome == NotExecuted {
        return true;
      }
      var count := Eval(Key(user), now);
      ok := outcome == ReplyLost || count <= limitPerMin;
    }
  }
}
