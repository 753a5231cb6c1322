/**
 * The bounded queue between sessions and workers. Every step is one section
 * under the queue's mutex, or one wake-up decision of the condition variable.
 */
module BoundedQueue {
  import opened Basics

  /** Where a consumer thread is with respect to `try_pop_for`. */
  datatype Consumer =
    | Outside   // not inside the call
    | Blocked   // asleep on the condition variable, not yet notified
    | Notified  // chosen by notify_one, mutex not yet reacquired
    | Woken     // spurious wake-up, mutex not yet reacquired
    | Expired   // woken by its deadline, mutex not yet reacquired

  /** The queue, its consumers, and the history of accepted and popped values. */
  datatype State = State(
    items: seq<Bytes>,
    consumers: seq<Consumer>,
    accepted: seq<Bytes>,
    popped: seq<Bytes>)

  datatype Label =
    | Push(value: Bytes, wake: Option<nat>)  // try_push; whom notify_one picks
    | TryPop                                 // try_pop, by any thread
    | Enter(i: nat)                          // try_pop_for takes the mutex and tests the queue
    | Expire(i: nat)                         // the deadline passes
    | Spurious(i: nat)                       // the wait returns for no reason
    | Resume(i: nat, late: bool)             // mutex reacquired; late: the wait reports a timeout

  function Init(n: nat): State {
    State([], seq(n, _ => Outside), [], [])
  }

  predicate AnyBlocked(cs: seq<Consumer>) {
    exists i :: 0 <= i < |cs| && cs[i] == Blocked
  }

  predicate Enabled(s: State, l: Label) {
    match l
    case Push(_, Some(j)) => j < |s.consumers| && s.consumers[j] == Blocked
    case Push(_, None) => !AnyBlocked(s.consumers)
    case TryPop => true
    case Enter(i) => i < |s.consumers| && s.consumers[i] == Outside
    case Expire(i) => i < |s.consumers| && s.consumers[i] == Blocked
    case Spurious(i) => i < |s.consumers| && s.consumers[i] == Blocked
    case Resume(i, late) =>
      && i < |s.consumers|
      && (s.consumers[i] == Notified || s.consumers[i] == Woken || s.consumers[i] == Expired)
      && (s.consumers[i] == Expired ==> late)
  }

  function PopFront(s: State): State
    requires s.items != []
  {
    s.(items := s.items[1..], popped := s.popped + [s.items[0]])
  }

  /** The queue part of a wait that holds the mutex: take the front, give up, or sleep. */
  function Attempt(s: State, i: nat, late: bool): State
    requires i < |s.consumers|
  {
    if s.items != [] then PopFront(s.(consumers := s.consumers[i := Outside]))
    else s.(consumers := s.consumers[i := if late then Outside else Blocked])
  }

  function Step(capacity: nat, s: State, l: Label): State
    requires Enabled(s, l)
  {
    match l
    case Push(value, wake) =>
      if |s.items| >= capacity then s
      else
        s.(items := s.items + [value],
           accepted := s.accepted + [value],
           consumers := if wake.Some? then s.consumers[wake.value := Notified] else s.consumers)
    case TryPop => if s.items == [] then s else PopFront(s)
    case Enter(i) => Attempt(s, i, false)
    case Expire(i) => s.(consumers := s.consumers[i := Expired])
    case Spurious(i) => s.(consumers := s.consumers[i := Woken])
    case Resume(i, late) => Attempt(s, i, late)
  }

  function NotifiedCount(cs: seq<Consumer>): nat {
    if cs == [] then 0 else (if cs[0] == Notified then 1 else 0) + NotifiedCount(cs[1..])
  }

  lemma {:induction false} NotifiedAfterUpdate(cs: seq<Consumer>, i: nat, c: Consumer)
    requires i < |cs|
    ensures NotifiedCount(cs[i := c]) + (if cs[i] == Notified then 1 else 0)
         == NotifiedCount(cs) + (if c == Notified then 1 else 0)
  {
    if i == 0 {
      assert cs[i := c][1..] == cs[1..];
    } else {
      assert cs[i := c][1..] == cs[1..][i - 1 := c];
      NotifiedAfterUpdate(cs[1..], i - 1, c);
    }
  }

  /** Popped values then contents are the accepted pushes, in order and within capacity. */
  predicate Fifo(capacity: nat, s: State) {
    s.accepted == s.popped + s.items && |s.items| <= capacity
  }

  /** While a consumer sleeps unnotified, enough notified ones are on their way for every item. */
  predicate NoLostWakeup(s: State) {
    AnyBlocked(s.consumers) ==> NotifiedCount(s.consumers) >= |s.items|
  }

  lemma StepKeepsFifo(capacity: nat, s: State, l: Label)
    requires Enabled(s, l) && Fifo(capacity, s)
    ensures Fifo(capacity, Step(capacity, s, l))
  {
    if s.items != [] {
      assert s.popped + [s.items[0]] + s.items[1..] == s.popped + s.items;
    }
    if l.Push? {
      assert s.popped + (s.items + [l.value]) == s.popped + s.items + [l.value];
    }
  }

  lemma StepKeepsWakeups(capacity: nat, s: State, l: Label)
    requires Enabled(s, l) && NoLostWakeup(s)
    ensures NoLostWakeup(Step(capacity, s, l))
  {
    var s' := Step(capacity, s, l);
    match l
    case Push(_, Some(j)) =>
      NotifiedAfterUpdate(s.consumers, j, Notified);
    case Push(_, None) =>
    case TryPop =>
    case Enter(i) =>
      NotifiedAfterUpdate(s.consumers, i, s'.consumers[i]);
      StillBlockedBefore(s.consumers, i, s'.consumers[i]);
    case Expire(i) =>
      NotifiedAfterUpdate(s.consumers, i, Expired);
    case Spurious(i) =>
      NotifiedAfterUpdate(s.consumers, i, Woken);
    case Resume(i, late) =>
      NotifiedAfterUpdate(s.consumers, i, s'.consumers[i]);
      StillBlockedBefore(s.consumers, i, s'.consumers[i]);
  }

  lemma StillBlockedBefore(cs: seq<Consumer>, i: nat, c: Consumer)
    requires i < |cs|
    ensures c != Blocked && AnyBlocked(cs[i := c]) ==> AnyBlocked(cs)
  {
    if c != Blocked && AnyBlocked(cs[i := c]) {
      var k :| 0 <= k < |cs| && cs[i := c][k] == Blocked;
      assert cs[k] == Blocked;
    }
  }

  predicate Legal(capacity: nat, s: State, trace: seq<Label>)
    decreases |trace|
  {
    trace == [] || (Enabled(s, trace[0]) && Legal(capacity, Step(capacity, s, trace[0]), trace[1..]))
  }

  function After(capacity: nat, s: State, trace: seq<Label>): State
    requires Legal(capacity, s, trace)
    decreases |trace|
  {
    if trace == [] then s else After(capacity, Step(capacity, s, trace[0]), trace[1..])
  }

  lemma {:induction false} RunKeepsInvariants(capacity: nat, s: State, trace: seq<Label>)
    requires Legal(capacity, s, trace) && Fifo(capacity, s) && NoLostWakeup(s)
    ensures var e := After(capacity, s, trace);
            && Fifo(capacity, e) && NoLostWakeup(e)
            && s.accepted <= e.accepted && s.popped <= e.popped
    decreases |trace|
  {
    if trace != [] {
      StepKeepsFifo(capacity, s, trace[0]);
      StepKeepsWakeups(capacity, s, trace[0]);
      RunKeepsInvariants(capacity, Step(capacity, s, trace[0]), trace[1..]);
    }
  }

  /**
   * In every interleaving of pushes, barging pops, timed waits, timeouts and
   * spurious wake-ups: contents are a bounded FIFO, and no wake-up is lost.
   */
  lemma EveryRunIsFifoWithoutLostWakeups(capacity: nat, n: nat, trace: seq<Label>)
    requires Legal(capacity, Init(n), trace)
    ensures var s := After(capacity, Init(n), trace);
            && s.accepted == s.popped + s.items
            && |s.items| <= capacity
            && (AnyBlocked(s.consumers) ==> NotifiedCount(s.consumers) >= |s.items|)
  {
    RunKeepsInvariants(capacity, Init(n), trace);
  }

  /** With an item waiting and a consumer asleep, some notified consumer must still run. */
  lemma {:induction false} SomeoneIsOnTheWay(capacity: nat, n: nat, trace: seq<Label>)
    requires Legal(capacity, Init(n), trace)
    requires var s := After(capacity, Init(n), trace); s.items != [] && AnyBlocked(s.consumers)
    ensures Notified in After(capacity, Init(n), trace).consumers
  {
    RunKeepsInvariants(capacity, Init(n), trace);
    PositiveCountHasWitness(After(capacity, Init(n), trace).consumers);
  }

  lemma {:induction false} PositiveCountHasWitness(cs: seq<Consumer>)
    ensures NotifiedCount(cs) > 0 ==> Notified in cs
  {
    if cs != [] && cs[0] != Notified {
      PositiveCountHasWitness(cs[1..]);
    }
  }

  /** In every run a push is refused exactly at capacity; otherwise its value goes last. */
  lemma PushRefusedExactlyAtCapacity(capacity: nat, n: nat, trace: seq<Label>, l: Label)
    requires Legal(capacity, Init(n), trace)
    requires l.Push? && Enabled(After(capacity, Init(n), trace), l)
    ensures var s := After(capacity, Init(n), trace); var s' := Step(capacity, s, l);
            && (s'.accepted == s.accepted <==> |s.items| == capacity)
            && (s'.accepted == s.accepted ==> s' == s)
            && (s'.accepted != s.accepted ==> s'.items == s.items + [l.value] && s'.popped == s.popped)
  {
    RunKeepsInvariants(capacity, Init(n), trace);
    var s := After(capacity, Init(n), trace);
    assert |s.accepted + [l.value]| != |s.accepted|;
  }

  /** A timed wait that nobody disturbs. */
  lemma WaitIsRun(capacity: nat, s: State, i: nat)
    requires i < |s.consumers| && s.consumers[i] == Outside
    ensures s.items != [] ==> Legal(capacity, s, [Enter(i)])
                              && After(capacity, s, [Enter(i)]) == Step(capacity, s, Enter(i))
    ensures Step(capacity, s, Enter(i)).consumers[i := Outside] == s.consumers
    ensures s.items == [] ==> Legal(capacity, s, [Enter(i), Expire(i), Resume(i, true)])
                              && After(capacity, s, [Enter(i), Expire(i), Resume(i, true)]) == s
  {
    var s1 := Step(capacity, s, Enter(i));
    assert [Enter(i)][1..] == [];
    if s.items == [] {
      var s2 := Step(capacity, s1, Expire(i));
      assert Step(capacity, s2, Resume(i, true)).consumers == s.consumers;
      assert [Resume(i, true)][1..] == [];
      assert After(capacity, s2, [Resume(i, true)]) == s;
      assert [Expire(i), Resume(i, true)][1..] == [Resume(i, true)];
      assert Legal(capacity, s1, [Expire(i), Resume(i, true)])
          && After(capacity, s1, [Expire(i), Resume(i, true)]) == s;
      assert [Enter(i), Expire(i), Resume(i, true)][1..] == [Expire(i), Resume(i, true)];
    }
  }

  /** A burst of pushes that nobody pops. */
  function Pushes(value: Bytes, n: nat): seq<Label> {
    seq(n, _ => Push(value, None))
  }

  lemma {:induction false} PushesFill(capacity: nat, s: State, value: Bytes, n: nat)
    requires !AnyBlocked(s.consumers) && |s.items| + n <= capacity
    ensures Legal(capacity, s, Pushes(value, n))
    ensures var e := After(capacity, s, Pushes(value, n)); |e.items| == |s.items| + n && e.consumers == s.consumers
    decreases n
  {
    if n > 0 {
      assert Pushes(value, n)[1..] == Pushes(value, n - 1);
      PushesFill(capacity, Step(capacity, s, Push(value, None)), value, n - 1);
    }
  }

  /** A queue does fill up, and then a push is refused at once instead of waiting for room. */
  lemma FullQueueRefuses(capacity: nat, n: nat, value: Bytes)
    ensures Legal(capacity, Init(n), Pushes(value, capacity))
    ensures var s := After(capacity, Init(n), Pushes(value, capacity));
            |s.items| == capacity && Enabled(s, Push(value, None)) && Step(capacity, s, Push(value, None)) == s
  {
    PushesFill(capacity, Init(n), value, capacity);
    hide Legal, After;
  }

  // --------------------------------------------------------------- the class

  class ThreadSafeQueue {
    var items: seq<Bytes>
    const capacity: nat
    var consumers: seq<Consumer>
    ghost var accepted: seq<Bytes>
    ghost var popped: seq<Bytes>

    ghost function View(): State
      reads this
    {
      State(items, consumers, accepted, popped)
    }

    ghost predicate Valid()
      reads this
    {
      Fifo(capacity, View()) && NoLostWakeup(View())
    }

    constructor (capacity: nat, n: nat)
      ensures Valid() && View() == Init(n) && this.capacity == capacity
    {
      this.capacity := capacity;
      items, accepted, popped := [], [], [];
      consumers := seq(n, _ => Outside);
    }

    method TryPush(value: Bytes) returns (ok: bool, ghost l: Label)
      requires Valid()
      modifies this
      ensures l.Push? && l.value == value && Enabled(old(View()), l)
      ensures Valid() && View() == Step(capacity, old(View()), l)
      ensures ok <==> old(|items|) < capacity
    {
      var wake: Option<nat> := None;
      if AnyBlocked(consumers) {
        var j :| 0 <= j < |consumers| && consumers[j] == Blocked;
        wake := Some(j);
      }
      l := Push(value, wake);
      StepKeepsFifo(capacity, View(), l);
      StepKeepsWakeups(capacity, View(), l);
      if |items| >= capacity {
        return false, l;
      }
      items := items + [value];
      accepted := accepted + [value];
      if wake.Some? {
        consumers := consumers[wake.value := Notified];
      }
      ok := true;
    }

    method TryPop() returns (data: Option<Bytes>)
      requires Valid()
      modifies this
      ensures Valid() && View() == Step(capacity, old(View()), Label.TryPop)
      ensures data == if old(items) == [] then None else Some(old(items)[0])
    {
      StepKeepsFifo(capacity, View(), Label.TryPop);
      StepKeepsWakeups(capacity, View(), Label.TryPop);
      if |items| == 0 {
        return None;
      }
      data := Some(items[0]);
      popped := popped + [items[0]];
      items := items[1..];
    }

    /** One pass of the wait loop of `try_pop_for` with the mutex held. */
    method PopForPass(i: nat, late: bool, ghost l: Label) returns (data: Option<Bytes>)
      requires Valid() && ((l == Enter(i) && !late) || l == Resume(i, late)) && Enabled(View(), l)
      modifies this
      ensures Valid() && View() == Step(capacity, old(View()), l)
      ensures data == if old(items) == [] then None else Some(old(items)[0])
    {
      StepKeepsFifo(capacity, View(), l);
      StepKeepsWakeups(capacity, View(), l);
      if |items| > 0 {
        data := Some(items[0]);
        popped := popped + [items[0]];
        items := items[1..];
        consumers := consumers[i := Outside];
      } else {
        data := None;
        consumers := consumers[i := if late then Outside else Blocked];
      }
    }

    /** `try_pop_for` undisturbed: the oldest value, or sleep until the deadline and give up. */
    method TryPopFor(i: nat) returns (data: Option<Bytes>)
      requires Valid() && i < |consumers| && consumers[i] == Outside
      modifies this
      ensures Valid() && consumers == old(consumers)
      ensures var trace := if old(items) == [] then [Enter(i), Expire(i), Resume(i, true)] else [Enter(i)];
              Legal(capacity, old(View()), trace) && View() == After(capacity, old(View()), trace)
      ensures data == if old(items) == [] then None else Some(old(items)[0])
    {
      WaitIsRun(capacity, View(), i);
      data := PopForPass(i, false, Enter(i));
      if data.None? {
        StepKeepsFifo(capacity, View(), Expire(i));
        StepKeepsWakeups(capacity, View(), Expire(i));
        consumers := consumers[i := Expired];
        data := PopForPass(i, true, Resume(i, true));
      }
    }
  }
}
