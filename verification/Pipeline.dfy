/**
 * The whole pipeline as a labelled transition system. Sessions offer frames to the
 * queue; any number of workers, the flush thread and the stopping thread interleave
 * freely. Each step is one atomic action of the source: one locked section, one
 * counter increment, one call to an outside service.
 */
module Pipeline {
  import opened Basics
  import opened Events
  import Framing
  import Limiter
  import DeadLetter

  const BATCH_SIZE: nat := 1000

  /** The dead-letter file is rotated before an append once it is larger than this. */
  const ROTATE_ABOVE: nat := 100 * 1024 * 1024

  datatype Config = Config(
    workers: nat, capacity: nat, parse: Parser,
    limiter: Option<Limiter.Params>, kafka: bool, storage: bool)

  /** The process counters; 64-bit in the source and taken not to wrap. */
  datatype Metrics = Metrics(
    received: nat, parsed: nat, valid: nat, invalid: nat, parseFail: nat, rateLimited: nat,
    kafkaOk: nat, kafkaFail: nat, stored: nat, storeFail: nat, storeDead: nat, queueDrop: nat)

  const ZERO := Metrics(0, 0, 0, 0, 0, 0, 0, 0, 0, 0, 0, 0)

  // ---------------------------------------------------------- shared state

  /** Sessions and queue, with the history of what was read, accepted and popped. */
  datatype Intake = Intake(
    open: bool,                    // IO threads still running
    arriving: multiset<Bytes>,     // read completely, not offered yet
    uncounted: nat,                // refused offers whose drop counter is still to come
    read: multiset<Bytes>,
    dropped: multiset<Bytes>,
    accepted: seq<Bytes>,
    queue: seq<Bytes>,
    popped: seq<Bytes>)

  /** A limiter call made for a frame, with its place among all calls. */
  datatype Ask = Ask(index: nat, call: Limiter.Call)

  /**
   * How the processor disposed of a popped frame; `now` is the clock the field check saw,
   * `refusal` or `passage` the limiter call that decided, if there was one.
   */
  datatype Verdict =
    | Unparseable
    | Invalid(now: int)
    | Limited(now: int, refusal: Ask)
    | Forwarded(now: int, passage: Option<Ask>)

  /** A disposed frame, with the kind of thread that disposed of it. */
  datatype Entry = Entry(data: Bytes, verdict: Verdict, role: Role)

  /** A batch taken out of the buffer; `full`: by a save that filled it. */
  datatype Swap = Swap(records: seq<Bytes>, full: bool)

  /** The batching store, with the history of saves, swaps and final fates. */
  datatype Disk = Disk(
    buffer: seq<Bytes>,
    saves: seq<Bytes>,
    swaps: seq<Swap>,
    stored: multiset<Bytes>,
    dead: multiset<Bytes>,
    lost: multiset<Bytes>,
    file: Bytes,                   // current dead-letter file
    base: Bytes,                   // what it held before this process wrote to it
    written: seq<Bytes>,           // records written to it since
    renamesOk: bool)               // no rotation has failed so far

  /** The limiter's store, as it was found and as it is now, with all calls in between. */
  datatype Gate = Gate(first: Limiter.Store, store: Limiter.Store, calls: seq<Limiter.Call>)

  datatype Shared = Shared(intake: Intake, log: seq<Entry>, m: Metrics, gate: Gate, disk: Disk)

  // ---------------------------------------------------------------- threads

  datatype Role = Worker | Flusher | Stopper

  /** Program points of a thread, with the data it holds there. */
  datatype Thread =
    | Idle                                     // loop head
    | Ready                                    // loop entered: popping, or asleep before a flush
    | Popped(d: Bytes)
    | Received(d: Bytes)
    | Parsed(d: Bytes)
    | Judged(d: Bytes, now: int, ok: bool)
    | Passed(d: Bytes, now: int)               // counted valid
    | Refused(d: Bytes, now: int, ask: Ask)    // limiter said no
    | Admitted(d: Bytes)                       // about to produce
    | ProduceFailed(d: Bytes)
    | Saving(d: Bytes)
    | Flushing(batch: seq<Bytes>, tries: nat)
    | Inserted(batch: seq<Bytes>)              // stored, counter still to come
    | DeadWritten(batch: seq<Bytes>)           // in the file, counter still to come
    | Done

  datatype Work =
    | Pop | PopNothing | CountReceived | Classify
    | Judge(now: int) | CountJudged
    | Limit(time: int, outcome: Limiter.Outcome) | SkipLimit | CountLimited
    | Produce(accepted: bool) | CountKafkaFail
    | Save | Tick
    | Insert(ok: bool) | WriteDead(renameOk: bool, openOk: bool)
    | CountStored | CountDead

  predicate Limits(c: Config, role: Role) {
    role == Worker && c.limiter.Some?
  }

  /** May a thread of this role, at this point, take this step? */
  predicate CanAct(c: Config, role: Role, sh: Shared, t: Thread, w: Work) {
    match w
    case Pop => sh.intake.queue != [] && ((role == Worker && t == Ready) || (role == Stopper && t == Idle))
    case PopNothing => sh.intake.queue == [] && role == Worker && t == Ready
    case CountReceived => t.Popped?
    case Classify => t.Received?
    case Judge(_) => t.Parsed? && c.parse(t.d).Some?
    case CountJudged => t.Judged?
    case Limit(time, _) =>
      t.Passed? && Limits(c, role) && c.parse(t.d).Some?
      && (sh.gate.calls != [] ==> Limiter.Last(sh.gate.calls).time <= time)
    case SkipLimit => t.Passed? && !Limits(c, role)
    case CountLimited => t.Refused?
    case Produce(_) => t.Admitted?
    case CountKafkaFail => t.ProduceFailed?
    case Save => t.Saving?
    case Tick => t == Ready && role == Flusher
    case Insert(_) => t.Flushing? && t.tries < 3
    case WriteDead(_, _) => t.Flushing? && t.tries >= 3
    case CountStored => t.Inserted?
    case CountDead => t.DeadWritten?
  }

  /** After the broker call: hand the record to the store, if there is one. */
  function Produced(c: Config, d: Bytes): Thread {
    if c.storage then Saving(d) else Idle
  }

  function SwapOut(disk: Disk, full: bool): Disk {
    disk.(buffer := [], swaps := disk.swaps + [Swap(disk.buffer, full)])
  }

  /** The locked section of a save: append, and swap the buffer out once it is full. */
  function SaveStep(disk: Disk, d: Bytes): Disk {
    var more := disk.(buffer := disk.buffer + [d], saves := disk.saves + [d]);
    if |more.buffer| < BATCH_SIZE then more else SwapOut(more, true)
  }

  /** The locked section of a flush of whatever is buffered. */
  function FlushStep(disk: Disk): Disk {
    if disk.buffer == [] then disk else SwapOut(disk, false)
  }

  function FlushPoint(disk: Disk): Thread {
    if disk.buffer == [] then Idle else Flushing(disk.buffer, 0)
  }

  /** Rotation check, then append; a file that cannot be opened loses the batch. */
  function AppendDead(disk: Disk, batch: seq<Bytes>, renameOk: bool, openOk: bool): Disk {
    var rotate := |disk.file| > ROTATE_ABOVE;
    var disk1 := if rotate && renameOk then disk.(file := [], base := [], written := []) else disk;
    var disk2 := disk1.(renamesOk := disk.renamesOk && (rotate ==> renameOk));
    if openOk then
      disk2.(file := disk1.file + DeadLetter.Text(batch), written := disk1.written + batch,
             dead := disk.dead + multiset(batch))
    else disk2.(lost := disk.lost + multiset(batch))
  }

  /** The limiter call a worker makes for the event it holds. */
  function LimitCall(c: Config, t: Thread, time: int, outcome: Limiter.Outcome): Limiter.Call
    requires t.Passed? && c.parse(t.d).Some?
  {
    Limiter.Call(c.parse(t.d).value.userId, time, outcome)
  }

  predicate LimitPasses(c: Config, sh: Shared, t: Thread, time: int, outcome: Limiter.Outcome)
    requires t.Passed? && c.parse(t.d).Some? && c.limiter.Some?
  {
    Limiter.Allows(c.limiter.value, sh.gate.store, LimitCall(c, t, time, outcome))
  }

  function NextAsk(c: Config, sh: Shared, t: Thread, time: int, outcome: Limiter.Outcome): Ask
    requires t.Passed? && c.parse(t.d).Some?
  {
    Ask(|sh.gate.calls|, LimitCall(c, t, time, outcome))
  }

  // The effect of a step, component by component.

  function NextPoint(c: Config, role: Role, sh: Shared, t: Thread, w: Work): Thread
    requires CanAct(c, role, sh, t, w)
  {
    match w
    case Pop => Popped(sh.intake.queue[0])
    case PopNothing => Idle
    case CountReceived => Received(t.d)
    case Classify => if c.parse(t.d).None? then Idle else Parsed(t.d)
    case Judge(now) => Judged(t.d, now, Validate(c.parse(t.d).value, now))
    case CountJudged => if t.ok then Passed(t.d, t.now) else Idle
    case Limit(time, outcome) =>
      if LimitPasses(c, sh, t, time, outcome) then Admitted(t.d)
      else Refused(t.d, t.now, NextAsk(c, sh, t, time, outcome))
    case SkipLimit => Admitted(t.d)
    case CountLimited => Idle
    case Produce(accepted) => if c.kafka && !accepted then ProduceFailed(t.d) else Produced(c, t.d)
    case CountKafkaFail => Produced(c, t.d)
    case Save =>
      if |sh.disk.buffer| + 1 < BATCH_SIZE then Idle else Flushing(sh.disk.buffer + [t.d], 0)
    case Tick => FlushPoint(sh.disk)
    case Insert(ok) => if ok then Inserted(t.batch) else Flushing(t.batch, t.tries + 1)
    case WriteDead(_, openOk) => if openOk then DeadWritten(t.batch) else Idle
    case CountStored => Idle
    case CountDead => Idle
  }

  function NextIntake(q: Intake, w: Work): Intake {
    if w == Pop && q.queue != [] then q.(queue := q.queue[1..], popped := q.popped + [q.queue[0]]) else q
  }

  /** The entries a step adds to the log. */
  function News(c: Config, role: Role, sh: Shared, t: Thread, w: Work): seq<Entry>
    requires CanAct(c, role, sh, t, w)
  {
    match w
    case Classify => if c.parse(t.d).None? then [Entry(t.d, Unparseable, role)] else []
    case CountJudged => if t.ok then [] else [Entry(t.d, Invalid(t.now), role)]
    case Limit(time, outcome) =>
      if LimitPasses(c, sh, t, time, outcome)
      then [Entry(t.d, Forwarded(t.now, Some(NextAsk(c, sh, t, time, outcome))), role)] else []
    case SkipLimit => [Entry(t.d, Forwarded(t.now, None), role)]
    case CountLimited => [Entry(t.d, Limited(t.now, t.ask), role)]
    case _ => []
  }

  function NextMetrics(c: Config, role: Role, sh: Shared, t: Thread, w: Work): Metrics
    requires CanAct(c, role, sh, t, w)
  {
    var m := sh.m;
    match w
    case CountReceived => m.(received := m.received + 1)
    case Classify =>
      if c.parse(t.d).None? then m.(parseFail := m.parseFail + 1) else m.(parsed := m.parsed + 1)
    case CountJudged => if t.ok then m.(valid := m.valid + 1) else m.(invalid := m.invalid + 1)
    case CountLimited => m.(rateLimited := m.rateLimited + 1)
    case CountKafkaFail => m.(kafkaFail := m.kafkaFail + 1)
    case CountStored => m.(stored := m.stored + |t.batch|)
    case CountDead => m.(storeDead := m.storeDead + |t.batch|)
    case _ => m
  }

  function NextGate(c: Config, role: Role, sh: Shared, t: Thread, w: Work): Gate
    requires CanAct(c, role, sh, t, w)
  {
    if w.Limit? then
      var call := LimitCall(c, t, w.time, w.outcome);
      sh.gate.(store := Limiter.Serve(c.limiter.value, sh.gate.store, call), calls := sh.gate.calls + [call])
    else sh.gate
  }

  function NextDisk(c: Config, role: Role, sh: Shared, t: Thread, w: Work): Disk
    requires CanAct(c, role, sh, t, w)
  {
    match w
    case Save => SaveStep(sh.disk, t.d)
    case Tick => FlushStep(sh.disk)
    case Insert(ok) => if ok then sh.disk.(stored := sh.disk.stored + multiset(t.batch)) else sh.disk
    case WriteDead(renameOk, openOk) => AppendDead(sh.disk, t.batch, renameOk, openOk)
    case _ => sh.disk
  }

  /** The shared state after a step. */
  function Act(c: Config, role: Role, sh: Shared, t: Thread, w: Work): Shared
    requires CanAct(c, role, sh, t, w)
  {
    Shared(
      NextIntake(sh.intake, w),
      sh.log + News(c, role, sh, t, w),
      NextMetrics(c, role, sh, t, w),
      NextGate(c, role, sh, t, w),
      NextDisk(c, role, sh, t, w))
  }

  // ------------------------------------------------------------ the system

  /** Progress of shutdown: `stop` from Joining to Stopped, then the store's destructor. */
  datatype Stage = Serving | Joining | Draining | Drained | Stopped | Destroying | Destroyed

  function Rank(g: Stage): nat {
    match g
    case Serving => 0
    case Joining => 1
    case Draining => 2
    case Drained => 3
    case Stopped => 4
    case Destroying => 5
    case Destroyed => 6
  }

  datatype State = State(sh: Shared, threads: seq<Thread>, stage: Stage)

  datatype Label =
    | Arrive(d: Bytes)             // a session completes a frame
    | Offer(d: Bytes)              // try_push, accepted or refused
    | CountDrop
    | JoinIo                       // main joins the IO threads
    | Loop(i: nat)                 // a worker or the flush thread tests its running flag
    | Do(i: nat, w: Work)
    | StopCall | JoinWorkers | DrainEnd | StopFlush | Destroy | DestroyFlush

  function RoleOf(c: Config, i: nat): Role {
    if i < c.workers then Worker else if i == c.workers then Flusher else Stopper
  }

  function StopperIndex(c: Config): nat {
    c.workers + 1
  }

  predicate WorkersDone(c: Config, s: State) {
    forall i :: 0 <= i < c.workers && i < |s.threads| ==> s.threads[i] == Done
  }

  predicate StopperIdle(c: Config, s: State) {
    StopperIndex(c) < |s.threads| && s.threads[StopperIndex(c)] == Idle
  }

  predicate Enabled(c: Config, s: State, l: Label) {
    var q := s.sh.intake;
    match l
    case Arrive(d) => q.open && Framing.LegalFrame(d)
    case Offer(d) => d in q.arriving
    case CountDrop => q.uncounted > 0
    case JoinIo => q.open && q.arriving == multiset{} && q.uncounted == 0
    case Loop(i) => i < |s.threads| && s.threads[i] == Idle && RoleOf(c, i) != Stopper
    case Do(i, w) =>
      && i < |s.threads|
      && CanAct(c, RoleOf(c, i), s.sh, s.threads[i], w)
      && (w == Pop && RoleOf(c, i) == Stopper ==> s.stage == Draining)
    case StopCall => s.stage == Serving && !q.open
    case JoinWorkers => s.stage == Joining && WorkersDone(c, s)
    case DrainEnd => s.stage == Draining && StopperIdle(c, s) && q.queue == []
    case StopFlush => s.stage == Drained && StopperIdle(c, s)
    case Destroy => s.stage == Stopped && StopperIdle(c, s)
    case DestroyFlush => s.stage == Destroying && StopperIdle(c, s) && s.threads[c.workers] == Done
  }

  /** A worker loops until `stop` is called, the flush thread until the store is destroyed. */
  predicate KeepsLooping(c: Config, s: State, i: nat) {
    if RoleOf(c, i) == Worker then s.stage == Serving else Rank(s.stage) < Rank(Destroying)
  }

  function OfferStep(c: Config, q: Intake, d: Bytes): Intake {
    var q' := q.(arriving := q.arriving - multiset{d});
    if |q.queue| >= c.capacity then q'.(uncounted := q.uncounted + 1, dropped := q.dropped + multiset{d})
    else q'.(queue := q.queue + [d], accepted := q.accepted + [d])
  }

  /** The stopping thread's flush_and_stop, which moves it to `next`. */
  function StopperFlush(c: Config, s: State, next: Stage): State
    requires StopperIndex(c) < |s.threads|
  {
    if c.storage then
      State(s.sh.(disk := FlushStep(s.sh.disk)), s.threads[StopperIndex(c) := FlushPoint(s.sh.disk)], next)
    else s.(stage := next)
  }

  function Step(c: Config, s: State, l: Label): State
    requires Enabled(c, s, l)
  {
    var q := s.sh.intake;
    match l
    case Arrive(d) =>
      s.(sh := s.sh.(intake := q.(arriving := q.arriving + multiset{d}, read := q.read + multiset{d})))
    case Offer(d) => s.(sh := s.sh.(intake := OfferStep(c, q, d)))
    case CountDrop =>
      s.(sh := s.sh.(intake := q.(uncounted := q.uncounted - 1),
                     m := s.sh.m.(queueDrop := s.sh.m.queueDrop + 1)))
    case JoinIo => s.(sh := s.sh.(intake := q.(open := false)))
    case Loop(i) => s.(threads := s.threads[i := if KeepsLooping(c, s, i) then Ready else Done])
    case Do(i, w) =>
      var role, t := RoleOf(c, i), s.threads[i];
      s.(sh := Act(c, role, s.sh, t, w), threads := s.threads[i := NextPoint(c, role, s.sh, t, w)])
    case StopCall => s.(stage := Joining)
    case JoinWorkers => s.(stage := Draining)
    case DrainEnd => s.(stage := Drained)
    case StopFlush => StopperFlush(c, s, Stopped)
    case Destroy => s.(stage := Destroying)
    case DestroyFlush => StopperFlush(c, s, Destroyed)
  }

  /** What earlier runs left behind: the dead-letter file and the limiter's counters. */
  datatype Past = Past(file: Bytes, store: Limiter.Store)

  function Init(c: Config, past: Past): State {
    State(
      Shared(
        Intake(true, multiset{}, 0, multiset{}, multiset{}, [], [], []), [], ZERO,
        Gate(past.store, past.store, []),
        Disk([], [], [], multiset{}, multiset{}, multiset{}, past.file, past.file, [], true)),
      seq(c.workers, _ => Idle) + [if c.storage then Idle else Done, Idle],
      Serving)
  }

  predicate Legal(c: Config, s: State, trace: seq<Label>)
    decreases |trace|
  {
    trace == [] || (Enabled(c, s, trace[0]) && Legal(c, Step(c, s, trace[0]), trace[1..]))
  }

  function After(c: Config, s: State, trace: seq<Label>): State
    requires Legal(c, s, trace)
    decreases |trace|
  {
    if trace == [] then s else After(c, Step(c, s, trace[0]), trace[1..])
  }
}
