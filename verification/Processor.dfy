/**
 * The processor as the code that runs it: the worker's loop body, and `stop` with its own,
 * differently shaped copy of it. Both are proved against one specification, and that
 * specification is a run of one thread's steps in the pipeline.
 */
module Processor {
  import opened Basics
  import opened Events
  import opened Pipeline
  import opened BatchStore
  import BoundedQueue
  import PipelineQueue
  import Limiter
  import PipelineShutdown

  /** What the outside does while one frame is handled. */
  datatype Env = Env(
    now: int, limitTime: int, limitOutcome: Limiter.Outcome,
    produce: bool, produceAgain: bool, flush: FlushEnv)

  // ------------------------------------------------------ one thread by itself

  predicate SoloLegal(c: Config, role: Role, sh: Shared, t: Thread, ws: seq<Work>)
    decreases |ws|
  {
    ws == [] || (CanAct(c, role, sh, t, ws[0])
                 && SoloLegal(c, role, Act(c, role, sh, t, ws[0]), NextPoint(c, role, sh, t, ws[0]), ws[1..]))
  }

  /** Shared state and program point after a thread takes these steps undisturbed. */
  function Solo(c: Config, role: Role, sh: Shared, t: Thread, ws: seq<Work>): (Shared, Thread)
    requires SoloLegal(c, role, sh, t, ws)
    decreases |ws|
  {
    if ws == [] then (sh, t)
    else Solo(c, role, Act(c, role, sh, t, ws[0]), NextPoint(c, role, sh, t, ws[0]), ws[1..])
  }

  /** Taking these steps from here leads there. */
  ghost predicate Leads(c: Config, role: Role, sh: Shared, t: Thread, ws: seq<Work>, sh': Shared, t': Thread) {
    SoloLegal(c, role, sh, t, ws) && Solo(c, role, sh, t, ws) == (sh', t')
  }

  lemma LeadsOn(c: Config, role: Role, sh: Shared, t: Thread, w: Work, ws: seq<Work>, sh': Shared, t': Thread)
    requires CanAct(c, role, sh, t, w)
    requires Leads(c, role, Act(c, role, sh, t, w), NextPoint(c, role, sh, t, w), ws, sh', t')
    ensures Leads(c, role, sh, t, [w] + ws, sh', t')
  {
    hide CanAct, Act, NextPoint;
    assert ([w] + ws)[1..] == ws;
  }

  // ------------------------------------------------------------ specification

  /** The steps of a flush, from its first insert to its last counter. */
  function FlushWorks(env: FlushEnv): seq<Work> {
    if env.insert0 then [Insert(true), CountStored]
    else if env.insert1 then [Insert(false), Insert(true), CountStored]
    else if env.insert2 then [Insert(false), Insert(false), Insert(true), CountStored]
    else [Insert(false), Insert(false), Insert(false), WriteDead(env.renameOk, env.openOk)]
         + if env.openOk then [CountDead] else []
  }

  function FlushedShared(sh: Shared, batch: seq<Bytes>, env: FlushEnv): Shared {
    sh.(disk := FlushedDisk(sh.disk, batch, env), m := FlushedMetrics(sh.m, batch, env))
  }

  /** A save, then the flush it may trigger. */
  function SavedShared(sh: Shared, d: Bytes, env: FlushEnv): Shared {
    sh.(disk := SavedDisk(sh.disk, d, env), m := SavedMetrics(sh.disk, sh.m, d, env))
  }

  function SaveWorks(sh: Shared, env: FlushEnv): seq<Work> {
    [Save] + if |sh.disk.buffer| + 1 < BATCH_SIZE then [] else FlushWorks(env)
  }

  predicate BrokerRefuses(c: Config, env: Env) {
    c.kafka && !env.produce && !env.produceAgain
  }

  function AfterBroker(c: Config, sh: Shared, env: Env): Shared {
    if BrokerRefuses(c, env) then sh.(m := sh.m.(kafkaFail := sh.m.kafkaFail + 1)) else sh
  }

  /** A forwarded record goes to the broker, then to the store. */
  function DeliveredShared(c: Config, sh: Shared, d: Bytes, env: Env): Shared {
    if c.storage then SavedShared(AfterBroker(c, sh, env), d, env.flush) else AfterBroker(c, sh, env)
  }

  function DeliverWorks(c: Config, sh: Shared, env: Env): seq<Work> {
    [Produce(env.produce || env.produceAgain)]
    + ((if BrokerRefuses(c, env) then [CountKafkaFail] else [])
       + (if c.storage then SaveWorks(sh, env.flush) else []))
  }

  function Logged(role: Role, sh: Shared, d: Bytes, v: Verdict): Shared {
    sh.(log := sh.log + [Entry(d, v, role)])
  }

  function Asked(c: Config, user: Bytes, sh: Shared, env: Env): Shared
    requires c.limiter.Some?
  {
    var call := CallFor(user, env);
    sh.(gate := sh.gate.(store := Limiter.Serve(c.limiter.value, sh.gate.store, call), calls := sh.gate.calls + [call]))
  }

  function CallFor(user: Bytes, env: Env): Limiter.Call {
    Limiter.Call(user, env.limitTime, env.limitOutcome)
  }

  function AskFor(user: Bytes, sh: Shared, env: Env): Ask {
    Ask(|sh.gate.calls|, CallFor(user, env))
  }

  predicate Lets(c: Config, user: Bytes, sh: Shared, env: Env)
    requires c.limiter.Some?
  {
    Limiter.Allows(c.limiter.value, sh.gate.store, CallFor(user, env))
  }

  /** What becomes of a valid event: past the limiter, if this role asks it, and on. */
  function PassedShared(c: Config, role: Role, sh: Shared, d: Bytes, user: Bytes, env: Env): Shared {
    if !Limits(c, role) then DeliveredShared(c, Logged(role, sh, d, Forwarded(env.now, None)), d, env)
    else if Lets(c, user, sh, env) then
      var verdict := Forwarded(env.now, Some(AskFor(user, sh, env)));
      DeliveredShared(c, Logged(role, Asked(c, user, sh, env), d, verdict), d, env)
    else
      Logged(role, Asked(c, user, sh, env), d, Limited(env.now, AskFor(user, sh, env)))
        .(m := sh.m.(rateLimited := sh.m.rateLimited + 1))
  }

  /** What becomes of a popped frame. */
  function HandledShared(c: Config, role: Role, sh: Shared, d: Bytes, env: Env): Shared {
    var m := sh.m.(received := sh.m.received + 1);
    match c.parse(d)
    case None => Logged(role, sh, d, Unparseable).(m := m.(parseFail := m.parseFail + 1))
    case Some(e) =>
      var m := m.(parsed := m.parsed + 1);
      if Validate(e, env.now) then
        PassedShared(c, role, sh.(m := m.(valid := m.valid + 1)), d, e.userId, env)
      else Logged(role, sh, d, Invalid(env.now)).(m := m.(invalid := m.invalid + 1))
  }

  /** The same disposal, by a thread of another role. */
  function SignedBy(role: Role, sh: Shared): Shared {
    if sh.log == [] then sh
    else sh.(log := sh.log[..|sh.log| - 1] + [sh.log[|sh.log| - 1].(role := role)])
  }

  lemma DeliveryIgnoresLog(c: Config, sh: Shared, log: seq<Entry>, d: Bytes, env: Env, params: Option<Limiter.Params>)
    ensures DeliveredShared(c, sh.(log := log), d, env)
         == DeliveredShared(c.(limiter := params), sh, d, env).(log := log)
    ensures DeliveredShared(c, sh, d, env).log == sh.log
  {
    hide SavedDisk, SavedMetrics;
  }

  lemma PassingIsSigned(c: Config, sh: Shared, d: Bytes, user: Bytes, env: Env)
    ensures PassedShared(c, Stopper, sh, d, user, env)
         == SignedBy(Stopper, PassedShared(c.(limiter := None), Worker, sh, d, user, env))
  {
    hide DeliveredShared;
    var v := Forwarded(env.now, None);
    var mine, theirs := sh.log + [Entry(d, v, Stopper)], sh.log + [Entry(d, v, Worker)];
    DeliveryIgnoresLog(c, sh, mine, d, env, None);
    DeliveryIgnoresLog(c.(limiter := None), sh, theirs, d, env, None);
    assert theirs[..|sh.log|] == sh.log;
  }

  /** Handling a frame as the drain does is handling it as a worker without a limiter does. */
  lemma DrainIsWorkerWithoutLimiter(c: Config, sh: Shared, d: Bytes, env: Env)
    ensures HandledShared(c, Stopper, sh, d, env)
         == SignedBy(Stopper, HandledShared(c.(limiter := None), Worker, sh, d, env))
    ensures c.limiter.None? ==>
              HandledShared(c, Stopper, sh, d, env) == SignedBy(Stopper, HandledShared(c, Worker, sh, d, env))
  {
    hide Validate, PassedShared;
    assert c.limiter.None? ==> c.(limiter := None) == c;
    if c.parse(d).Some? {
      var e, m := c.parse(d).value, sh.m;
      var passed := m.(received := m.received + 1, parsed := m.parsed + 1, valid := m.valid + 1);
      hide SignedBy;
      PassingIsSigned(c, sh.(m := passed), d, e.userId, env);
      LastSigned(sh, d, Invalid(env.now));
    }
  }

  lemma LastSigned(sh: Shared, d: Bytes, v: Verdict)
    ensures forall m :: SignedBy(Stopper, Logged(Worker, sh, d, v).(m := m)) == Logged(Stopper, sh, d, v).(m := m)
  {
    assert (sh.log + [Entry(d, v, Worker)])[..|sh.log|] == sh.log;
  }

  // ------------------------------------ the specification is a run of the pipeline

  lemma StoreEnds(c: Config, role: Role, sh: Shared, batch: seq<Bytes>, tries: nat)
    requires tries < 3
    ensures Leads(c, role, sh, Flushing(batch, tries), [Insert(true), CountStored],
                  sh.(disk := sh.disk.(stored := sh.disk.stored + multiset(batch)),
                      m := sh.m.(stored := sh.m.stored + |batch|)), Idle)
  {
    var sh1 := Act(c, role, sh, Flushing(batch, tries), Insert(true));
    assert sh1.log == sh.log;
  }

  lemma RetryStays(c: Config, role: Role, sh: Shared, batch: seq<Bytes>, tries: nat)
    requires tries < 3
    ensures CanAct(c, role, sh, Flushing(batch, tries), Insert(false))
    ensures Act(c, role, sh, Flushing(batch, tries), Insert(false)) == sh
    ensures NextPoint(c, role, sh, Flushing(batch, tries), Insert(false)) == Flushing(batch, tries + 1)
  {
    assert sh.log + [] == sh.log;
  }

  lemma FileEnds(c: Config, role: Role, sh: Shared, batch: seq<Bytes>, env: FlushEnv)
    requires !Stores(env)
    ensures Leads(c, role, sh, Flushing(batch, 3),
                  [WriteDead(env.renameOk, env.openOk)] + if env.openOk then [CountDead] else [],
                  FlushedShared(sh, batch, env), Idle)
  {
    hide AppendDead;
    var w := WriteDead(env.renameOk, env.openOk);
    var sh1 := Act(c, role, sh, Flushing(batch, 3), w);
    assert sh1.log == sh.log;
    if env.openOk {
      var end := FlushedShared(sh, batch, env);
      var sh2 := Act(c, role, sh1, DeadWritten(batch), CountDead);
      assert sh2.log == sh1.log;
      assert sh2 == end;
      LeadsNowhere(c, role, end, Idle);
      LeadsOn(c, role, sh1, DeadWritten(batch), CountDead, [], end, Idle);
      assert [CountDead] + [] == [CountDead];
      LeadsOn(c, role, sh, Flushing(batch, 3), w, [CountDead], end, Idle);
    } else {
      assert sh1 == FlushedShared(sh, batch, env);
      LeadsNowhere(c, role, sh1, Idle);
      LeadsOn(c, role, sh, Flushing(batch, 3), w, [], sh1, Idle);
    }
  }

  /** A flush is a run of steps, whatever the store and the file system do. */
  lemma FlushIsSolo(c: Config, role: Role, sh: Shared, batch: seq<Bytes>, env: FlushEnv)
    ensures Leads(c, role, sh, Flushing(batch, 0), FlushWorks(env), FlushedShared(sh, batch, env), Idle)
  {
    hide CanAct, Act, NextPoint, Leads;
    RetryStays(c, role, sh, batch, 0);
    RetryStays(c, role, sh, batch, 1);
    RetryStays(c, role, sh, batch, 2);
    var end, store := FlushedShared(sh, batch, env), [Insert(true), CountStored];
    if env.insert0 {
      StoreEnds(c, role, sh, batch, 0);
    } else if env.insert1 {
      StoreEnds(c, role, sh, batch, 1);
      LeadsOn(c, role, sh, Flushing(batch, 0), Insert(false), store, end, Idle);
      assert [Insert(false)] + store == FlushWorks(env);
    } else if env.insert2 {
      StoreEnds(c, role, sh, batch, 2);
      LeadsOn(c, role, sh, Flushing(batch, 1), Insert(false), store, end, Idle);
      LeadsOn(c, role, sh, Flushing(batch, 0), Insert(false), [Insert(false)] + store, end, Idle);
      assert [Insert(false)] + ([Insert(false)] + store) == FlushWorks(env);
    } else {
      FileEnds(c, role, sh, batch, env);
      var tail := [WriteDead(env.renameOk, env.openOk)] + if env.openOk then [CountDead] else [];
      LeadsOn(c, role, sh, Flushing(batch, 2), Insert(false), tail, end, Idle);
      LeadsOn(c, role, sh, Flushing(batch, 1), Insert(false), [Insert(false)] + tail, end, Idle);
      LeadsOn(c, role, sh, Flushing(batch, 0), Insert(false), [Insert(false)] + ([Insert(false)] + tail), end, Idle);
      assert [Insert(false)] + ([Insert(false)] + ([Insert(false)] + tail)) == FlushWorks(env);
    }
  }

  lemma SaveActs(c: Config, role: Role, sh: Shared, d: Bytes)
    ensures CanAct(c, role, sh, Saving(d), Save)
    ensures Act(c, role, sh, Saving(d), Save) == sh.(disk := SaveStep(sh.disk, d))
    ensures NextPoint(c, role, sh, Saving(d), Save)
         == if |sh.disk.buffer| + 1 < BATCH_SIZE then Idle else Flushing(sh.disk.buffer + [d], 0)
  {
    assert sh.log + [] == sh.log;
  }

  lemma SaveIsSolo(c: Config, role: Role, sh: Shared, d: Bytes, env: FlushEnv)
    ensures Leads(c, role, sh, Saving(d), SaveWorks(sh, env), SavedShared(sh, d, env), Idle)
  {
    SaveActs(c, role, sh, d);
    hide CanAct, Act, NextPoint, SaveStep, FlushedDisk, FlushedMetrics;
    var sh1, end := sh.(disk := SaveStep(sh.disk, d)), SavedShared(sh, d, env);
    if |sh.disk.buffer| + 1 < BATCH_SIZE {
      LeadsOn(c, role, sh, Saving(d), Save, [], end, Idle);
    } else {
      var batch := sh.disk.buffer + [d];
      FlushIsSolo(c, role, sh1, batch, env);
      LeadsOn(c, role, sh, Saving(d), Save, FlushWorks(env), end, Idle);
    }
  }

  /** Steps that only move the thread or one counter. */
  lemma BrokerActs(c: Config, role: Role, sh: Shared, d: Bytes, accepted: bool)
    ensures CanAct(c, role, sh, Admitted(d), Produce(accepted)) && CanAct(c, role, sh, ProduceFailed(d), CountKafkaFail)
    ensures Act(c, role, sh, Admitted(d), Produce(accepted)) == sh
    ensures NextPoint(c, role, sh, Admitted(d), Produce(accepted))
         == if c.kafka && !accepted then ProduceFailed(d) else Produced(c, d)
    ensures Act(c, role, sh, ProduceFailed(d), CountKafkaFail) == sh.(m := sh.m.(kafkaFail := sh.m.kafkaFail + 1))
    ensures NextPoint(c, role, sh, ProduceFailed(d), CountKafkaFail) == Produced(c, d)
  {
    assert sh.log + [] == sh.log;
  }

  lemma ProducedIsSolo(c: Config, role: Role, sh: Shared, d: Bytes, env: FlushEnv)
    ensures Leads(c, role, sh, Produced(c, d), if c.storage then SaveWorks(sh, env) else [],
                  if c.storage then SavedShared(sh, d, env) else sh, Idle)
  {
    if c.storage {
      SaveIsSolo(c, role, sh, d, env);
    }
  }

  lemma DeliverIsSolo(c: Config, role: Role, sh: Shared, d: Bytes, env: Env)
    ensures Leads(c, role, sh, Admitted(d), DeliverWorks(c, sh, env), DeliveredShared(c, sh, d, env), Idle)
  {
    hide CanAct, Act, NextPoint, SavedShared, SaveWorks, Leads, Produced;
    var ok, end := env.produce || env.produceAgain, DeliveredShared(c, sh, d, env);
    BrokerActs(c, role, sh, d, ok);
    var sh1 := AfterBroker(c, sh, env);
    ProducedIsSolo(c, role, sh1, d, env.flush);
    var tail := if c.storage then SaveWorks(sh, env.flush) else [];
    assert tail == if c.storage then SaveWorks(sh1, env.flush) else [] by { SameBuffer(c, sh, env); }
    if BrokerRefuses(c, env) {
      LeadsOn(c, role, sh, ProduceFailed(d), CountKafkaFail, tail, end, Idle);
      LeadsOn(c, role, sh, Admitted(d), Produce(ok), [CountKafkaFail] + tail, end, Idle);
    } else {
      assert [] + tail == tail;
      LeadsOn(c, role, sh, Admitted(d), Produce(ok), tail, end, Idle);
    }
  }

  lemma SameBuffer(c: Config, sh: Shared, env: Env)
    ensures SaveWorks(AfterBroker(c, sh, env), env.flush) == SaveWorks(sh, env.flush)
  {
  }

  // The steps from a counted-valid event on.
  function PassWorks(c: Config, role: Role, sh: Shared, user: Bytes, env: Env): seq<Work> {
    if !Limits(c, role) then [SkipLimit] + DeliverWorks(c, sh, env)
    else [Limit(env.limitTime, env.limitOutcome)]
         + if Lets(c, user, sh, env) then DeliverWorks(c, sh, env) else [CountLimited]
  }

  function HandleWorks(c: Config, role: Role, sh: Shared, d: Bytes, env: Env): seq<Work> {
    [CountReceived, Classify]
    + if c.parse(d).None? then []
      else [Judge(env.now), CountJudged]
           + if Validate(c.parse(d).value, env.now) then PassWorks(c, role, sh, c.parse(d).value.userId, env) else []
  }

  predicate ClockOk(sh: Shared, env: Env) {
    sh.gate.calls != [] ==> Limiter.Last(sh.gate.calls).time <= env.limitTime
  }

  lemma SkipActs(c: Config, role: Role, sh: Shared, d: Bytes, now: int)
    requires !Limits(c, role)
    ensures CanAct(c, role, sh, Passed(d, now), SkipLimit)
    ensures Act(c, role, sh, Passed(d, now), SkipLimit) == Logged(role, sh, d, Forwarded(now, None))
    ensures NextPoint(c, role, sh, Passed(d, now), SkipLimit) == Admitted(d)
  {
  }

  lemma LimitActs(c: Config, role: Role, sh: Shared, d: Bytes, env: Env)
    requires Limits(c, role) && c.parse(d).Some? && ClockOk(sh, env)
    ensures var w, t, user := Limit(env.limitTime, env.limitOutcome), Passed(d, env.now), c.parse(d).value.userId;
            && CanAct(c, role, sh, t, w)
            && Act(c, role, sh, t, w)
               == (if Lets(c, user, sh, env)
                   then Logged(role, Asked(c, user, sh, env), d, Forwarded(env.now, Some(AskFor(user, sh, env))))
                   else Asked(c, user, sh, env))
            && NextPoint(c, role, sh, t, w)
               == (if Lets(c, user, sh, env) then Admitted(d) else Refused(d, env.now, AskFor(user, sh, env)))
  {
    hide Limiter.Allows, Limiter.Serve, Limiter.Last;
    assert sh.log + [] == sh.log;
  }

  lemma LimitedEnds(c: Config, role: Role, sh: Shared, d: Bytes, now: int, ask: Ask)
    ensures Leads(c, role, sh, Refused(d, now, ask), [CountLimited],
                  Logged(role, sh, d, Limited(now, ask)).(m := sh.m.(rateLimited := sh.m.rateLimited + 1)), Idle)
  {
  }

  lemma PassIsSolo(c: Config, role: Role, sh: Shared, d: Bytes, env: Env)
    requires c.parse(d).Some? && (Limits(c, role) ==> ClockOk(sh, env))
    ensures var user := c.parse(d).value.userId;
            Leads(c, role, sh, Passed(d, env.now), PassWorks(c, role, sh, user, env),
                  PassedShared(c, role, sh, d, user, env), Idle)
  {
    hide CanAct, Act, NextPoint, Leads, DeliveredShared, DeliverWorks, Limiter.Allows, Limiter.Serve, ClockOk;
    var user, t := c.parse(d).value.userId, Passed(d, env.now);
    var end := PassedShared(c, role, sh, d, user, env);
    if !Limits(c, role) {
      var sh1 := Logged(role, sh, d, Forwarded(env.now, None));
      SkipActs(c, role, sh, d, env.now);
      DeliverIsSolo(c, role, sh1, d, env);
      assert DeliverWorks(c, sh1, env) == DeliverWorks(c, sh, env) by { SameDisk(c, sh, sh1, env); }
      LeadsOn(c, role, sh, t, SkipLimit, DeliverWorks(c, sh, env), end, Idle);
    } else {
      var w := Limit(env.limitTime, env.limitOutcome);
      LimitActs(c, role, sh, d, env);
      var sh1 := Asked(c, user, sh, env);
      if Lets(c, user, sh, env) {
        var sh2 := Logged(role, sh1, d, Forwarded(env.now, Some(AskFor(user, sh, env))));
        DeliverIsSolo(c, role, sh2, d, env);
        assert DeliverWorks(c, sh2, env) == DeliverWorks(c, sh, env) by { SameDisk(c, sh, sh2, env); }
        LeadsOn(c, role, sh, t, w, DeliverWorks(c, sh, env), end, Idle);
      } else {
        LimitedEnds(c, role, sh1, d, env.now, AskFor(user, sh, env));
        LeadsOn(c, role, sh, t, w, [CountLimited], end, Idle);
      }
    }
  }

  lemma SameDisk(c: Config, sh: Shared, sh': Shared, env: Env)
    requires sh.disk == sh'.disk
    ensures DeliverWorks(c, sh, env) == DeliverWorks(c, sh', env)
  {
  }

  lemma ClassifyActs(c: Config, role: Role, sh: Shared, d: Bytes)
    ensures CanAct(c, role, sh, Popped(d), CountReceived) && CanAct(c, role, sh, Received(d), Classify)
    ensures Act(c, role, sh, Popped(d), CountReceived) == sh.(m := sh.m.(received := sh.m.received + 1))
    ensures NextPoint(c, role, sh, Popped(d), CountReceived) == Received(d)
    ensures NextPoint(c, role, sh, Received(d), Classify) == if c.parse(d).None? then Idle else Parsed(d)
    ensures Act(c, role, sh, Received(d), Classify)
         == if c.parse(d).None? then Logged(role, sh, d, Unparseable).(m := sh.m.(parseFail := sh.m.parseFail + 1))
            else sh.(m := sh.m.(parsed := sh.m.parsed + 1))
  {
    assert sh.log + [] == sh.log;
  }

  lemma JudgeActs(c: Config, role: Role, sh: Shared, d: Bytes, now: int)
    requires c.parse(d).Some?
    ensures var ok := Validate(c.parse(d).value, now);
            && CanAct(c, role, sh, Parsed(d), Judge(now))
            && Act(c, role, sh, Parsed(d), Judge(now)) == sh
            && NextPoint(c, role, sh, Parsed(d), Judge(now)) == Judged(d, now, ok)
            && CanAct(c, role, sh, Judged(d, now, ok), CountJudged)
            && Act(c, role, sh, Judged(d, now, ok), CountJudged)
               == (if ok then sh.(m := sh.m.(valid := sh.m.valid + 1))
                   else Logged(role, sh, d, Invalid(now)).(m := sh.m.(invalid := sh.m.invalid + 1)))
            && NextPoint(c, role, sh, Judged(d, now, ok), CountJudged) == if ok then Passed(d, now) else Idle
  {
    hide Validate;
    assert sh.log + [] == sh.log;
  }

  lemma LeadsNowhere(c: Config, role: Role, sh: Shared, t: Thread)
    ensures Leads(c, role, sh, t, [], sh, t)
  {
  }

  /** Handling a popped frame is a run of that thread's steps in the pipeline. */
  lemma HandleIsSolo(c: Config, role: Role, sh: Shared, d: Bytes, env: Env)
    requires Limits(c, role) ==> ClockOk(sh, env)
    ensures Leads(c, role, sh, Popped(d), HandleWorks(c, role, sh, d, env), HandledShared(c, role, sh, d, env), Idle)
  {
    hide CanAct, Act, NextPoint, Leads, PassedShared, PassWorks, Validate;
    var end := HandledShared(c, role, sh, d, env);
    ClassifyActs(c, role, sh, d);
    var sh1 := sh.(m := sh.m.(received := sh.m.received + 1));
    ClassifyActs(c, role, sh1, d);
    var tail: seq<Work> := [];
    if c.parse(d).None? {
      LeadsNowhere(c, role, end, Idle);
    } else {
      tail := JudgeIsSolo(c, role, sh1.(m := sh1.m.(parsed := sh1.m.parsed + 1)), sh, d, env, end);
    }
    LeadsOn(c, role, sh1, Received(d), Classify, tail, end, Idle);
    LeadsOn(c, role, sh, Popped(d), CountReceived, [Classify] + tail, end, Idle);
    assert [CountReceived] + ([Classify] + tail) == [CountReceived, Classify] + tail;
  }

  lemma JudgeIsSolo(c: Config, role: Role, sh: Shared, sh0: Shared, d: Bytes, env: Env, end: Shared)
    returns (ws: seq<Work>)
    requires c.parse(d).Some? && (Limits(c, role) ==> ClockOk(sh, env))
    requires sh0 == sh.(m := sh0.m)
    requires var e := c.parse(d).value;
             end == if Validate(e, env.now)
                    then PassedShared(c, role, sh.(m := sh.m.(valid := sh.m.valid + 1)), d, e.userId, env)
                    else Logged(role, sh, d, Invalid(env.now)).(m := sh.m.(invalid := sh.m.invalid + 1))
    ensures ws == [Judge(env.now), CountJudged]
                  + if Validate(c.parse(d).value, env.now)
                    then PassWorks(c, role, sh0, c.parse(d).value.userId, env) else []
    ensures Leads(c, role, sh, Parsed(d), ws, end, Idle)
  {
    hide CanAct, Act, NextPoint, Leads, PassedShared, PassWorks, Validate;
    JudgeActs(c, role, sh, d, env.now);
    var ok := Validate(c.parse(d).value, env.now);
    var tail: seq<Work> := [];
    if ok {
      var sh1 := sh.(m := sh.m.(valid := sh.m.valid + 1));
      PassIsSolo(c, role, sh1, d, env);
      tail := PassWorks(c, role, sh1, c.parse(d).value.userId, env);
      assert tail == PassWorks(c, role, sh0, c.parse(d).value.userId, env) by {
        SamePass(c, role, sh0, sh1, c.parse(d).value.userId, env);
      }
    } else {
      LeadsNowhere(c, role, end, Idle);
    }
    LeadsOn(c, role, sh, Judged(d, env.now, ok), CountJudged, tail, end, Idle);
    LeadsOn(c, role, sh, Parsed(d), Judge(env.now), [CountJudged] + tail, end, Idle);
    ws := [Judge(env.now)] + ([CountJudged] + tail);
    assert ws == [Judge(env.now), CountJudged] + tail;
  }

  lemma SamePass(c: Config, role: Role, sh: Shared, sh': Shared, user: Bytes, env: Env)
    requires sh.disk == sh'.disk && sh.gate == sh'.gate
    ensures PassWorks(c, role, sh, user, env) == PassWorks(c, role, sh', user, env)
  {
  }

  function Labels(i: nat, ws: seq<Work>): seq<Label> {
    seq(|ws|, k requires 0 <= k < |ws| => Do(i, ws[k]))
  }

  /** Undisturbed steps of thread i are a run of the whole system. */
  lemma {:induction false} SoloIsRun(c: Config, s: State, i: nat, ws: seq<Work>)
    requires i < |s.threads| && SoloLegal(c, RoleOf(c, i), s.sh, s.threads[i], ws)
    requires Pop in ws ==> RoleOf(c, i) != Stopper || s.stage == Draining
    ensures var r := Solo(c, RoleOf(c, i), s.sh, s.threads[i], ws);
            && Legal(c, s, Labels(i, ws))
            && After(c, s, Labels(i, ws)) == State(r.0, s.threads[i := r.1], s.stage)
    decreases |ws|
  {
    hide CanAct, Act, NextPoint;
    if ws == [] {
      assert s.threads[i := s.threads[i]] == s.threads;
    } else {
      var s1 := Step(c, s, Do(i, ws[0]));
      assert Labels(i, ws)[1..] == Labels(i, ws[1..]);
      SoloIsRun(c, s1, i, ws[1..]);
      var t := Solo(c, RoleOf(c, i), s.sh, s.threads[i], ws).1;
      assert s1.threads[i := t] == s.threads[i := t];
    }
  }

  // ------------------------------------------------------------------ the drain

  function PopShared(sh: Shared): Shared
    requires sh.intake.queue != []
  {
    sh.(intake := NextIntake(sh.intake, Pop))
  }

  lemma HandledKeepsIntake(c: Config, role: Role, sh: Shared, d: Bytes, env: Env)
    ensures HandledShared(c, role, sh, d, env).intake == sh.intake
  {
    hide Validate, SavedDisk, SavedMetrics;
  }

  /** Handle everything queued, in order; the k-th frame meets environment k. */
  function DrainedShared(c: Config, sh: Shared, envs: nat -> Env, k: nat): Shared
    decreases |sh.intake.queue|
  {
    if sh.intake.queue == [] then sh
    else
      HandledKeepsIntake(c, Stopper, PopShared(sh), sh.intake.queue[0], envs(k));
      DrainedShared(c, HandledShared(c, Stopper, PopShared(sh), sh.intake.queue[0], envs(k)), envs, k + 1)
  }

  /** The counters of the worker chain; delivery does not touch them. */
  predicate SameChain(m: Metrics, m': Metrics) {
    m'.received == m.received && m'.parsed == m.parsed && m'.parseFail == m.parseFail
    && m'.valid == m.valid && m'.invalid == m.invalid
  }

  lemma PassingKeepsChain(c: Config, role: Role, sh: Shared, d: Bytes, user: Bytes, env: Env)
    ensures SameChain(sh.m, PassedShared(c, role, sh, d, user, env).m)
  {
    hide SavedDisk, Limiter.Allows, Limiter.Serve;
  }

  /** Handling one frame counts it once on each level of the chain. */
  lemma HandledCounts(c: Config, role: Role, sh: Shared, d: Bytes, env: Env)
    ensures var m, m' := sh.m, HandledShared(c, role, sh, d, env).m;
            && m'.received == m.received + 1
            && m'.received - m'.parsed - m'.parseFail == m.received - m.parsed - m.parseFail
            && m'.parsed - m'.valid - m'.invalid == m.parsed - m.valid - m.invalid
  {
    hide Validate, PassedShared;
    if c.parse(d).Some? {
      var e, m := c.parse(d).value, sh.m;
      var passed := m.(received := m.received + 1, parsed := m.parsed + 1, valid := m.valid + 1);
      PassingKeepsChain(c, role, sh.(m := passed), d, e.userId, env);
    }
  }

  /** The drain empties the queue in order and accounts for every frame of it. */
  lemma {:induction false} DrainAccountsForQueue(c: Config, sh: Shared, envs: nat -> Env, k: nat)
    ensures var sh' := DrainedShared(c, sh, envs, k); var m, m' := sh.m, sh'.m;
            && sh'.intake.queue == []
            && sh'.intake.popped == sh.intake.popped + sh.intake.queue
            && m'.received == m.received + |sh.intake.queue|
            && m'.received - m'.parsed - m'.parseFail == m.received - m.parsed - m.parseFail
            && m'.parsed - m'.valid - m'.invalid == m.parsed - m.valid - m.invalid
    decreases |sh.intake.queue|
  {
    hide HandledShared;
    var q := sh.intake;
    if q.queue == [] {
      assert q.popped + [] == q.popped;
    } else {
      var sh1 := HandledShared(c, Stopper, PopShared(sh), q.queue[0], envs(k));
      HandledKeepsIntake(c, Stopper, PopShared(sh), q.queue[0], envs(k));
      HandledCounts(c, Stopper, PopShared(sh), q.queue[0], envs(k));
      DrainAccountsForQueue(c, sh1, envs, k + 1);
      assert q.popped + [q.queue[0]] + q.queue[1..] == q.popped + q.queue;
    }
  }

  /** `stop` after the workers are joined: drain, then flush what is buffered. */
  function StoppedShared(c: Config, sh: Shared, envs: nat -> Env, last: FlushEnv): Shared {
    StopFlushed(c, DrainedShared(c, sh, envs, 0), last)
  }

  function StopFlushed(c: Config, sh: Shared, last: FlushEnv): Shared {
    if !c.storage || sh.disk.buffer == [] then sh
    else FlushedShared(sh.(disk := FlushStep(sh.disk)), sh.disk.buffer, last)
  }

  /** In the pipeline, popping and handling one frame of the drain. */
  lemma DrainOneIsRun(c: Config, s: State, env: Env) returns (trace: seq<Label>)
    requires StopperIdle(c, s) && s.stage == Draining && s.sh.intake.queue != []
    ensures Legal(c, s, trace)
    ensures After(c, s, trace)
         == s.(sh := HandledShared(c, Stopper, PopShared(s.sh), s.sh.intake.queue[0], env))
  {
    var i, d := StopperIndex(c), s.sh.intake.queue[0];
    var pop, s1 := Do(i, Pop), s.(sh := PopShared(s.sh), threads := s.threads[i := Popped(d)]);
    assert s.sh.log + [] == s.sh.log;
    assert Enabled(c, s, pop) && Step(c, s, pop) == s1;
    HandleIsSolo(c, Stopper, s1.sh, d, env);
    hide HandledShared, HandleWorks, CanAct, Act, NextPoint, SoloLegal, Solo, Step, Enabled;
    var ws := HandleWorks(c, Stopper, s1.sh, d, env);
    SoloIsRun(c, s1, i, ws);
    trace := [pop] + Labels(i, ws);
    assert trace[1..] == Labels(i, ws);
    assert s1.threads[i := Idle] == s.threads;
  }

  /** The drain is a run of the stopping thread alone, and it always comes to an end. */
  lemma {:induction false} DrainIsRun(c: Config, s: State, envs: nat -> Env, k: nat) returns (trace: seq<Label>)
    requires StopperIdle(c, s) && s.stage == Draining
    ensures Legal(c, s, trace) && After(c, s, trace) == s.(sh := DrainedShared(c, s.sh, envs, k))
    decreases |s.sh.intake.queue|
  {
    hide HandledShared, Step, Enabled;
    if s.sh.intake.queue == [] {
      trace := [];
    } else {
      var first := DrainOneIsRun(c, s, envs(k));
      var s1 := After(c, s, first);
      HandledKeepsIntake(c, Stopper, PopShared(s.sh), s.sh.intake.queue[0], envs(k));
      var rest := DrainIsRun(c, s1, envs, k + 1);
      PipelineShutdown.RunsCompose(c, s, first, rest);
      trace := first + rest;
    }
  }

  /** The flush at the end of `stop` is a run of the stopping thread. */
  lemma StopFlushIsRun(c: Config, s: State, last: FlushEnv) returns (trace: seq<Label>)
    requires StopperIdle(c, s) && s.stage == Drained
    ensures Legal(c, s, trace) && After(c, s, trace) == s.(sh := StopFlushed(c, s.sh, last), stage := Stopped)
  {
    hide CanAct, Act, NextPoint, FlushWorks, FlushedDisk, FlushedMetrics;
    var i, s1 := StopperIndex(c), StopperFlush(c, s, Stopped);
    assert Enabled(c, s, StopFlush) && Step(c, s, StopFlush) == s1;
    if c.storage && s.sh.disk.buffer != [] {
      var batch, ws := s.sh.disk.buffer, FlushWorks(last);
      FlushIsSolo(c, Stopper, s1.sh, batch, last);
      FlushNeverPops(last);
      hide SoloLegal, Solo, Step, Enabled;
      SoloIsRun(c, s1, i, ws);
      trace := [StopFlush] + Labels(i, ws);
      assert trace[1..] == Labels(i, ws);
      assert s1.threads[i := Idle] == s.threads;
    } else {
      hide Step, Enabled;
      trace := [StopFlush];
      assert trace[1..] == [];
      assert s.threads[i := Idle] == s.threads;
    }
  }

  lemma FlushNeverPops(env: FlushEnv)
    ensures Pop !in FlushWorks(env)
  {
  }

  lemma DrainEndIsRun(c: Config, s: State)
    requires StopperIdle(c, s) && s.stage == Draining && s.sh.intake.queue == []
    ensures Legal(c, s, [DrainEnd]) && After(c, s, [DrainEnd]) == s.(stage := Drained)
  {
    assert [DrainEnd][1..] == [];
    hide CanAct;
  }

  /** What `stop` is specified to do after the workers are joined is a run of the stopping thread. */
  lemma StopIsRun(c: Config, s: State, envs: nat -> Env, last: FlushEnv) returns (trace: seq<Label>)
    requires StopperIdle(c, s) && s.stage == Draining
    ensures Legal(c, s, trace)
    ensures After(c, s, trace) == s.(sh := StoppedShared(c, s.sh, envs, last), stage := Stopped)
  {
    hide HandledShared, Step, Enabled, Legal, After, StopFlushed;
    var drain := DrainIsRun(c, s, envs, 0);
    DrainAccountsForQueue(c, s.sh, envs, 0);
    hide DrainedShared;
    var s1 := After(c, s, drain);
    DrainEndIsRun(c, s1);
    var s2 := After(c, s1, [DrainEnd]);
    var flush := StopFlushIsRun(c, s2, last);
    PipelineShutdown.RunsCompose(c, s1, [DrainEnd], flush);
    PipelineShutdown.RunsCompose(c, s, drain, [DrainEnd] + flush);
    trace := drain + ([DrainEnd] + flush);
  }

  // ----------------------------------------------------------- the flush thread

  lemma FlushTickActs(c: Config, sh: Shared)
    requires sh.disk.buffer != []
    ensures CanAct(c, Flusher, sh, Ready, Tick)
    ensures Act(c, Flusher, sh, Ready, Tick) == sh.(disk := FlushStep(sh.disk))
    ensures NextPoint(c, Flusher, sh, Ready, Tick) == Flushing(sh.disk.buffer, 0)
  {
    assert sh.log + [] == sh.log;
  }

  /**
   * Until the store is destroyed, a round of the flush thread is a run of its own steps that
   * empties the buffer, resolves that batch and comes back to the loop head.
   */
  lemma FlushRoundIsRun(c: Config, s: State, env: FlushEnv) returns (trace: seq<Label>)
    requires c.workers < |s.threads| && s.threads[c.workers] == Idle
    requires Rank(s.stage) < Rank(Destroying) && s.sh.disk.buffer != []
    ensures Legal(c, s, trace)
    ensures forall l :: l in trace ==> l == Loop(c.workers) || (l.Do? && l.i == c.workers)
    ensures var s' := After(c, s, trace); var d, d' := s.sh.disk, s'.sh.disk;
            && s'.threads == s.threads && s'.stage == s.stage && s'.sh.intake == s.sh.intake
            && s'.sh.log == s.sh.log && s'.sh.gate == s.sh.gate
            && d'.buffer == [] && d'.saves == d.saves
            && d'.stored + d'.dead + d'.lost == d.stored + d.dead + d.lost + multiset(d.buffer)
  {
    hide CanAct, Act, NextPoint, FlushWorks, FlushedDisk, FlushedMetrics;
    var n, batch := c.workers, s.sh.disk.buffer;
    var s1 := s.(threads := s.threads[n := Ready]);
    assert Enabled(c, s, Loop(n)) && Step(c, s, Loop(n)) == s1;
    FlushTickActs(c, s.sh);
    var sh2 := s.sh.(disk := FlushStep(s.sh.disk));
    FlushIsSolo(c, Flusher, sh2, batch, env);
    var ws := [Tick] + FlushWorks(env);
    var end := FlushedShared(sh2, batch, env);
    LeadsOn(c, Flusher, s.sh, Ready, Tick, FlushWorks(env), end, Idle);
    FlushNeverPops(env);
    hide SoloLegal, Solo, Step, Enabled;
    SoloIsRun(c, s1, n, ws);
    trace := [Loop(n)] + Labels(n, ws);
    assert trace[1..] == Labels(n, ws);
    assert s1.threads[n := Idle] == s.threads;
    FlushResolvesBatch(sh2.disk, sh2.m, batch, env);
    assert After(c, s, trace).sh.disk == FlushedDisk(sh2.disk, batch, env);
  }

  // ----------------------------------------------------------------- the worker

  /** One round of the worker loop: a frame is handled, or the wait came back empty. */
  function RoundShared(c: Config, sh: Shared, env: Env): Shared {
    if sh.intake.queue == [] then sh
    else HandledShared(c, Worker, PopShared(sh), sh.intake.queue[0], env)
  }

  function WorkedShared(c: Config, sh: Shared, envs: seq<Env>): Shared
    decreases |envs|
  {
    if envs == [] then sh else WorkedShared(c, RoundShared(c, sh, envs[0]), envs[1..])
  }

  lemma PopHandleIsRun(c: Config, s: State, i: nat, env: Env) returns (trace: seq<Label>)
    requires i < c.workers && i < |s.threads| && s.threads[i] == Ready && s.sh.intake.queue != []
    requires c.limiter.Some? ==> ClockOk(s.sh, env)
    ensures Legal(c, s, trace)
    ensures After(c, s, trace) == s.(sh := RoundShared(c, s.sh, env), threads := s.threads[i := Idle])
  {
    var d := s.sh.intake.queue[0];
    var pop, s1 := Do(i, Pop), s.(sh := PopShared(s.sh), threads := s.threads[i := Popped(d)]);
    assert s.sh.log + [] == s.sh.log;
    assert Enabled(c, s, pop) && Step(c, s, pop) == s1;
    HandleIsSolo(c, Worker, s1.sh, d, env);
    hide HandledShared, HandleWorks, CanAct, Act, NextPoint, SoloLegal, Solo, Step, Enabled;
    var ws := HandleWorks(c, Worker, s1.sh, d, env);
    SoloIsRun(c, s1, i, ws);
    trace := [pop] + Labels(i, ws);
    assert trace[1..] == Labels(i, ws);
    assert s1.threads[i := Idle] == s.threads[i := Idle];
  }

  /** A round of worker i is a run of the pipeline that leaves it at its loop head. */
  lemma WorkerRoundIsRun(c: Config, s: State, i: nat, env: Env) returns (trace: seq<Label>)
    requires i < c.workers && i < |s.threads| && s.threads[i] == Idle && s.stage == Serving
    requires c.limiter.Some? ==> ClockOk(s.sh, env)
    ensures Legal(c, s, trace) && After(c, s, trace) == s.(sh := RoundShared(c, s.sh, env))
  {
    hide HandledShared, CanAct, Act, NextPoint;
    var s1 := s.(threads := s.threads[i := Ready]);
    assert Enabled(c, s, Loop(i)) && Step(c, s, Loop(i)) == s1;
    assert s1.threads[i := Idle] == s.threads;
    var rest: seq<Label>;
    if s.sh.intake.queue == [] {
      rest := EmptyWaitIsRun(c, s1, i);
    } else {
      rest := PopHandleIsRun(c, s1, i, env);
    }
    hide Step, Enabled;
    trace := [Loop(i)] + rest;
    assert trace[1..] == rest;
  }

  lemma EmptyWaitIsRun(c: Config, s: State, i: nat) returns (trace: seq<Label>)
    requires i < c.workers && i < |s.threads| && s.threads[i] == Ready && s.sh.intake.queue == []
    ensures Legal(c, s, trace) && After(c, s, trace) == s.(threads := s.threads[i := Idle])
  {
    trace := [Do(i, PopNothing)];
    assert s.sh.log + [] == s.sh.log;
    assert Enabled(c, s, trace[0]) && Step(c, s, trace[0]) == s.(threads := s.threads[i := Idle]);
    hide CanAct, Act, NextPoint, Enabled, Step;
    assert trace[1..] == [];
  }

  // ------------------------------------------------------------------ the class

  class Processor {
    const c: Config
    const queue: BoundedQueue.ThreadSafeQueue
    const counters: Counters
    const limiter: Limiter.RateLimiter?
    const storage: Storage?
    ghost var sh: Shared

    ghost predicate Valid()
      reads this, queue, counters, limiter, storage
    {
      && queue.Valid() && PipelineQueue.Mirrors(queue.View(), sh.intake)
      && sh.m == counters.m
      && (limiter != null <==> c.limiter.Some?)
      && (limiter != null ==> limiter.P() == c.limiter.value && limiter.redis == sh.gate.store)
      && (storage != null <==> c.storage)
      && (storage != null ==> storage.counters == counters && storage.parse == c.parse)
      && (storage != null ==> storage.Valid() && storage.disk == sh.disk)
    }

    constructor (c: Config, queue: BoundedQueue.ThreadSafeQueue, counters: Counters,
                 limiter: Limiter.RateLimiter?, storage: Storage?, ghost intake: Intake)
      requires queue.Valid() && PipelineQueue.Mirrors(queue.View(), intake)
      requires limiter != null <==> c.limiter.Some?
      requires limiter != null ==> limiter.P() == c.limiter.value
      requires storage != null <==> c.storage
      requires storage != null ==> storage.counters == counters && storage.parse == c.parse && storage.Valid()
      ensures Valid() && this.c == c && this.queue == queue && this.counters == counters
      ensures this.limiter == limiter && this.storage == storage
      ensures sh.intake == intake && sh.log == [] && sh.gate.calls == []
    {
      this.c, this.queue, this.counters, this.limiter, this.storage := c, queue, counters, limiter, storage;
      ghost var redis := if limiter == null then map[] else limiter.redis;
      sh := Shared(
        intake, [], counters.m, Gate(redis, redis, []),
        if storage == null then Disk([], [], [], multiset{}, multiset{}, multiset{}, [], [], [], true)
        else storage.disk);
    }

    /** One broker call, and one retry after a refusal. */
    method ProduceToKafka(env: Env) returns (ghost attempts: nat)
      modifies counters
      ensures attempts == if !c.kafka then 0 else if env.produce then 1 else 2
      ensures counters.m == if c.kafka && !env.produce && !env.produceAgain
                            then old(counters.m).(kafkaFail := old(counters.m).kafkaFail + 1)
                            else old(counters.m)
    {
      attempts := 0;
      if !c.kafka {
        return;
      }
      var failed := !env.produce;
      attempts := 1;
      if failed {
        failed := !env.produceAgain;
        attempts := 2;
        if failed {
          counters.m := counters.m.(kafkaFail := counters.m.kafkaFail + 1);
        }
      }
    }

    /** The broker and the store, for a record that has been logged as forwarded. */
    method Deliver(data: Bytes, env: Env)
      requires Valid()
      modifies this, counters, storage
      ensures Valid() && sh == DeliveredShared(c, old(sh), data, env)
    {
      hide SavedDisk, SavedMetrics, BoundedQueue.Fifo, BoundedQueue.NoLostWakeup, Rows;
      ghost var attempts := ProduceToKafka(env);
      sh := AfterBroker(c, sh, env);
      if storage != null {
        var _ := storage.Save(data, env.flush);
        sh := SavedShared(sh, data, env.flush);
      }
    }

    /** The limiter, if there is one, then delivery. */
    method PassOn(data: Bytes, user: Bytes, env: Env)
      requires Valid()
      modifies this, counters, limiter, storage
      ensures Valid() && sh == PassedShared(c, Worker, old(sh), data, user, env)
    {
      hide DeliveredShared;
      if limiter != null {
        var ok := limiter.Allow(user, env.limitTime, env.limitOutcome);
        ghost var ask := AskFor(user, sh, env);
        sh := Asked(c, user, sh, env);
        if !ok {
          counters.m := counters.m.(rateLimited := counters.m.rateLimited + 1);
          sh := Logged(Worker, sh, data, Limited(env.now, ask)).(m := counters.m);
          return;
        }
        sh := Logged(Worker, sh, data, Forwarded(env.now, Some(ask)));
      } else {
        sh := Logged(Worker, sh, data, Forwarded(env.now, None));
      }
      Deliver(data, env);
    }

    /** The body of the worker loop for a frame just popped; every exit is a `continue`. */
    method WorkerBody(data: Bytes, env: Env)
      requires Valid()
      modifies this, counters, limiter, storage
      ensures Valid() && sh == HandledShared(c, Worker, old(sh), data, env)
    {
      hide Validate, PassedShared, BoundedQueue.Fifo, BoundedQueue.NoLostWakeup, Rows;
      counters.m := counters.m.(received := counters.m.received + 1);
      var parsed := c.parse(data);
      if parsed.None? {
        counters.m := counters.m.(parseFail := counters.m.parseFail + 1);
        sh := Logged(Worker, sh, data, Unparseable).(m := counters.m);
        return;
      }
      var evt := parsed.value;
      counters.m := counters.m.(parsed := counters.m.parsed + 1);
      if !Validate(evt, env.now) {
        counters.m := counters.m.(invalid := counters.m.invalid + 1);
        sh := Logged(Worker, sh, data, Invalid(env.now)).(m := counters.m);
        return;
      }
      counters.m := counters.m.(valid := counters.m.valid + 1);
      sh := sh.(m := counters.m);
      PassOn(data, evt.userId, env);
    }

    /** The body of the drain loop in `stop`, nested where the worker exits early. */
    method DrainBody(data: Bytes, env: Env)
      requires Valid()
      modifies this, counters, storage
      ensures Valid() && sh == HandledShared(c, Stopper, old(sh), data, env)
    {
      hide Validate, DeliveredShared;
      counters.m := counters.m.(received := counters.m.received + 1);
      var parsed := c.parse(data);
      if parsed.Some? {
        var evt := parsed.value;
        counters.m := counters.m.(parsed := counters.m.parsed + 1);
        if Validate(evt, env.now) {
          counters.m := counters.m.(valid := counters.m.valid + 1);
          sh := Logged(Stopper, sh.(m := counters.m), data, Forwarded(env.now, None));
          Deliver(data, env);
        } else {
          counters.m := counters.m.(invalid := counters.m.invalid + 1);
          sh := Logged(Stopper, sh, data, Invalid(env.now)).(m := counters.m);
        }
      } else {
        counters.m := counters.m.(parseFail := counters.m.parseFail + 1);
        sh := Logged(Stopper, sh, data, Unparseable).(m := counters.m);
      }
    }

    /** `try_pop` on the shared queue, with the history view kept in step. */
    method PopFront() returns (data: Option<Bytes>)
      requires Valid()
      modifies this, queue
      ensures Valid()
      ensures data.None? ==> old(sh.intake.queue) == [] && sh == old(sh)
      ensures data.Some? ==>
                old(sh.intake.queue) != [] && data.value == old(sh.intake.queue)[0] && sh == PopShared(old(sh))
    {
      data := queue.TryPop();
      if data.Some? {
        sh := PopShared(sh);
      }
    }

    /** `try_pop_for` by worker i, with the history view kept in step. */
    method PopFor(i: nat) returns (data: Option<Bytes>)
      requires Valid() && i < |queue.consumers| && queue.consumers[i] == BoundedQueue.Outside
      modifies this, queue
      ensures Valid() && queue.consumers == old(queue.consumers)
      ensures data.None? ==> old(sh.intake.queue) == [] && sh == old(sh)
      ensures data.Some? ==>
                old(sh.intake.queue) != [] && data.value == old(sh.intake.queue)[0] && sh == PopShared(old(sh))
    {
      BoundedQueue.WaitIsRun(queue.capacity, queue.View(), i);
      data := queue.TryPopFor(i);
      if data.Some? {
        sh := PopShared(sh);
      }
    }

    /** The loop of worker i, for as many rounds as its running flag stays up. */
    method Work(i: nat, envs: seq<Env>)
      requires Valid() && i < |queue.consumers| && queue.consumers[i] == BoundedQueue.Outside
      modifies this, queue, counters, limiter, storage
      ensures Valid() && sh == WorkedShared(c, old(sh), envs) && queue.consumers == old(queue.consumers)
    {
      hide HandledShared;
      for n := 0 to |envs|
        invariant Valid() && WorkedShared(c, sh, envs[n..]) == WorkedShared(c, old(sh), envs)
        invariant queue.consumers == old(queue.consumers)
      {
        assert envs[n..][1..] == envs[n + 1..];
        var data := PopFor(i);
        if data.Some? {
          WorkerBody(data.value, envs[n]);
        }
      }
    }

    /** The drain loop: handle frames until the queue is empty. */
    method DrainQueue(envs: nat -> Env)
      requires Valid()
      modifies this, queue, counters, storage
      ensures Valid() && sh == DrainedShared(c, old(sh), envs, 0)
      ensures sh.intake.queue == []
    {
      hide HandledShared;
      var n := 0;
      var more := true;
      while more
        invariant Valid() && DrainedShared(c, sh, envs, n) == DrainedShared(c, old(sh), envs, 0)
        invariant !more ==> sh.intake.queue == []
        decreases more, |sh.intake.queue|
      {
        ghost var before := sh;
        var data := PopFront();
        match data {
          case None => more := false;
          case Some(d) =>
            HandledKeepsIntake(c, Stopper, sh, d, envs(n));
            DrainBody(d, envs(n));
            n := n + 1;
        }
      }
    }

    /** `stop` from the point where the worker threads have been joined and nobody pushes. */
    method Stop(envs: nat -> Env, last: FlushEnv)
      requires Valid()
      modifies this, queue, counters, storage
      ensures Valid() && sh == StoppedShared(c, old(sh), envs, last)
      ensures queue.items == []
      ensures storage != null ==> storage.buffer == []
    {
      DrainQueue(envs);
      hide DrainedShared, FlushedDisk, FlushedMetrics;
      if storage != null {
        storage.FlushAndStop(last);
        sh := StopFlushed(c, sh, last);
      }
    }
  }
}
