/**
 * The batching store as the code that runs it: save, flush, column building, retries and the
 * dead-letter file. Each method is proved against what it does to the pipeline's shared state.
 */
module BatchStore {
  import opened Basics
  import opened Events
  import opened Pipeline
  import opened PipelineBags
  import DeadLetter

  /** What the outside does during one flush: three insert outcomes, then rename and open. */
  datatype FlushEnv = FlushEnv(insert0: bool, insert1: bool, insert2: bool, renameOk: bool, openOk: bool)

  function InsertOk(env: FlushEnv, k: nat): bool {
    if k == 0 then env.insert0 else if k == 1 then env.insert1 else env.insert2
  }

  // ------------------------------------------------------------ what a flush does

  predicate Stores(env: FlushEnv) {
    env.insert0 || env.insert1 || env.insert2
  }

  /** A flush stores its batch, or writes it to the file, or loses it. */
  function FlushedDisk(d: Disk, batch: seq<Bytes>, env: FlushEnv): Disk {
    if Stores(env) then d.(stored := d.stored + multiset(batch))
    else AppendDead(d, batch, env.renameOk, env.openOk)
  }

  function FlushedMetrics(m: Metrics, batch: seq<Bytes>, env: FlushEnv): Metrics {
    if Stores(env) then m.(stored := m.stored + |batch|)
    else if env.openOk then m.(storeDead := m.storeDead + |batch|)
    else m
  }

  /**
   * A flush puts the whole batch in exactly one of three places, and counts it there: in the table
   * if one of three inserts succeeds, else at the end of the file, which is first emptied if it is
   * larger than 104857600 bytes and can be renamed, else nowhere.
   */
  lemma FlushResolvesBatch(d: Disk, m: Metrics, batch: seq<Bytes>, env: FlushEnv)
    ensures var d', m' := FlushedDisk(d, batch, env), FlushedMetrics(m, batch, env);
            if env.insert0 || env.insert1 || env.insert2 then
              d' == d.(stored := d.stored + multiset(batch)) && m' == m.(stored := m.stored + |batch|)
            else if env.openOk then
              && d'.file == (if |d.file| > 104857600 && env.renameOk then [] else d.file) + DeadLetter.Text(batch)
              && d'.dead == d.dead + multiset(batch) && d'.stored == d.stored && d'.lost == d.lost
              && m' == m.(storeDead := m.storeDead + |batch|)
            else
              && d'.file == (if |d.file| > 104857600 && env.renameOk then [] else d.file)
              && d'.lost == d.lost + multiset(batch) && d'.stored == d.stored && d'.dead == d.dead && m' == m
    ensures FlushedDisk(d, batch, env).buffer == d.buffer && FlushedDisk(d, batch, env).saves == d.saves
  {
    hide DeadLetter.Text;
  }

  // ------------------------------------------------------------------- columns

  datatype Columns = Columns(
    eventId: seq<Bytes>, userId: seq<Bytes>, eventType: seq<Bytes>, platform: seq<Bytes>,
    ts: seq<UInt64>, payload: seq<Bytes>)

  predicate Rectangular(cols: Columns, n: nat) {
    |cols.eventId| == |cols.userId| == |cols.eventType| == |cols.platform| == |cols.ts| == |cols.payload| == n
  }

  function RowAt(cols: Columns, i: nat): Row
    requires exists n :: Rectangular(cols, n) && i < n
  {
    Row(cols.eventId[i], cols.userId[i], cols.eventType[i], cols.platform[i], cols.ts[i], cols.payload[i])
  }

  function Rows(parse: Parser, batch: seq<Bytes>): seq<Row> {
    seq(|batch|, i requires 0 <= i < |batch| => RecordRow(parse, batch[i]))
  }

  /** The column loop: six columns of the batch's length whose row i is the row of record i. */
  method BuildColumns(parse: Parser, batch: seq<Bytes>) returns (cols: Columns)
    ensures Rectangular(cols, |batch|)
    ensures forall i :: 0 <= i < |batch| ==> RowAt(cols, i) == RecordRow(parse, batch[i])
    ensures forall i :: 0 <= i < |batch| && parse(batch[i]).Some? ==>
              var e := parse(batch[i]).value;
              && cols.eventId[i] == e.eventId && cols.userId[i] == e.userId && cols.eventType[i] == e.eventType
              && cols.platform[i] == e.platform && cols.payload[i] == e.payload
              && cols.ts[i] == e.ts % 0x1_0000_0000_0000_0000
    ensures forall i :: 0 <= i < |batch| && parse(batch[i]).None? ==>
              && cols.eventId[i] == cols.userId[i] == cols.eventType[i] == cols.platform[i] == []
              && cols.ts[i] == 0 && cols.payload[i] == batch[i]
  {
    var ids, users, types, platforms, stamps, payloads := [], [], [], [], [], [];
    for i := 0 to |batch|
      invariant |ids| == |users| == |types| == |platforms| == |stamps| == |payloads| == i
      invariant forall j :: 0 <= j < i ==>
                  Row(ids[j], users[j], types[j], platforms[j], stamps[j], payloads[j]) == RecordRow(parse, batch[j])
    {
      match parse(batch[i]) {
        case Some(e) =>
          ids := ids + [e.eventId];
          users := users + [e.userId];
          types := types + [e.eventType];
          platforms := platforms + [e.platform];
          stamps := stamps + [ToUnsigned(e.ts)];
          payloads := payloads + [e.payload];
        case None =>
          ids := ids + [[]];
          users := users + [[]];
          types := types + [[]];
          platforms := platforms + [[]];
          stamps := stamps + [0];
          payloads := payloads + [batch[i]];
      }
    }
    cols := Columns(ids, users, types, platforms, stamps, payloads);
    assert Rectangular(cols, |batch|);
  }

  /** The loop that streams the records of a batch to the end of the file. */
  method AppendRecords(file: Bytes, batch: seq<Bytes>) returns (text: Bytes)
    ensures text == file + DeadLetter.Text(batch)
  {
    text := file;
    DeadLetter.NoText();
    for i := 0 to |batch|
      invariant text == file + DeadLetter.Text(batch[..i])
    {
      DeadLetter.TextGrows(batch, i);
      text := text + (batch[i] + DeadLetter.SEPARATOR);
    }
    assert batch[..|batch|] == batch;
  }

  // --------------------------------------------------------------- the classes

  /** The counters, shared by reference. */
  class Counters {
    var m: Metrics

    constructor ()
      ensures m == ZERO
    {
      m := ZERO;
    }
  }

  class Storage {
    const parse: Parser
    const counters: Counters
    var buffer: seq<Bytes>
    var file: Bytes            // the dead-letter file on disk
    var table: seq<Row>        // rows inserted so far
    ghost var disk: Disk       // the same, with history
    ghost var inserted: seq<Bytes>

    ghost predicate Valid()
      reads this
    {
      && disk.buffer == buffer && disk.file == file
      && |buffer| < BATCH_SIZE
      && table == Rows(parse, inserted)
      && multiset(inserted) == disk.stored
    }

    constructor (parse: Parser, counters: Counters, file: Bytes)
      ensures Valid() && this.parse == parse && this.counters == counters
      ensures disk == Disk([], [], [], multiset{}, multiset{}, multiset{}, file, file, [], true)
    {
      this.parse, this.counters, this.file := parse, counters, file;
      buffer, table, inserted := [], [], [];
      disk := Disk([], [], [], multiset{}, multiset{}, multiset{}, file, file, [], true);
    }

    /** One insert call: all rows of the block, or an exception. */
    method Insert(cols: Columns, ghost batch: seq<Bytes>, ok: bool)
      requires Valid() && Rectangular(cols, |batch|)
      requires forall i :: 0 <= i < |batch| ==> RowAt(cols, i) == RecordRow(parse, batch[i])
      modifies this
      ensures Valid() && buffer == old(buffer) && file == old(file)
      ensures disk == if ok then old(disk).(stored := old(disk.stored) + multiset(batch)) else old(disk)
      ensures inserted == if ok then old(inserted) + batch else old(inserted)
      ensures table == if ok then old(table) + Rows(parse, batch) else old(table)
    {
      if ok {
        var n := |cols.eventId|;
        var rows := seq(n, i requires 0 <= i < n && Rectangular(cols, n) => RowAt(cols, i));
        assert rows == Rows(parse, batch);
        assert Rows(parse, inserted + batch) == Rows(parse, inserted) + Rows(parse, batch);
        table := table + rows;
        inserted := inserted + batch;
        disk := disk.(stored := disk.stored + multiset(batch));
      }
    }

    method WriteDeadLetter(batch: seq<Bytes>, renameOk: bool, openOk: bool)
      requires Valid()
      modifies this, counters
      ensures Valid() && buffer == old(buffer) && inserted == old(inserted)
      ensures disk == AppendDead(old(disk), batch, renameOk, openOk)
      ensures counters.m == if openOk then old(counters.m).(storeDead := old(counters.m).storeDead + |batch|)
                            else old(counters.m)
    {
      hide DeadLetter.Text, Rows;
      var text := file;
      if |file| > ROTATE_ABOVE && renameOk {
        text := [];
      }
      disk := AppendDead(disk, batch, renameOk, openOk);
      if !openOk {
        file := text;
        return;
      }
      file := AppendRecords(text, batch);
      counters.m := counters.m.(storeDead := counters.m.storeDead + |batch|);
    }

    method DoFlush(batch: seq<Bytes>, env: FlushEnv)
      requires Valid()
      modifies this, counters
      ensures Valid() && buffer == old(buffer)
      ensures inserted
           == old(inserted) + if env.insert0 || env.insert1 || env.insert2 then batch else []
      ensures disk == if batch == [] then old(disk) else FlushedDisk(old(disk), batch, env)
      ensures counters.m == if batch == [] then old(counters.m) else FlushedMetrics(old(counters.m), batch, env)
    {
      if |batch| == 0 {
        return;
      }
      var cols := BuildColumns(parse, batch);
      var retry := 0;
      while retry < 3
        invariant 0 <= retry <= 3
        invariant Valid() && buffer == old(buffer) && disk == old(disk) && counters.m == old(counters.m)
        invariant inserted == old(inserted)
        invariant forall k :: 0 <= k < retry ==> !InsertOk(env, k)
      {
        Insert(cols, batch, InsertOk(env, retry));
        if InsertOk(env, retry) {
          counters.m := counters.m.(stored := counters.m.stored + |batch|);
          return;
        }
        retry := retry + 1;
      }
      assert !InsertOk(env, 0) && !InsertOk(env, 1) && !InsertOk(env, 2);
      WriteDeadLetter(batch, env.renameOk, env.openOk);
    }

    method Save(data: Bytes, env: FlushEnv) returns (ok: bool)
      requires Valid()
      modifies this, counters
      ensures Valid() && ok
      ensures buffer == if |old(buffer)| + 1 < 1000 then old(buffer) + [data] else []
      ensures disk == SavedDisk(old(disk), data, env)
      ensures counters.m == SavedMetrics(old(disk), old(counters.m), data, env)
    {
      ok := true;
      buffer := buffer + [data];
      if |buffer| < BATCH_SIZE {
        disk := SaveStep(disk, data);
        return;
      }
      var batch := buffer;
      buffer := [];
      disk := SaveStep(disk, data);
      DoFlush(batch, env);
    }

    method FlushAndStop(env: FlushEnv)
      requires Valid()
      modifies this, counters
      ensures Valid() && buffer == []
      ensures disk == if old(buffer) == [] then old(disk) else FlushedDisk(FlushStep(old(disk)), old(buffer), env)
      ensures counters.m
           == if old(buffer) == [] then old(counters.m) else FlushedMetrics(old(counters.m), old(buffer), env)
    {
      if |buffer| == 0 {
        return;
      }
      var batch := buffer;
      buffer := [];
      disk := FlushStep(disk);
      DoFlush(batch, env);
    }
  }

  /** A save, with the flush it may trigger. */
  function SavedDisk(d: Disk, data: Bytes, env: FlushEnv): Disk {
    if |d.buffer| + 1 < BATCH_SIZE then SaveStep(d, data)
    else FlushedDisk(SaveStep(d, data), d.buffer + [data], env)
  }

  function SavedMetrics(d: Disk, m: Metrics, data: Bytes, env: FlushEnv): Metrics {
    if |d.buffer| + 1 < BATCH_SIZE then m else FlushedMetrics(m, d.buffer + [data], env)
  }
}
