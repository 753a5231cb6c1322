/** Events, the field check, and the row an event becomes in the table. */
module Events {
  import opened Basics

  type Int64 = x: int | -0x8000_0000_0000_0000 <= x < 0x8000_0000_0000_0000
  type UInt64 = x: int | 0 <= x < 0x1_0000_0000_0000_0000

  datatype Event = Event(
    eventId: Bytes, userId: Bytes, platform: Bytes, eventType: Bytes, ts: Int64, payload: Bytes)

  /** Deserialisation: any deterministic function from bytes to an optional event. */
  type Parser = Bytes -> Option<Event>

  const DAY_MS: int := 86400000

  /** The field check, in the order of the source; `now` is the clock in seconds. */
  predicate Validate(e: Event, now: int) {
    if |e.userId| == 0 || |e.userId| > 256 then false
    else if |e.eventType| == 0 || |e.eventType| > 256 then false
    else if |e.platform| > 64 then false
    else if |e.payload| > 65536 then false
    else if e.ts <= 0 then false
    else
      var nowMs := now * 1000;
      if e.ts < nowMs - DAY_MS * 30 then false
      else if e.ts > nowMs + DAY_MS * 1 then false
      else true
  }

  /**
   * An event is valid exactly when its fields are within bounds and the clock lies between one day
   * before and thirty days after its time stamp.
   */
  lemma ValidExactlyWithinBounds(e: Event, now: int)
    ensures Validate(e, now)
       <==> && 1 <= |e.userId| <= 256 && 1 <= |e.eventType| <= 256
            && |e.platform| <= 64 && |e.payload| <= 65536
            && 0 < e.ts && e.ts - 86400000 <= now * 1000 <= e.ts + 2592000000
  {
  }

  datatype Row = Row(
    eventId: Bytes, userId: Bytes, eventType: Bytes, platform: Bytes, ts: UInt64, payload: Bytes)

  /** The signed-to-unsigned conversion, modulo 2^64. */
  function ToUnsigned(x: Int64): UInt64 {
    if x >= 0 then x else x + 0x1_0000_0000_0000_0000
  }

  function EventRow(e: Event): Row {
    Row(e.eventId, e.userId, e.eventType, e.platform, ToUnsigned(e.ts), e.payload)
  }

  /** The row of a raw record; an unparseable one keeps its bytes as payload. */
  function RecordRow(parse: Parser, record: Bytes): Row {
    match parse(record)
    case Some(e) => EventRow(e)
    case None => Row([], [], [], [], 0, record)
  }

  /**
   * Rows lose nothing: each field is in its own column, different events have different rows, and
   * valid time stamps are kept as they are.
   */
  lemma RowsAreFaithful(e: Event, f: Event, now: int)
    ensures EventRow(e) == Row(eventId := e.eventId, userId := e.userId, eventType := e.eventType,
                               platform := e.platform, ts := e.ts % 0x1_0000_0000_0000_0000, payload := e.payload)
    ensures EventRow(e) == EventRow(f) ==> e == f
    ensures Validate(e, now) ==> EventRow(e).ts == e.ts
  {
    assert ToUnsigned(e.ts) == ToUnsigned(f.ts) ==> e.ts == f.ts;
  }
}
