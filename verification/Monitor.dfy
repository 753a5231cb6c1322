/** The metrics page and the line reader that the integration test uses on it. */
module Monitor {
  import opened Basics
  import Pipeline
  import PipelineScrape

  // ---------------------------------------------------------------- printing

  function Digit(d: nat): char
    requires d < 10
  {
    '0' + d as char
  }

  /** Decimal, as an unsigned counter is streamed. */
  function Decimal(n: nat): string {
    if n < 10 then [Digit(n)] else Decimal(n / 10) + [Digit(n % 10)]
  }

  function Name(k: nat): string
    requires k < 12
  {
    match k
    case 0 => "event_received_total"
    case 1 => "event_parsed_total"
    case 2 => "event_valid_total"
    case 3 => "event_invalid_total"
    case 4 => "event_parse_fail_total"
    case 5 => "event_rate_limited_total"
    case 6 => "event_kafka_ok_total"
    case 7 => "event_kafka_fail_total"
    case 8 => "event_stored_total"
    case 9 => "event_store_fail_total"
    case 10 => "event_store_dead_total"
    case _ => "event_queue_drop_total"
  }

  function Help(k: nat): string
    requires k < 12
  {
    match k
    case 0 => "Total TCP events received"
    case 1 => "Total protobuf parsed successfully"
    case 2 => "Valid events after field check"
    case 3 => "Events failing field validation"
    case 4 => "Events failing protobuf parse"
    case 5 => "Events dropped by rate limiter"
    case 6 => "Events successfully sent to Kafka"
    case 7 => "Events failed to send to Kafka"
    case 8 => "Events stored to ClickHouse"
    case 9 => "Events failed to store"
    case 10 => "Events written to dead_letter"
    case _ => "Events dropped due to queue full"
  }

  function HelpLine(name: string, help: string): string { "# HELP " + name + " " + help }
  function TypeLine(name: string, kind: string): string { "# TYPE " + name + " " + kind }
  function ValueLine(name: string, value: nat): string { name + " " + Decimal(value) }

  function FormatMetric(name: string, help: string, kind: string, value: nat): string {
    (HelpLine(name, help) + "\n") + (TypeLine(name, kind) + "\n") + (ValueLine(name, value) + "\n")
  }

  /** The page from metric k on. */
  function PageFrom(values: seq<nat>, k: nat): string
    requires |values| == 12 && k <= 12
    decreases 12 - k
  {
    if k == 12 then "" else FormatMetric(Name(k), Help(k), "counter", values[k]) + PageFrom(values, k + 1)
  }

  function Page(values: seq<nat>): string
    requires |values| == 12
  {
    PageFrom(values, 0)
  }

  // ----------------------------------------------------------------- reading

  /** The characters at which a text is cut into lines. */
  predicate IsBreak(c: char) {
    var n := c as int;
    10 <= n <= 13 || 28 <= n <= 30 || n == 0x85 || n == 0x2028 || n == 0x2029
  }

  predicate IsSpace(c: char) {
    var n := c as int;
    || 9 <= n <= 13 || 28 <= n <= 32 || n == 0x85 || n == 0xa0 || n == 0x1680
    || 0x2000 <= n <= 0x200a || n == 0x2028 || n == 0x2029 || n == 0x202f || n == 0x205f || n == 0x3000
  }

  predicate OneLine(s: string) {
    forall i :: 0 <= i < |s| ==> !IsBreak(s[i])
  }

  /** Length of the first line of a text. */
  function LineLength(s: string): (n: nat)
    ensures n <= |s| && OneLine(s[..n]) && (n < |s| ==> IsBreak(s[n]))
  {
    if s == "" || IsBreak(s[0]) then 0 else 1 + LineLength(s[1..])
  }

  /** Cut at line breaks; a carriage return and a line feed count as one, a final break adds no line. */
  function Lines(s: string): seq<string>
    decreases |s|
  {
    if s == "" then []
    else
      var n := LineLength(s);
      var skip := if n + 1 < |s| && s[n] == '\r' && s[n + 1] == '\n' then 2 else 1;
      [s[..n]] + if n + skip <= |s| then Lines(s[n + skip..]) else []
  }

  predicate StartsWith(line: string, prefix: string) {
    |prefix| <= |line| && line[..|prefix|] == prefix
  }

  /** The last whitespace-separated word. */
  function LastWord(line: string): string {
    if line == "" then ""
    else
      var c, front := line[|line| - 1], line[..|line| - 1];
      if IsSpace(c) then LastWord(front)
      else if front == "" || IsSpace(front[|front| - 1]) then [c]
      else LastWord(front) + [c]
  }

  function Number(s: string): Option<nat> {
    if s == "" then None
    else
      var c, front := s[|s| - 1], s[..|s| - 1];
      if !('0' <= c <= '9') then None
      else
        var d := c as int - '0' as int;
        if front == "" then Some(d)
        else if Number(front).None? then None else Some(10 * Number(front).value + d)
  }

  /** The last value the reader sees for a metric name. */
  function Read(lines: seq<string>, name: string): Option<nat> {
    if lines == [] then None
    else if Read(lines[1..], name).Some? then Read(lines[1..], name)
    else if StartsWith(lines[0], name) && !StartsWith(lines[0], "#") then Number(LastWord(lines[0]))
    else None
  }

  // ------------------------------------------------------------------ proofs

  predicate AllDigits(s: string) {
    s != "" && forall i :: 0 <= i < |s| ==> '0' <= s[i] <= '9'
  }

  lemma {:induction false} DecimalReadsBack(n: nat)
    ensures AllDigits(Decimal(n)) && Number(Decimal(n)) == Some(n)
  {
    if n >= 10 {
      DecimalReadsBack(n / 10);
      var s := Decimal(n);
      assert s[..|s| - 1] == Decimal(n / 10);
    }
  }

  function Pow10(k: nat): nat {
    if k == 0 then 1 else 10 * Pow10(k - 1)
  }

  /** A printed number has as many digits as it needs in base ten, and no more. */
  lemma {:induction false} DecimalIsShortest(n: nat)
    ensures var k := |Decimal(n)|; k > 0 && n < Pow10(k) && (n > 0 ==> Pow10(k - 1) <= n)
  {
    if n >= 10 {
      DecimalIsShortest(n / 10);
    }
  }

  lemma LastWordStep(front: string, c: char)
    requires !IsSpace(c)
    ensures LastWord(front + [c])
         == if front == "" || IsSpace(front[|front| - 1]) then [c] else LastWord(front) + [c]
  {
    hide IsSpace;
    var line := front + [c];
    assert |line| == |front| + 1 && line[|line| - 1] == c && line[..|line| - 1] == front;
  }

  lemma {:induction false} LastWordAfterSpace(front: string, word: string)
    requires AllDigits(word) && front != "" && IsSpace(front[|front| - 1])
    ensures LastWord(front + word) == word
  {
    hide LastWord;
    var n := |word| - 1;
    var shorter := word[..n];
    assert front + word == (front + shorter) + [word[n]];
    LastWordStep(front + shorter, word[n]);
    if n == 0 {
      assert front + shorter == front;
    } else {
      assert (front + shorter)[|front| + n - 1] == word[n - 1];
      LastWordAfterSpace(front, shorter);
    }
    assert shorter + [word[n]] == word;
  }

  lemma {:induction false} LineLengthOf(l: string, rest: string)
    requires OneLine(l)
    ensures LineLength(l + "\n" + rest) == |l|
  {
    if l != "" {
      assert (l + "\n" + rest)[1..] == l[1..] + "\n" + rest;
      LineLengthOf(l[1..], rest);
    }
  }

  lemma FirstLine(l: string, rest: string)
    requires OneLine(l)
    ensures Lines((l + "\n") + rest) == [l] + Lines(rest)
  {
    LineLengthOf(l, rest);
    var s := (l + "\n") + rest;
    assert s[..|l|] == l && s[|l|] == '\n' && s[|l| + 1..] == rest;
  }

  predicate Visible(s: string) {
    forall i :: 0 <= i < |s| ==> 32 <= s[i] as int < 127
  }

  lemma NamesVisible(k: nat)
    requires k < 12
    ensures Visible(Name(k))
  {
    hide Name, Visible;
    if k < 4 {
      NamesVisible0(k);
    } else if k < 8 {
      NamesVisible1(k);
    } else {
      NamesVisible2(k);
    }
  }

  lemma NamesVisible0(k: nat)
    requires 0 <= k < 4
    ensures Visible(Name(k))
  {
  }

  lemma NamesVisible1(k: nat)
    requires 4 <= k < 8
    ensures Visible(Name(k))
  {
  }

  lemma NamesVisible2(k: nat)
    requires 8 <= k < 12
    ensures Visible(Name(k))
  {
  }

  lemma HelpsVisible(k: nat)
    requires k < 12
    ensures Visible(Help(k))
  {
    hide Help, Visible;
    if k < 2 {
      HelpsVisible0(k);
    } else if k < 4 {
      HelpsVisible1(k);
    } else if k < 6 {
      HelpsVisible2(k);
    } else if k < 8 {
      HelpsVisible3(k);
    } else if k < 10 {
      HelpsVisible4(k);
    } else {
      HelpsVisible5(k);
    }
  }

  lemma HelpsVisible0(k: nat)
    requires 0 <= k < 2
    ensures Visible(Help(k))
  {
  }

  lemma HelpsVisible1(k: nat)
    requires 2 <= k < 4
    ensures Visible(Help(k))
  {
  }

  lemma HelpsVisible2(k: nat)
    requires 4 <= k < 6
    ensures Visible(Help(k))
  {
  }

  lemma HelpsVisible3(k: nat)
    requires 6 <= k < 8
    ensures Visible(Help(k))
  {
  }

  lemma HelpsVisible4(k: nat)
    requires 8 <= k < 10
    ensures Visible(Help(k))
  {
  }

  lemma HelpsVisible5(k: nat)
    requires 10 <= k < 12
    ensures Visible(Help(k))
  {
  }

  /** Four letters of each name, enough to tell the twelve apart. */
  function Code(k: nat): (char, char, char, char)
    requires k < 12
  {
    match k
    case 0 => ('r', 'e', 'v', 'e')
    case 1 => ('p', 'a', 'd', '_')
    case 2 => ('v', 'a', '_', 't')
    case 3 => ('i', 'n', 'i', 'd')
    case 4 => ('p', 'a', '_', 'f')
    case 5 => ('r', 'a', 'l', 'i')
    case 6 => ('k', 'a', '_', 'o')
    case 7 => ('k', 'a', '_', 'f')
    case 8 => ('s', 't', 'd', '_')
    case 9 => ('s', 't', '_', 'f')
    case 10 => ('s', 't', '_', 'd')
    case _ => ('q', 'u', '_', 'd')
  }

  lemma NameHasCode(k: nat)
    requires k < 12
    ensures |Name(k)| >= 17 && Name(k)[0] == 'e'
    ensures (Name(k)[6], Name(k)[7], Name(k)[11], Name(k)[12]) == Code(k)
  {
  }

  lemma PrefixSharesLetters(a: string, b: string, tail: string)
    requires |a| >= 13 && |b| >= 13 && StartsWith(b + tail, a)
    ensures forall i :: 0 <= i < 13 ==> a[i] == b[i]
  {
    assert forall i :: 0 <= i < 13 ==> a[i] == (b + tail)[..|a|][i];
  }

  /** A value line matches its own name and no other. */
  lemma OnlyItsOwnName(j: nat, k: nat, value: nat)
    requires j < 12 && k < 12
    ensures StartsWith(ValueLine(Name(k), value), Name(j)) <==> j == k
    ensures !StartsWith(ValueLine(Name(k), value), "#")
  {
    hide Name, Decimal;
    NameHasCode(j);
    NameHasCode(k);
    var tail := " " + Decimal(value);
    assert ValueLine(Name(k), value) == Name(k) + tail;
    assert (Name(k) + tail)[..|Name(k)|] == Name(k);
    if StartsWith(Name(k) + tail, Name(j)) {
      PrefixSharesLetters(Name(j), Name(k), tail);
      assert Code(j) == Code(k);
    }
  }

  lemma ValueLineReads(name: string, value: nat)
    ensures Number(LastWord(ValueLine(name, value))) == Some(value)
  {
    DecimalReadsBack(value);
    LastWordAfterSpace(name + " ", Decimal(value));
  }

  /** The three lines of one metric. */
  lemma MetricLines(k: nat, value: nat, rest: string)
    requires k < 12
    ensures Lines(FormatMetric(Name(k), Help(k), "counter", value) + rest)
         == [HelpLine(Name(k), Help(k)), TypeLine(Name(k), "counter"), ValueLine(Name(k), value)] + Lines(rest)
  {
    NamesVisible(k);
    HelpsVisible(k);
    DecimalReadsBack(value);
    hide Name, Help, Decimal, Lines;
    var h, t, v := HelpLine(Name(k), Help(k)), TypeLine(Name(k), "counter"), ValueLine(Name(k), value);
    assert OneLine(h) && OneLine(t) && OneLine(v);
    ThreeLines(h, t, v, rest);
  }

  lemma ThreeLines(h: string, t: string, v: string, rest: string)
    requires OneLine(h) && OneLine(t) && OneLine(v)
    ensures Lines((h + "\n") + (t + "\n") + (v + "\n") + rest) == [h, t, v] + Lines(rest)
  {
    hide Lines, OneLine;
    assert (h + "\n") + (t + "\n") + (v + "\n") + rest == (h + "\n") + ((t + "\n") + ((v + "\n") + rest));
    FirstLine(h, (t + "\n") + ((v + "\n") + rest));
    FirstLine(t, (v + "\n") + rest);
    FirstLine(v, rest);
    assert [h] + ([t] + ([v] + Lines(rest))) == [h, t, v] + Lines(rest);
  }

  lemma CommentsAreSkipped(name: string, h: string, t: string, more: seq<string>)
    requires StartsWith(h, "#") && StartsWith(t, "#")
    ensures Read([h, t] + more, name) == Read(more, name)
  {
    assert ([h, t] + more)[1..] == [t] + more;
    assert ([t] + more)[1..] == more;
  }

  /** Reading the three lines of metric k in front of the rest of the page. */
  lemma ReadMetric(k: nat, j: nat, value: nat, more: seq<string>)
    requires k < 12 && j < 12
    ensures var lines := [HelpLine(Name(k), Help(k)), TypeLine(Name(k), "counter"), ValueLine(Name(k), value)] + more;
            Read(lines, Name(j))
            == if Read(more, Name(j)).Some? then Read(more, Name(j)) else if j == k then Some(value) else None
  {
    hide Name, Help, HelpLine, TypeLine, ValueLine, LastWord, Number, StartsWith;
    var h, t, v := HelpLine(Name(k), Help(k)), TypeLine(Name(k), "counter"), ValueLine(Name(k), value);
    OnlyItsOwnName(j, k, value);
    ValueLineReads(Name(k), value);
    Marked(Name(k), Help(k));
    assert [h, t, v] + more == [h, t] + ([v] + more);
    CommentsAreSkipped(Name(j), h, t, [v] + more);
    assert ([v] + more)[1..] == more;
  }

  lemma {:induction false} PageReadsBack(values: seq<nat>, k: nat, j: nat)
    requires |values| == 12 && k <= 12 && j < 12
    ensures Read(Lines(PageFrom(values, k)), Name(j)) == if k <= j then Some(values[j]) else None
    decreases 12 - k
  {
    hide Name, Help, Read, HelpLine, TypeLine, ValueLine, FormatMetric;
    if k < 12 {
      PageReadsBack(values, k + 1, j);
      MetricLines(k, values[k], PageFrom(values, k + 1));
      ReadMetric(k, j, values[k], Lines(PageFrom(values, k + 1)));
    } else {
      assert Read([], Name(j)) == None by { NothingRead(Name(j)); }
    }
  }

  lemma NothingRead(name: string)
    ensures Read([], name) == None
  {
  }

  lemma Marked(name: string, help: string)
    ensures StartsWith(HelpLine(name, help), "#") && StartsWith(TypeLine(name, "counter"), "#")
  {
  }

  /** Whatever twelve values are printed, the reader recovers each of them by name. */
  lemma PageRoundTrip(values: seq<nat>, j: nat)
    requires |values| == 12 && j < 12
    ensures Read(Lines(Page(values)), Name(j)) == Some(values[j])
  {
    PageReadsBack(values, 0, j);
  }

  lemma {:induction false} PageLines(values: seq<nat>, k: nat, j: nat)
    requires |values| == 12 && k <= j < 12
    ensures var lines := Lines(PageFrom(values, k));
            && |lines| == 3 * (12 - k)
            && lines[3 * (j - k)] == HelpLine(Name(j), Help(j))
            && lines[3 * (j - k) + 1] == TypeLine(Name(j), "counter")
            && lines[3 * (j - k) + 2] == ValueLine(Name(j), values[j])
    decreases 12 - k
  {
    hide Name, Help, Lines, HelpLine, TypeLine, ValueLine, FormatMetric;
    MetricLines(k, values[k], PageFrom(values, k + 1));
    var h, t, v := HelpLine(Name(k), Help(k)), TypeLine(Name(k), "counter"), ValueLine(Name(k), values[k]);
    var rest := Lines(PageFrom(values, k + 1));
    assert Lines(PageFrom(values, k)) == [h, t, v] + rest;
    if k + 1 < 12 {
      var i := if j > k then j else k + 1;
      PageLines(values, k + 1, i);
      hide PageFrom;
      if j > k {
        AfterThree(h, t, v, rest, 3 * (j - k));
        AfterThree(h, t, v, rest, 3 * (j - k) + 1);
        AfterThree(h, t, v, rest, 3 * (j - k) + 2);
      }
    } else {
      assert rest == [] by { NoLines(); }
    }
  }

  lemma AfterThree(h: string, t: string, v: string, rest: seq<string>, i: nat)
    requires 3 <= i < 3 + |rest|
    ensures ([h, t, v] + rest)[i] == rest[i - 3]
  {
  }

  lemma NoLines()
    ensures Lines("") == []
  {
  }

  /** The page has three lines for each metric, in this order and format. */
  lemma PageFormat(values: seq<nat>, j: nat)
    requires |values| == 12 && j < 12
    ensures var lines := Lines(Page(values));
            && |lines| == 36
            && lines[3 * j] == "# HELP " + Name(j) + " " + Help(j)
            && lines[3 * j + 1] == "# TYPE " + Name(j) + " counter"
            && lines[3 * j + 2] == Name(j) + " " + Decimal(values[j])
  {
    hide Name, Help, Lines, PageFrom, Decimal;
    PageLines(values, 0, j);
    assert "# TYPE " + Name(j) + " " + "counter" == "# TYPE " + Name(j) + " counter";
  }

  // ------------------------------------------------------------ a live scrape

  /** What a reader of the page learns about a metric. */
  function Learned(values: seq<nat>, name: string): nat
    requires |values| == 12
  {
    match Read(Lines(Page(values)), name)
    case Some(v) => v
    case None => 0
  }

  /**
   * On the page of a scrape of a live run, a reader who asks for a metric by its name gets the
   * counter of that name, as it was when the scrape loaded it.
   */
  lemma PageReportsEachCounter(
    c: Pipeline.Config, past: Pipeline.Past, trace: seq<Pipeline.Label>, times: seq<nat>, values: seq<nat>, k: nat)
    requires Pipeline.Legal(c, Pipeline.Init(c, past), trace) && PipelineScrape.Scrape(trace, times)
    requires |values| == 12 && k < 12
    requires values[k] == PipelineScrape.Loaded(c, past, trace, times, k)
    ensures var page, m := Lines(Page(values)), PipelineScrape.MetricsAt(c, past, trace, times, k);
            && (k == 0 ==> Read(page, "event_received_total") == Some(m.received))
            && (k == 1 ==> Read(page, "event_parsed_total") == Some(m.parsed))
            && (k == 2 ==> Read(page, "event_valid_total") == Some(m.valid))
            && (k == 3 ==> Read(page, "event_invalid_total") == Some(m.invalid))
            && (k == 4 ==> Read(page, "event_parse_fail_total") == Some(m.parseFail))
            && (k == 5 ==> Read(page, "event_rate_limited_total") == Some(m.rateLimited))
            && (k == 6 ==> Read(page, "event_kafka_ok_total") == Some(m.kafkaOk))
            && (k == 7 ==> Read(page, "event_kafka_fail_total") == Some(m.kafkaFail))
            && (k == 8 ==> Read(page, "event_stored_total") == Some(m.stored))
            && (k == 9 ==> Read(page, "event_store_fail_total") == Some(m.storeFail))
            && (k == 10 ==> Read(page, "event_store_dead_total") == Some(m.storeDead))
            && (k == 11 ==> Read(page, "event_queue_drop_total") == Some(m.queueDrop))
  {
    hide Page, Lines, Read, Pipeline.Legal, Pipeline.Init, PipelineScrape.MetricsAt, PipelineScrape.Scrape;
    PageRoundTrip(values, k);
  }

  /** Through page and reader, a scrape of a live run still satisfies the torn-scrape bounds. */
  lemma ScrapedPageIsNearlyConsistent(
    c: Pipeline.Config, past: Pipeline.Past, trace: seq<Pipeline.Label>, times: seq<nat>, values: seq<nat>)
    requires Pipeline.Legal(c, Pipeline.Init(c, past), trace) && PipelineScrape.Scrape(trace, times)
    requires |values| == 12
    requires forall k :: 0 <= k < 12 ==> values[k] == PipelineScrape.Loaded(c, past, trace, times, k)
    ensures Learned(values, "event_received_total")
         <= Learned(values, "event_parsed_total") + Learned(values, "event_parse_fail_total")
            + (if c.workers == 0 then 1 else c.workers)
    ensures Learned(values, "event_parsed_total")
         <= Learned(values, "event_valid_total") + Learned(values, "event_invalid_total")
            + (if c.workers == 0 then 1 else c.workers)
  {
    hide Page, Lines, Read, Pipeline.Legal, Pipeline.Init, PipelineScrape.Scrape, PipelineScrape.Loaded;
    hide PipelineScrape.MetricsAt;
    PageReportsEachCounter(c, past, trace, times, values, 0);
    PageReportsEachCounter(c, past, trace, times, values, 1);
    PageReportsEachCounter(c, past, trace, times, values, 2);
    PageReportsEachCounter(c, past, trace, times, values, 3);
    PageReportsEachCounter(c, past, trace, times, values, 4);
    PipelineScrape.TornScrapesStayBounded(c, past, trace, times);
  }
}
