/** The dead-letter file: records separated by a dashed line, and how to read them back. */
module DeadLetter {
  import opened Basics

  /** Newline, three dashes, newline. */
  const SEPARATOR: Bytes := [10, 45, 45, 45, 10]

  /** What one batch appends to the file. */
  function Text(records: seq<Bytes>): Bytes {
    if records == [] then [] else records[0] + SEPARATOR + Text(records[1..])
  }

  lemma NoText()
    ensures Text([]) == []
  {
  }

  lemma {:induction false} TextConcat(a: seq<Bytes>, b: seq<Bytes>)
    ensures Text(a + b) == Text(a) + Text(b)
  {
    if a == [] {
      assert a + b == b;
    } else {
      assert (a + b)[1..] == a[1..] + b;
      TextConcat(a[1..], b);
      assert a[0] + SEPARATOR + (Text(a[1..]) + Text(b)) == a[0] + SEPARATOR + Text(a[1..]) + Text(b);
    }
  }

  /** Appending one record to the first i. */
  lemma TextGrows(records: seq<Bytes>, i: nat)
    requires i < |records|
    ensures Text(records[..i + 1]) == Text(records[..i]) + (records[i] + SEPARATOR)
  {
    assert records[..i + 1] == records[..i] + [records[i]];
    TextConcat(records[..i], [records[i]]);
    assert Text([records[i]]) == records[i] + SEPARATOR;
  }

  /** Size of a batch's text when every record has at most `longest` bytes. */
  lemma {:induction false} TextSize(records: seq<Bytes>, longest: nat)
    requires forall r :: r in records ==> |r| <= longest
    ensures |Text(records)| <= |records| * (longest + 5)
  {
    if records != [] {
      TextSize(records[1..], longest);
      assert records[0] in records;
      assert |records| * (longest + 5) == (|records| - 1) * (longest + 5) + (longest + 5);
    }
  }

  // ------------------------------------------------------------ reading back

  predicate SeparatorAt(s: Bytes, i: nat) {
    i + 5 <= |s| && s[i..i + 5] == SEPARATOR
  }

  /** The first separator at or after position i. */
  function Find(s: Bytes, i: nat): (r: Option<nat>)
    ensures r.Some? ==> i <= r.value && SeparatorAt(s, r.value)
    ensures forall k :: i <= k && SeparatorAt(s, k) ==> r.Some? && r.value <= k
    decreases |s| - i
  {
    if i + 5 > |s| then None
    else if SeparatorAt(s, i) then Some(i)
    else Find(s, i + 1)
  }

  /** Split at the first separator, again and again; the second part is what is left over. */
  function Split(s: Bytes): (seq<Bytes>, Bytes)
    decreases |s|
  {
    match Find(s, 0)
    case None => ([], s)
    case Some(k) =>
      var rest := Split(s[k + 5..]);
      ([s[..k]] + rest.0, rest.1)
  }

  /** A record that cannot be confused with its separator. */
  predicate Clean(r: Bytes) {
    && (forall i :: 0 <= i < |r| ==> !SeparatorAt(r, i))
    && !(|r| >= 4 && r[|r| - 4..] == SEPARATOR[..4])
  }

  /** A newline, three dashes and a newline at position i. */
  predicate DashedLineAt(r: Bytes, i: nat) {
    i + 5 <= |r| && r[i] == 10 && r[i + 1] == 45 && r[i + 2] == 45 && r[i + 3] == 45 && r[i + 4] == 10
  }

  lemma SeparatorIsDashedLine(r: Bytes, i: nat)
    ensures SeparatorAt(r, i) <==> DashedLineAt(r, i)
  {
    if i + 5 <= |r| {
      var part := r[i..i + 5];
      assert part == SEPARATOR <==> part[0] == 10 && part[1] == 45 && part[2] == 45 && part[3] == 45 && part[4] == 10;
    }
  }

  lemma EndMeans(r: Bytes)
    requires |r| >= 4
    ensures r[|r| - 4..] == SEPARATOR[..4]
       <==> r[|r| - 4] == 10 && r[|r| - 3] == 45 && r[|r| - 2] == 45 && r[|r| - 1] == 45
  {
    var end := r[|r| - 4..];
    assert end == SEPARATOR[..4] <==> end[0] == 10 && end[1] == 45 && end[2] == 45 && end[3] == 45;
  }

  /** Clean means: no dashed line inside, and no newline and three dashes at the end. */
  lemma CleanMeans(r: Bytes)
    ensures Clean(r)
       <==> && (forall i :: 0 <= i < |r| ==> !DashedLineAt(r, i))
            && !(|r| >= 4 && r[|r| - 4] == 10 && r[|r| - 3] == 45 && r[|r| - 2] == 45 && r[|r| - 1] == 45)
  {
    forall i: nat
      ensures SeparatorAt(r, i) <==> DashedLineAt(r, i)
    {
      SeparatorIsDashedLine(r, i);
    }
    if |r| >= 4 {
      EndMeans(r);
    }
    hide SeparatorAt, DashedLineAt;
  }

  /** A separator that starts inside a record lies in it or overlaps the real one by its last byte only. */
  lemma EarlySeparatorMeansUnclean(r: Bytes, rest: Bytes, i: nat)
    requires i < |r| && SeparatorAt(r + SEPARATOR + rest, i)
    ensures !Clean(r)
  {
    var s := r + SEPARATOR + rest;
    if i + 5 <= |r| {
      assert s[i..i + 5] == r[i..i + 5];
      assert SeparatorAt(r, i);
    } else {
      var k := |r| - i;
      assert s[i..i + 5][k] == s[|r|] == SEPARATOR[0];
      assert k == 4;
      assert r[|r| - 4..] == s[i..i + 5][..4];
    }
  }

  /** An unclean record lets a separator start too early. */
  lemma EarlySeparator(r: Bytes, rest: Bytes) returns (i: nat)
    requires !Clean(r)
    ensures i < |r| && SeparatorAt(r + SEPARATOR + rest, i)
  {
    var s := r + SEPARATOR + rest;
    if |r| >= 4 && r[|r| - 4..] == SEPARATOR[..4] {
      i := |r| - 4;
      assert s[i..i + 5] == r[|r| - 4..] + [SEPARATOR[0]];
    } else {
      i :| 0 <= i < |r| && SeparatorAt(r, i);
      assert s[i..i + 5] == r[i..i + 5];
    }
  }

  lemma FirstSeparatorEndsRecord(r: Bytes, rest: Bytes)
    ensures Find(r + SEPARATOR + rest, 0) == Some(|r|) <==> Clean(r)
  {
    var s := r + SEPARATOR + rest;
    assert s[|r|..|r| + 5] == SEPARATOR;
    assert SeparatorAt(s, |r|);
    var k := Find(s, 0).value;
    if k < |r| {
      EarlySeparatorMeansUnclean(r, rest, k);
    } else if !Clean(r) {
      var i := EarlySeparator(r, rest);
    }
  }

  /** One splitting step on a text that starts with record r. */
  lemma SplitStep(r: Bytes, rest: Bytes)
    ensures Clean(r) ==> Split(r + SEPARATOR + rest) == ([r] + Split(rest).0, Split(rest).1)
    ensures !Clean(r) ==> Split(r + SEPARATOR + rest).0 != []
                          && |Split(r + SEPARATOR + rest).0[0]| < |r|
  {
    var s := r + SEPARATOR + rest;
    FirstSeparatorEndsRecord(r, rest);
    if Clean(r) {
      assert s[..|r|] == r && s[|r| + 5..] == rest;
    } else {
      var i := EarlySeparator(r, rest);
      assert SeparatorAt(s, i);
      var k := Find(s, 0).value;
      assert |s[..k]| == k < |r|;
    }
  }

  /** With a clean first record, what splitting gives for the rest decides. */
  lemma CleanStep(r: Bytes, more: seq<Bytes>)
    requires Clean(r)
    ensures Split(r + SEPARATOR + Text(more)) == ([r] + more, []) <==> Split(Text(more)) == (more, [])
  {
    hide Clean, Split, Text;
    SplitStep(r, Text(more));
    var rest := Split(Text(more));
    assert ([r] + rest.0)[1..] == rest.0 && ([r] + more)[1..] == more;
  }

  lemma UncleanStep(r: Bytes, more: seq<Bytes>)
    requires !Clean(r)
    ensures Split(r + SEPARATOR + Text(more)) != ([r] + more, [])
  {
    hide Clean, Split, Text;
    SplitStep(r, Text(more));
    assert ([r] + more)[0] == r;
  }

  /** Splitting recovers the written records if and only if every one of them is clean. */
  lemma {:induction false} SplitRecoversExactlyCleanRecords(records: seq<Bytes>)
    ensures Split(Text(records)) == (records, []) <==> forall r :: r in records ==> Clean(r)
  {
    if records != [] {
      var r, more := records[0], records[1..];
      assert records == [r] + more && Text(records) == r + SEPARATOR + Text(more);
      SplitRecoversExactlyCleanRecords(more);
      hide Clean, Split, Text, Find;
      assert forall x :: x in records <==> x == r || x in more;
      if Clean(r) {
        CleanStep(r, more);
      } else {
        UncleanStep(r, more);
        assert r in records;
      }
    } else {
      assert Split([]) == ([], []);
    }
  }
}
