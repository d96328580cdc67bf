/**
 * Stats.get_1_record and Stats.get_all_records driven through the line
 * buffer (log_stats.py:52-157), and the theorems that tie them to the
 * period grouping of module Periods.
 */
module Stats {
  import opened Base
  import opened Events
  import opened LineBuffer
  import opened Records
  import opened PieceLedger
  import opened Periods

  /**
   * The loop of get_1_record: read lines into the open record until input
   * ends or a line reaches the fixed boundary; that line is pushed back.
   * The pushback never fails: it always follows a successful read.
   */
  function Collect(period: int, input: seq<RawLine>, buf: Buffer, s: State): (r: (Buffer, State))
    requires period > 0
    requires Valid(input, buf)
    requires s.rec.date != 0 ==> !buf.back
    ensures Valid(input, r.0)
    ensures Measure(input, r.0) <= Measure(input, buf)
    ensures r.0.eof || Measure(input, r.0) < Measure(input, buf)
    decreases Measure(input, buf)
  {
    var g := GetLine(input, buf);
    match g.0
    case None => (g.1, s)
    case Some(l) =>
      if !Admits(s.rec.date, l.ts) then (GoBack(g.1).value, s)
      else Collect(period, input, g.1, Process(period, s, l))
  }

  /** get_1_record: collect one period into a fresh record, then finalise it. */
  function GetOneRecord(period: int, input: seq<RawLine>, buf: Buffer, led: Ledger): (r: (Buffer, Ledger, Record))
    requires period > 0
    requires Valid(input, buf)
    ensures Valid(input, r.0)
    ensures Measure(input, r.0) <= Measure(input, buf)
    ensures r.0.eof || Measure(input, r.0) < Measure(input, buf)
  {
    var c := Collect(period, input, buf, State(led, EmptyRecord));
    (c.0, c.1.ledger, Finalize(c.1.rec, period))
  }

  /**
   * The loop of get_all_records from a given reader and ledger: nothing
   * once end of input was seen, otherwise at least one record.
   */
  function Drive(period: int, input: seq<RawLine>, buf: Buffer, led: Ledger): (r: (seq<Record>, Ledger))
    requires period > 0
    requires Valid(input, buf)
    ensures buf.eof <==> r.0 == []
    ensures buf.eof ==> r.1 == led
    decreases Measure(input, buf) + (if buf.eof then 0 else 1)
  {
    if buf.eof then ([], led)
    else
      var r := GetOneRecord(period, input, buf, led);
      var rest := Drive(period, input, r.0, r.1);
      ([r.2] + rest.0, rest.1)
  }

  /** The records and final ledger of a whole run over `input`. */
  function AllRecords(period: int, input: seq<RawLine>): (seq<Record>, Ledger)
    requires period > 0
  {
    Drive(period, input, Fresh, InitialLedger)
  }

  /**
   * get_all_records as the source writes it: call get_1_record until the
   * reader has seen end of input. Its result is the period grouping.
   */
  method GetAllRecords(period: int, input: seq<RawLine>) returns (records: seq<Record>, ledger: Ledger)
    requires period > 0
    ensures (records, ledger) == PeriodRecords(period, NonBlank(input))
  {
    var buf := Fresh;
    ledger := InitialLedger;
    records := [];
    while !buf.eof
      invariant Valid(input, buf)
      invariant records + Drive(period, input, buf, ledger).0 == AllRecords(period, input).0
      invariant Drive(period, input, buf, ledger).1 == AllRecords(period, input).1
      decreases Measure(input, buf) + (if buf.eof then 0 else 1)
    {
      var r := GetOneRecord(period, input, buf, ledger);
      ghost var rest := Drive(period, input, r.0, r.1);
      assert Drive(period, input, buf, ledger) == ([r.2] + rest.0, rest.1);
      assert records + ([r.2] + rest.0) == (records + [r.2]) + rest.0;
      records := records + [r.2];
      buf, ledger := r.0, r.1;
    }
    assert records + [] == records;
    AllRecordsMatchPeriods(period, input);
  }

  // ---------------------------------------------------------------------
  // Refinement

  /**
   * Collect takes exactly the lines the period grouping gives the record,
   * processes them in order, and leaves the rest pending (the pushed-back
   * line first); it reaches end of input exactly when it took them all.
   */
  lemma {:induction false} CollectRefines(period: int, input: seq<RawLine>, buf: Buffer, s: State)
    requires period > 0
    requires Valid(input, buf) && !buf.eof
    requires s.rec.date != 0 ==> !buf.back
    ensures var ls := Pending(input, buf);
            var k := Extent(period, s.rec.date, ls);
            var c := Collect(period, input, buf, s);
            && c.1 == Run(period, s, ls[..k])
            && Pending(input, c.0) == ls[k..]
            && (c.0.eof <==> k == |ls|)
    decreases Measure(input, buf), 1
  {
    var ls := Pending(input, buf);
    if ls != [] && Admits(s.rec.date, ls[0].ts) {
      CollectTakes(period, input, buf, s);
    } else {
      CollectStops(period, input, buf, s);
    }
  }

  /**
   * The step of CollectRefines where nothing is taken: at end of input the
   * reader is left at eof, and a line of a later period is pushed back so
   * that it stays pending.
   */
  lemma CollectStops(period: int, input: seq<RawLine>, buf: Buffer, s: State)
    requires period > 0
    requires Valid(input, buf) && !buf.eof
    requires s.rec.date != 0 ==> !buf.back
    requires Pending(input, buf) == [] || !Admits(s.rec.date, Pending(input, buf)[0].ts)
    ensures var ls := Pending(input, buf);
            var k := Extent(period, s.rec.date, ls);
            var c := Collect(period, input, buf, s);
            && k == 0
            && c.1 == s
            && Pending(input, c.0) == ls
            && (c.0.eof <==> ls == [])
  {
    var ls := Pending(input, buf);
    GetLineNext(input, buf);
    var g := GetLine(input, buf);
    var c := Collect(period, input, buf, s);
    if ls == [] {
      assert c == (g.1, s);
    } else {
      assert c == (GoBack(g.1).value, s);
      assert Pending(input, c.0) == [ls[0]] + ls[1..] == ls;
    }
  }

  /** The step of CollectRefines where the next pending line is taken into the record. */
  lemma {:induction false} CollectTakes(period: int, input: seq<RawLine>, buf: Buffer, s: State)
    requires period > 0
    requires Valid(input, buf) && !buf.eof
    requires s.rec.date != 0 ==> !buf.back
    requires Pending(input, buf) != [] && Admits(s.rec.date, Pending(input, buf)[0].ts)
    ensures var ls := Pending(input, buf);
            var k := Extent(period, s.rec.date, ls);
            var c := Collect(period, input, buf, s);
            && c.1 == Run(period, s, ls[..k])
            && Pending(input, c.0) == ls[k..]
            && (c.0.eof <==> k == |ls|)
    decreases Measure(input, buf), 0
  {
    var ls := Pending(input, buf);
    var g := GetLine(input, buf);
    var s1 := Process(period, s, ls[0]);
    CollectStep(period, input, buf, s);
    CollectRefines(period, input, g.1, s1);
    ExtentStep(period, s, ls);
  }

  /**
   * get_1_record from a reader that has not seen end of input: the record
   * finalises a fresh record run over the first period group of the pending
   * lines, the ledger is the one that run leaves, and the rest stays pending.
   */
  lemma GetOneRecordRefines(period: int, input: seq<RawLine>, buf: Buffer, led: Ledger)
    requires period > 0
    requires Valid(input, buf) && !buf.eof
    ensures var ls := Pending(input, buf);
            var k := Extent(period, 0, ls);
            var s := Run(period, State(led, EmptyRecord), ls[..k]);
            var r := GetOneRecord(period, input, buf, led);
            && r.2 == Finalize(s.rec, period)
            && r.1 == s.ledger
            && Pending(input, r.0) == ls[k..]
            && (r.0.eof <==> k == |ls|)
  {
    CollectRefines(period, input, buf, State(led, EmptyRecord));
  }

  /** Taking the next pending line is one read followed by Collect on the rest. */
  lemma CollectStep(period: int, input: seq<RawLine>, buf: Buffer, s: State)
    requires period > 0
    requires Valid(input, buf) && !buf.eof
    requires s.rec.date != 0 ==> !buf.back
    requires Pending(input, buf) != [] && Admits(s.rec.date, Pending(input, buf)[0].ts)
    ensures var g := GetLine(input, buf);
            var s1 := Process(period, s, Pending(input, buf)[0]);
            && Valid(input, g.1) && !g.1.eof && !g.1.back
            && Measure(input, g.1) < Measure(input, buf)
            && Pending(input, g.1) == Pending(input, buf)[1..]
            && Collect(period, input, buf, s) == Collect(period, input, g.1, s1)
  {
    GetLineNext(input, buf);
  }

  /** From a reader with lines pending, the loop yields one record per group of the period grouping. */
  lemma {:induction false} DriveRefines(period: int, input: seq<RawLine>, buf: Buffer, led: Ledger)
    requires period > 0
    requires Valid(input, buf) && !buf.eof && Pending(input, buf) != []
    ensures Drive(period, input, buf, led) == Summarize(period, led, Split(period, Pending(input, buf)))
    decreases Measure(input, buf)
  {
    var ls := Pending(input, buf);
    var s0 := State(led, EmptyRecord);
    CollectRefines(period, input, buf, s0);
    var c := Collect(period, input, buf, s0);
    var k := Extent(period, 0, ls);
    var gs := Split(period, ls);
    assert gs[0] == ls[..k] && gs[1..] == Split(period, ls[k..]);
    if k < |ls| {
      DriveRefines(period, input, c.0, c.1.ledger);
    }
  }

  /** The buffer-driven run computes exactly the period grouping of the non-empty lines. */
  lemma AllRecordsMatchPeriods(period: int, input: seq<RawLine>)
    requires period > 0
    ensures AllRecords(period, input) == PeriodRecords(period, NonBlank(input))
  {
    assert input[0..] == input;
    assert Pending(input, Fresh) == NonBlank(input);
    if NonBlank(input) == [] {
      var s0 := State(InitialLedger, EmptyRecord);
      CollectRefines(period, input, Fresh, s0);
      var c := Collect(period, input, Fresh, s0);
      assert c.1 == s0 && c.0.eof;
      assert Drive(period, input, c.0, InitialLedger) == ([], InitialLedger);
      assert GetOneRecord(period, input, Fresh, InitialLedger) == (c.0, InitialLedger, Finalize(EmptyRecord, period));
      assert [Finalize(EmptyRecord, period)] + [] == [Finalize(EmptyRecord, period)];
      assert AllRecords(period, input) == ([Finalize(EmptyRecord, period)], InitialLedger);
      assert PeriodRecords(period, NonBlank(input)) == ([Finalize(EmptyRecord, period)], InitialLedger);
    } else {
      DriveRefines(period, input, Fresh, InitialLedger);
    }
  }
}
