/** Worked examples of single events and short runs, on concrete values. */
module Scenarios {
  import opened Base
  import opened Events
  import opened Records
  import opened PieceLedger
  import opened Periods
  import opened Stats

  const Day := 86400

  /** An upload with a size followed by a download of the same piece in the same day. */
  lemma UploadThenDownload()
    ensures var input := [Text(Line(1000, PieceStore(Uploaded, "A", Some(1000), None))),
                          Blank,
                          Text(Line(1001, PieceStore(Downloaded, "A", None, None)))];
            var r := AllRecords(Day, input);
            && |r.0| == 1
            && r.0[0].date == 0
            && r.0[0].upOk == 1 && r.0[0].upOkSize == 1000
            && r.0[0].downOk == Tally(1, 1000, 0)
            && r.1.pieces == map["A" := 1000]
  {
    var up := Line(1000, PieceStore(Uploaded, "A", Some(1000), None));
    var down := Line(1001, PieceStore(Downloaded, "A", None, None));
    var input := [Text(up), Blank, Text(down)];
    AllRecordsMatchPeriods(Day, input);
    NonBlankAt(input, 0);
    NonBlankAt(input, 1);
    NonBlankAt(input, 2);
    assert input[0..] == input && input[3..] == [];
    assert NonBlank(input) == [up, down];
    UploadDownloadRecords(up, down);
  }

  /** The period records behind UploadThenDownload. */
  lemma UploadDownloadRecords(up: Line, down: Line)
    requires up == Line(1000, PieceStore(Uploaded, "A", Some(1000), None))
    requires down == Line(1001, PieceStore(Downloaded, "A", None, None))
    ensures var r := PeriodRecords(Day, [up, down]);
            && |r.0| == 1
            && r.0[0].date == 0
            && r.0[0].upOk == 1 && r.0[0].upOkSize == 1000
            && r.0[0].downOk == Tally(1, 1000, 0)
            && r.1.pieces == map["A" := 1000]
  {
    var ls := [up, down];
    SameDay(up, down);
    var s := Run(Day, State(InitialLedger, EmptyRecord), ls);
    UploadDownloadRun(up, down);
    assert [ls][0] == ls && [ls][1..] == [];
    assert Summarize(Day, s.ledger, []) == ([], s.ledger);
    assert Summarize(Day, InitialLedger, [ls]) == ([Finalize(s.rec, Day)] + [], s.ledger);
  }

  /** Two lines a second apart in the first day of the epoch form one group. */
  lemma SameDay(x: Line, y: Line)
    requires x.ts == 1000 && y.ts == 1001
    ensures Split(Day, [x, y]) == [[x, y]]
  {
    var ls := [x, y];
    assert Boundary(1000, Day) == Day;
    assert ls[1..] == [y] && [y][1..] == [];
    assert Extent(Day, Day, [y]) == 1 + Extent(Day, Day, []);
    assert Extent(Day, 0, ls) == 2;
    assert ls[..2] == ls && ls[2..] == [];
  }

  /** The run behind UploadThenDownload: both lines land in the record opened by the first. */
  lemma UploadDownloadRun(up: Line, down: Line)
    requires up == Line(1000, PieceStore(Uploaded, "A", Some(1000), None))
    requires down == Line(1001, PieceStore(Downloaded, "A", None, None))
    ensures var s := Run(Day, State(InitialLedger, EmptyRecord), [up, down]);
            && s.rec.date == Day
            && s.rec.upOk == 1 && s.rec.upOkSize == 1000
            && s.rec.downOk == Tally(1, 1000, 0)
            && s.ledger.pieces == map["A" := 1000]
  {
    assert Boundary(1000, Day) == Day;
    var s0 := State(InitialLedger, EmptyRecord);
    var s1 := Process(Day, s0, up);
    assert s1.rec.upOk == 1 && s1.rec.upOkSize == 1000 && s1.ledger.pieces == map["A" := 1000];
    var s2 := Process(Day, s1, down);
    assert s2.rec.downOk == Tally(1, 1000, 0);
    assert [up, down][1..] == [down] && [down][1..] == [];
    assert Run(Day, s1, [down]) == Run(Day, s2, []) == s2;
  }

  /** A piece uploaded without a size gets the drop in free space when it is plausible. */
  lemma EstimateInRange()
    ensures var s := State(Ledger(map[], {"B"}, 5000000), EmptyRecord);
            var r := Apply(s, PieceStore(UploadStarted, "C", None, Some(4000000)));
            && r.ledger == Ledger(map["B" := 1000000], {}, 4000000)
            && r.rec.upOk == 1 && r.rec.upOkSize == 1000000
  {
  }

  /** With an implausible drop the pending piece is forgotten and counted nowhere. */
  lemma EstimateOutOfRange()
    ensures var s := State(Ledger(map[], {"B"}, 54000000), EmptyRecord);
            var r := Apply(s, PieceStore(UploadStarted, "C", None, Some(4000000)));
            && r.ledger == Ledger(map[], {}, 4000000)
            && r.rec == EmptyRecord
  {
  }

  /** A piece can be both sized and pending: the code keeps no disjointness invariant. */
  lemma SizedAndPending()
    ensures var s := State(Ledger(map["A" := 7], {}, 0), EmptyRecord);
            var r := Apply(s, PieceStore(Uploaded, "A", None, None));
            "A" in r.ledger.pieces && "A" in r.ledger.pending
  {
  }

  /** A line far past the boundary starts a record of its own; the skipped days get none. */
  lemma SkippedPeriods()
    ensures var input := [Text(Line(10, OtherModule)), Text(Line(5 * Day + 7, OtherModule))];
            var recs := AllRecords(Day, input).0;
            |recs| == 2 && recs[0].date == 0 && recs[1].date == 5 * Day
  {
    var input := [Text(Line(10, OtherModule)), Text(Line(5 * Day + 7, OtherModule))];
    AllRecordsMatchPeriods(Day, input);
    NonBlankAt(input, 0);
    NonBlankAt(input, 1);
    var ls := NonBlank(input);
    assert ls == [input[0].line, input[1].line];
    assert Boundary(10, Day) == Day;
    assert Boundary(5 * Day + 7, Day) == 6 * Day;
    assert Extent(Day, 0, ls) == 1;
    assert Extent(Day, 0, ls[1..]) == 1;
    assert ls[..1] == [ls[0]] && ls[1..][..1] == [ls[1]] && ls[1..][1..] == [];
    assert Split(Day, ls[1..]) == [[ls[1]]] by {
      assert Split(Day, ls[1..]) == [ls[1..][..1]] + Split(Day, ls[1..][1..]);
    }
    assert Split(Day, ls) == [[ls[0]]] + Split(Day, ls[1..]);
    assert Split(Day, ls) == [[ls[0]], [ls[1]]];
    var s0 := State(InitialLedger, EmptyRecord);
    assert Run(Day, s0, [ls[0]]).rec.date == Day;
    var a := Run(Day, s0, [ls[0]]);
    var b := Run(Day, State(a.ledger, EmptyRecord), [ls[1]]);
    assert a.rec.date == Day;
    assert b.rec.date == 6 * Day by {
      var st := State(a.ledger, EmptyRecord);
      assert [ls[1]][1..] == [];
      assert b == Run(Day, Process(Day, st, ls[1]), []);
      assert ls[1].ts == 5 * Day + 7;
    }
    var gs := [[ls[0]], [ls[1]]];
    assert gs[1..] == [[ls[1]]];
    assert Summarize(Day, a.ledger, [[ls[1]]]).0 == [Finalize(b.rec, Day)];
    assert Summarize(Day, InitialLedger, gs).0 == [Finalize(a.rec, Day), Finalize(b.rec, Day)];
  }

  /**
   * Before the epoch, a boundary that computes to 0 reads as unset, so a
   * line in the period just before the epoch leaves the record open for the
   * next line to fix its date. With a period of 100, the lines at -50 and
   * -200 share a record dated -200 and the lines at -100 and -300 share one
   * dated -300: the dates go backwards.
   */
  lemma PreEpochDatesDecrease()
    ensures var input := [Text(Line(-50, OtherModule)), Text(Line(-200, OtherModule)),
                          Text(Line(-100, OtherModule)), Text(Line(-300, OtherModule))];
            var recs := AllRecords(100, input).0;
            |recs| == 2 && recs[0].date == -200 && recs[1].date == -300
  {
    var w, x, y, z := Line(-50, OtherModule), Line(-200, OtherModule), Line(-100, OtherModule), Line(-300, OtherModule);
    var input := [Text(w), Text(x), Text(y), Text(z)];
    AllRecordsMatchPeriods(100, input);
    NonBlankAt(input, 0);
    NonBlankAt(input, 1);
    NonBlankAt(input, 2);
    NonBlankAt(input, 3);
    assert input[0..] == input && input[4..] == [];
    assert NonBlank(input) == [w, x, y, z];
    PreEpochRecords(w, x, y, z);
  }

  /** The period records behind PreEpochDatesDecrease. */
  lemma PreEpochRecords(w: Line, x: Line, y: Line, z: Line)
    requires w.ts == -50 && x.ts == -200 && y.ts == -100 && z.ts == -300
    ensures var recs := PeriodRecords(100, [w, x, y, z]).0;
            |recs| == 2 && recs[0].date == -200 && recs[1].date == -300
  {
    var g0, g1 := [w, x], [y, z];
    PreEpochGroups(w, x, y, z);
    var a := Run(100, State(InitialLedger, EmptyRecord), g0);
    var b := Run(100, State(a.ledger, EmptyRecord), g1);
    assert Boundary(-50, 100) == 0 && Boundary(-100, 100) == 0;
    PreEpochPair(InitialLedger, w, x);
    PreEpochPair(a.ledger, y, z);
    assert Boundary(-200, 100) == -100 && Boundary(-300, 100) == -200;
    assert [g0, g1][1..] == [g1];
    assert Summarize(100, a.ledger, [g1]).0 == [Finalize(b.rec, 100)];
    assert Summarize(100, InitialLedger, [g0, g1]).0 == [Finalize(a.rec, 100), Finalize(b.rec, 100)];
  }

  /** With a period of 100, times -50, -200, -100, -300 fall into two groups of two. */
  lemma PreEpochGroups(w: Line, x: Line, y: Line, z: Line)
    requires w.ts == -50 && x.ts == -200 && y.ts == -100 && z.ts == -300
    ensures Split(100, [w, x, y, z]) == [[w, x], [y, z]]
  {
    var ls := [w, x, y, z];
    assert Boundary(-50, 100) == 0 && Boundary(-200, 100) == -100;
    assert Boundary(-100, 100) == 0 && Boundary(-300, 100) == -200;
    var g1 := ls[2..];
    assert ls[..2] == [w, x] && g1 == [y, z];
    assert ls[1..] == [x, y, z] && [x, y, z][1..] == g1;
    assert Extent(100, -100, g1) == 0;
    assert Extent(100, 0, [x, y, z]) == 1 + Extent(100, -100, g1);
    assert Extent(100, 0, ls) == 2;
    assert g1[1..] == [z] && [z][1..] == [];
    assert Extent(100, 0, [z]) == 1 + Extent(100, -200, []);
    assert Extent(100, 0, g1) == 2;
    assert g1[..2] == g1 && g1[2..] == [];
    assert Split(100, g1) == [g1] by {
      assert Split(100, g1) == [g1[..2]] + Split(100, g1[2..]);
    }
  }

  /**
   * A record opened by a line whose boundary computes to 0 takes its date
   * from the next line instead.
   */
  lemma PreEpochPair(led: Ledger, x: Line, y: Line)
    requires Boundary(x.ts, 100) == 0
    ensures Run(100, State(led, EmptyRecord), [x, y]).rec.date == Boundary(y.ts, 100)
  {
    var st1 := Process(100, State(led, EmptyRecord), x);
    var st2 := Process(100, st1, y);
    assert [x, y][1..] == [y] && [y][1..] == [];
    assert Run(100, st1, [y]) == Run(100, st2, []) == st2;
  }
}
