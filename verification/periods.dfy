/**
 * How Stats.get_all_records cuts the non-empty lines into periods and what
 * each period's record holds, stated directly over the sequence of lines
 * (log_stats.py:65-157). The buffer-driven loop in module Stats is proved
 * to compute exactly this.
 */
module Periods {
  import opened Base
  import opened Events
  import opened Records
  import opened PieceLedger

  /**
   * End of the period of length `period` containing t: the least multiple
   * of the period strictly greater than t.
   */
  function Boundary(t: int, period: int): (b: int)
    requires period > 0
    ensures b - period <= t < b
    ensures b % period == 0
  {
    var q := t / period;
    assert (q + 1) * period == q * period + period;
    MultipleMod(q + 1, period);
    (q + 1) * period
  }

  /** A multiple of p leaves no remainder. */
  lemma MultipleMod(m: int, p: int)
    requires p > 0
    ensures (m * p) % p == 0
  {
    var d := m - (m * p) / p;
    DivMod(m * p, p);
    assert (m * p) % p == d * p by {
      assert m * p == ((m * p) / p) * p + (m * p) % p;
      assert m * p - ((m * p) / p) * p == d * p;
    }
    if d >= 1 {
      MulMono(1, d, p);
      assert false;
    }
    if d <= -1 {
      MulMono(d, -1, p);
      assert false;
    }
  }

  /**
   * A record's date after it admits a line at time t. The code reads a zero
   * date as "no boundary yet", so a line whose boundary computes to 0 leaves
   * the boundary still open.
   */
  function NextDate(date: int, t: int, period: int): int
    requires period > 0
  {
    if date == 0 then Boundary(t, period) else date
  }

  /**
   * Does a line at time t fix a boundary? Not when its boundary computes to
   * 0 (t in [-period, 0)), since 0 reads as "no boundary yet".
   */
  predicate FixesBoundary(t: int, period: int)
    requires period > 0
  {
    Boundary(t, period) != 0
  }

  /** Does a record with this date keep a line at time t (rather than push it back)? */
  predicate Admits(date: int, t: int) {
    date == 0 || t < date
  }

  /**
   * A line taken into the open record: fix the boundary if needed, then
   * dispatch. An unset (zero) date becomes the line's boundary; a fixed one
   * stays.
   */
  function Process(period: int, s: State, line: Line): (r: State)
    requires period > 0
    ensures s.rec.date == 0 ==> r.rec.date == Boundary(line.ts, period)
    ensures s.rec.date != 0 ==> r.rec.date == s.rec.date
  {
    Apply(s.(rec := s.rec.(date := NextDate(s.rec.date, line.ts, period))), line.body)
  }

  /**
   * Fixing the boundary and dispatching are independent: Process is Apply
   * on the line's body with only the date replaced.
   */
  lemma ProcessDispatch(period: int, s: State, line: Line)
    requires period > 0
    ensures var a := Apply(s, line.body);
            var r := Process(period, s, line);
            r == a.(rec := a.rec.(date := r.rec.date))
  {
    var d := NextDate(s.rec.date, line.ts, period);
    match line.body
    case PieceStore(e, pid, size, available) =>
      if e == UploadStarted && available.Some? {
        StartUploadIgnoresDate(s, available.value, d);
      } else if e == Uploaded {
        FinishUploadIgnoresDate(s, pid, size, d);
      }
    case _ =>
  }

  /** Process every line of `lines` in order. */
  function Run(period: int, s: State, lines: seq<Line>): State
    requires period > 0
    decreases |lines|
  {
    if lines == [] then s else Run(period, Process(period, s, lines[0]), lines[1..])
  }

  /** How many leading lines a record whose date is `date` takes before the first it pushes back. */
  function Extent(period: int, date: int, lines: seq<Line>): (k: nat)
    requires period > 0
    ensures k <= |lines|
    ensures lines != [] && date == 0 ==> k >= 1
    decreases |lines|
  {
    if lines == [] || !Admits(date, lines[0].ts) then 0
    else 1 + Extent(period, NextDate(date, lines[0].ts, period), lines[1..])
  }

  /** A record that admits the first line takes it and then Extent of the rest. */
  lemma ExtentStep(period: int, s: State, ls: seq<Line>)
    requires period > 0
    requires ls != [] && Admits(s.rec.date, ls[0].ts)
    ensures var k := Extent(period, s.rec.date, ls);
            var s1 := Process(period, s, ls[0]);
            var k1 := Extent(period, s1.rec.date, ls[1..]);
            && k == k1 + 1
            && Run(period, s, ls[..k]) == Run(period, s1, ls[1..][..k1])
            && ls[k..] == ls[1..][k1..]
  {
    var k := Extent(period, s.rec.date, ls);
    assert ls[..k][0] == ls[0];
    assert ls[..k][1..] == ls[1..][..k - 1];
  }

  /** The lines of each record, in order: each group starts with a fresh record. */
  function Split(period: int, lines: seq<Line>): seq<seq<Line>>
    requires period > 0
    decreases |lines|
  {
    if lines == [] then []
    else
      var k := Extent(period, 0, lines);
      [lines[..k]] + Split(period, lines[k..])
  }

  function Flatten(groups: seq<seq<Line>>): seq<Line>
    decreases |groups|
  {
    if groups == [] then [] else groups[0] + Flatten(groups[1..])
  }

  /** One finalised record per group, threading the ledger from group to group. */
  function Summarize(period: int, led: Ledger, groups: seq<seq<Line>>): (r: (seq<Record>, Ledger))
    requires period > 0
    ensures |r.0| == |groups|
    decreases |groups|
  {
    if groups == [] then ([], led)
    else
      var s := Run(period, State(led, EmptyRecord), groups[0]);
      var rest := Summarize(period, s.ledger, groups[1..]);
      ([Finalize(s.rec, period)] + rest.0, rest.1)
  }

  /**
   * The records and final ledger of a run over the non-empty lines `lines`.
   * With no lines at all, one untouched record is still produced.
   */
  function PeriodRecords(period: int, lines: seq<Line>): (seq<Record>, Ledger)
    requires period > 0
  {
    if lines == [] then ([Finalize(EmptyRecord, period)], InitialLedger)
    else Summarize(period, InitialLedger, Split(period, lines))
  }

  // ---------------------------------------------------------------------
  // Coverage and boundaries

  /** Every line lands in exactly one group, in order, and no group is empty. */
  lemma {:induction false} SplitCovers(period: int, lines: seq<Line>)
    requires period > 0
    ensures Flatten(Split(period, lines)) == lines
    ensures forall i :: 0 <= i < |Split(period, lines)| ==> Split(period, lines)[i] != []
    decreases |lines|
  {
    if lines != [] {
      var k := Extent(period, 0, lines);
      var gs := Split(period, lines);
      SplitCovers(period, lines[k..]);
      assert gs[1..] == Split(period, lines[k..]);
      assert lines[..k] + lines[k..] == lines;
    }
  }

  /** Under a fixed boundary, a record takes exactly the leading lines before it. */
  lemma {:induction false} ExtentWithin(period: int, date: int, lines: seq<Line>)
    requires period > 0 && date != 0
    ensures var k := Extent(period, date, lines);
            && (forall j :: 0 <= j < k ==> lines[j].ts < date)
            && (k < |lines| ==> lines[k].ts >= date)
    decreases |lines|
  {
    if lines != [] && Admits(date, lines[0].ts) {
      ExtentWithin(period, date, lines[1..]);
    }
  }

  /** After its first line fixes boundary b, a group holds only lines before b. */
  predicate WithinBoundary(period: int, g: seq<Line>)
    requires period > 0
  {
    g != [] && FixesBoundary(g[0].ts, period) ==>
      forall j :: 0 < j < |g| ==> g[j].ts < Boundary(g[0].ts, period)
  }

  /** Group h starts at or after the boundary that g's first line fixed. */
  predicate StartsAfter(period: int, g: seq<Line>, h: seq<Line>)
    requires period > 0
  {
    g != [] && h != [] && FixesBoundary(g[0].ts, period) ==> h[0].ts >= Boundary(g[0].ts, period)
  }

  /** The first group obeys the boundary rule, and the line after it lies past its boundary. */
  lemma FirstGroup(period: int, lines: seq<Line>)
    requires period > 0 && lines != []
    ensures var k := Extent(period, 0, lines);
            && WithinBoundary(period, lines[..k])
            && (k < |lines| ==> StartsAfter(period, lines[..k], lines[k..]))
  {
    var k := Extent(period, 0, lines);
    var b := Boundary(lines[0].ts, period);
    if b != 0 {
      assert k == 1 + Extent(period, b, lines[1..]);
      ExtentWithin(period, b, lines[1..]);
      forall j | 0 < j < k
        ensures lines[..k][j].ts < b
      {
        assert lines[..k][j] == lines[1..][j - 1];
      }
    }
  }

  /**
   * The boundary rule: a group whose first line fixes boundary b holds only
   * lines before b after its first (earlier ones included), and the next
   * group starts with a line at or after b.
   */
  lemma {:induction false} SplitBoundaries(period: int, lines: seq<Line>)
    requires period > 0
    ensures var gs := Split(period, lines);
            && (forall i :: 0 <= i < |gs| ==> WithinBoundary(period, gs[i]))
            && (forall i :: 0 <= i < |gs| - 1 ==> StartsAfter(period, gs[i], gs[i + 1]))
    decreases |lines|
  {
    if lines != [] {
      var gs := Split(period, lines);
      var k := Extent(period, 0, lines);
      var rest := Split(period, lines[k..]);
      assert gs == [lines[..k]] + rest;
      SplitBoundaries(period, lines[k..]);
      FirstGroup(period, lines);
      if rest != [] {
        SplitCovers(period, lines[k..]);
        assert rest[0][0] == lines[k..][0];
      }
      forall i | 0 <= i < |gs| - 1
        ensures StartsAfter(period, gs[i], gs[i + 1])
      {
        if i > 0 {
          assert gs[i] == rest[i - 1] && gs[i + 1] == rest[i];
        }
      }
    }
  }

  // ---------------------------------------------------------------------
  // Dates

  /** Once fixed, a record's boundary no longer changes. */
  lemma {:induction false} RunKeepsDate(period: int, s: State, lines: seq<Line>)
    requires period > 0 && s.rec.date != 0
    ensures Run(period, s, lines).rec.date == s.rec.date
    decreases |lines|
  {
    if lines != [] {
      RunKeepsDate(period, Process(period, s, lines[0]), lines[1..]);
    }
  }

  /**
   * Each finalised record whose first line t0 fixes a boundary is dated one
   * period before that boundary, the start of t0's period.
   */
  lemma {:induction false} SummarizeDates(period: int, led: Ledger, gs: seq<seq<Line>>)
    requires period > 0
    ensures var recs := Summarize(period, led, gs).0;
            forall i :: 0 <= i < |gs| && gs[i] != [] && FixesBoundary(gs[i][0].ts, period) ==>
              recs[i].date == Boundary(gs[i][0].ts, period) - period
    decreases |gs|
  {
    if gs != [] {
      var s := Run(period, State(led, EmptyRecord), gs[0]);
      var recs := Summarize(period, led, gs).0;
      var rest := Summarize(period, s.ledger, gs[1..]).0;
      assert recs == [Finalize(s.rec, period)] + rest;
      SummarizeDates(period, s.ledger, gs[1..]);
      GroupDate(period, led, gs[0]);
      forall i | 1 <= i < |gs| && gs[i] != [] && FixesBoundary(gs[i][0].ts, period)
        ensures recs[i].date == Boundary(gs[i][0].ts, period) - period
      {
        assert recs[i] == rest[i - 1] && gs[i] == gs[1..][i - 1];
      }
    }
  }

  /** The record of one group is dated one period before its first line's boundary. */
  lemma GroupDate(period: int, led: Ledger, g: seq<Line>)
    requires period > 0
    ensures g != [] && FixesBoundary(g[0].ts, period) ==>
              Finalize(Run(period, State(led, EmptyRecord), g).rec, period).date == Boundary(g[0].ts, period) - period
  {
    if g != [] && FixesBoundary(g[0].ts, period) {
      var s1 := Process(period, State(led, EmptyRecord), g[0]);
      RunKeepsDate(period, s1, g[1..]);
    }
  }

  /** A line at or after a boundary lies in a strictly later period. */
  lemma BoundaryAdvances(t: int, t': int, period: int)
    requires period > 0 && t' >= Boundary(t, period)
    ensures Boundary(t', period) >= Boundary(t, period) + period
  {
    var q, q' := t / period, t' / period;
    BoundaryForm(t, period);
    BoundaryForm(t', period);
    DivMod(t', period);
    assert q' * period > q * period;
    MulCancel(q, q', period);
    MulMono(q + 1, q', period);
    assert (q + 1) * period == q * period + period;
  }

  lemma BoundaryForm(t: int, period: int)
    requires period > 0
    ensures Boundary(t, period) == (t / period) * period + period
  {
    var q := t / period;
    assert (q + 1) * period == q * period + period;
  }

  lemma DivMod(t: int, p: int)
    requires p > 0
    ensures t == (t / p) * p + t % p && 0 <= t % p < p
  {
  }

  lemma MulMono(a: int, b: int, p: int)
    requires p > 0 && a <= b
    ensures a * p <= b * p
  {
    assert (b - a) * p >= 0;
  }

  lemma MulCancel(a: int, b: int, p: int)
    requires p > 0 && a * p < b * p
    ensures a < b
  {
    assert (b - a) * p > 0;
  }

  // ---------------------------------------------------------------------
  // Counting

  /** Number of events among `lines` that feed tally k. */
  function CountLookups(lines: seq<Line>, k: Lookup): (n: nat)
    ensures n <= |lines|
  {
    if lines == [] then 0
    else (if LookupOf(lines[0].body) == Some(k) then 1 else 0) + CountLookups(lines[1..], k)
  }

  /**
   * Number and byte total of the events of kind k whose piece size the
   * ledger knew at the moment the event was read.
   */
  function KnownLookups(period: int, s: State, lines: seq<Line>, k: Lookup): (r: (nat, int))
    requires period > 0
    ensures r.0 <= CountLookups(lines, k)
    decreases |lines|
  {
    if lines == [] then (0, 0)
    else
      var rest := KnownLookups(period, Process(period, s, lines[0]), lines[1..], k);
      var body := lines[0].body;
      if LookupOf(body) == Some(k) && KnownSize(s.ledger, body.pid).Some? then
        (rest.0 + 1, rest.1 + KnownSize(s.ledger, body.pid).value)
      else rest
  }

  /**
   * Over any stretch of lines, tally k grows by one per event of its kind;
   * the events not counted as unseen are exactly those whose size was known,
   * and the byte total grows by exactly their sizes.
   */
  lemma {:induction false} RunTallies(period: int, s: State, lines: seq<Line>, k: Lookup)
    requires period > 0
    ensures var t0 := TallyOf(s.rec, k);
            var t := TallyOf(Run(period, s, lines).rec, k);
            var known := KnownLookups(period, s, lines, k);
            && t.count == t0.count + CountLookups(lines, k)
            && t.count - t.unseen == t0.count - t0.unseen + known.0
            && t.size == t0.size + known.1
    decreases |lines|
  {
    if lines != [] {
      var s1 := Process(period, s, lines[0]);
      RunTallies(period, s1, lines[1..], k);
    }
  }

  /** Failed and canceled uploads are counted once per event. */
  lemma {:induction false} RunUploadFailures(period: int, s: State, lines: seq<Line>)
    requires period > 0
    ensures Run(period, s, lines).rec.upFail == s.rec.upFail + CountEvents(lines, UploadFailed)
    ensures Run(period, s, lines).rec.upCancel == s.rec.upCancel + CountEvents(lines, UploadCanceled)
    decreases |lines|
  {
    if lines != [] {
      RunUploadFailures(period, Process(period, s, lines[0]), lines[1..]);
    }
  }

  /** A fresh record finalised after a group: known + unseen is the group's event count. */
  lemma GroupTally(period: int, led: Ledger, g: seq<Line>, k: Lookup)
    requires period > 0
    ensures var t := TallyOf(Finalize(Run(period, State(led, EmptyRecord), g).rec, period), k);
            && t.count + t.unseen == CountLookups(g, k)
            && t.count >= 0 && t.unseen >= 0
  {
    var s0 := State(led, EmptyRecord);
    RunTallies(period, s0, g, k);
    var raw := TallyOf(Run(period, s0, g).rec, k);
    var known := KnownLookups(period, s0, g, k);
    assert TallyOf(s0.rec, k) == NoEvents;
    assert raw.count == CountLookups(g, k) && raw.count - raw.unseen == known.0;
    assert known.0 <= CountLookups(g, k);
  }

  /**
   * In every finalised record, known + unseen of each lookup kind is the
   * number of such events in its period, and neither part is negative.
   */
  lemma {:induction false} SummarizeCounts(period: int, led: Ledger, gs: seq<seq<Line>>)
    requires period > 0
    ensures var recs := Summarize(period, led, gs).0;
            forall i, k :: 0 <= i < |gs| ==>
              && TallyOf(recs[i], k).count + TallyOf(recs[i], k).unseen == CountLookups(gs[i], k)
              && TallyOf(recs[i], k).count >= 0 && TallyOf(recs[i], k).unseen >= 0
    decreases |gs|
  {
    if gs != [] {
      var s := Run(period, State(led, EmptyRecord), gs[0]);
      var recs := Summarize(period, led, gs).0;
      var rest := Summarize(period, s.ledger, gs[1..]).0;
      assert recs == [Finalize(s.rec, period)] + rest;
      SummarizeCounts(period, s.ledger, gs[1..]);
      forall i, k | 0 <= i < |gs|
        ensures TallyOf(recs[i], k).count + TallyOf(recs[i], k).unseen == CountLookups(gs[i], k)
        ensures TallyOf(recs[i], k).count >= 0 && TallyOf(recs[i], k).unseen >= 0
      {
        if i == 0 {
          GroupTally(period, led, gs[0], k);
        } else {
          assert recs[i] == rest[i - 1] && gs[i] == gs[1..][i - 1];
        }
      }
    }
  }

  /** In every finalised record, failed and canceled uploads match their events. */
  lemma {:induction false} SummarizeUploadFailures(period: int, led: Ledger, gs: seq<seq<Line>>)
    requires period > 0
    ensures var recs := Summarize(period, led, gs).0;
            forall i :: 0 <= i < |gs| ==>
              && recs[i].upFail == CountEvents(gs[i], UploadFailed)
              && recs[i].upCancel == CountEvents(gs[i], UploadCanceled)
    decreases |gs|
  {
    if gs != [] {
      var s0 := State(led, EmptyRecord);
      var s := Run(period, s0, gs[0]);
      var recs := Summarize(period, led, gs).0;
      var rest := Summarize(period, s.ledger, gs[1..]).0;
      assert recs == [Finalize(s.rec, period)] + rest;
      SummarizeUploadFailures(period, s.ledger, gs[1..]);
      RunUploadFailures(period, s0, gs[0]);
      forall i | 0 < i < |gs|
        ensures recs[i].upFail == CountEvents(gs[i], UploadFailed)
        ensures recs[i].upCancel == CountEvents(gs[i], UploadCanceled)
      {
        assert recs[i] == rest[i - 1] && gs[i] == gs[1..][i - 1];
      }
    }
  }

  /**
   * Successful uploads and bytes credited over a stretch of lines, each
   * line judged against the ledger as it stands when that line is read.
   */
  function UploadsCredited(period: int, s: State, lines: seq<Line>): (nat, int)
    requires period > 0
    decreases |lines|
  {
    if lines == [] then (0, 0)
    else
      var c := UploadCredit(s.ledger, lines[0].body);
      var rest := UploadsCredited(period, Process(period, s, lines[0]), lines[1..]);
      (c.0 + rest.0, c.1 + rest.1)
  }

  /** Over any stretch of lines, upOk and upOkSize grow by exactly the credited uploads. */
  lemma {:induction false} RunUploads(period: int, s: State, lines: seq<Line>)
    requires period > 0
    ensures var r := Run(period, s, lines).rec;
            var c := UploadsCredited(period, s, lines);
            r.upOk == s.rec.upOk + c.0 && r.upOkSize == s.rec.upOkSize + c.1
    decreases |lines|
  {
    if lines != [] {
      var s1 := Process(period, s, lines[0]);
      ProcessDispatch(period, s, lines[0]);
      ApplyCredit(s, lines[0].body);
      RunUploads(period, s1, lines[1..]);
    }
  }

  /** No line is an "uploaded" or "upload started" event. */
  predicate NoUploadLines(lines: seq<Line>) {
    forall i :: 0 <= i < |lines| ==>
      !IsEvent(lines[i].body, Uploaded) && !IsEvent(lines[i].body, UploadStarted)
  }

  /** Lines with no "uploaded" or "upload started" event credit no upload. */
  lemma {:induction false} NoUploadsNoCredit(period: int, s: State, lines: seq<Line>)
    requires period > 0
    requires NoUploadLines(lines)
    ensures UploadsCredited(period, s, lines) == (0, 0)
    decreases |lines|
  {
    if lines != [] {
      assert forall i :: 0 <= i < |lines[1..]| ==> lines[1..][i] == lines[i + 1];
      NoUploadsNoCredit(period, Process(period, s, lines[0]), lines[1..]);
    }
  }

  /** The ledger as it stands when group i of gs starts, having seen every earlier group. */
  function LedgerBefore(period: int, led: Ledger, gs: seq<seq<Line>>, i: nat): Ledger
    requires period > 0 && i <= |gs|
  {
    Run(period, State(led, EmptyRecord), Flatten(gs[..i])).ledger
  }

  /**
   * In every finalised record, each lookup count holds exactly the events
   * whose piece size the ledger knew at that moment (the ledger having seen
   * every earlier line, in earlier periods too), and the byte total is the
   * sum of those sizes.
   */
  lemma {:induction false} SummarizeKnown(period: int, led: Ledger, gs: seq<seq<Line>>)
    requires period > 0
    ensures var recs := Summarize(period, led, gs).0;
            forall i, k :: 0 <= i < |gs| ==>
              var known := KnownLookups(period, State(LedgerBefore(period, led, gs, i), EmptyRecord), gs[i], k);
              TallyOf(recs[i], k).count == known.0 && TallyOf(recs[i], k).size == known.1
    decreases |gs|
  {
    if gs != [] {
      var s0 := State(led, EmptyRecord);
      var s := Run(period, s0, gs[0]);
      var recs := Summarize(period, led, gs).0;
      var rest := Summarize(period, s.ledger, gs[1..]).0;
      assert recs == [Finalize(s.rec, period)] + rest;
      SummarizeKnown(period, s.ledger, gs[1..]);
      forall i, k | 0 <= i < |gs|
        ensures var known := KnownLookups(period, State(LedgerBefore(period, led, gs, i), EmptyRecord), gs[i], k);
                TallyOf(recs[i], k).count == known.0 && TallyOf(recs[i], k).size == known.1
      {
        if i == 0 {
          assert gs[..0] == [];
          GroupKnown(period, led, gs[0], k);
        } else {
          LedgerBeforeShift(period, led, gs, i);
          assert recs[i] == rest[i - 1] && gs[i] == gs[1..][i - 1];
        }
      }
    }
  }

  /** A fresh record finalised after a group counts exactly its known-size lookups. */
  lemma GroupKnown(period: int, led: Ledger, g: seq<Line>, k: Lookup)
    requires period > 0
    ensures var t := TallyOf(Finalize(Run(period, State(led, EmptyRecord), g).rec, period), k);
            var known := KnownLookups(period, State(led, EmptyRecord), g, k);
            t.count == known.0 && t.size == known.1
  {
    RunTallies(period, State(led, EmptyRecord), g, k);
  }

  /**
   * In every finalised record, upOk and upOkSize are exactly the uploads
   * credited by its own lines against the ledger carried over from earlier
   * periods: estimates land in the record of the "upload started" line, not
   * in that of the unsized "uploaded" lines they size.
   */
  lemma {:induction false} SummarizeUploads(period: int, led: Ledger, gs: seq<seq<Line>>)
    requires period > 0
    ensures var recs := Summarize(period, led, gs).0;
            forall i :: 0 <= i < |gs| ==>
              var c := UploadsCredited(period, State(LedgerBefore(period, led, gs, i), EmptyRecord), gs[i]);
              recs[i].upOk == c.0 && recs[i].upOkSize == c.1
    decreases |gs|
  {
    if gs != [] {
      var s0 := State(led, EmptyRecord);
      var s := Run(period, s0, gs[0]);
      var recs := Summarize(period, led, gs).0;
      var rest := Summarize(period, s.ledger, gs[1..]).0;
      assert recs == [Finalize(s.rec, period)] + rest;
      SummarizeUploads(period, s.ledger, gs[1..]);
      forall i | 0 <= i < |gs|
        ensures var c := UploadsCredited(period, State(LedgerBefore(period, led, gs, i), EmptyRecord), gs[i]);
                recs[i].upOk == c.0 && recs[i].upOkSize == c.1
      {
        if i == 0 {
          assert gs[..0] == [];
          RunUploads(period, s0, gs[0]);
        } else {
          LedgerBeforeShift(period, led, gs, i);
          assert recs[i] == rest[i - 1] && gs[i] == gs[1..][i - 1];
        }
      }
    }
  }

  /** The ledger before group i is the ledger before group i - 1 of the groups after the first. */
  lemma LedgerBeforeShift(period: int, led: Ledger, gs: seq<seq<Line>>, i: nat)
    requires period > 0 && 0 < i <= |gs|
    ensures LedgerBefore(period, led, gs, i)
            == LedgerBefore(period, Run(period, State(led, EmptyRecord), gs[0]).ledger, gs[1..], i - 1)
  {
    var s0 := State(led, EmptyRecord);
    var s := Run(period, s0, gs[0]);
    var tail := Flatten(gs[1..][..i - 1]);
    assert gs[..i][0] == gs[0];
    assert gs[..i][1..] == gs[1..][..i - 1];
    assert Flatten(gs[..i]) == gs[0] + tail;
    RunAppend(period, s0, gs[0], tail);
    RunLedger(period, s.ledger, s.rec, EmptyRecord, tail);
  }

  // ---------------------------------------------------------------------
  // The ledger across periods

  lemma {:induction false} RunAppend(period: int, s: State, a: seq<Line>, b: seq<Line>)
    requires period > 0
    ensures Run(period, s, a + b) == Run(period, Run(period, s, a), b)
    decreases |a|
  {
    if a != [] {
      assert (a + b)[0] == a[0];
      assert (a + b)[1..] == a[1..] + b;
      var s1 := Process(period, s, a[0]);
      RunAppend(period, s1, a[1..], b);
      assert Run(period, s, a + b) == Run(period, s1, a[1..] + b);
      assert Run(period, s, a) == Run(period, s1, a[1..]);
    } else {
      assert a + b == b;
    }
  }

  /** The ledger's evolution does not depend on the open record. */
  lemma {:induction false} RunLedger(period: int, led: Ledger, r1: Record, r2: Record, lines: seq<Line>)
    requires period > 0
    ensures Run(period, State(led, r1), lines).ledger == Run(period, State(led, r2), lines).ledger
    decreases |lines|
  {
    if lines != [] {
      var s1 := Process(period, State(led, r1), lines[0]);
      var s2 := Process(period, State(led, r2), lines[0]);
      assert s1.ledger == s2.ledger;
      RunLedger(period, s1.ledger, s1.rec, s2.rec, lines[1..]);
    }
  }

  /** Cutting lines into periods does not change the ledger: it sees every line in order. */
  lemma {:induction false} SummarizeLedger(period: int, led: Ledger, gs: seq<seq<Line>>)
    requires period > 0
    ensures Summarize(period, led, gs).1 == Run(period, State(led, EmptyRecord), Flatten(gs)).ledger
    decreases |gs|
  {
    if gs != [] {
      var s0 := State(led, EmptyRecord);
      var s := Run(period, s0, gs[0]);
      SummarizeLedger(period, s.ledger, gs[1..]);
      RunLedger(period, s.ledger, EmptyRecord, s.rec, Flatten(gs[1..]));
      RunAppend(period, s0, gs[0], Flatten(gs[1..]));
    }
  }

  /** Does this line delete piece pid? */
  predicate Removes(body: Body, pid: string) {
    LookupOf(body) == Some(DeleteOk) && body.pid == pid
  }

  /** A piece with a known size stays known until a line deletes it. */
  lemma {:induction false} PiecePersists(period: int, s: State, lines: seq<Line>, pid: string)
    requires period > 0
    requires pid in s.ledger.pieces
    requires forall i :: 0 <= i < |lines| ==> !Removes(lines[i].body, pid)
    ensures pid in Run(period, s, lines).ledger.pieces
    decreases |lines|
  {
    if lines != [] {
      var s1 := Process(period, s, lines[0]);
      assert !Removes(lines[0].body, pid);
      assert KnownSize(s.ledger, pid).Some?;
      assert pid in s1.ledger.pieces;
      PiecePersists(period, s1, lines[1..], pid);
    }
  }

  /**
   * A piece known after the first m lines of a run stays known to the end
   * of the run unless one of the remaining lines removes it.
   */
  lemma PersistsAfterPrefix(period: int, s: State, ls: seq<Line>, m: nat, pid: string)
    requires period > 0
    requires m <= |ls|
    requires pid in Run(period, s, ls[..m]).ledger.pieces
    requires forall i :: m <= i < |ls| ==> !Removes(ls[i].body, pid)
    ensures pid in Run(period, s, ls).ledger.pieces
  {
    assert ls[..m] + ls[m..] == ls;
    RunAppend(period, s, ls[..m], ls[m..]);
    forall i | 0 <= i < |ls[m..]|
      ensures !Removes(ls[m..][i].body, pid)
    {
      assert ls[m..][i] == ls[m + i];
    }
    PiecePersists(period, Run(period, s, ls[..m]), ls[m..], pid);
  }
}
