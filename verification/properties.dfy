/**
 * What a whole run over an input stream promises, stated on AllRecords
 * and derived from its equality with the period grouping.
 */
module Properties {
  import opened Base
  import opened Events
  import opened Records
  import opened PieceLedger
  import opened Periods
  import opened Stats

  /**
   * With no non-empty line, the loop still runs get_1_record once: one
   * record, all counters zero, dated one period before the epoch, and an
   * untouched ledger.
   */
  lemma EmptyInput(period: int, input: seq<RawLine>)
    requires period > 0
    requires forall i :: 0 <= i < |input| ==> input[i].Blank?
    ensures AllRecords(period, input) == ([EmptyRecord.(date := -period)], InitialLedger)
  {
    AllRecordsMatchPeriods(period, input);
  }

  /**
   * Every non-empty line is processed in exactly one record, in input
   * order: the records correspond one to one with non-empty groups that
   * concatenate to the non-empty lines, and the groups obey the boundary rule.
   */
  lemma EveryLineOnce(period: int, input: seq<RawLine>)
    requires period > 0
    requires NonBlank(input) != []
    ensures var gs := Split(period, NonBlank(input));
            && |AllRecords(period, input).0| == |gs|
            && Flatten(gs) == NonBlank(input)
            && (forall i :: 0 <= i < |gs| ==> gs[i] != [])
            && (forall i :: 0 <= i < |gs| ==> WithinBoundary(period, gs[i]))
            && (forall i :: 0 <= i < |gs| - 1 ==> StartsAfter(period, gs[i], gs[i + 1]))
  {
    AllRecordsMatchPeriods(period, input);
    SplitCovers(period, NonBlank(input));
    SplitBoundaries(period, NonBlank(input));
  }

  /**
   * The counting identities of each record: for every lookup kind, the
   * known-size count plus the unseen count is the number of such events in
   * the record's lines, and neither is negative; failed and canceled
   * uploads are counted once each.
   */
  lemma RecordCounts(period: int, input: seq<RawLine>)
    requires period > 0
    requires NonBlank(input) != []
    ensures var gs := Split(period, NonBlank(input));
            var recs := AllRecords(period, input).0;
            && |recs| == |gs|
            && (forall i, k :: 0 <= i < |gs| ==>
                  && TallyOf(recs[i], k).count + TallyOf(recs[i], k).unseen == CountLookups(gs[i], k)
                  && TallyOf(recs[i], k).count >= 0 && TallyOf(recs[i], k).unseen >= 0)
            && (forall i :: 0 <= i < |gs| ==>
                  && recs[i].upFail == CountEvents(gs[i], UploadFailed)
                  && recs[i].upCancel == CountEvents(gs[i], UploadCanceled))
  {
    AllRecordsMatchPeriods(period, input);
    SummarizeCounts(period, InitialLedger, Split(period, NonBlank(input)));
    SummarizeUploadFailures(period, InitialLedger, Split(period, NonBlank(input)));
  }

  /**
   * A record whose first line t0 fixes a boundary is dated at the start of
   * t0's period: a multiple of the period, at most t0 and within a period of it.
   */
  lemma RecordDates(period: int, input: seq<RawLine>)
    requires period > 0
    requires NonBlank(input) != []
    ensures var gs := Split(period, NonBlank(input));
            var recs := AllRecords(period, input).0;
            && |recs| == |gs|
            && forall i :: 0 <= i < |gs| && gs[i] != [] && FixesBoundary(gs[i][0].ts, period) ==>
                 && recs[i].date == (gs[i][0].ts / period) * period
                 && recs[i].date <= gs[i][0].ts < recs[i].date + period
  {
    var gs := Split(period, NonBlank(input));
    AllRecordsMatchPeriods(period, input);
    GroupDates(period, InitialLedger, gs);
  }

  /** SummarizeDates, with each date written as the start of its first line's period. */
  lemma GroupDates(period: int, led: Ledger, gs: seq<seq<Line>>)
    requires period > 0
    ensures var recs := Summarize(period, led, gs).0;
            forall i :: 0 <= i < |gs| && gs[i] != [] && FixesBoundary(gs[i][0].ts, period) ==>
              && recs[i].date == (gs[i][0].ts / period) * period
              && recs[i].date <= gs[i][0].ts < recs[i].date + period
  {
    SummarizeDates(period, led, gs);
    forall i | 0 <= i < |gs| && gs[i] != [] && FixesBoundary(gs[i][0].ts, period)
      ensures Boundary(gs[i][0].ts, period) - period == (gs[i][0].ts / period) * period
    {
      BoundaryForm(gs[i][0].ts, period);
    }
  }

  /**
   * Each record's lookup counts hold only the events whose piece size was
   * known when the event was read, and its byte totals are the sum of
   * those sizes; for deletes, the sizes known at the moment of deletion.
   */
  lemma RecordKnownSizes(period: int, input: seq<RawLine>)
    requires period > 0
    requires NonBlank(input) != []
    ensures var gs := Split(period, NonBlank(input));
            var recs := AllRecords(period, input).0;
            && |recs| == |gs|
            && forall i, k :: 0 <= i < |gs| ==>
                 var before := LedgerBefore(period, InitialLedger, gs, i);
                 var known := KnownLookups(period, State(before, EmptyRecord), gs[i], k);
                 TallyOf(recs[i], k).count == known.0 && TallyOf(recs[i], k).size == known.1
  {
    AllRecordsMatchPeriods(period, input);
    SummarizeKnown(period, InitialLedger, Split(period, NonBlank(input)));
  }

  /**
   * Each record's successful uploads and bytes are those credited by its
   * own lines; a period without any "uploaded" or "upload started" line
   * reports none, even if pieces it saw stayed pending.
   */
  lemma RecordUploads(period: int, input: seq<RawLine>)
    requires period > 0
    requires NonBlank(input) != []
    ensures var gs := Split(period, NonBlank(input));
            var recs := AllRecords(period, input).0;
            && |recs| == |gs|
            && (forall i :: 0 <= i < |gs| ==>
                  var c := UploadsCredited(period, State(LedgerBefore(period, InitialLedger, gs, i), EmptyRecord), gs[i]);
                  recs[i].upOk == c.0 && recs[i].upOkSize == c.1)
            && (forall i :: 0 <= i < |gs| && NoUploadLines(gs[i]) ==>
                  recs[i].upOk == 0 && recs[i].upOkSize == 0)
  {
    AllRecordsMatchPeriods(period, input);
    var gs := Split(period, NonBlank(input));
    SummarizeUploads(period, InitialLedger, gs);
    forall i | 0 <= i < |gs| && NoUploadLines(gs[i])
      ensures AllRecords(period, input).0[i].upOk == 0 && AllRecords(period, input).0[i].upOkSize == 0
    {
      NoUploadsNoCredit(period, State(LedgerBefore(period, InitialLedger, gs, i), EmptyRecord), gs[i]);
    }
  }

  /**
   * When no line falls in the period just before the epoch (where the
   * boundary computes to 0 and counts as unset), successive records are
   * dated at least one period apart, so dates strictly increase.
   */
  lemma DatesIncrease(period: int, input: seq<RawLine>)
    requires period > 0
    requires forall l :: l in NonBlank(input) ==> FixesBoundary(l.ts, period)
    ensures var recs := AllRecords(period, input).0;
            forall i, j :: 0 <= i < j < |recs| ==> recs[i].date + period <= recs[j].date
  {
    var ls := NonBlank(input);
    AllRecordsMatchPeriods(period, input);
    if ls == [] {
      assert |AllRecords(period, input).0| == 1;
    } else {
      var gs := Split(period, ls);
      assert AllRecords(period, input).0 == Summarize(period, InitialLedger, gs).0;
      SplitCovers(period, ls);
      SplitBoundaries(period, ls);
      GroupsAscend(period, InitialLedger, gs, ls);
    }
  }

  /** The date chain over groups that obey the boundary rule and start on boundary-fixing lines. */
  lemma GroupsAscend(period: int, led: Ledger, gs: seq<seq<Line>>, ls: seq<Line>)
    requires period > 0
    requires Flatten(gs) == ls
    requires forall l :: l in ls ==> FixesBoundary(l.ts, period)
    requires forall i :: 0 <= i < |gs| ==> gs[i] != []
    requires forall i :: 0 <= i < |gs| - 1 ==> StartsAfter(period, gs[i], gs[i + 1])
    ensures var recs := Summarize(period, led, gs).0;
            forall i, j :: 0 <= i < j < |recs| ==> recs[i].date + period <= recs[j].date
  {
    var recs := Summarize(period, led, gs).0;
    SummarizeDates(period, led, gs);
    forall i | 0 <= i < |gs|
      ensures FixesBoundary(gs[i][0].ts, period)
    {
      FlattenHas(gs, i);
    }
    forall i | 0 <= i < |recs| - 1
      ensures recs[i].date + period <= recs[i + 1].date
    {
      assert StartsAfter(period, gs[i], gs[i + 1]);
      BoundaryAdvances(gs[i][0].ts, gs[i + 1][0].ts, period);
    }
    ChainAscends(recs, period);
  }

  /** The first line of every non-empty group appears among the concatenated lines. */
  lemma {:induction false} FlattenHas(gs: seq<seq<Line>>, i: nat)
    requires i < |gs| && gs[i] != []
    ensures gs[i][0] in Flatten(gs)
    decreases i
  {
    if i > 0 {
      FlattenHas(gs[1..], i - 1);
      assert gs[1..][i - 1] == gs[i];
    }
  }

  /** Dates that grow by a period at each step grow by a period between any two records. */
  lemma {:induction false} ChainAscends(recs: seq<Record>, period: int)
    requires period > 0
    requires forall i :: 0 <= i < |recs| - 1 ==> recs[i].date + period <= recs[i + 1].date
    ensures forall i, j :: 0 <= i < j < |recs| ==> recs[i].date + period <= recs[j].date
    decreases |recs|
  {
    if |recs| > 1 {
      var front := recs[..|recs| - 1];
      ChainAscends(front, period);
      forall i | 0 <= i < |recs| - 1
        ensures recs[i].date + period <= recs[|recs| - 1].date
      {
        if i < |recs| - 2 {
          assert front[i] == recs[i] && front[|recs| - 2] == recs[|recs| - 2];
        }
      }
    }
  }

  /**
   * Cutting the run into periods does not affect the ledger: at the end it
   * is the ledger after every non-empty line, in order.
   */
  lemma FinalLedger(period: int, input: seq<RawLine>)
    requires period > 0
    ensures AllRecords(period, input).1 == Run(period, State(InitialLedger, EmptyRecord), NonBlank(input)).ledger
  {
    var ls := NonBlank(input);
    AllRecordsMatchPeriods(period, input);
    if ls != [] {
      SummarizeLedger(period, InitialLedger, Split(period, ls));
      SplitCovers(period, ls);
    }
  }

  /**
   * A piece whose size is known after the first m non-empty lines is still
   * known at the end of the run unless a later line deletes it, whatever
   * periods lie in between.
   */
  lemma PieceSurvives(period: int, input: seq<RawLine>, m: nat, pid: string)
    requires period > 0
    requires m <= |NonBlank(input)|
    requires pid in Run(period, State(InitialLedger, EmptyRecord), NonBlank(input)[..m]).ledger.pieces
    requires forall i :: m <= i < |NonBlank(input)| ==> !Removes(NonBlank(input)[i].body, pid)
    ensures pid in AllRecords(period, input).1.pieces
  {
    FinalLedger(period, input);
    PersistsAfterPrefix(period, State(InitialLedger, EmptyRecord), NonBlank(input), m, pid);
  }
}
