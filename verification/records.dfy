/** The per-period statistics record (log_stats.py:32-50) and its finalisation. */
module Records {
  import opened Base

  /** The four event kinds whose size is looked up in the piece ledger. */
  datatype Lookup = DownloadOk | DownloadFail | DownloadCancel | DeleteOk

  /**
   * The counters of one lookup kind: events seen, bytes of those whose piece
   * size was known, and events whose size was unknown ("unseen"). While a
   * record accumulates, `count` includes the unseen events; finalisation
   * takes them out.
   */
  datatype Tally = Tally(count: int, size: int, unseen: int)

  const NoEvents := Tally(0, 0, 0)

  /** One more event of a tally's kind whose piece had size `known` in the ledger. */
  function Count(t: Tally, known: Option<int>): (r: Tally)
    ensures r.count == t.count + 1
    ensures r.unseen == t.unseen + (if known.None? then 1 else 0)
    ensures r.size == t.size + (if known.Some? then known.value else 0)
  {
    match known
    case None => t.(count := t.count + 1, unseen := t.unseen + 1)
    case Some(s) => t.(count := t.count + 1, size := t.size + s)
  }

  /**
   * `date` is the period boundary while accumulating (0 = not fixed yet) and
   * the period start once finalised; `downOk`, `downFail`, `downCancel` and
   * `delOk` group the `*`, `*_size` and `*_unseen` fields of the source.
   */
  datatype Record = Record(
    date: int,
    upOk: int, upOkSize: int, upFail: int, upCancel: int,
    downOk: Tally, downFail: Tally, downCancel: Tally, delOk: Tally)

  /** A record as constructed: every field zero. */
  const EmptyRecord := Record(0, 0, 0, 0, 0, NoEvents, NoEvents, NoEvents, NoEvents)

  function TallyOf(rec: Record, k: Lookup): Tally {
    match k
    case DownloadOk => rec.downOk
    case DownloadFail => rec.downFail
    case DownloadCancel => rec.downCancel
    case DeleteOk => rec.delOk
  }

  /** `rec` with the tally of kind k replaced by t and everything else kept. */
  function WithTally(rec: Record, k: Lookup, t: Tally): (r: Record)
    ensures TallyOf(r, k) == t
    ensures forall k' :: k' != k ==> TallyOf(r, k') == TallyOf(rec, k')
    ensures r.date == rec.date && r.upOk == rec.upOk && r.upOkSize == rec.upOkSize
    ensures r.upFail == rec.upFail && r.upCancel == rec.upCancel
  {
    match k
    case DownloadOk => rec.(downOk := t)
    case DownloadFail => rec.(downFail := t)
    case DownloadCancel => rec.(downCancel := t)
    case DeleteOk => rec.(delOk := t)
  }

  /**
   * The corrections applied before a record is returned: the date moves from
   * the boundary to the period start and every lookup count drops its unseen
   * events, so that count + unseen is the number of events of the period.
   */
  function Finalize(rec: Record, period: int): (r: Record)
    ensures r.date == rec.date - period
    ensures forall k :: TallyOf(r, k).count + TallyOf(r, k).unseen == TallyOf(rec, k).count
    ensures forall k :: TallyOf(r, k).unseen == TallyOf(rec, k).unseen
    ensures forall k :: TallyOf(r, k).size == TallyOf(rec, k).size
    ensures r.upOk == rec.upOk && r.upOkSize == rec.upOkSize
    ensures r.upFail == rec.upFail && r.upCancel == rec.upCancel
  {
    rec.(date := rec.date - period,
         downOk := Corrected(rec.downOk),
         downFail := Corrected(rec.downFail),
         downCancel := Corrected(rec.downCancel),
         delOk := Corrected(rec.delOk))
  }

  function Corrected(t: Tally): Tally {
    t.(count := t.count - t.unseen)
  }
}
