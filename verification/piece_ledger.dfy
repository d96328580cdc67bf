/**
 * The piece-size ledger and the per-event dispatch of Stats.get_1_record
 * (log_stats.py:59-63, 87-148).
 */
module PieceLedger {
  import opened Base
  import opened Events
  import opened Records

  /**
   * `pieces`: piece id -> size; `pending`: pieces uploaded without a size
   * (`pieces_no_size`); `available`: the last "Available Space" reading.
   * Nothing keeps a piece id out of both `pieces` and `pending`.
   */
  datatype Ledger = Ledger(pieces: map<string, int>, pending: set<string>, available: int)

  /** The ledger as Stats.__init__ builds it. */
  const InitialLedger := Ledger(map[], {}, 0)

  /** An available-space drop must be below this to be spread over pending pieces. */
  const EstimateLimit := 10000000

  /** Everything one line can change: the long-lived ledger and the open record. */
  datatype State = State(ledger: Ledger, rec: Record)

  /** The size the ledger holds for `pid`, if any. */
  function KnownSize(led: Ledger, pid: string): Option<int> {
    if pid in led.pieces then Some(led.pieces[pid]) else None
  }

  /**
   * "upload started" with an "Available Space" reading: remember the reading;
   * if pieces are pending, spread a plausible drop in free space evenly over
   * them as successful uploads, and in every case forget them.
   */
  function StartUpload(s: State, reported: int): (r: State)
    ensures r.ledger.available == reported
    ensures r.ledger.pending == {}
    ensures r.rec.date == s.rec.date && r.rec.upFail == s.rec.upFail && r.rec.upCancel == s.rec.upCancel
    ensures forall k :: TallyOf(r.rec, k) == TallyOf(s.rec, k)
    ensures Estimates(s.ledger, reported) ==>
              var n := |s.ledger.pending|;
              var est := Estimate(s.ledger, reported);
              && r.rec == s.rec.(upOk := s.rec.upOk + n, upOkSize := r.rec.upOkSize)
              && r.rec.upOkSize == s.rec.upOkSize + n * est
              && s.rec.upOkSize + (s.ledger.available - reported) - n < r.rec.upOkSize
              && r.rec.upOkSize <= s.rec.upOkSize + (s.ledger.available - reported)
              && r.ledger.pieces.Keys == s.ledger.pieces.Keys + s.ledger.pending
              && (forall p :: p in s.ledger.pending ==> r.ledger.pieces[p] == est)
              && (forall p :: p in s.ledger.pieces && p !in s.ledger.pending ==>
                    r.ledger.pieces[p] == s.ledger.pieces[p])
    ensures !Estimates(s.ledger, reported) ==> r.rec == s.rec && r.ledger.pieces == s.ledger.pieces
  {
    var led := s.ledger;
    if Estimates(led, reported) then
      var n := |led.pending|;
      var est := Estimate(led, reported);
      EstimateBounds(led.available - reported, n);
      var total := n * est;
      assert s.rec.upOkSize + (led.available - reported) - n < s.rec.upOkSize + total <= s.rec.upOkSize + (led.available - reported);
      State(Ledger(Spread(led.pieces, led.pending, est), {}, reported),
            s.rec.(upOk := s.rec.upOk + n, upOkSize := s.rec.upOkSize + total))
    else
      State(led.(pending := {}, available := reported), s.rec)
  }

  /**
   * Is a reading of `reported` bytes free an occasion to estimate the sizes
   * of pending pieces? Only when some are pending and free space dropped by
   * a positive amount below EstimateLimit.
   */
  predicate Estimates(led: Ledger, reported: int) {
    |led.pending| > 0 && 0 < led.available - reported < EstimateLimit
  }

  /** The size each pending piece is credited with: the drop in free space shared evenly. */
  function Estimate(led: Ledger, reported: int): int
    requires Estimates(led, reported)
  {
    (led.available - reported) / |led.pending|
  }

  /** The estimate loses less than one byte per piece and never exceeds the drop. */
  lemma EstimateBounds(delta: int, n: int)
    requires 0 < n && 0 <= delta
    ensures delta - n < n * (delta / n) <= delta
  {
    assert delta == n * (delta / n) + delta % n;
  }

  /** `pieces` with every piece of `ids` given size `est` (log_stats.py:101-104). */
  function Spread(pieces: map<string, int>, ids: set<string>, est: int): (r: map<string, int>)
    ensures r.Keys == pieces.Keys + ids
    ensures forall p :: p in ids ==> r[p] == est
    ensures forall p :: p in pieces && p !in ids ==> r[p] == pieces[p]
  {
    pieces + map p | p in ids :: est
  }

  /**
   * "uploaded": with a size, a successful upload whose size the ledger now
   * knows; without one, the piece only joins the pending set.
   */
  function FinishUpload(s: State, pid: string, size: Option<int>): (r: State)
    ensures r.ledger.available == s.ledger.available
    ensures forall p :: p != pid ==> KnownSize(r.ledger, p) == KnownSize(s.ledger, p)
    ensures forall p :: p != pid ==> (p in r.ledger.pending <==> p in s.ledger.pending)
    ensures size.None? ==>
              && r.rec == s.rec
              && pid in r.ledger.pending
              && KnownSize(r.ledger, pid) == KnownSize(s.ledger, pid)
    ensures size.Some? ==>
              && r.rec == s.rec.(upOk := s.rec.upOk + 1, upOkSize := s.rec.upOkSize + size.value)
              && KnownSize(r.ledger, pid) == size
              && r.ledger.pending == s.ledger.pending
  {
    match size
    case None => s.(ledger := s.ledger.(pending := s.ledger.pending + {pid}))
    case Some(n) =>
      State(s.ledger.(pieces := s.ledger.pieces[pid := n]),
            s.rec.(upOk := s.rec.upOk + 1, upOkSize := s.rec.upOkSize + n))
  }

  /** StartUpload neither reads nor writes the record's date. */
  lemma StartUploadIgnoresDate(s: State, reported: int, d: int)
    ensures var a := StartUpload(s, reported);
            StartUpload(s.(rec := s.rec.(date := d)), reported) == a.(rec := a.rec.(date := d))
  {
    var s' := s.(rec := s.rec.(date := d));
    if Estimates(s.ledger, reported) {
      var n := |s.ledger.pending|;
      var est := Estimate(s.ledger, reported);
      assert StartUpload(s', reported).rec == s'.rec.(upOk := s.rec.upOk + n, upOkSize := s.rec.upOkSize + n * est);
    }
  }

  /** FinishUpload neither reads nor writes the record's date. */
  lemma FinishUploadIgnoresDate(s: State, pid: string, size: Option<int>, d: int)
    ensures var a := FinishUpload(s, pid, size);
            FinishUpload(s.(rec := s.rec.(date := d)), pid, size) == a.(rec := a.rec.(date := d))
  {
  }

  /** Which lookup tally, if any, an event feeds. */
  function LookupOf(body: Body): Option<Lookup> {
    match body
    case PieceStore(e, _, _, _) =>
      if e == Downloaded then Some(DownloadOk)
      else if e == DownloadFailed then Some(DownloadFail)
      else if e == DownloadCanceled then Some(DownloadCancel)
      else None
    case PieceDeleter(e, _) =>
      if e == Deleted || e == DeleteFailed then Some(DeleteOk) else None
    case _ => None
  }

  /** Does the line change any state at all? */
  predicate Effective(body: Body) {
    match body
    case PieceStore(e, _, _, a) =>
      (e == UploadStarted && a.Some?) || e == Uploaded || e == UploadFailed
      || e == UploadCanceled || LookupOf(body).Some?
    case PieceDeleter(_, _) => LookupOf(body).Some?
    case _ => false
  }

  /**
   * The effect of one line's body on the ledger and the open record. Other
   * modules, malformed lines, "download started", unexpected event kinds and
   * an "upload started" without a reading leave everything as it was.
   */
  function Apply(s: State, body: Body): (r: State)
    ensures r.rec.date == s.rec.date
    ensures !Effective(body) ==> r == s
    ensures forall k :: LookupOf(body) != Some(k) ==> TallyOf(r.rec, k) == TallyOf(s.rec, k)
    ensures LookupOf(body).Some? ==>
              var k := LookupOf(body).value;
              && TallyOf(r.rec, k) == Count(TallyOf(s.rec, k), KnownSize(s.ledger, body.pid))
              && r.rec.upOk == s.rec.upOk && r.rec.upOkSize == s.rec.upOkSize
              && r.rec.upFail == s.rec.upFail && r.rec.upCancel == s.rec.upCancel
              && (k != DeleteOk ==> r.ledger == s.ledger)
              && (k == DeleteOk ==> r.ledger == s.ledger.(pieces := s.ledger.pieces - {body.pid}))
    ensures r.rec.upFail == s.rec.upFail + (if IsEvent(body, UploadFailed) then 1 else 0)
    ensures r.rec.upCancel == s.rec.upCancel + (if IsEvent(body, UploadCanceled) then 1 else 0)
  {
    match body
    case PieceStore(e, pid, size, available) =>
      if e == UploadStarted then
        (match available
         case None => s
         case Some(a) => StartUpload(s, a))
      else if e == Uploaded then FinishUpload(s, pid, size)
      else if e == UploadFailed then s.(rec := s.rec.(upFail := s.rec.upFail + 1))
      else if e == UploadCanceled then s.(rec := s.rec.(upCancel := s.rec.upCancel + 1))
      else if e == DownloadStarted then s
      else if e == Downloaded then Look(s, DownloadOk, pid)
      else if e == DownloadFailed then Look(s, DownloadFail, pid)
      else if e == DownloadCanceled then Look(s, DownloadCancel, pid)
      else s
    case PieceDeleter(e, pid) =>
      if e == Deleted || e == DeleteFailed then
        Look(s, DeleteOk, pid).(ledger := s.ledger.(pieces := s.ledger.pieces - {pid}))
      else s
    case OtherModule => s
    case Malformed => s
  }

  /**
   * The upload branches of Apply: "uploaded" is FinishUpload, "upload
   * started" with a reading is StartUpload, and a failed or canceled upload
   * leaves the ledger and the successful-upload counters alone.
   */
  lemma ApplyUploads(s: State, body: Body)
    ensures IsEvent(body, Uploaded) ==> Apply(s, body) == FinishUpload(s, body.pid, body.size)
    ensures IsEvent(body, UploadStarted) && body.available.Some? ==>
              Apply(s, body) == StartUpload(s, body.available.value)
    ensures IsEvent(body, UploadStarted) && body.available.None? ==> Apply(s, body) == s
    ensures IsEvent(body, UploadFailed) || IsEvent(body, UploadCanceled) ==>
              var r := Apply(s, body);
              && r.ledger == s.ledger
              && r.rec.upOk == s.rec.upOk && r.rec.upOkSize == s.rec.upOkSize
  {
  }

  /**
   * Successful uploads and bytes a line credits to the open record, given
   * the ledger when it is read: a sized "uploaded" is one upload of its
   * size; an "upload started" whose reading allows an estimate credits
   * every pending piece with the estimate; nothing else credits anything.
   */
  function UploadCredit(led: Ledger, body: Body): (nat, int) {
    if IsEvent(body, Uploaded) && body.size.Some? then (1, body.size.value)
    else if IsEvent(body, UploadStarted) && body.available.Some? && Estimates(led, body.available.value) then
      var n := |led.pending|;
      var est := Estimate(led, body.available.value);
      (n, n * est)
    else (0, 0)
  }

  /** Apply grows the successful-upload counters by exactly the line's credit. */
  lemma ApplyCredit(s: State, body: Body)
    ensures var r := Apply(s, body);
            var c := UploadCredit(s.ledger, body);
            r.rec.upOk == s.rec.upOk + c.0 && r.rec.upOkSize == s.rec.upOkSize + c.1
  {
    ApplyUploads(s, body);
    if IsEvent(body, UploadStarted) && body.available.Some? {
      var a := body.available.value;
      if Estimates(s.ledger, a) {
        var n := |s.ledger.pending|;
        var est := Estimate(s.ledger, a);
        assert StartUpload(s, a).rec.upOkSize == s.rec.upOkSize + n * est;
      }
    }
  }

  /** Count one lookup event against the size the ledger knows for its piece. */
  function Look(s: State, k: Lookup, pid: string): State {
    s.(rec := WithTally(s.rec, k, Count(TallyOf(s.rec, k), KnownSize(s.ledger, pid))))
  }
}
