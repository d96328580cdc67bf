/**
 * One line of a storage node's log once it has been split on tabs, its
 * timestamp parsed and its JSON payload decoded (log_stats.py:79-91).
 */
module Events {
  import opened Base

  // Event kinds logged by the piece-store module.
  const UploadStarted := "upload started"
  const Uploaded := "uploaded"
  const UploadFailed := "upload failed"
  const UploadCanceled := "upload canceled"
  const DownloadStarted := "download started"
  const Downloaded := "downloaded"
  const DownloadFailed := "download failed"
  const DownloadCanceled := "download canceled"

  // Event kinds logged by the piece-deleter module.
  const Deleted := "deleted"
  const DeleteFailed := "delete failed"

  /**
   * Everything after the timestamp.
   * - `PieceStore` / `PieceDeleter`: a line of a recognised module that has its
   *   event field and a payload with a "Piece ID". For the piece store, `size`
   *   is the payload's "Size" (None when absent or null) and `available` its
   *   "Available Space" (None when the key is absent).
   * - `OtherModule`: any other module; its event and payload are never read.
   * - `Malformed`: a line whose field or key access raises IndexError or
   *   KeyError; the handler skips it without touching any state.
   */
  datatype Body =
    | PieceStore(event: string, pid: string, size: Option<int>, available: Option<int>)
    | PieceDeleter(event: string, pid: string)
    | OtherModule
    | Malformed

  /** A non-empty log line: its timestamp in whole seconds and its body. */
  datatype Line = Line(ts: int, body: Body)

  /** A line as read from the stream: empty, or carrying a log line. */
  datatype RawLine = Blank | Text(line: Line)

  /** The non-empty lines of `input`, in their original order. */
  function NonBlank(input: seq<RawLine>): (r: seq<Line>)
    ensures |r| <= |input|
    ensures (forall i :: 0 <= i < |input| ==> input[i].Blank?) <==> r == []
  {
    if |input| == 0 then []
    else
      var rest := NonBlank(input[1..]);
      assert forall i :: 1 <= i < |input| ==> input[1..][i - 1] == input[i];
      (if input[0].Text? then [input[0].line] else []) + rest
  }

  /** Unfolds NonBlank at position i of a suffix. */
  lemma NonBlankAt(input: seq<RawLine>, i: nat)
    requires i < |input|
    ensures NonBlank(input[i..]) ==
            (if input[i].Text? then [input[i].line] else []) + NonBlank(input[i + 1..])
  {
    assert input[i..][0] == input[i];
    assert input[i..][1..] == input[i + 1..];
  }

  /** Is `body` a piece-store event of the given kind? */
  predicate IsEvent(body: Body, kind: string) {
    body.PieceStore? && body.event == kind
  }

  /** Number of piece-store events of the given kind among `lines`. */
  function CountEvents(lines: seq<Line>, kind: string): (n: nat)
    ensures n <= |lines|
  {
    if lines == [] then 0
    else (if IsEvent(lines[0].body, kind) then 1 else 0) + CountEvents(lines[1..], kind)
  }
}
