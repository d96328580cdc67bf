# log_stats.py, modelled in Dafny

`log_stats.py` reads a storage node's log from standard input and folds it
into one statistics record per fixed period (for example one per day):
uploads, downloads and deletes, each with a count and a byte total. Two
parts of it carry the logic modelled here:

- **`Line_buffer`** is a forward-only line reader with exactly one slot of
  pushback. It skips empty lines and remembers end of input.
- **`Stats`** holds the record loop. `get_1_record` fixes the period
  boundary from the first line it reads. When a line reaches the boundary,
  the loop pushes that line back for the next record. Each line is
  dispatched on its module and event. At the end the record is finalised:
  the date moves to the period start, and downloads and deletes of pieces
  with unknown size are taken out of the counts.
  Across records, `Stats` keeps a piece-size ledger: sizes reported by
  `uploaded` lines, plus pieces uploaded without a size. When the next
  `upload started` line reports free disk space, those unsized pieces get a
  size estimated from the drop in free space.

The model is a set of pure functions over immutable values:

- `Events` — a log line is a timestamp in whole seconds plus a decoded body:
  a piece-store event, a piece-deleter event, another module, or a line
  whose fields are missing (`Malformed`). The input is a sequence of raw
  lines, some of them empty.
- `LineBuffer` — the reader as a value `Buffer(pos, line, back, eof)` over
  that fixed input. `GetLine` and `GoBack` return the new state, and a
  second pushback is an `Err`.
- `Records` — the record, with one `Tally(count, size, unseen)` per lookup
  kind (downloaded, download failed, download canceled, deleted), and its
  finalisation.
- `PieceLedger` — the ledger (`pieces`, `pending`, `available`), the
  estimation heuristic, and the per-event dispatch `Apply`.
- `Periods` — a reference definition of the record loop, independent of the
  buffer. `Split` cuts the non-empty lines into period groups by the same
  boundary rule. `Summarize` folds each group into a record and threads the
  ledger through the groups.
- `Stats` — `get_1_record` and `get_all_records` written over the buffer
  (`Collect`, `GetOneRecord`, `Drive`, the method `GetAllRecords`). A proof
  shows they compute exactly the reference definition.
- `Properties` — what a whole run promises, stated on the buffer-driven run.
- `Scenarios` — small concrete runs.

Some behaviours of the code are easy to miss. The model follows the code
in each of them:

- An input with no non-empty line still gives one record, all zero, dated
  one period before the epoch. It does not give an empty list of records.
- The record's date field doubles as the "boundary not fixed yet" flag
  (`if not rec.date`). Take a first line with a timestamp in
  `[-period, 0)`: its boundary computes to 0, so the next line fixes the
  boundary again. Date properties therefore carry the hypothesis
  `FixesBoundary(t, period)` (that is, `Boundary(t, period) != 0`). The
  boundary-rule lemmas (`Periods.WithinBoundary`, `Periods.StartsAfter`)
  carry it too and say nothing about a group whose first line has boundary
  0. Before the epoch the dates of successive records can even go
  backwards (`Scenarios.PreEpochDatesDecrease`).
- A period covers `[k*period, (k+1)*period)`. A line stamped exactly on a
  boundary opens the next record.
- A piece can have a known size and also wait for an estimate.
  `uploaded` without a size adds the piece to the pending set even when it
  already has a known size. A successful estimate then overwrites that
  size. (`Scenarios.SizedAndPending`.)
- Uploads whose size is estimated are credited to the record that is
  open when the `upload started` line is read. That is not necessarily
  the record holding the unsized `uploaded` lines. Pieces still pending
  at the end of the input are never credited (`Properties.RecordUploads`).
- A failed delete (`delete failed`) is tallied and removes the piece
  exactly like a successful one.
- A line whose fields are missing (the `IndexError`/`KeyError` path) still
  takes part in the boundary check. Only after that check is it skipped.
  `upload started` without `Available Space` is such a line.

## Model

| member | source | states |
|---|---|---|
| LineBuffer.SkipBlanks | log_stats.py:22-26 | the read loop stops at the first non-empty line at or after the position (or the end), only empty lines lie in between, and the non-empty lines still to come are unchanged |
| LineBuffer.GetLine | log_stats.py:17-30 | a read clears the pushback; a returned line becomes the remembered line; a failed read without pushback sets end of input; end of input is never cleared; each read consumes work |
| LineBuffer.GoBack | log_stats.py:13-15 | pushback fails exactly when one is already pending; otherwise it marks one and keeps the position, the remembered line and the end-of-input flag |
| LineBuffer.GetLineNext | log_stats.py:17-30 | a read returns exactly the next pending non-empty line (the pushed-back one first) and removes it; with none pending it returns None and sets end of input |
| LineBuffer.PushbackRedelivers | log_stats.py:13-20 | after a successful read, pushback succeeds, a second pushback fails, and the next read returns the same line in the same state |
| Records.Finalize | log_stats.py:151-157 | finalisation moves the date back one period and takes the unseen events out of each lookup count; sizes, unseen counts and upload counters are kept |
| PieceLedger.EstimateBounds | log_stats.py:99-100 | the per-piece estimate delta / n (rounded down), times n, lies in (delta - n, delta] |
| PieceLedger.Spread | log_stats.py:101-104 | every pending piece gets the estimate; every other piece keeps its size |
| PieceLedger.StartUpload | log_stats.py:92-108 | free space becomes the reported value and nothing stays pending; when pieces are pending and 0 < drop < 10000000, each pending piece is counted as an upload with size drop / n (rounded down) and the upload bytes grow by between drop - n + 1 and drop; otherwise record and sizes are unchanged |
| PieceLedger.FinishUpload | log_stats.py:109-115 | a sized upload is counted and its size recorded; an unsized one only joins the pending set |
| PieceLedger.Apply | log_stats.py:87-148 | the date never changes; a lookup event changes only its own tally, by exactly one event of the size known before it, and leaves the upload counters alone; downloads leave the ledger alone; deletes drop the piece; failed and canceled uploads add one to their own counter; other modules, unknown events and malformed lines change nothing |
| PieceLedger.ApplyUploads | log_stats.py:92-117 | "uploaded" is FinishUpload and "upload started" with a reading is StartUpload; without a reading it changes nothing; failed and canceled uploads leave the ledger and the successful-upload counters alone |
| Periods.Boundary | log_stats.py:82 | the boundary is a multiple of the period, strictly after the timestamp and at most one period after it, so it is the next multiple of the period |
| Periods.Process | log_stats.py:81-86 | a line taken into a record with an unset (zero) date sets the date to the line's boundary; a fixed date stays |
| Periods.ProcessDispatch | log_stats.py:81-148 | taking a line in is the dispatch of its body with only the date replaced: the dispatch neither reads nor changes the date |
| Periods.Extent | log_stats.py:74-86 | a record takes at most the pending lines, and at least one when the boundary is still unset |
| Periods.SplitCovers | log_stats.py:65-86 | the period groups are non-empty and concatenate back to the non-empty lines in order |
| Periods.ExtentWithin | log_stats.py:83-86 | with the boundary fixed, a record takes exactly the lines before the first one at or past the boundary |
| Periods.FirstGroup | log_stats.py:81-86 | the first line fixes the boundary, the record takes the lines before it, and the next line (if any) is at or past it |
| Periods.SplitBoundaries | log_stats.py:81-86 | every line of a group lies before the group's boundary, and each following group starts at or past it |
| Periods.RunKeepsDate | log_stats.py:81-86 | once the boundary is fixed, no line changes it |
| Periods.SummarizeDates | log_stats.py:81-152 | each record is dated one period before its first line's boundary when that boundary is nonzero |
| Periods.BoundaryAdvances | log_stats.py:82-83 | a line at or past a boundary has a boundary at least one period later |
| Periods.KnownLookups | log_stats.py:119-144 | the events of a kind whose size was known when read never outnumber the events of that kind |
| Periods.RunTallies | log_stats.py:119-144 | over any lines, each lookup tally's count plus unseen grows by exactly the number of such events, and count and size grow by the known-size events and their sizes |
| Periods.RunUploadFailures | log_stats.py:116-117 | failed and canceled uploads grow by exactly the number of such lines |
| Periods.SummarizeCounts | log_stats.py:119-156 | in every finalised record, count plus unseen is the number of lookup events of its group, and neither is negative |
| Periods.SummarizeUploadFailures | log_stats.py:116-117 | every record counts its group's failed and canceled uploads |
| Periods.SummarizeKnown | log_stats.py:119-156 | every record's counts and byte totals are those of the events whose size the ledger knew at that moment, the ledger carried over from earlier records |
| Periods.RunAppend | log_stats.py:74-86 | processing two stretches of lines one after the other equals processing their concatenation |
| Periods.RunLedger | log_stats.py:59-63 | the ledger a run produces does not depend on the record being filled |
| Periods.SummarizeLedger | log_stats.py:65-70 | the ledger left after all records is that of one pass over all lines |
| PieceLedger.ApplyCredit | log_stats.py:92-117 | a line grows upOk and upOkSize by exactly its credit: one upload of its size for a sized "uploaded"; every pending piece at the estimate for an "upload started" whose drop allows one; nothing for any other line |
| Periods.RunUploads | log_stats.py:92-115 | over any lines, upOk and upOkSize grow by exactly the uploads credited line by line against the ledger as it stands at each line |
| Periods.NoUploadsNoCredit | log_stats.py:92-115 | lines without "uploaded" or "upload started" credit no upload and no bytes |
| Periods.SummarizeUploads | log_stats.py:92-156 | every finalised record's upOk and upOkSize are those credited by its own group, against the ledger carried over from earlier records |
| Periods.PiecePersists | log_stats.py:104-141 | a piece with a known size keeps it while no later line deletes it |
| Periods.PersistsAfterPrefix | log_stats.py:104-141 | a piece known after the first m lines of a run is known at its end unless one of the remaining lines deletes it |
| Stats.GetOneRecord | log_stats.py:72-157 | get_1_record keeps the reader valid and consumes input unless it reaches end of input; its value is given by Stats.GetOneRecordRefines |
| Stats.GetOneRecordRefines | log_stats.py:72-157 | from a reader not at end of input, the record is a fresh record run over the first period group of the pending lines and then finalised; the ledger is the one that run leaves; the rest stays pending; end of input is reached exactly when the group took every pending line |
| Stats.Drive | log_stats.py:65-70 | the record loop yields no records and keeps the ledger once end of input was seen, and at least one record otherwise |
| Stats.Collect | log_stats.py:74-86 | the record loop keeps the reader valid and consumes work unless it reaches end of input |
| Stats.CollectRefines | log_stats.py:74-86 | the record loop processes exactly the pending lines of the current period, in order; it leaves the rest pending, the pushed-back line first; it hits end of input exactly when it took them all |
| Stats.CollectStops | log_stats.py:74-86 | with nothing pending the loop takes no line and stops at end of input; a line of a later period is pushed back, stays pending and takes nothing |
| Stats.DriveRefines | log_stats.py:65-86 | from a reader with lines pending, the records are those of the period grouping of those lines |
| Stats.GetAllRecords | log_stats.py:65-70 | the loop returns the records and ledger of the period grouping of the non-empty input lines |
| Stats.AllRecordsMatchPeriods | log_stats.py:65-157 | the buffer-driven run equals the reference period grouping for every input, empty included |
| Properties.EmptyInput | log_stats.py:65-77 | input with no non-empty line gives one all-zero record dated -period (line 152) and an untouched ledger |
| Properties.EveryLineOnce | log_stats.py:65-86 | one record per group; the groups are non-empty, cover every non-empty line once in order, and obey the boundary rule |
| Properties.RecordCounts | log_stats.py:116-156 | per record and lookup kind, count plus unseen equals the group's events and both are non-negative; failed and canceled uploads are counted once each |
| Properties.RecordDates | log_stats.py:81-152 | a record whose first line t0 fixes a boundary is dated (t0 / period) * period (floor division), so date <= t0 < date + period |
| Properties.RecordKnownSizes | log_stats.py:119-156 | each record's lookup counts and byte totals are those of events whose size was known when read |
| Properties.RecordUploads | log_stats.py:92-156 | each record's successful uploads and bytes are exactly those its own lines credit, estimates going to the record of the "upload started" line; a period with no "uploaded" or "upload started" line reports zero of both |
| Properties.DatesIncrease | log_stats.py:81-86 | when no line falls in [-period, 0), successive records are at least one period apart |
| Properties.FinalLedger | log_stats.py:59-70 | the ledger after all records is that of one pass over all non-empty lines |
| Properties.PieceSurvives | log_stats.py:104-141 | a piece known after some prefix of the input is still known at the end unless a later line deletes it |
| Scenarios.UploadThenDownload | log_stats.py:109-123 | a sized upload then a download in the same period count one upload and one download of that size |
| Scenarios.UploadDownloadRecords | log_stats.py:109-123 | the period records of that upload and download: one record, dated 0, with one upload and one download of 1000 bytes |
| Scenarios.UploadDownloadRun | log_stats.py:81-123 | the run over those two lines fixes the boundary at one day, counts the upload and then the download at the known size |
| Scenarios.SameDay | log_stats.py:81-86 | two lines a second apart in the first day of the epoch form a single group |
| Scenarios.EstimateInRange | log_stats.py:92-104 | a drop of 1000000 bytes with one pending piece sizes that piece at 1000000 and counts one upload of that size |
| Scenarios.EstimateOutOfRange | log_stats.py:92-108 | a drop of 50000000 bytes, above the limit, discards the pending piece without sizing or counting it |
| Scenarios.SizedAndPending | log_stats.py:109-115 | a piece can have a known size and be pending at once |
| Scenarios.SkippedPeriods | log_stats.py:81-86 | two lines five periods apart give two records, with no empty records for the periods between |
| Scenarios.PreEpochDatesDecrease | log_stats.py:81-86 | with period 100, lines at -50, -200, -100, -300 give two records dated -200 then -300: a boundary of 0 reads as unset, so dates before the epoch can decrease |
| Scenarios.PreEpochRecords | log_stats.py:81-152 | the period records of those four lines are dated -200 and -300 |
| Scenarios.PreEpochGroups | log_stats.py:81-86 | with period 100, times -50, -200, -100, -300 fall into the groups {-50, -200} and {-100, -300} |
| Scenarios.PreEpochPair | log_stats.py:81-82 | a record whose first line has boundary 0 takes its date from the second line's boundary |

## Left out

- Printing the table, `percent` and the command line (log_stats.py:159-231): output formatting only.
- Progress and diagnostic printing to the terminal and standard error (lines 68, 135, 146, 150): this has no effect on the records.
- Timestamp parsing with `strptime` (line 80): a line's time `ts` is an integer number of seconds since the epoch, the floor of the parsed time. Line 83 compares whole seconds, which for an integral boundary agrees with the exact comparison. Line 82 truncates toward zero, so for a time before the epoch with a fractional part its boundary can differ from the model's. For example, -0.5 has boundary `period` in the code and 0 in the model.
- JSON decoding (lines 90, 138): a line's body arrives decoded. A missing field is `Malformed` or `None`.
- Exceptions the code does not catch: a malformed timestamp, invalid JSON, a payload that is valid JSON but not an object (indexing it for "Piece ID" raises `TypeError`, which line 149 does not catch), and a non-numeric size or free-space value. Each of these ends the program, and the model has no such inputs.
- Floating-point "Size" or "Available Space" values: the code accepts them and adds them into the totals as floats. The model's sizes and readings are integers, so such payloads are not represented.
- Reading standard input: the input is a given finite sequence of raw lines.
- `Line_buffer` and `Stats` as mutable objects: the model threads their state as values. Determinism therefore holds by construction.
