/**
 * The forward-only line source with one slot of pushback (log_stats.py:6-30),
 * as an immutable state over a fixed input stream.
 */
module LineBuffer {
  import opened Base
  import opened Events

  /**
   * `pos`: raw lines the stream has delivered so far; `line`: the last
   * non-empty line handed out (`self.line`); `back`: a pushback is pending
   * (`self._back1`); `eof`: end of input was seen (`self.isEOF`, never cleared).
   */
  datatype Buffer = Buffer(pos: nat, line: Option<Line>, back: bool, eof: bool)

  /** The buffer as constructed (log_stats.py:8-11). */
  const Fresh := Buffer(0, None, false, false)

  /** The error `go_back` raises when a pushback is already pending. */
  datatype ProtocolError = BackUpTwice

  /** States a reader can reach by interleaving GetLine and GoBack: a pending pushback always has a line to re-deliver. */
  predicate Valid(input: seq<RawLine>, buf: Buffer) {
    buf.pos <= |input| && (buf.back ==> buf.line.Some?)
  }

  /** Work left: two units per undelivered raw line, one for a pending pushback. */
  function Measure(input: seq<RawLine>, buf: Buffer): nat
    requires buf.pos <= |input|
  {
    2 * (|input| - buf.pos) + (if buf.back then 1 else 0)
  }

  /** The non-empty lines the reader will still hand out, in order. */
  function Pending(input: seq<RawLine>, buf: Buffer): seq<Line>
    requires buf.pos <= |input|
  {
    (if buf.back && buf.line.Some? then [buf.line.value] else []) + NonBlank(input[buf.pos..])
  }

  /** Index of the first non-empty line at or after i, or |input| if there is none. */
  function SkipBlanks(input: seq<RawLine>, i: nat): (j: nat)
    requires i <= |input|
    ensures i <= j <= |input|
    ensures j < |input| ==> input[j].Text?
    ensures forall k :: i <= k < j ==> input[k].Blank?
    ensures NonBlank(input[i..]) == NonBlank(input[j..])
    decreases |input| - i
  {
    if i == |input| || input[i].Text? then i
    else
      NonBlankAt(input, i);
      SkipBlanks(input, i + 1)
  }

  /**
   * `get_line`: re-deliver the pushed-back line, or read on past empty lines;
   * at end of input answer None and set the end-of-input flag.
   */
  function GetLine(input: seq<RawLine>, buf: Buffer): (r: (Option<Line>, Buffer))
    requires buf.pos <= |input|
    ensures r.1.pos <= |input| && !r.1.back
    ensures r.0.Some? ==> r.1.line == r.0 && r.1.eof == buf.eof
    ensures buf.eof ==> r.1.eof
    ensures !buf.back && r.0.None? ==> r.1.eof
    ensures Measure(input, r.1) <= Measure(input, buf)
    ensures buf.back ==> Measure(input, r.1) + 1 == Measure(input, buf)
    ensures !buf.back && r.0.Some? ==> Measure(input, r.1) + 2 <= Measure(input, buf)
  {
    if buf.back then (buf.line, buf.(back := false))
    else
      var j := SkipBlanks(input, buf.pos);
      if j == |input| then (None, buf.(pos := j, eof := true))
      else (Some(input[j].line), buf.(pos := j + 1, line := Some(input[j].line)))
  }

  /** `go_back`: mark the last line for re-delivery; a second pushback raises. */
  function GoBack(buf: Buffer): (r: Result<Buffer, ProtocolError>)
    ensures r.Err? <==> buf.back
    ensures r.Ok? ==> r.value.back && r.value.pos == buf.pos && r.value.line == buf.line && r.value.eof == buf.eof
  {
    if buf.back then Err(BackUpTwice) else Ok(buf.(back := true))
  }

  /**
   * GetLine hands out exactly the next non-empty line still pending and
   * removes it; when none is left it answers None and sets end of input.
   */
  lemma GetLineNext(input: seq<RawLine>, buf: Buffer)
    requires Valid(input, buf)
    ensures var r := GetLine(input, buf);
            var ls := Pending(input, buf);
            && Valid(input, r.1)
            && (ls == [] ==> r.0.None? && r.1.eof && Pending(input, r.1) == [])
            && (ls != [] ==> r.0 == Some(ls[0]) && Pending(input, r.1) == ls[1..])
  {
    if buf.back {
      RedeliverNext(input, buf);
    } else {
      ReadNext(input, buf);
    }
  }

  /** GetLineNext when a pushback is pending: the remembered line comes back. */
  lemma RedeliverNext(input: seq<RawLine>, buf: Buffer)
    requires Valid(input, buf) && buf.back
    ensures var r := GetLine(input, buf);
            var ls := Pending(input, buf);
            && ls != [] && Valid(input, r.1)
            && r.0 == Some(ls[0]) && Pending(input, r.1) == ls[1..]
  {
    var ls := Pending(input, buf);
    assert ls == [buf.line.value] + NonBlank(input[buf.pos..]);
  }

  /** GetLineNext without a pushback: the stream is read past empty lines. */
  lemma ReadNext(input: seq<RawLine>, buf: Buffer)
    requires Valid(input, buf) && !buf.back
    ensures var r := GetLine(input, buf);
            var ls := Pending(input, buf);
            && Valid(input, r.1)
            && (ls == [] ==> r.0.None? && r.1.eof && Pending(input, r.1) == [])
            && (ls != [] ==> r.0 == Some(ls[0]) && Pending(input, r.1) == ls[1..])
  {
    var j := SkipBlanks(input, buf.pos);
    var r := GetLine(input, buf);
    var ls := Pending(input, buf);
    assert ls == NonBlank(input[j..]) by {
      assert ls == [] + NonBlank(input[buf.pos..]);
    }
    if j < |input| {
      NonBlankAt(input, j);
      assert r == (Some(input[j].line), buf.(pos := j + 1, line := Some(input[j].line)));
      assert Pending(input, r.1) == [] + NonBlank(input[j + 1..]);
    } else {
      assert input[j..] == [];
      assert r == (None, buf.(pos := j, eof := true));
      assert Pending(input, r.1) == [] + NonBlank(input[j..]);
    }
  }

  /**
   * After a pushback the next GetLine returns the same line and restores the
   * state the first read left; a second pushback in a row fails.
   */
  lemma PushbackRedelivers(input: seq<RawLine>, buf: Buffer)
    requires buf.pos <= |input|
    ensures var r := GetLine(input, buf);
            r.0.Some? ==>
              && GoBack(r.1).Ok?
              && GoBack(GoBack(r.1).value).Err?
              && GetLine(input, GoBack(r.1).value) == r
  {
  }
}
