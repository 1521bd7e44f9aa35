/**
 * The client's NDJSON reader (`streamAgent`): decoded chunks are appended to a
 * buffer, complete `\n`-terminated lines are cut off its front, trimmed, parsed
 * and dispatched as deltas or returned as the terminal event.
 *
 * `Drain` is the parse loop as a function of the buffer; the reader method is
 * proved to compute `Drain` of the whole received text, however the text was cut
 * into chunks.
 */
module StreamReader {
  import opened Wrappers
  import opened Text
  import opened Json

  /** The three ways the reader throws. */
  datatype StreamError =
    | HttpError(body: string)   // a non-ok response, carrying the response body text
    | PayloadTypeError          // a line that parses to `null`: reading `.done` throws
    | EndedUnexpectedly         // the stream closed with no terminal event and no delta

  /** Why the parse loop stopped. */
  datatype Stop =
    | Waiting             // no complete line left in the buffer
    | Stuck               // a complete line failed to parse and was pushed back
    | Finished(payload: Json)
    | Crashed

  /** State after a parse loop: the buffer left, whether a delta was seen, the deltas dispatched, and the stop reason. */
  datatype Drained = Drained(rest: string, saw: bool, deltas: seq<string>, stop: Stop)

  /** What the reader does with one parsed line. */
  datatype LineAction = Emit(delta: string) | Terminal(payload: Json) | Skip | Throw

  /** The reply that stands in for a missing terminal line once some delta was seen. */
  const SyntheticDone: Json := JObj([("delta", JStr("")), ("done", JBool(true))])

  function Classify(v: Json): LineAction
    decreases v, 2
  {
    if v.JNull? then Throw
    else
      var done := JsTruthy(JsGet(v, "done"));
      var delta := JsGet(v, "delta");
      if !done && delta.Some? && delta.value.JStr? then Emit(delta.value.s)
      else if done then Terminal(v)
      else Skip
  }

  /**
   * The parse loop run on `buf` until it runs out of complete lines or stops;
   * `saw` and `sent` are whether a delta was seen and the deltas dispatched so far.
   */
  function Drain(buf: string, saw: bool, sent: seq<string>, parse: string -> Option<Json>): (d: Drained)
    decreases |buf|, 1
  {
    var idx := IndexOf(buf, '\n');
    if idx < 0 then Drained(buf, saw, sent, Waiting)
    else DrainLine(Trim(Js, buf[..idx]), buf[idx + 1..], saw, sent, parse)
  }

  /** One trip round the parse loop: `line` is the trimmed line just cut off, `rest` the buffer after it. */
  function DrainLine(line: string, rest: string, saw: bool, sent: seq<string>, parse: string -> Option<Json>): (d: Drained)
    decreases |rest| + 1, 0
  {
    if line == "" then Drain(rest, saw, sent, parse)
    else
      match parse(line)
      case None => Drained(line + "\n" + rest, saw, sent, Stuck)
      case Some(v) => Dispatch(v, rest, saw, sent, parse)
  }

  /** What the parse loop does with a line that parsed to `v`. */
  function Dispatch(v: Json, rest: string, saw: bool, sent: seq<string>, parse: string -> Option<Json>): (d: Drained)
    decreases |rest|, 2
  {
    match Classify(v)
    case Emit(delta) => Drain(rest, true, sent + [delta], parse)
    case Terminal(p) => Drained(rest, saw, sent, Finished(p))
    case Skip => Drain(rest, saw, sent, parse)
    case Throw => Drained(rest, saw, sent, Crashed)
  }

  /** What the parse loop does when `more` text arrives after it stopped in state `d`. */
  function Resume(d: Drained, more: string, parse: string -> Option<Json>): Drained {
    if d.stop == Waiting || d.stop == Stuck then Drain(d.rest + more, d.saw, d.deltas, parse)
    else d.(rest := d.rest + more)
  }

  /** What `streamAgent` returns (or throws) once the parse loops have stopped in state `d`. */
  function Outcome(d: Drained): Result<Json, StreamError> {
    match d.stop
    case Finished(p) => Ok(p)
    case Crashed => Err(PayloadTypeError)
    case _ => if d.saw then Ok(SyntheticDone) else Err(EndedUnexpectedly)
  }

  /** A pushed-back line is met again first and fails again: the buffer stays stuck. */
  lemma StuckAgain(line: string, rest: string, saw: bool, sent: seq<string>, parse: string -> Option<Json>)
    requires line != "" && Trim(Js, line) == line && '\n' !in line
    requires parse(line).None?
    ensures Drain(line + "\n" + rest, saw, sent, parse) == Drained(line + "\n" + rest, saw, sent, Stuck)
  {
    var buf := line + "\n" + rest;
    assert buf[..|line|] == line;
    assert buf[|line|] == '\n';
    IndexOfAt(buf, '\n', |line|);
    assert buf[|line| + 1..] == rest;
  }

  /** A line cut from a buffer holds no line break, and neither does its trimmed form. */
  lemma TrimmedLineHasNoBreak(buf: string, idx: int)
    requires 0 <= idx <= |buf| && '\n' !in buf[..idx]
    ensures '\n' !in Trim(Js, buf[..idx])
  {
    var line := Trim(Js, buf[..idx]);
    TrimSpec(Js, buf[..idx]);
    forall k | 0 <= k < |line| ensures line[k] != '\n' {
      assert line[k] == buf[..idx][LeadingSpaces(Js, buf[..idx]) + k];
    }
  }

  /** The first line of `a + b` is the first line of `a` when `a` holds a line break. */
  lemma FirstLineOfAppend(a: string, b: string)
    requires IndexOf(a, '\n') >= 0
    ensures var idx := IndexOf(a, '\n');
      IndexOf(a + b, '\n') == idx && (a + b)[..idx] == a[..idx] && (a + b)[idx + 1..] == a[idx + 1..] + b
  {
    var idx := IndexOf(a, '\n');
    var ab := a + b;
    IndexOfSpec(a, '\n');
    assert ab[..idx] == a[..idx];
    assert ab[idx] == '\n';
    IndexOfAt(ab, '\n', idx);
    assert ab[idx + 1..] == a[idx + 1..] + b;
  }

  lemma DrainFirstLine(a: string, saw: bool, sent: seq<string>, parse: string -> Option<Json>)
    requires IndexOf(a, '\n') >= 0
    ensures var idx := IndexOf(a, '\n');
      Drain(a, saw, sent, parse) == DrainLine(Trim(Js, a[..idx]), a[idx + 1..], saw, sent, parse)
  {
  }

  lemma DrainCutsFirstLine(a: string, b: string, saw: bool, sent: seq<string>, parse: string -> Option<Json>)
    requires IndexOf(a, '\n') >= 0
    ensures var idx := IndexOf(a, '\n');
      Drain(a + b, saw, sent, parse) == DrainLine(Trim(Js, a[..idx]), a[idx + 1..] + b, saw, sent, parse)
  {
    FirstLineOfAppend(a, b);
  }

  /**
   * Cutting the input anywhere does not change what the parse loop does:
   * draining `a + b` is draining `a` and then resuming with `b`.
   */
  lemma {:induction false} DrainAppend(a: string, b: string, saw: bool, sent: seq<string>, parse: string -> Option<Json>)
    ensures Drain(a + b, saw, sent, parse) == Resume(Drain(a, saw, sent, parse), b, parse)
    decreases |a|, 2
  {
    if IndexOf(a, '\n') >= 0 {
      DrainBreakAppend(a, b, saw, sent, parse);
    }
  }

  lemma {:induction false} DrainBreakAppend(a: string, b: string, saw: bool, sent: seq<string>, parse: string -> Option<Json>)
    requires IndexOf(a, '\n') >= 0
    ensures Drain(a + b, saw, sent, parse) == Resume(Drain(a, saw, sent, parse), b, parse)
    decreases |a|, 1
  {
    var idx := IndexOf(a, '\n');
    var line := Trim(Js, a[..idx]);
    IndexOfSpec(a, '\n');
    TrimmedLineHasNoBreak(a, idx);
    TrimIdempotent(Js, a[..idx]);
    DrainLineAppend(line, a[idx + 1..], b, saw, sent, parse);
    ResumeFirstLine(a, b, saw, sent, parse);
  }

  lemma ResumeFirstLine(a: string, b: string, saw: bool, sent: seq<string>, parse: string -> Option<Json>)
    requires IndexOf(a, '\n') >= 0
    requires var idx := IndexOf(a, '\n'); var line := Trim(Js, a[..idx]);
      DrainLine(line, a[idx + 1..] + b, saw, sent, parse) == Resume(DrainLine(line, a[idx + 1..], saw, sent, parse), b, parse)
    ensures Drain(a + b, saw, sent, parse) == Resume(Drain(a, saw, sent, parse), b, parse)
  {
    var idx := IndexOf(a, '\n');
    DrainCutsFirstLine(a, b, saw, sent, parse);
    DrainFirstLine(a, saw, sent, parse);
    ResumeAfterLine(a, b, saw, sent, parse, Trim(Js, a[..idx]), a[idx + 1..]);
  }

  lemma ResumeAfterLine(a: string, b: string, saw: bool, sent: seq<string>, parse: string -> Option<Json>, line: string, r: string)
    requires Drain(a, saw, sent, parse) == DrainLine(line, r, saw, sent, parse)
    requires Drain(a + b, saw, sent, parse) == DrainLine(line, r + b, saw, sent, parse)
    requires DrainLine(line, r + b, saw, sent, parse) == Resume(DrainLine(line, r, saw, sent, parse), b, parse)
    ensures Drain(a + b, saw, sent, parse) == Resume(Drain(a, saw, sent, parse), b, parse)
  {
  }

  lemma {:induction false} DrainLineAppend(line: string, rest: string, b: string, saw: bool, sent: seq<string>, parse: string -> Option<Json>)
    requires '\n' !in line && Trim(Js, line) == line
    ensures DrainLine(line, rest + b, saw, sent, parse) == Resume(DrainLine(line, rest, saw, sent, parse), b, parse)
    decreases |rest| + 1, 0
  {
    if line == "" {
      DrainAppend(rest, b, saw, sent, parse);
    } else {
      match parse(line)
      case None =>
        assert line + "\n" + rest + b == line + "\n" + (rest + b);
        StuckAgain(line, rest + b, saw, sent, parse);
      case Some(v) =>
        DispatchAppend(v, rest, b, saw, sent, parse);
    }
  }

  lemma {:induction false} DispatchAppend(v: Json, rest: string, b: string, saw: bool, sent: seq<string>, parse: string -> Option<Json>)
    ensures Dispatch(v, rest + b, saw, sent, parse) == Resume(Dispatch(v, rest, saw, sent, parse), b, parse)
    decreases |rest|, 3
  {
    match Classify(v)
    case Emit(delta) => DrainAppend(rest, b, true, sent + [delta], parse);
    case Terminal(p) =>
    case Skip => DrainAppend(rest, b, saw, sent, parse);
    case Throw =>
  }

  /**
   * Deltas are only ever added, after those already sent, and a delta has been
   * seen exactly when the loop started with one seen or dispatched one more.
   * When the loop waits for data, no complete line is left in the buffer; a
   * terminal payload is never `null`.
   */
  lemma {:induction false} DrainDeltas(buf: string, saw: bool, sent: seq<string>, parse: string -> Option<Json>)
    ensures var d := Drain(buf, saw, sent, parse);
      && sent <= d.deltas
      && (d.saw <==> saw || |d.deltas| > |sent|)
      && (d.stop == Waiting ==> '\n' !in d.rest)
      && (d.stop.Finished? ==> !d.stop.payload.JNull?)
    decreases |buf|, 1
  {
    var idx := IndexOf(buf, '\n');
    IndexOfSpec(buf, '\n');
    if idx >= 0 {
      DrainLineDeltas(Trim(Js, buf[..idx]), buf[idx + 1..], saw, sent, parse);
    }
  }

  lemma {:induction false} DrainLineDeltas(line: string, rest: string, saw: bool, sent: seq<string>, parse: string -> Option<Json>)
    ensures var d := DrainLine(line, rest, saw, sent, parse);
      && sent <= d.deltas
      && (d.saw <==> saw || |d.deltas| > |sent|)
      && (d.stop == Waiting ==> '\n' !in d.rest)
      && (d.stop.Finished? ==> !d.stop.payload.JNull?)
    decreases |rest| + 1, 0
  {
    if line == "" {
      DrainDeltas(rest, saw, sent, parse);
    } else if parse(line).Some? {
      DispatchDeltas(parse(line).value, rest, saw, sent, parse);
    }
  }

  lemma {:induction false} DispatchDeltas(v: Json, rest: string, saw: bool, sent: seq<string>, parse: string -> Option<Json>)
    ensures var d := Dispatch(v, rest, saw, sent, parse);
      && sent <= d.deltas
      && (d.saw <==> saw || |d.deltas| > |sent|)
      && (d.stop == Waiting ==> '\n' !in d.rest)
      && (d.stop.Finished? ==> !d.stop.payload.JNull?)
    decreases |rest|, 2
  {
    match Classify(v)
    case Emit(delta) =>
      DrainDeltas(rest, true, sent + [delta], parse);
    case Terminal(p) =>
    case Skip =>
      DrainDeltas(rest, saw, sent, parse);
    case Throw =>
  }

  /**
   * When the loop is stuck, the buffer starts with the pushed-back line: a
   * trimmed, non-blank line without a break that does not parse, then `\n`.
   */
  lemma {:induction false} StuckShape(buf: string, saw: bool, sent: seq<string>, parse: string -> Option<Json>)
    returns (line: string, rest: string)
    requires Drain(buf, saw, sent, parse).stop == Stuck
    ensures Drain(buf, saw, sent, parse).rest == line + "\n" + rest
    ensures line != "" && Trim(Js, line) == line && '\n' !in line && parse(line).None?
    decreases |buf|, 1
  {
    var idx := IndexOf(buf, '\n');
    IndexOfSpec(buf, '\n');
    TrimmedLineHasNoBreak(buf, idx);
    TrimIdempotent(Js, buf[..idx]);
    line, rest := StuckLineShape(Trim(Js, buf[..idx]), buf[idx + 1..], saw, sent, parse);
  }

  lemma {:induction false} StuckLineShape(l: string, r: string, saw: bool, sent: seq<string>, parse: string -> Option<Json>)
    returns (line: string, rest: string)
    requires '\n' !in l && Trim(Js, l) == l
    requires DrainLine(l, r, saw, sent, parse).stop == Stuck
    ensures DrainLine(l, r, saw, sent, parse).rest == line + "\n" + rest
    ensures line != "" && Trim(Js, line) == line && '\n' !in line && parse(line).None?
    decreases |r| + 1, 0
  {
    if l == "" {
      line, rest := StuckShape(r, saw, sent, parse);
    } else if parse(l).None? {
      line, rest := l, r;
    } else {
      line, rest := StuckDispatchShape(parse(l).value, r, saw, sent, parse);
    }
  }

  lemma {:induction false} StuckDispatchShape(v: Json, r: string, saw: bool, sent: seq<string>, parse: string -> Option<Json>)
    returns (line: string, rest: string)
    requires Dispatch(v, r, saw, sent, parse).stop == Stuck
    ensures Dispatch(v, r, saw, sent, parse).rest == line + "\n" + rest
    ensures line != "" && Trim(Js, line) == line && '\n' !in line && parse(line).None?
    decreases |r|, 2
  {
    match Classify(v)
    case Emit(delta) =>
      line, rest := StuckShape(r, true, sent + [delta], parse);
    case Skip =>
      line, rest := StuckShape(r, saw, sent, parse);
  }

  /**
   * A complete line that does not parse blocks the stream for good: whatever
   * arrives after it piles up behind it and no later line is ever dispatched.
   */
  lemma StuckStaysStuck(a: string, b: string, saw: bool, sent: seq<string>, parse: string -> Option<Json>)
    requires Drain(a, saw, sent, parse).stop == Stuck
    ensures var d := Drain(a, saw, sent, parse); Drain(a + b, saw, sent, parse) == d.(rest := d.rest + b)
  {
    var d := Drain(a, saw, sent, parse);
    DrainAppend(a, b, saw, sent, parse);
    var line, rest := StuckShape(a, saw, sent, parse);
    assert d.rest + b == line + "\n" + (rest + b);
    StuckAgain(line, rest + b, d.saw, d.deltas, parse);
  }

  /** What `streamAgent` returns is never `null`. */
  lemma OutcomeNotNull(text: string, parse: string -> Option<Json>)
    requires Outcome(Drain(text, false, [], parse)).Ok?
    ensures !Outcome(Drain(text, false, [], parse)).value.JNull?
  {
    DrainDeltas(text, false, [], parse);
  }

  /**
   * At the end of a stream without a terminal event, `streamAgent` synthesizes
   * one exactly when some delta was dispatched, and throws otherwise.
   */
  lemma OutcomeWithoutDone(text: string, parse: string -> Option<Json>)
    requires var d := Drain(text, false, [], parse); d.stop == Waiting || d.stop == Stuck
    ensures var d := Drain(text, false, [], parse);
      && (d.deltas != [] ==> Outcome(d) == Ok(SyntheticDone))
      && (d.deltas == [] ==> Outcome(d) == Err(EndedUnexpectedly))
  {
    DrainDeltas(text, false, [], parse);
  }

  /** Once the parse loop has stopped, running it again on what is left does nothing new. */
  lemma DrainSettled(a: string, saw: bool, sent: seq<string>, parse: string -> Option<Json>)
    requires Drain(a, saw, sent, parse).stop == Waiting || Drain(a, saw, sent, parse).stop == Stuck
    ensures var d := Drain(a, saw, sent, parse);
      Drain(d.rest, d.saw, d.deltas, parse) == d
  {
    DrainAppend(a, "", saw, sent, parse);
    assert a + "" == a;
    var d := Drain(a, saw, sent, parse);
    assert d.rest + "" == d.rest;
  }

  /** After a terminal event or a throw, later text is never looked at: it only piles up in the buffer. */
  lemma StoppedStaysStopped(a: string, b: string, saw: bool, sent: seq<string>, parse: string -> Option<Json>)
    requires Drain(a, saw, sent, parse).stop.Finished? || Drain(a, saw, sent, parse).stop == Crashed
    ensures var d := Drain(a, saw, sent, parse); Drain(a + b, saw, sent, parse) == d.(rest := d.rest + b)
  {
    DrainAppend(a, b, saw, sent, parse);
  }

  /** The same, for a prefix of the chunks a reader receives. */
  lemma StoppedPrefix(chunks: seq<string>, j: nat, parse: string -> Option<Json>)
    requires j <= |chunks|
    requires var d := Drain(Concat(chunks[..j]), false, [], parse); d.stop.Finished? || d.stop == Crashed
    ensures var d := Drain(Concat(chunks[..j]), false, [], parse);
      Drain(Concat(chunks), false, [], parse) == d.(rest := d.rest + Concat(chunks[j..]))
  {
    assert chunks == chunks[..j] + chunks[j..];
    ConcatAppend(chunks[..j], chunks[j..]);
    StoppedStaysStopped(Concat(chunks[..j]), Concat(chunks[j..]), false, [], parse);
  }

  /**
   * One read of `streamAgent`: the text received after the read is the text
   * before it plus the chunk read (nothing at the end of the stream), and
   * draining it is resuming the earlier parse loop on the grown buffer.
   */
  lemma ReadStep(chunks: seq<string>, i: nat, parse: string -> Option<Json>, d: Drained) returns (j: nat)
    requires i <= |chunks|
    requires d == Drain(Concat(chunks[..i]), false, [], parse)
    requires d.stop == Waiting || d.stop == Stuck
    ensures j == if i == |chunks| then i else i + 1
    ensures Drain(Concat(chunks[..j]), false, [], parse)
      == Drain(if i == |chunks| then d.rest else d.rest + chunks[i], d.saw, d.deltas, parse)
  {
    var received := Concat(chunks[..i]);
    if i == |chunks| {
      j := i;
      DrainSettled(received, false, [], parse);
    } else {
      j := i + 1;
      assert chunks[..i + 1] == chunks[..i] + [chunks[i]];
      ConcatAppend(chunks[..i], [chunks[i]]);
      assert Concat([chunks[i]]) == chunks[i] + "" == chunks[i];
      DrainAppend(received, chunks[i], false, [], parse);
    }
  }

  /** One trip round the parse loop, case by case, as `streamAgent` tests them. */
  lemma DrainStep(buf: string, saw: bool, sent: seq<string>, parse: string -> Option<Json>)
    requires IndexOf(buf, '\n') >= 0
    ensures var idx := IndexOf(buf, '\n');
      var line, rest := Trim(Js, buf[..idx]), buf[idx + 1..];
      var d := Drain(buf, saw, sent, parse);
      && (line == "" ==> d == Drain(rest, saw, sent, parse))
      && (line != "" && parse(line).None? ==> d == Drained(line + "\n" + rest, saw, sent, Stuck))
      && (line != "" && parse(line).Some? ==>
            var v := parse(line).value;
            && (v.JNull? ==> d == Drained(rest, saw, sent, Crashed))
            && (!v.JNull? ==>
                  var done, delta := JsTruthy(JsGet(v, "done")), JsGet(v, "delta");
                  && (!done && delta.Some? && delta.value.JStr? ==> d == Drain(rest, true, sent + [delta.value.s], parse))
                  && (!(!done && delta.Some? && delta.value.JStr?) && done ==> d == Drained(rest, saw, sent, Finished(v)))
                  && (!(!done && delta.Some? && delta.value.JStr?) && !done ==> d == Drain(rest, saw, sent, parse))))
  {
    DrainFirstLine(buf, saw, sent, parse);
  }

  /**
   * The labelled inner loop of `streamAgent` (`parseLoop`): cut complete lines
   * off the front of the buffer and dispatch them until none is left, a line
   * fails to parse (it is pushed back), a terminal event arrives or a `null`
   * payload throws. `sent` are the deltas dispatched before; the result is
   * exactly `Drain` of the buffer.
   */
  method ParseLoop(buf0: string, saw0: bool, sent: seq<string>, parse: string -> Option<Json>) returns (d: Drained)
    ensures d == Drain(buf0, saw0, sent, parse)
  {
    var buf := buf0;
    var saw := saw0;
    var emitted := sent;
    while IndexOf(buf, '\n') >= 0
      invariant Drain(buf0, saw0, sent, parse) == Drain(buf, saw, emitted, parse)
      decreases |buf|
    {
      var idx := IndexOf(buf, '\n');
      var line := Trim(Js, buf[..idx]);
      DrainStep(buf, saw, emitted, parse);
      buf := buf[idx + 1..];
      if line == "" {
        continue;
      }
      var payload := parse(line);
      if payload.None? {
        return Drained(line + "\n" + buf, saw, emitted, Stuck);
      }
      var v := payload.value;
      if v.JNull? {
        return Drained(buf, saw, emitted, Crashed);
      }
      var delta := JsGet(v, "delta");
      if !JsTruthy(JsGet(v, "done")) && delta.Some? && delta.value.JStr? {
        saw := true;
        emitted := emitted + [delta.value.s];
      } else if JsTruthy(JsGet(v, "done")) {
        return Drained(buf, saw, emitted, Finished(v));
      }
    }
    return Drained(buf, saw, emitted, Waiting);
  }

  /** One read (nothing at the end of the stream) followed by one parse loop. */
  method ReadOnce(chunks: seq<string>, i: nat, buf0: string, saw: bool, deltas: seq<string>,
                  ghost stop: Stop, parse: string -> Option<Json>)
    returns (d: Drained, ghost j: nat)
    requires i <= |chunks|
    requires stop == Waiting || stop == Stuck
    requires Drain(Concat(chunks[..i]), false, [], parse) == Drained(buf0, saw, deltas, stop)
    ensures j == if i == |chunks| then i else i + 1
    ensures d == Drain(Concat(chunks[..j]), false, [], parse)
  {
    var buf := buf0;
    if i < |chunks| {
      buf := buf + chunks[i];
    }
    j := ReadStep(chunks, i, parse, Drained(buf0, saw, deltas, stop));
    d := ParseLoop(buf, saw, deltas, parse);
  }

  /**
   * The read loop of `streamAgent`: append each chunk to the buffer and run the
   * parse loop, until a terminal event or a throw, or until the stream ends
   * (after one last parse loop). The state it stops in agrees with `Drain` of
   * everything received in all but the text left unread in the buffer.
   */
  method ReadChunks(chunks: seq<string>, parse: string -> Option<Json>) returns (d: Drained)
    ensures var all := Drain(Concat(chunks), false, [], parse);
      d.stop == all.stop && d.saw == all.saw && d.deltas == all.deltas
  {
    var buf := "";
    var sawDelta := false;
    var deltas: seq<string> := [];
    ghost var stop := Waiting;
    var i := 0;
    while true
      invariant 0 <= i <= |chunks|
      invariant stop == Waiting || stop == Stuck
      invariant Drain(Concat(chunks[..i]), false, [], parse) == Drained(buf, sawDelta, deltas, stop)
      decreases |chunks| - i
    {
      ghost var j;
      d, j := ReadOnce(chunks, i, buf, sawDelta, deltas, stop, parse);
      if d.stop.Finished? || d.stop == Crashed {
        StoppedPrefix(chunks, j, parse);
        return;
      }
      if i == |chunks| {
        assert chunks[..i] == chunks;
        return;
      }
      buf, sawDelta, deltas, stop := d.rest, d.saw, d.deltas, d.stop;
      i := i + 1;
    }
  }

  /**
   * `streamAgent`: a non-ok response throws with its body before anything is
   * read; otherwise the deltas are handed to `onDelta` (returned here as
   * `deltas`, in dispatch order) and the result is the terminal payload, the
   * synthesized terminal event, or an error — exactly what `Drain` of the
   * concatenated text says, whatever the chunk boundaries.
   */
  method StreamAgent(ok: bool, errorBody: string, chunks: seq<string>, parse: string -> Option<Json>)
    returns (r: Result<Json, StreamError>, deltas: seq<string>)
    ensures !ok ==> r == Err(HttpError(errorBody)) && deltas == []
    ensures ok ==> var d := Drain(Concat(chunks), false, [], parse);
      r == Outcome(d) && deltas == d.deltas
  {
    if !ok {
      return Err(HttpError(errorBody)), [];
    }
    var d := ReadChunks(chunks, parse);
    deltas := d.deltas;
    match d.stop
    case Finished(payload) => r := Ok(payload);
    case Crashed => r := Err(PayloadTypeError);
    case _ =>
      if d.saw {
        r := Ok(SyntheticDone);
      } else {
        r := Err(EndedUnexpectedly);
      }
  }
}
