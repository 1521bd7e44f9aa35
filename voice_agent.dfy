/**
 * The reply side of the client's voice agent (`useVoiceAgent`): a send appends
 * the user's message and an empty assistant placeholder to the history, feeds
 * every streamed delta through control-token detection, the overlap merge and
 * the sentence splitter, and on completion writes the final text into the
 * placeholder and the cached conversation; on failure it drops the
 * placeholder. The transcript effect starts at most one send at a time.
 *
 * Three buffers hold the reply: `full` (sentences already handed to speech),
 * `tail` (text after the last complete sentence) and `stream` (text merged
 * since the last flush). A new token is merged onto `tail + stream` only, so
 * an overlap with text already moved to `full` is not detected.
 */
module VoiceAgent {
  import opened Wrappers
  import opened Text
  import opened Json
  import opened Merge
  import opened Sentences
  import opened Debounce
  import opened StreamReader

  datatype Author = User | Assistant
  datatype Msg = Msg(author: Author, content: string)

  /** The role read from the access token: anything but an employer token (a missing or undecodable one too) reads as an intern. */
  datatype AccountRole = Employer | Intern

  /** What a completed reply asks of the rest of the page. */
  datatype Effect =
    | InvalidateEmployer          // refetch the employer profile
    | MergeProfile(fields: Json)  // merge the returned profile into the cached one
    | RefetchProfile              // refetch the profile
    | ProfileSaved                // the `profile-saved` window event

  /**
   * The page a control token asks for: a token whose trimmed text starts with
   * `{`, ends with `}`, parses, and has a string `navigate` member.
   */
  function NavigateTarget(tok: string, parse: string -> Option<Json>): Option<string> {
    var t := Trim(Js, tok);
    if |t| > 0 && t[0] == '{' && t[|t| - 1] == '}' then
      match parse(t)
      case None => None
      case Some(obj) =>
        if JsTruthy(Some(obj)) && JsGet(obj, "navigate").Some? && JsGet(obj, "navigate").value.JStr?
        then Some(JsGet(obj, "navigate").value.s)
        else None
    else None
  }

  /** A delta as `onDelta` sorts it: a navigation request or reply text. */
  datatype Token = Nav(path: string) | Text(text: string)

  function ClassifyDelta(tok: string, parse: string -> Option<Json>): (t: Token)
    ensures t.Nav? <==> NavigateTarget(tok, parse).Some?
    ensures t.Text? ==> t.text == tok
  {
    match NavigateTarget(tok, parse)
    case Some(path) => Nav(path)
    case None => Text(tok)
  }

  function ClassifyDeltas(deltas: seq<string>, parse: string -> Option<Json>): (r: seq<Token>)
    ensures |r| == |deltas|
  {
    if deltas == [] then [] else [ClassifyDelta(deltas[0], parse)] + ClassifyDeltas(deltas[1..], parse)
  }

  /** The reply buffers between deltas: `full`, `tail + stream`, and the sentences spoken so far. */
  datatype Buffers = Buffers(full: string, pending: string, spoken: seq<string>)

  function TrimAll(pieces: seq<string>): (r: seq<string>)
    ensures |r| == |pieces|
  {
    if pieces == [] then [] else [Trim(Js, pieces[0])] + TrimAll(pieces[1..])
  }

  /** What a flush hands to `speakSentence`: each sentence of the completed text, trimmed. */
  function SpokenOf(done: string): seq<string> {
    if done == "" then [] else TrimAll(Pieces(SentenceParts(done)))
  }

  /**
   * One delta: a navigation request changes nothing here; reply text is
   * merged onto the pending text, whose complete sentences then move to
   * `full` and are spoken.
   */
  function Step(b: Buffers, t: Token): Buffers {
    match t
    case Nav(_) => b
    case Text(tok) => Settle(b.full, b.spoken, Merged(b.pending, tok))
  }

  /** `flush()` after a merge: the complete sentences of `merged` move to `full` and are spoken. */
  function Settle(full: string, spoken: seq<string>, merged: string): Buffers {
    var k := LastEnd(merged, 0);
    Buffers(full + merged[..k], merged[k..], spoken + SpokenOf(merged[..k]))
  }

  /** A run of deltas. */
  function Feed(b: Buffers, ts: seq<Token>): Buffers
    decreases |ts|
  {
    if ts == [] then b else Feed(Step(b, ts[0]), ts[1..])
  }

  /** The navigation requests a run of deltas makes of the debounced `navigate`. */
  function Navigations(ts: seq<Token>): (r: seq<Event>)
    ensures |r| <= |ts|
  {
    if ts == [] then []
    else NavigationOf(ts[0]) + Navigations(ts[1..])
  }

  /** The navigation request of a single delta, if it is one. */
  function NavigationOf(t: Token): seq<Event> {
    if t.Nav? then [Call(t.path)] else []
  }

  /** The final text once the stream is done: everything, flushed. */
  function FinalText(b: Buffers): string {
    b.full + b.pending
  }

  /** The content written into the assistant entry once the reply is complete. */
  function Shown(finalText: string): (r: string)
    ensures r != ""
    ensures finalText != "" ==> r == finalText
  {
    if finalText == "" then " " else finalText
  }

  lemma {:induction false} ClassifyDeltasAppend(deltas: seq<string>, tok: string, parse: string -> Option<Json>)
    ensures ClassifyDeltas(deltas + [tok], parse) == ClassifyDeltas(deltas, parse) + [ClassifyDelta(tok, parse)]
  {
    if deltas == [] {
      assert [tok][1..] == [];
    } else {
      assert (deltas + [tok])[1..] == deltas[1..] + [tok];
      ClassifyDeltasAppend(deltas[1..], tok, parse);
    }
  }

  lemma {:induction false} FeedAppend(b: Buffers, ts: seq<Token>, t: Token)
    ensures Feed(b, ts + [t]) == Step(Feed(b, ts), t)
    decreases |ts|
  {
    if ts == [] {
      assert [t][1..] == [];
    } else {
      assert (ts + [t])[1..] == ts[1..] + [t];
      FeedAppend(Step(b, ts[0]), ts[1..], t);
    }
  }

  lemma {:induction false} NavigationsAppend(ts: seq<Token>, t: Token)
    ensures Navigations(ts + [t]) == Navigations(ts) + NavigationOf(t)
  {
    if ts == [] {
      assert [t][1..] == [];
    } else {
      var rest := ts[1..];
      assert (ts + [t])[1..] == rest + [t];
      assert (ts + [t])[0] == ts[0];
      NavigationsAppend(rest, t);
      calc {
        Navigations(ts + [t]);
        NavigationOf(ts[0]) + Navigations(rest + [t]);
        NavigationOf(ts[0]) + (Navigations(rest) + NavigationOf(t));
        (NavigationOf(ts[0]) + Navigations(rest)) + NavigationOf(t);
      }
    }
  }

  /**
   * A flush loses no text and invents none, and only appends to `full` and
   * to the spoken sentences.
   */
  lemma SettleConserves(full: string, spoken: seq<string>, merged: string)
    ensures FinalText(Settle(full, spoken, merged)) == full + merged
    ensures full <= Settle(full, spoken, merged).full
    ensures spoken <= Settle(full, spoken, merged).spoken
  {
    var k := LastEnd(merged, 0);
    CutAt(full, merged, k);
  }

  /** Cutting `merged` at `k` and appending both halves to `full` gives `full + merged`. */
  lemma CutAt(full: string, merged: string, k: nat)
    requires k <= |merged|
    ensures (full + merged[..k]) + merged[k..] == full + merged
    ensures full <= full + merged[..k]
  {
    assert merged[..k] + merged[k..] == merged;
  }

  /**
   * One step loses no text and invents none beyond the merge: the buffers
   * together hold the old `full`, then the pending text merged with the token.
   */
  lemma StepConserves(b: Buffers, tok: string)
    ensures FinalText(Step(b, Text(tok))) == b.full + Merged(b.pending, tok)
  {
    SettleConserves(b.full, b.spoken, Merged(b.pending, tok));
  }

  /** A step never revises `full` or the sentences already spoken. */
  lemma StepGrows(b: Buffers, t: Token)
    ensures b.full <= Step(b, t).full && b.spoken <= Step(b, t).spoken
  {
    if t.Text? {
      SettleConserves(b.full, b.spoken, Merged(b.pending, t.text));
    }
  }

  /**
   * What was moved to `full` and spoken stays: later deltas only append to
   * `full` and to the spoken sentences, never revise them.
   */
  lemma {:induction false} FeedKeepsSpoken(b: Buffers, ts: seq<Token>)
    ensures b.full <= Feed(b, ts).full
    ensures b.spoken <= Feed(b, ts).spoken
    decreases |ts|
  {
    if ts != [] {
      FeedKeepsSpoken(Step(b, ts[0]), ts[1..]);
      StepGrows(b, ts[0]);
    }
  }

  /** Navigation requests never reach the reply text or the speech. */
  lemma {:induction false} NavigationsHidden(b: Buffers, ts: seq<Token>)
    requires forall k :: 0 <= k < |ts| ==> ts[k].Nav?
    ensures Feed(b, ts) == b
    ensures |Navigations(ts)| == |ts|
    decreases |ts|
  {
    if ts != [] {
      NavigationsHidden(b, ts[1..]);
    }
  }

  /** Removing the navigation requests from a run of deltas leaves the reply unchanged. */
  function TextOnly(ts: seq<Token>): (r: seq<Token>)
    ensures |r| <= |ts|
  {
    if ts == [] then [] else (if ts[0].Nav? then [] else [ts[0]]) + TextOnly(ts[1..])
  }

  lemma {:induction false} FeedIgnoresNavigations(b: Buffers, ts: seq<Token>)
    ensures Feed(b, TextOnly(ts)) == Feed(b, ts)
    ensures |TextOnly(ts)| + |Navigations(ts)| == |ts|
    decreases |ts|
  {
    if ts != [] {
      FeedIgnoresNavigations(Step(b, ts[0]), ts[1..]);
      if ts[0].Nav? {
        assert TextOnly(ts) == TextOnly(ts[1..]);
        FeedIgnoresNavigations(b, ts[1..]);
      } else {
        assert TextOnly(ts) == [ts[0]] + TextOnly(ts[1..]);
        assert ([ts[0]] + TextOnly(ts[1..]))[1..] == TextOnly(ts[1..]);
      }
    }
  }

  /** Cutting a chunk into a head moved to `full` and a rest kept loses no text. */
  lemma CutConserves(full: string, done: string, rest: string)
    ensures full + done + rest == full + (done + rest)
    ensures rest == (done + rest)[|done|..]
  {
  }

  lemma {:induction false} TrimAllAppend(pieces: seq<string>, p: string)
    ensures TrimAll(pieces + [p]) == TrimAll(pieces) + [Trim(Js, p)]
  {
    if pieces != [] {
      assert (pieces + [p])[1..] == pieces[1..] + [p];
      TrimAllAppend(pieces[1..], p);
    }
  }

  /** What an intern's completed reply asks for: the returned profile wins over a bare timestamp. */
  function ProfileEffects(done: Json): (r: seq<Effect>)
    requires !done.JNull?
    ensures r != [] <==> JsTruthy(JsGet(done, "profile")) || JsTruthy(JsGet(done, "profile_updated_at"))
    ensures r != [] ==> r[|r| - 1] == ProfileSaved
    ensures JsTruthy(JsGet(done, "profile")) ==> r == [MergeProfile(JsGet(done, "profile").value), ProfileSaved]
    ensures !JsTruthy(JsGet(done, "profile")) && JsTruthy(JsGet(done, "profile_updated_at")) ==> r == [RefetchProfile, ProfileSaved]
  {
    if JsTruthy(JsGet(done, "profile")) then [MergeProfile(JsGet(done, "profile").value), ProfileSaved]
    else if JsTruthy(JsGet(done, "profile_updated_at")) then [RefetchProfile, ProfileSaved]
    else []
  }

  class ReplySession {
    /** The rendered conversation (`history`). */
    var history: seq<Msg>
    /** The cached conversation (the `["chat", key]` query data). */
    var cache: seq<Msg>
    var full: string
    var tail: string
    var stream: string
    var sending: bool
    var error: Option<StreamError>
    /** The `lastSent` ref of the transcript effect. */
    var lastSent: Option<string>
    /** Every text handed to `speakSentence`, in order. */
    var spoken: seq<string>
    /** The user message of the send in progress. */
    var outgoing: string
    /** The debounced `navigate`. */
    var nav: Debouncer

    constructor (nav: Debouncer)
      ensures history == [] && cache == [] && full == "" && tail == "" && stream == ""
      ensures !sending && error == None && lastSent == None && spoken == [] && this.nav == nav
    {
      history, cache := [], [];
      full, tail, stream := "", "", "";
      sending, error, lastSent := false, None, None;
      spoken, outgoing := [], "";
      this.nav := nav;
    }

    /** The reply buffers as `Step` sees them. */
    function State(): Buffers
      reads this
    {
      Buffers(full, tail + stream, spoken)
    }

    /**
     * `flush(final)`: split `tail + stream` into the complete sentences and the
     * rest (everything is complete when `final`); speak the sentences, move
     * them to `full`, keep the rest as `tail`, and empty `stream`. No text is
     * lost or duplicated.
     */
    method Flush(final: bool)
      modifies this`full, this`tail, this`stream, this`spoken
      ensures var chunk := old(tail + stream);
        var ready := if final then chunk else chunk[..LastEnd(chunk, 0)];
        && full == old(full) + ready
        && tail == chunk[|ready|..]
        && spoken == old(spoken) + SpokenOf(ready)
      ensures full + tail == old(full + tail + stream)
      ensures stream == ""
      ensures final ==> tail == ""
    {
      var chunk := tail + stream;
      var done, rest := SplitSentences(chunk, final);
      CutConserves(full, done, rest);
      if done != "" {
        SpeakAll(Pieces(SentenceParts(done)));
        full := full + done;
      }
      tail := rest;
      stream := "";
    }

    /** `done.split(…).forEach((s) => speakSentence(s.trim()))`. */
    method SpeakAll(pieces: seq<string>)
      modifies this`spoken
      ensures spoken == old(spoken) + TrimAll(pieces)
    {
      var i := 0;
      while i < |pieces|
        invariant i <= |pieces|
        invariant spoken == old(spoken) + TrimAll(pieces[..i])
      {
        TrimAllAppend(pieces[..i], pieces[i]);
        assert pieces[..i + 1] == pieces[..i] + [pieces[i]];
        spoken := spoken + [Trim(Js, pieces[i])];
        i := i + 1;
      }
      assert pieces[..|pieces|] == pieces;
    }

    /** Merge a token onto `tail + stream` and show the whole reply so far in the placeholder. */
    method AppendToken(tok: string)
      requires |history| > 0
      modifies this`stream, this`history
      ensures tail + stream == Merged(old(tail + stream), tok)
      ensures history == old(history)[|old(history)| - 1 := Msg(Assistant, full + Merged(old(tail + stream), tok))]
    {
      var prev := tail + stream;
      var merged := MergeOverlap(prev, tok);
      MergedSpec(prev, tok);
      stream := stream + merged[|prev|..];
      assert tail + stream == merged;
      assert full + tail + stream == full + merged;
      history := history[|history| - 1 := Msg(Assistant, full + tail + stream)];
    }

    /**
     * `onDelta(tok)`: a navigation request goes to the debounced `navigate`
     * and leaves the reply alone; reply text is merged onto `tail + stream`
     * (never onto `full`), the placeholder shows the whole reply so far, and
     * the buffers are flushed: the buffers move as `Step` says.
     */
    method OnDelta(tok: string, parse: string -> Option<Json>)
      requires |history| > 0
      modifies this`full, this`tail, this`stream, this`spoken, this`history, nav
      ensures State() == Step(old(State()), ClassifyDelta(tok, parse))
      ensures ClassifyDelta(tok, parse).Nav? ==> history == old(history)
      ensures ClassifyDelta(tok, parse).Text? ==>
        history == old(history)[|old(history)| - 1 := Msg(Assistant, old(full) + Merged(old(tail + stream), tok))]
      ensures nav.runs == old(nav.runs) + Fired(NavigationOf(ClassifyDelta(tok, parse)), old(nav.timerPending))
      ensures nav.timerPending == PendingAfter(NavigationOf(ClassifyDelta(tok, parse)), old(nav.timerPending))
    {
      var t := ClassifyDelta(tok, parse);
      match t {
        case Nav(path) =>
          var _ := nav.Call(path);
          assert [Call(path)][1..] == [];
        case Text(_) =>
          AppendToken(tok);
          Flush(false);
      }
    }

    /**
     * Where a reply stands after the deltas `ts`, started from buffers `b0`
     * and a debouncer that had run `runs0` with a timer pending when `p0`:
     * the buffers are `Feed(b0, ts)`, the debouncer has seen the navigation
     * requests among `ts`, and the entries before the placeholder are `keep`.
     */
    ghost predicate Reached(b0: Buffers, p0: bool, runs0: seq<string>, keep: seq<Msg>, ts: seq<Token>)
      reads this, nav
    {
      && |history| == |keep| + 1 && history[..|keep|] == keep
      && State() == Feed(b0, ts)
      && nav.runs == runs0 + Fired(Navigations(ts), p0)
      && nav.timerPending == PendingAfter(Navigations(ts), p0)
    }

    /** One more delta through `onDelta`. */
    method Advance(ghost b0: Buffers, ghost p0: bool, ghost runs0: seq<string>, ghost keep: seq<Msg>, ghost ts: seq<Token>,
                   tok: string, parse: string -> Option<Json>)
      requires Reached(b0, p0, runs0, keep, ts)
      modifies this`full, this`tail, this`stream, this`spoken, this`history, nav
      ensures Reached(b0, p0, runs0, keep, ts + [ClassifyDelta(tok, parse)])
    {
      ghost var t := ClassifyDelta(tok, parse);
      OnDelta(tok, parse);
      FeedAppend(b0, ts, t);
      NavigationsAppend(ts, t);
      FiredAppendOne(Navigations(ts), t, p0);
    }

    /** The deltas of one reply, in order, each through `onDelta`. */
    method ApplyDeltas(deltas: seq<string>, parse: string -> Option<Json>)
      requires |history| > 0
      modifies this`full, this`tail, this`stream, this`spoken, this`history, nav
      ensures Reached(old(State()), old(nav.timerPending), old(nav.runs), old(history[..|history| - 1]), ClassifyDeltas(deltas, parse))
    {
      ghost var b0, p0, runs0, keep := State(), nav.timerPending, nav.runs, history[..|history| - 1];
      var i := 0;
      while i < |deltas|
        invariant i <= |deltas|
        invariant Reached(b0, p0, runs0, keep, ClassifyDeltas(deltas[..i], parse))
      {
        Advance(b0, p0, runs0, keep, ClassifyDeltas(deltas[..i], parse), deltas[i], parse);
        ClassifyDeltasAppend(deltas[..i], deltas[i], parse);
        assert deltas[..i + 1] == deltas[..i] + [deltas[i]];
        i := i + 1;
      }
      assert deltas[..i] == deltas;
    }

    /** The start of `sendMessage`: busy, no error, empty buffers, the two new entries. */
    method Begin(userMsg: string)
      modifies this`sending, this`error, this`full, this`tail, this`stream, this`history, this`outgoing
      ensures sending && error == None && full == "" && tail == "" && stream == ""
      ensures history == old(history) + [Msg(User, userMsg), Msg(Assistant, "")]
      ensures outgoing == userMsg
    {
      sending, error := true, None;
      stream, tail, full := "", "", "";
      history := history + [Msg(User, userMsg), Msg(Assistant, "")];
      outgoing := userMsg;
    }

    /**
     * The terminal event arrived: flush everything, show the final text (a
     * single space when it is empty) in the placeholder and in the cached
     * conversation, and report what the page must refresh.
     */
    method Complete(done: Json, role: AccountRole) returns (effects: seq<Effect>)
      requires |history| > 0 && !done.JNull?
      modifies this`full, this`tail, this`stream, this`spoken, this`history, this`cache, this`sending
      ensures var finalText := old(full + tail + stream);
        && history == old(history)[|old(history)| - 1 := Msg(Assistant, Shown(finalText))]
        && cache == old(cache) + [Msg(User, old(outgoing)), Msg(Assistant, Shown(finalText))]
      ensures spoken == old(spoken) + SpokenOf(old(tail + stream))
      ensures !sending && stream == "" && tail == ""
      ensures role == Employer ==> effects == (if JsTruthy(JsGet(done, "employer")) then [InvalidateEmployer] else [])
      ensures role == Intern ==> effects == ProfileEffects(done)
    {
      Flush(true);
      var finalText := full + tail;
      history := history[|history| - 1 := Msg(Assistant, Shown(finalText))];
      cache := cache + [Msg(User, outgoing), Msg(Assistant, Shown(finalText))];
      effects := [];
      if role == Employer && JsTruthy(JsGet(done, "employer")) {
        effects := [InvalidateEmployer];
      }
      if role == Intern {
        if JsTruthy(JsGet(done, "profile")) {
          effects := [MergeProfile(JsGet(done, "profile").value), ProfileSaved];
        } else if JsTruthy(JsGet(done, "profile_updated_at")) {
          effects := [RefetchProfile, ProfileSaved];
        }
      }
      sending := false;
    }

    /** The send failed: record the error and drop exactly the last entry, the placeholder. */
    method Fail(e: StreamError)
      modifies this`error, this`history, this`sending
      ensures error == Some(e) && !sending
      ensures history == if old(history) == [] then [] else old(history)[..|old(history)| - 1]
    {
      error := Some(e);
      history := if history == [] then [] else history[..|history| - 1];
      sending := false;
    }

    /**
     * The transcript effect: a new transcript is sent only when it is not
     * empty, transcription has finished, it differs from the last one sent
     * and no send is in progress; it then becomes the last one sent.
     */
    method OnTranscript(transcript: string, sttLoading: bool) returns (send: bool)
      modifies this`lastSent
      ensures send <==> transcript != "" && !sttLoading && old(lastSent) != Some(transcript) && !sending
      ensures lastSent == if send then Some(transcript) else old(lastSent)
    {
      if transcript == "" || sttLoading {
        return false;
      }
      if lastSent == Some(transcript) {
        return false;
      }
      if sending {
        return false;
      }
      lastSent := Some(transcript);
      return true;
    }

    /**
     * How a send leaves the page, given the history `h0` and cache `c0`
     * before it, its outcome `r` and the reply buffers `reply` once every
     * delta is in: on success both gain the user's message and the final
     * reply, and the rest of the reply is spoken; on failure the history
     * keeps only the user's message and the error is shown.
     */
    ghost predicate Settled(h0: seq<Msg>, c0: seq<Msg>, userMsg: string, r: Result<Json, StreamError>, reply: Buffers)
      reads this
    {
      && !sending
      && (r.Ok? ==>
            && history == h0 + [Msg(User, userMsg), Msg(Assistant, Shown(FinalText(reply)))]
            && cache == c0 + [Msg(User, userMsg), Msg(Assistant, Shown(FinalText(reply)))]
            && spoken == reply.spoken + SpokenOf(reply.pending)
            && error == None)
      && (r.Err? ==>
            && history == h0 + [Msg(User, userMsg)]
            && cache == c0
            && spoken == reply.spoken
            && error == Some(r.error))
    }

    /** The `try`/`catch`/`finally` tail of `sendMessage`, once the stream has ended. */
    method Finish(r: Result<Json, StreamError>, role: AccountRole, ghost h0: seq<Msg>, ghost c0: seq<Msg>, userMsg: string)
      returns (effects: seq<Effect>)
      requires |history| == |h0| + 2 && history[..|h0| + 1] == h0 + [Msg(User, userMsg)]
      requires cache == c0 && outgoing == userMsg && error == None
      requires r.Ok? ==> !r.value.JNull?
      modifies this`full, this`tail, this`stream, this`spoken, this`history, this`cache, this`sending, this`error
      ensures Settled(h0, c0, userMsg, r, old(State()))
      ensures r.Err? ==> effects == []
      ensures r.Ok? && role == Employer ==> effects == (if JsTruthy(JsGet(r.value, "employer")) then [InvalidateEmployer] else [])
      ensures r.Ok? && role == Intern ==> effects == ProfileEffects(r.value)
    {
      match r {
        case Ok(done) =>
          SendGlue(h0, userMsg, history, Msg(Assistant, Shown(full + (tail + stream))));
          assert full + tail + stream == full + (tail + stream);
          effects := Complete(done, role);
        case Err(e) =>
          SendGlue(h0, userMsg, history, Msg(Assistant, ""));
          Fail(e);
          effects := [];
      }
    }

    /**
     * `sendMessage(userMsg)` end to end over the response (`ok`, the error
     * body, the chunks read) and the line parser: the history and the cache
     * end as `Settled` says for the reply that `Feed` builds from the deltas,
     * and the navigation requests among them go through the debouncer in
     * order.
     */
    method Send(userMsg: string, role: AccountRole, ok: bool, errorBody: string, chunks: seq<string>, parse: string -> Option<Json>)
      returns (effects: seq<Effect>)
      modifies this, nav
      ensures var ts := ClassifyDeltas(Received(ok, errorBody, chunks, parse).1, parse);
        && Settled(old(history), old(cache), userMsg, Received(ok, errorBody, chunks, parse).0, Feed(Buffers("", "", old(spoken)), ts))
        && nav.runs == old(nav.runs) + Fired(Navigations(ts), old(nav.timerPending))
      ensures Received(ok, errorBody, chunks, parse).0.Err? ==> effects == []
      ensures Received(ok, errorBody, chunks, parse).0.Ok? && role == Employer ==> effects == (if JsTruthy(JsGet(Received(ok, errorBody, chunks, parse).0.value, "employer")) then [InvalidateEmployer] else [])
      ensures Received(ok, errorBody, chunks, parse).0.Ok? && role == Intern ==> effects == ProfileEffects(Received(ok, errorBody, chunks, parse).0.value)
    {
      Begin(userMsg);
      var r, deltas := StreamAgent(ok, errorBody, chunks, parse);
      assert (r, deltas) == Received(ok, errorBody, chunks, parse);
      ReceivedNotNull(ok, errorBody, chunks, parse);
      effects := Respond(r, deltas, role, parse, old(history), old(cache), userMsg);
    }

    /** After `Begin`: every delta through `onDelta`, then the end of the send. */
    method Respond(r: Result<Json, StreamError>, deltas: seq<string>, role: AccountRole, parse: string -> Option<Json>,
                   ghost h0: seq<Msg>, ghost c0: seq<Msg>, userMsg: string)
      returns (effects: seq<Effect>)
      requires history == h0 + [Msg(User, userMsg), Msg(Assistant, "")]
      requires cache == c0 && outgoing == userMsg && error == None
      requires full == "" && tail == "" && stream == ""
      requires r.Ok? ==> !r.value.JNull?
      modifies this`full, this`tail, this`stream, this`spoken, this`history, this`cache, this`sending, this`error, nav
      ensures var ts := ClassifyDeltas(deltas, parse);
        && Settled(h0, c0, userMsg, r, Feed(Buffers("", "", old(spoken)), ts))
        && nav.runs == old(nav.runs) + Fired(Navigations(ts), old(nav.timerPending))
      ensures r.Err? ==> effects == []
      ensures r.Ok? && role == Employer ==> effects == (if JsTruthy(JsGet(r.value, "employer")) then [InvalidateEmployer] else [])
      ensures r.Ok? && role == Intern ==> effects == ProfileEffects(r.value)
    {
      assert history[..|history| - 1] == h0 + [Msg(User, userMsg)];
      assert State() == Buffers("", "", spoken);
      ApplyDeltas(deltas, parse);
      effects := Finish(r, role, h0, c0, userMsg);
    }
  }

  /** What `streamAgent` hands back: the outcome, and the deltas passed to `onDelta`. */
  function Received(ok: bool, errorBody: string, chunks: seq<string>, parse: string -> Option<Json>): (r: (Result<Json, StreamError>, seq<string>))
    ensures !ok ==> r.0 == Err(HttpError(errorBody)) && r.1 == []
    ensures r.0.Ok? ==> !r.0.value.JNull?
  {
    if ok then
      var d := Drain(Concat(chunks), false, [], parse);
      if Outcome(d).Ok? then
        OutcomeNotNull(Concat(chunks), parse);
        (Outcome(d), d.deltas)
      else (Outcome(d), d.deltas)
    else (Err(HttpError(errorBody)), [])
  }

  /** A successful send always carries a terminal event that is not `null`. */
  lemma ReceivedNotNull(ok: bool, errorBody: string, chunks: seq<string>, parse: string -> Option<Json>)
    ensures Received(ok, errorBody, chunks, parse).0.Ok? ==> !Received(ok, errorBody, chunks, parse).0.value.JNull?
  {
    if ok && Received(ok, errorBody, chunks, parse).0.Ok? {
      OutcomeNotNull(Concat(chunks), parse);
    }
  }

  /** The history around a reply: the user's entry and the placeholder after what was there. */
  lemma SendGlue(h0: seq<Msg>, userMsg: string, h: seq<Msg>, last: Msg)
    requires |h| == |h0| + 2
    requires h[..|h| - 1] == (h0 + [Msg(User, userMsg), Msg(Assistant, "")])[..|h0| + 1]
    ensures h[..|h| - 1] == h0 + [Msg(User, userMsg)]
    ensures h[|h| - 1 := last] == h0 + [Msg(User, userMsg), last]
  {
    assert (h0 + [Msg(User, userMsg), Msg(Assistant, "")])[..|h0| + 1] == h0 + [Msg(User, userMsg)];
    assert h[|h| - 1 := last] == h[..|h| - 1] + [last];
  }

  lemma FiredAppendOne(evs: seq<Event>, t: Token, pending: bool)
    ensures Fired(evs + NavigationOf(t), pending) == Fired(evs, pending) + Fired(NavigationOf(t), PendingAfter(evs, pending))
    ensures PendingAfter(evs + NavigationOf(t), pending) == PendingAfter(NavigationOf(t), PendingAfter(evs, pending))
  {
    if t.Text? {
      assert evs + NavigationOf(t) == evs;
    } else {
      FiredAppend(evs, Call(t.path), pending);
    }
  }
}
