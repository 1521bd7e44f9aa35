/**
 * The employer agent endpoint: the request guards, the per-user lock that
 * keeps one reply in progress at a time, the stored conversation, and the
 * newline-delimited JSON stream the response is made of.
 */
module EmployerView {
  import opened Wrappers
  import opened Text
  import opened Json
  import opened Prompts
  import opened ToolCalls
  import opened EmployerWorker

  const EmployerRole := "EMPLOYER"

  /** The requesting account; `role` is `None` for an account object without a role attribute. */
  datatype User = User(id: nat, role: Option<string>)

  /** How the endpoint answers the request itself. */
  datatype Response =
    | BadRequest          // 400: missing or blank message
    | Forbidden           // 403: not an employer account
    | TooManyRequests     // 429: a reply is already being generated for this user
    | ServerError         // 500: the message field is not text
    | Streaming(prompt: string)

  /** `(data.get("message") or "").strip()`: falsy values read as blank, text is stripped, anything else cannot be stripped. */
  datatype Latest = Blank | NotText | Message(text: string)

  function ReadMessage(field: Option<Json>): (r: Latest)
    ensures r.Message? ==> field.Some? && field.value.JStr? && r.text == Trim(Py, field.value.s) && r.text != ""
  {
    if field.None? || !PyTruthy(field.value) then Blank
    else if !field.value.JStr? then NotText
    else if Trim(Py, field.value.s) == "" then Blank
    else Message(Trim(Py, field.value.s))
  }

  /** A message is blank exactly when the field is absent, falsy, or white space only; an accepted message is already stripped. */
  lemma ReadMessageSpec(field: Option<Json>)
    ensures ReadMessage(field).Blank? <==>
      field.None? || !PyTruthy(field.value) || (field.value.JStr? && AllSpace(Py, field.value.s))
    ensures ReadMessage(field).NotText? <==> field.Some? && PyTruthy(field.value) && !field.value.JStr?
    ensures ReadMessage(field).Message? ==> Trim(Py, ReadMessage(field).text) == ReadMessage(field).text
  {
    if field.Some? && field.value.JStr? {
      TrimEmpty(Py, field.value.s);
      TrimIdempotent(Py, field.value.s);
    }
  }

  /** The one line of the wire format a JSON value becomes. */
  function Frame(dumps: Json -> string, v: Json): string {
    dumps(v) + "\n"
  }

  /** `{"delta": text, "done": false}`. */
  function DeltaFrame(text: string): Json {
    JObj([("delta", JStr(text)), ("done", JBool(false))])
  }

  /** `{"error": message}`. */
  function ErrorFrame(message: string): Json {
    JObj([("error", JStr(message))])
  }

  /**
   * `{"delta": "", "done": true}`, with the refreshed employer profile only
   * when tools were called and the account has one, and with the speech only
   * when synthesis produced some.
   */
  function DoneFrame(hadToolCalls: bool, employer: Option<Json>, audio: Option<string>): (r: Json)
    ensures r.JObj? && |r.fields| >= 2 && r.fields[..2] == [("delta", JStr("")), ("done", JBool(true))]
  {
    JObj([("delta", JStr("")), ("done", JBool(true))]
      + (if hadToolCalls && employer.Some? then [("employer", employer.value)] else [])
      + (if Given(audio) then [("audio_base64", JStr(audio.value))] else []))
  }

  /** A frame that ends the stream for the client: it says `done: true` or carries an error. */
  predicate Ends(v: Json) {
    v.JObj? && (Lookup(v.fields, "done") == Some(JBool(true)) || HasKey(v.fields, "error"))
  }

  /** The employer profile field appears in the final frame exactly when tools were called and there is a profile. */
  lemma DoneFrameFields(had: bool, employer: Option<Json>, audio: Option<string>)
    ensures var f := DoneFrame(had, employer, audio).fields;
      && (HasKey(f, "employer") <==> had && employer.Some?)
      && (HasKey(f, "audio_base64") <==> Given(audio))
      && !HasKey(f, "error")
  {
    var f := DoneFrame(had, employer, audio).fields;
    if HasKey(f, "employer") {
      var k :| 0 <= k < |f| && f[k].0 == "employer";
      assert k >= 2;
    }
    if HasKey(f, "audio_base64") {
      var k :| 0 <= k < |f| && f[k].0 == "audio_base64";
      assert k >= 2;
    }
    if had && employer.Some? {
      assert f[2].0 == "employer";
    }
    if Given(audio) {
      assert f[|f| - 1].0 == "audio_base64";
    }
  }

  /** The final frame ends the stream; delta frames do not; error frames do. */
  lemma FramesEnd(text: string, message: string, had: bool, employer: Option<Json>, audio: Option<string>)
    ensures !Ends(DeltaFrame(text))
    ensures Ends(ErrorFrame(message))
    ensures Ends(DoneFrame(had, employer, audio))
  {
    var d := DeltaFrame(text).fields;
    assert !HasKey(d, "error") by {
      assert d[0].0 != "error" && d[1].0 != "error";
    }
    assert ErrorFrame(message).fields[0].0 == "error";
    var f := DoneFrame(had, employer, audio).fields;
    DoneFrameFields(had, employer, audio);
    assert f[1] == ("done", JBool(true));
    assert Lookup(f, "done") == Some(JBool(true)) by {
      LookupUnique(f, "done", 1);
    }
  }

  /** With `key` at position `k` only, looking it up finds what is there. */
  lemma LookupUnique(fields: seq<(string, Json)>, key: string, k: nat)
    requires k < |fields| && fields[k].0 == key
    requires forall j :: 0 <= j < |fields| && j != k ==> fields[j].0 != key
    ensures Lookup(fields, key) == Some(fields[k].1)
  {
    if k < |fields| - 1 {
      LookupUnique(fields[..|fields| - 1], key, k);
    }
  }

  /** How many items from the front are streamed text. */
  function Leading(items: seq<Item>): (n: nat)
    ensures n <= |items|
    ensures forall k :: 0 <= k < n ==> items[k].DeltaItem?
    ensures n < |items| ==> !items[n].DeltaItem?
  {
    if items == [] || !items[0].DeltaItem? then 0 else 1 + Leading(items[1..])
  }

  /** In a well-framed run, the terminal item is the last. */
  lemma LeadingFramed(items: seq<Item>)
    requires WellFramed(items)
    ensures Leading(items) == |items| - 1
  {
  }

  /** The frame the stream ends with for a terminal item, given the speech synthesised for the reply and the employer profile. */
  function EndFrame(item: Item, tts: string -> Option<string>, employer: Option<Json>): Json
    requires !item.DeltaItem?
  {
    if item.ErrorItem? then ErrorFrame(item.message)
    else DoneFrame(item.hadToolCalls, employer, tts(item.reply))
  }

  /** The frames the stream sends for the queued items: text while it lasts, then the first terminal item's frame. */
  predicate Streamed(items: seq<Item>, frames: seq<Json>, tts: string -> Option<string>, employer: Option<Json>) {
    var n := Leading(items);
    && |frames| == (if n < |items| then n + 1 else n)
    && (forall k :: 0 <= k < n ==> frames[k] == DeltaFrame(items[k].text))
    && (n < |items| ==> frames[n] == EndFrame(items[n], tts, employer))
  }

  /** Exactly the frame at `n` ends the stream. */
  predicate EndsAt(frames: seq<Json>, n: nat) {
    forall k :: 0 <= k < |frames| ==> (Ends(frames[k]) <==> k == n)
  }

  /**
   * `event_stream`: one delta frame per streamed text, in order, then the
   * frame of the first terminal item, after which nothing more is read. The
   * reply of a done item is what gets saved as the assistant's message.
   * Exactly the last frame ends the stream.
   */
  method EventFrames(items: seq<Item>, tts: string -> Option<string>, employer: Option<Json>)
    returns (frames: seq<Json>, saved: Option<string>)
    ensures Streamed(items, frames, tts, employer)
    ensures var n := Leading(items); saved == (if n < |items| && items[n].DoneItem? then Some(items[n].reply) else None)
    ensures EndsAt(frames, Leading(items))
  {
    frames, saved := [], None;
    var i := 0;
    while i < |items| && items[i].DeltaItem?
      invariant i <= Leading(items)
      invariant |frames| == i
      invariant forall k :: 0 <= k < i ==> frames[k] == DeltaFrame(items[k].text)
    {
      frames := frames + [DeltaFrame(items[i].text)];
      i := i + 1;
    }
    assert i == Leading(items);
    if i < |items| {
      match items[i] {
        case ErrorItem(message) =>
          frames := frames + [ErrorFrame(message)];
        case DoneItem(reply, had) =>
          var audio := tts(reply);
          saved := Some(reply);
          frames := frames + [DoneFrame(had, employer, audio)];
      }
    }
    DeltasThenEnd(items, frames, tts, employer);
  }

  /**
   * The worker's items as the client receives them: every item is framed,
   * exactly the last frame ends the stream, and a done item's reply is what
   * gets saved.
   */
  method WorkerFrames(prompt: string, up: Upstream, tts: string -> Option<string>, employer: Option<Json>)
    returns (frames: seq<Json>, items: seq<Item>, saved: Option<string>)
    ensures WellFramed(items)
    ensures Streamed(items, frames, tts, employer)
    ensures |frames| == |items| && EndsAt(frames, |frames| - 1)
    ensures saved == if items[|items| - 1].DoneItem? then Some(items[|items| - 1].reply) else None
  {
    var calls, msgs;
    items, calls, msgs := Worker(prompt, up);
    LeadingFramed(items);
    frames, saved := EventFrames(items, tts, employer);
  }

  /** Delta frames never end the stream and a terminal item's frame always does. */
  lemma DeltasThenEnd(items: seq<Item>, frames: seq<Json>, tts: string -> Option<string>, employer: Option<Json>)
    requires Streamed(items, frames, tts, employer)
    ensures EndsAt(frames, Leading(items))
  {
    var n := Leading(items);
    forall k | 0 <= k < |frames| ensures Ends(frames[k]) <==> k == n {
      if k < n {
        FramesEnd(items[k].text, "", false, None, None);
      } else if items[n].ErrorItem? {
        FramesEnd("", items[n].message, false, None, None);
      } else {
        FramesEnd("", "", items[n].hadToolCalls, employer, tts(items[n].reply));
      }
    }
  }

  /** The wire text of a run of frames: each serialised value followed by a newline. */
  function Wire(dumps: Json -> string, frames: seq<Json>): string {
    if frames == [] then "" else Frame(dumps, frames[0]) + Wire(dumps, frames[1..])
  }

  /** The serialised values, in order. */
  function Dumped(dumps: Json -> string, frames: seq<Json>): (r: seq<string>)
    ensures |r| == |frames|
    ensures forall k :: 0 <= k < |frames| ==> r[k] == dumps(frames[k])
  {
    if frames == [] then [] else [dumps(frames[0])] + Dumped(dumps, frames[1..])
  }

  /**
   * As long as serialising never produces a newline, splitting the wire text
   * on newlines gives back each serialised frame, in order, and then the
   * empty rest after the final newline.
   */
  lemma {:induction false} WireSplits(dumps: Json -> string, frames: seq<Json>)
    requires forall k :: 0 <= k < |frames| ==> '\n' !in dumps(frames[k])
    ensures Split(Wire(dumps, frames), '\n') == Dumped(dumps, frames) + [""]
  {
    WireJoin(dumps, frames);
    var parts := Dumped(dumps, frames) + [""];
    forall k | 0 <= k < |parts| ensures '\n' !in parts[k] {
      if k < |frames| {
        assert parts[k] == dumps(frames[k]);
      }
    }
    SplitJoin(parts, '\n');
  }

  lemma {:induction false} WireJoin(dumps: Json -> string, frames: seq<Json>)
    ensures Wire(dumps, frames) == Join(Dumped(dumps, frames) + [""], '\n')
  {
    if frames != [] {
      WireJoin(dumps, frames[1..]);
      var rest := Dumped(dumps, frames[1..]) + [""];
      assert Dumped(dumps, frames) + [""] == [dumps(frames[0])] + rest;
    }
  }

  /**
   * The endpoint's shared state: the users whose lock (the cache entry keyed
   * by their id) is held, and the stored conversation messages.
   */
  class EmployerAgentEndpoint {
    var locks: set<nat>
    var store: seq<Stored>

    constructor ()
      ensures locks == {} && store == []
    {
      locks := {};
      store := [];
    }

    /**
     * The request guards, in order: a blank message, a message that is not
     * text, a non-employer account, a reply already in progress. Each refusal
     * leaves the lock and the store alone. Otherwise the lock is taken, the
     * user's message is stored, and the prompt is built from the user's whole
     * stored history, which by then ends with that message.
     */
    method Post(user: User, field: Option<Json>) returns (resp: Response)
      modifies this
      ensures ReadMessage(field).Blank? ==> resp == BadRequest
      ensures ReadMessage(field).NotText? ==> resp == ServerError
      ensures ReadMessage(field).Message? && user.role.Some? && user.role.value != EmployerRole ==> resp == Forbidden
      ensures ReadMessage(field).Message? && (user.role.None? || user.role.value == EmployerRole) && user.id in old(locks) ==>
        resp == TooManyRequests
      ensures !resp.Streaming? ==> locks == old(locks) && store == old(store)
      ensures resp.Streaming? <==>
        ReadMessage(field).Message? && (user.role.None? || user.role.value == EmployerRole) && user.id !in old(locks)
      ensures resp.Streaming? ==>
        && locks == old(locks) + {user.id}
        && store == old(store) + [Stored(user.id, AgentMessage("user", ReadMessage(field).text))]
        && resp.prompt == Prompt(HistoryOf(store, user.id), ReadMessage(field).text)
    {
      var latest := ReadMessage(field);
      if latest.Blank? {
        return BadRequest;
      }
      if latest.NotText? {
        return ServerError;
      }
      if user.role.Some? && user.role.value != EmployerRole {
        return Forbidden;
      }
      if user.id in locks {
        return TooManyRequests;
      }
      locks := locks + {user.id};
      store := store + [Stored(user.id, AgentMessage("user", latest.text))];
      var prompt := BuildPrompt(HistoryOf(store, user.id), latest.text);
      resp := Streaming(prompt);
    }

    /**
     * The reply to an accepted request: the worker's items are framed for the
     * client, the worker releases the lock whatever happened, and a completed
     * reply is stored as the assistant's message. The stream has exactly one
     * frame that ends it, the last.
     */
    method Reply(user: User, prompt: string, up: Upstream, tts: string -> Option<string>, employer: Option<Json>)
      returns (frames: seq<Json>, items: seq<Item>)
      modifies this
      ensures WellFramed(items)
      ensures locks == old(locks) - {user.id}
      ensures Streamed(items, frames, tts, employer)
      ensures |frames| == |items| && EndsAt(frames, |frames| - 1)
      ensures store == old(store) +
        (if items[|items| - 1].DoneItem? then [Stored(user.id, AgentMessage("assistant", items[|items| - 1].reply))] else [])
    {
      var saved;
      frames, items, saved := WorkerFrames(prompt, up, tts, employer);
      locks := locks - {user.id};
      if saved.Some? {
        store := store + [Stored(user.id, AgentMessage("assistant", saved.value))];
      }
    }
  }
}
