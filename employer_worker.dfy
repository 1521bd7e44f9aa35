/**
 * The employer agent's background worker: a first streamed model call whose
 * text is forwarded and whose tool-call fragments are assembled; when any
 * fragment arrived, the named calls run in index order, navigation requests
 * are forwarded, and a second streamed call produces the reply. Everything
 * it hands to the response stream is an `Item`, and it hands over exactly one
 * terminal item, last.
 */
module EmployerWorker {
  import opened Wrappers
  import opened Text
  import opened Json
  import opened ToolCalls

  const NavigateTool := "navigate_to_v1"

  /** One first-stage streamed delta: its `tool_calls` list and its `content`. */
  datatype Delta1 = Delta1(toolCalls: seq<ToolPart>, content: Option<string>)

  /**
   * Everything the worker gets from outside: the system instructions, the two
   * model streams (each possibly raising after the chunks listed), the tool
   * table, each tool's result (or the message of what it raised), and JSON
   * parsing and serialising.
   */
  datatype Upstream = Upstream(
    instructions: string,
    stage1: seq<Delta1>, fail1: Option<string>,
    tools: set<string>, invoke: (string, Json) -> Result<string, string>,
    stage2: seq<Option<string>>, fail2: Option<string>,
    parse: string -> Option<Json>, dumps: Json -> string)

  /** What the worker puts on the queue. */
  datatype Item =
    | DeltaItem(text: string)
    | ErrorItem(message: string)
    | DoneItem(reply: string, hadToolCalls: bool)

  /** The chat messages sent to the model. */
  datatype ChatMsg =
    | SystemMsg(content: string)
    | UserMsg(content: string)
    | CallsMsg(calls: Dict)
    | ToolMsg(callId: Option<string>, content: string)

  /** Only streamed text, then exactly one terminal item at the end. */
  predicate WellFramed(items: seq<Item>) {
    && |items| >= 1
    && !items[|items| - 1].DeltaItem?
    && forall k :: 0 <= k < |items| - 1 ==> items[k].DeltaItem?
  }

  /**
   * What the closing item says: a done item comes only from a run whose
   * first stage did not fail, tells whether tools were requested, and after
   * tools carries only the second stage's text.
   */
  predicate DoneSays(last: Item, up: Upstream, hadCalls: bool) {
    last.DoneItem? ==>
      && up.fail1.None?
      && last.hadToolCalls == hadCalls
      && (hadCalls ==> last.reply == Concat(Tokens(up.stage2)))
  }

  /** One delta item per text, in order. */
  function Deltas(ts: seq<string>): (r: seq<Item>)
    ensures |r| == |ts|
    ensures forall k :: 0 <= k < |ts| ==> r[k] == DeltaItem(ts[k])
  {
    if ts == [] then [] else Deltas(ts[..|ts| - 1]) + [DeltaItem(ts[|ts| - 1])]
  }

  lemma {:induction false} DeltasAppend(a: seq<string>, b: seq<string>)
    ensures Deltas(a + b) == Deltas(a) + Deltas(b)
  {
    var l, r := Deltas(a + b), Deltas(a) + Deltas(b);
    assert |l| == |r|;
    forall k | 0 <= k < |l| ensures l[k] == r[k] {
      if k < |a| {
        assert (a + b)[k] == a[k];
      } else {
        assert (a + b)[k] == b[k - |a|];
      }
    }
  }

  /** Streamed text followed by one terminal item is well framed. */
  lemma FramedBy(ts: seq<string>, last: Item)
    requires !last.DeltaItem?
    ensures WellFramed(Deltas(ts) + [last])
  {
    var items := Deltas(ts) + [last];
    forall k | 0 <= k < |items| - 1 ensures items[k].DeltaItem? {
      assert items[k] == Deltas(ts)[k];
    }
  }

  /** All fragments of the first stage, in arrival order. */
  function AllParts(chunks: seq<Delta1>): seq<ToolPart> {
    if chunks == [] then [] else AllParts(chunks[..|chunks| - 1]) + chunks[|chunks| - 1].toolCalls
  }

  /** The first stage's text: the non-empty content of deltas that carry no tool calls. */
  function Contents(chunks: seq<Delta1>): (r: seq<string>)
    ensures |r| <= |chunks|
    ensures forall k :: 0 <= k < |r| ==> r[k] != ""
  {
    if chunks == [] then []
    else
      var c := chunks[|chunks| - 1];
      Contents(chunks[..|chunks| - 1]) + (if c.toolCalls == [] && Given(c.content) then [c.content.value] else [])
  }

  /** The second stage's text: its non-empty tokens. */
  function Tokens(toks: seq<Option<string>>): (r: seq<string>)
    ensures |r| <= |toks|
    ensures forall k :: 0 <= k < |r| ==> r[k] != ""
  {
    if toks == [] then []
    else Tokens(toks[..|toks| - 1]) + (if Given(toks[|toks| - 1]) then [toks[|toks| - 1].value] else [])
  }

  /** The argument text a call is run with: `"{}"` when none arrived. */
  function ArgJson(f: Frag): string {
    if f.arguments == "" then "{}" else f.arguments
  }

  /** The decoded arguments, or `{"payload_json": <stripped text>}` when they do not decode. */
  function Kwargs(f: Frag, up: Upstream): (r: Json)
    ensures up.parse(ArgJson(f)).None? ==> r == JObj([("payload_json", JStr(Trim(Py, ArgJson(f))))])
    ensures up.parse(ArgJson(f)).Some? ==> r == up.parse(ArgJson(f)).value
  {
    match up.parse(ArgJson(f))
    case Some(v) => v
    case None => JObj([("payload_json", JStr(Trim(Py, ArgJson(f))))])
  }

  /** A call's result, or what it raised: a `KeyError` naming an unknown tool, or the tool's own error. */
  function CallOutcome(f: Frag, up: Upstream): (r: Result<string, string>)
    ensures f.name.GetOr("") !in up.tools ==> r == Err("'" + f.name.GetOr("") + "'")
  {
    var name := f.name.GetOr("");
    if name !in up.tools then Err("'" + name + "'") else up.invoke(name, Kwargs(f, up))
  }

  /** The navigation event a successful call forwards: only the navigation tool with object arguments, path defaulting to `/`. */
  function Navigation(f: Frag, up: Upstream): (r: Option<string>)
    ensures r.Some? <==> f.name == Some(NavigateTool) && Kwargs(f, up).JObj?
  {
    var kw := Kwargs(f, up);
    if f.name == Some(NavigateTool) && kw.JObj? then
      Some(up.dumps(JObj([("navigate", Lookup(kw.fields, "path").GetOr(JStr("/")))])))
    else None
  }

  /** The navigation events of a run of calls, in call order. */
  function Navigations(calls: Dict, up: Upstream): (r: seq<string>)
    ensures |r| <= |calls|
  {
    if calls == [] then []
    else
      var n := Navigation(calls[|calls| - 1].1, up);
      Navigations(calls[..|calls| - 1], up) + (if n.Some? then [n.value] else [])
  }

  /** Only calls of the navigation tool forward anything. */
  lemma {:induction false} NavigationsNeedTool(calls: Dict, up: Upstream)
    requires forall k :: 0 <= k < |calls| ==> calls[k].1.name != Some(NavigateTool)
    ensures Navigations(calls, up) == []
  {
    if calls != [] {
      NavigationsNeedTool(calls[..|calls| - 1], up);
    }
  }

  /** A first stage with no fragments assembles nothing, so the reply is its text. */
  lemma {:induction false} NoPartsNoCalls(chunks: seq<Delta1>)
    requires forall k :: 0 <= k < |chunks| ==> chunks[k].toolCalls == []
    ensures Assemble(AllParts(chunks)) == []
  {
    if chunks != [] {
      NoPartsNoCalls(chunks[..|chunks| - 1]);
    }
  }

  lemma AllPartsStep(chunks: seq<Delta1>, i: nat)
    requires i < |chunks|
    ensures AllParts(chunks[..i + 1]) == AllParts(chunks[..i]) + chunks[i].toolCalls
    ensures Contents(chunks[..i + 1]) ==
      Contents(chunks[..i]) + (if chunks[i].toolCalls == [] && Given(chunks[i].content) then [chunks[i].content.value] else [])
  {
    assert chunks[..i + 1][..i] == chunks[..i];
  }

  lemma AssembleStep(parts: seq<ToolPart>, p: ToolPart)
    ensures Assemble(parts + [p]) == AddPart(Assemble(parts), p)
  {
    assert (parts + [p])[..|parts|] == parts;
  }

  lemma PrefixStep(before: seq<ToolPart>, parts: seq<ToolPart>, j: nat)
    requires j < |parts|
    ensures before + parts[..j + 1] == (before + parts[..j]) + [parts[j]]
  {
    assert parts[..j + 1] == parts[..j] + [parts[j]];
  }

  /** One delta's fragments, added to the dictionary in order. */
  method AddParts(frags: Dict, ghost before: seq<ToolPart>, parts: seq<ToolPart>) returns (r: Dict)
    requires frags == Assemble(before)
    ensures r == Assemble(before + parts)
  {
    r := frags;
    assert before + parts[..0] == before;
    for j := 0 to |parts|
      invariant r == Assemble(before + parts[..j])
    {
      PrefixStep(before, parts, j);
      AssembleStep(before + parts[..j], parts[j]);
      r := AddPart(r, parts[j]);
    }
    assert parts[..|parts|] == parts;
  }

  /**
   * The first stage: fragments go into the dictionary in arrival order, text
   * of the other deltas is collected (and forwarded) in order.
   */
  method FirstStage(chunks: seq<Delta1>) returns (frags: Dict, collected: seq<string>)
    ensures frags == Assemble(AllParts(chunks))
    ensures collected == Contents(chunks)
  {
    frags, collected := [], [];
    for i := 0 to |chunks|
      invariant frags == Assemble(AllParts(chunks[..i]))
      invariant collected == Contents(chunks[..i])
    {
      var c := chunks[i];
      AllPartsStep(chunks, i);
      if c.toolCalls != [] {
        frags := AddParts(frags, AllParts(chunks[..i]), c.toolCalls);
      } else {
        assert AllParts(chunks[..i + 1]) == AllParts(chunks[..i]);
        if Given(c.content) {
          collected := collected + [c.content.value];
        }
      }
    }
    assert chunks[..|chunks|] == chunks;
  }

  lemma NavigationsStep(calls: Dict, up: Upstream, j: nat)
    requires j < |calls|
    ensures Navigations(calls[..j + 1], up) ==
      Navigations(calls[..j], up) + (if Navigation(calls[j].1, up).Some? then [Navigation(calls[j].1, up).value] else [])
  {
    assert calls[..j + 1][..j] == calls[..j];
  }

  /** How many calls, from the first, return without raising. */
  function Ran(calls: Dict, up: Upstream): (n: nat)
    ensures n <= |calls|
    ensures forall k :: 0 <= k < n ==> CallOutcome(calls[k].1, up).Ok?
    ensures n < |calls| ==> CallOutcome(calls[n].1, up).Err?
  {
    if calls == [] || CallOutcome(calls[0].1, up).Err? then 0 else 1 + Ran(calls[1..], up)
  }

  /** The tool messages of calls that all returned: each answers its own call's id with its result. */
  function Answers(calls: Dict, up: Upstream): (r: seq<ChatMsg>)
    requires forall k :: 0 <= k < |calls| ==> CallOutcome(calls[k].1, up).Ok?
    ensures |r| == |calls|
    ensures forall k :: 0 <= k < |calls| ==> r[k] == ToolMsg(calls[k].1.id, CallOutcome(calls[k].1, up).value)
  {
    if calls == [] then []
    else
      var f := calls[|calls| - 1].1;
      Answers(calls[..|calls| - 1], up) + [ToolMsg(f.id, CallOutcome(f, up).value)]
  }

  /** A call that returns, reached before the run stopped, is not where it stops. */
  lemma RanPast(calls: Dict, up: Upstream, j: nat)
    requires j < |calls| && j <= Ran(calls, up) && CallOutcome(calls[j].1, up).Ok?
    ensures j < Ran(calls, up)
  {
  }

  lemma AnswersStep(calls: Dict, up: Upstream, j: nat)
    requires j < Ran(calls, up)
    ensures Answers(calls[..j + 1], up) == Answers(calls[..j], up) + [ToolMsg(calls[j].1.id, CallOutcome(calls[j].1, up).value)]
  {
    assert calls[..j + 1][..j] == calls[..j];
  }

  /**
   * Runs the calls in order; each result becomes a tool message answering
   * its call's id, and navigation events are forwarded after the call
   * returns. The first call that raises stops the run.
   */
  method RunTools(calls: Dict, up: Upstream) returns (navs: seq<string>, replies: seq<ChatMsg>, failed: Option<string>)
    ensures var n := Ran(calls, up);
      && replies == Answers(calls[..n], up)
      && navs == Navigations(calls[..n], up)
      && (failed.None? <==> n == |calls|)
      && (failed.Some? ==> CallOutcome(calls[n].1, up) == Err(failed.value))
  {
    navs, replies, failed := [], [], None;
    ghost var n := Ran(calls, up);
    for j := 0 to |calls|
      invariant j <= n
      invariant replies == Answers(calls[..j], up)
      invariant navs == Navigations(calls[..j], up)
    {
      var f := calls[j].1;
      var out := CallOutcome(f, up);
      if out.Err? {
        failed := Some(out.error);
        return;
      }
      RanPast(calls, up, j);
      NavigationsStep(calls, up, j);
      AnswersStep(calls, up, j);
      var nav := Navigation(f, up);
      if nav.Some? {
        navs := navs + [nav.value];
      }
      replies := replies + [ToolMsg(f.id, out.value)];
    }
  }

  lemma TokensStep(toks: seq<Option<string>>, i: nat)
    requires i < |toks|
    ensures Tokens(toks[..i + 1]) == Tokens(toks[..i]) + (if Given(toks[i]) then [toks[i].value] else [])
  {
    assert toks[..i + 1][..i] == toks[..i];
  }

  /** The second stage: its non-empty tokens are collected (and forwarded) in order. */
  method SecondStage(toks: seq<Option<string>>) returns (collected: seq<string>)
    ensures collected == Tokens(toks)
  {
    collected := [];
    for i := 0 to |toks|
      invariant collected == Tokens(toks[..i])
    {
      TokensStep(toks, i);
      var tok := toks[i].GetOr("");
      if tok != "" {
        collected := collected + [tok];
      }
    }
    assert toks[..|toks|] == toks;
  }

  /** The item a tool stage ends with: what the first failing call raised, what the second stage raised, or the reply. */
  function ToolStageEnd(calls: Dict, up: Upstream): (r: Item)
    ensures !r.DeltaItem?
    ensures r.DoneItem? ==> Ran(calls, up) == |calls| && up.fail2.None? && r == DoneItem(Concat(Tokens(up.stage2)), true)
  {
    var n := Ran(calls, up);
    if n < |calls| then ErrorItem(CallOutcome(calls[n].1, up).error)
    else if up.fail2.Some? then ErrorItem(up.fail2.value)
    else DoneItem(Concat(Tokens(up.stage2)), true)
  }

  /** What a tool stage streams before its end: navigation events, then, if every call returned, the second stage's text. */
  function ToolStageText(calls: Dict, up: Upstream): seq<string> {
    var n := Ran(calls, up);
    Navigations(calls[..n], up) + (if n == |calls| then Tokens(up.stage2) else [])
  }

  /**
   * The tool stage and second stage, run when any fragment arrived: the
   * calls that received a name, in ascending index order, then their
   * results, navigation events and the second stage's text.
   */
  method ToolStage(frags: Dict, up: Upstream) returns (calls: Dict, tail: seq<Item>, msgs: seq<ChatMsg>)
    requires DistinctKeys(frags)
    ensures Ascending(calls)
    ensures NamedOf(calls, frags)
    ensures msgs == [CallsMsg(calls)] + Answers(calls[..Ran(calls, up)], up)
    ensures tail == Deltas(ToolStageText(calls, up)) + [ToolStageEnd(calls, up)]
  {
    calls := NamedCalls(frags);
    var navs, replies, failed := RunTools(calls, up);
    msgs := [CallsMsg(calls)] + replies;
    if failed.Some? {
      tail := Deltas(navs) + [ErrorItem(failed.value)];
      return;
    }
    assert calls[..|calls|] == calls;
    var collected := SecondStage(up.stage2);
    var last := if up.fail2.Some? then ErrorItem(up.fail2.value) else DoneItem(Concat(collected), true);
    tail := Deltas(navs + collected) + [last];
  }

  /**
   * The whole worker. Its queue items are streamed text and exactly one
   * terminal item, last. First-stage text is always forwarded first; when
   * tools were called, the reply holds only the second stage's text, and the
   * done item says whether any fragment arrived.
   */
  method Worker(prompt: string, up: Upstream) returns (items: seq<Item>, calls: Dict, msgs: seq<ChatMsg>)
    ensures WellFramed(items)
    ensures Deltas(Contents(up.stage1)) <= items
    ensures |msgs| >= 2 && msgs[..2] == [SystemMsg(up.instructions), UserMsg(prompt)]
    ensures up.fail1.Some? ==> items == Deltas(Contents(up.stage1)) + [ErrorItem(up.fail1.value)]
    ensures up.fail1.None? && Assemble(AllParts(up.stage1)) == [] ==>
      items == Deltas(Contents(up.stage1)) + [DoneItem(Concat(Contents(up.stage1)), false)]
    ensures up.fail1.None? && Assemble(AllParts(up.stage1)) != [] ==>
      && Ascending(calls)
      && NamedOf(calls, Assemble(AllParts(up.stage1)))
      && |msgs| >= 3 && msgs[2] == CallsMsg(calls)
    ensures up.fail1.None? && Assemble(AllParts(up.stage1)) != [] ==>
      && items == Deltas(Contents(up.stage1) + ToolStageText(calls, up)) + [ToolStageEnd(calls, up)]
      && msgs == [SystemMsg(up.instructions), UserMsg(prompt), CallsMsg(calls)] + Answers(calls[..Ran(calls, up)], up)
    ensures DoneSays(items[|items| - 1], up, Assemble(AllParts(up.stage1)) != [])
  {
    var frags, collected := FirstStage(up.stage1);
    AssembleSpec(AllParts(up.stage1), 0);
    var more;
    items, calls, more := AfterFirstStage(frags, collected, up);
    msgs := [SystemMsg(up.instructions), UserMsg(prompt)] + more;
  }

  /**
   * What follows the first stage: its failure ends the run with an error,
   * no fragments end it with the streamed text as the reply, and otherwise
   * the tool round runs.
   */
  method AfterFirstStage(frags: Dict, collected: seq<string>, up: Upstream) returns (items: seq<Item>, calls: Dict, more: seq<ChatMsg>)
    requires DistinctKeys(frags)
    ensures WellFramed(items)
    ensures Deltas(collected) <= items
    ensures up.fail1.Some? ==> items == Deltas(collected) + [ErrorItem(up.fail1.value)]
    ensures up.fail1.None? && frags == [] ==> items == Deltas(collected) + [DoneItem(Concat(collected), false)]
    ensures up.fail1.None? && frags != [] ==>
      && Ascending(calls) && NamedOf(calls, frags)
      && |more| >= 1 && more[0] == CallsMsg(calls)
    ensures up.fail1.None? && frags != [] ==>
      && items == Deltas(collected + ToolStageText(calls, up)) + [ToolStageEnd(calls, up)]
      && more == [CallsMsg(calls)] + Answers(calls[..Ran(calls, up)], up)
    ensures DoneSays(items[|items| - 1], up, frags != [])
  {
    calls, more := [], [];
    if up.fail1.Some? {
      items := Deltas(collected) + [ErrorItem(up.fail1.value)];
      FramedBy(collected, ErrorItem(up.fail1.value));
      assert !items[|items| - 1].DoneItem?;
    } else if frags == [] {
      items := Deltas(collected) + [DoneItem(Concat(collected), false)];
      FramedBy(collected, DoneItem(Concat(collected), false));
      assert items[|items| - 1] == DoneItem(Concat(collected), false);
    } else {
      items, calls, more := ToolRound(frags, collected, up);
    }
  }

  /**
   * The branch taken when fragments arrived: the first stage's text was
   * already streamed, the tool stage follows it, and the reply is the
   * second stage's text alone.
   */
  method ToolRound(frags: Dict, collected: seq<string>, up: Upstream) returns (items: seq<Item>, calls: Dict, more: seq<ChatMsg>)
    requires DistinctKeys(frags)
    ensures WellFramed(items) && Deltas(collected) <= items
    ensures Ascending(calls) && NamedOf(calls, frags)
    ensures |more| >= 1 && more[0] == CallsMsg(calls)
    ensures items[|items| - 1].DoneItem? ==>
      items[|items| - 1].hadToolCalls && items[|items| - 1].reply == Concat(Tokens(up.stage2))
    ensures items == Deltas(collected + ToolStageText(calls, up)) + [ToolStageEnd(calls, up)]
    ensures more == [CallsMsg(calls)] + Answers(calls[..Ran(calls, up)], up)
  {
    var tail;
    calls, tail, more := ToolStage(frags, up);
    var text, end := ToolStageText(calls, up), ToolStageEnd(calls, up);
    DeltasAppend(collected, text);
    items := Deltas(collected) + tail;
    assert items == Deltas(collected + text) + [end];
    FramedBy(collected + text, end);
  }
}
