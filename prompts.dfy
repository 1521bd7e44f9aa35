/**
 * How both agent endpoints turn the stored conversation into a single
 * prompt: one `User: …` or `Assistant: …` line per stored message in
 * creation order, then a `User: …` line for the latest message, joined by
 * newlines. The employer endpoint builds it with a comprehension
 * (`make_prompt`), the profile builder with a loop (`build_prompt`).
 */
module Prompts {
  import opened Text

  /** A stored agent message; the role is the stored string (`"user"` or `"assistant"`). */
  datatype AgentMessage = AgentMessage(role: string, content: string)

  /** Any role other than `"user"` is shown as the assistant. */
  function Speaker(m: AgentMessage): string {
    if m.role == "user" then "User" else "Assistant"
  }

  function Line(m: AgentMessage): string {
    Speaker(m) + ": " + m.content
  }

  function Lines(hist: seq<AgentMessage>): (r: seq<string>)
    ensures |r| == |hist|
  {
    if hist == [] then [] else Lines(hist[..|hist| - 1]) + [Line(hist[|hist| - 1])]
  }

  /** `make_prompt(hist, latest)`. */
  function Prompt(hist: seq<AgentMessage>, latest: string): string {
    Join(Lines(hist) + ["User: " + latest], '\n')
  }

  /** Each line renders its own message, in order. */
  lemma {:induction false} LinesAt(hist: seq<AgentMessage>, k: nat)
    requires k < |hist|
    ensures Lines(hist)[k] == Line(hist[k])
  {
    if k < |hist| - 1 {
      LinesAt(hist[..|hist| - 1], k);
    }
  }

  /**
   * When no content holds a newline, splitting the prompt on newlines gives
   * back exactly one line per stored message, in order, and then the latest
   * message as the user's: the prompt has `|hist| + 1` lines.
   */
  lemma PromptLines(hist: seq<AgentMessage>, latest: string)
    requires forall k :: 0 <= k < |hist| ==> '\n' !in hist[k].content
    requires '\n' !in latest
    ensures var lines := Split(Prompt(hist, latest), '\n');
      && |lines| == |hist| + 1
      && (forall k :: 0 <= k < |hist| ==> lines[k] == Line(hist[k]))
      && lines[|hist|] == "User: " + latest
  {
    var parts := Lines(hist) + ["User: " + latest];
    forall k | 0 <= k < |parts| ensures '\n' !in parts[k] {
      if k < |hist| {
        LinesAt(hist, k);
      }
    }
    SplitJoin(parts, '\n');
    forall k | 0 <= k < |hist| ensures parts[k] == Line(hist[k]) {
      LinesAt(hist, k);
    }
  }

  /** The prompt always ends with the latest message as the user's line. */
  lemma {:induction false} PromptEndsWithLatest(hist: seq<AgentMessage>, latest: string)
    ensures var p := Prompt(hist, latest);
      var last := "User: " + latest;
      |last| <= |p| && p[|p| - |last|..] == last
  {
    JoinEndsWithLast(Lines(hist) + ["User: " + latest], '\n');
  }

  lemma {:induction false} JoinEndsWithLast(parts: seq<string>, sep: char)
    requires |parts| >= 1
    ensures var j := Join(parts, sep);
      var last := parts[|parts| - 1];
      |last| <= |j| && j[|j| - |last|..] == last
  {
    if |parts| > 1 {
      JoinEndsWithLast(parts[1..], sep);
      assert parts[1..][|parts[1..]| - 1] == parts[|parts| - 1];
    }
  }

  /**
   * `build_prompt`: a loop over the stored messages appending one line each,
   * then the latest message, joined by newlines; it builds the same prompt as
   * `make_prompt`.
   */
  method BuildPrompt(hist: seq<AgentMessage>, latest: string) returns (prompt: string)
    ensures prompt == Prompt(hist, latest)
  {
    var lines: seq<string> := [];
    var i := 0;
    while i < |hist|
      invariant i <= |hist|
      invariant lines == Lines(hist[..i])
    {
      assert hist[..i + 1][..i] == hist[..i];
      lines := lines + [Line(hist[i])];
      i := i + 1;
    }
    assert hist[..i] == hist;
    lines := lines + ["User: " + latest];
    prompt := Join(lines, '\n');
  }

  /** A stored message with the id of the user it belongs to, in creation order. */
  datatype Stored = Stored(owner: nat, msg: AgentMessage)

  /** One user's messages, in creation order (`AgentMessage.objects.filter(user=…).order_by("created_at")`). */
  function HistoryOf(store: seq<Stored>, owner: nat): (r: seq<AgentMessage>)
    ensures |r| <= |store|
  {
    if store == [] then []
    else
      var s := store[|store| - 1];
      HistoryOf(store[..|store| - 1], owner) + (if s.owner == owner then [s.msg] else [])
  }

  /** Storing a message extends its owner's history by it and leaves everyone else's alone. */
  lemma HistoryAppend(store: seq<Stored>, s: Stored, owner: nat)
    ensures HistoryOf(store + [s], owner) == HistoryOf(store, owner) + (if s.owner == owner then [s.msg] else [])
  {
    assert (store + [s])[..|store|] == store;
  }

  /**
   * When the latest message is stored before the prompt is built, the
   * prompt's last two lines are both the user's latest message.
   */
  lemma LatestTwice(store: seq<Stored>, owner: nat, latest: string)
    ensures var lines := Lines(HistoryOf(store + [Stored(owner, AgentMessage("user", latest))], owner)) + ["User: " + latest];
      |lines| >= 2 && lines[|lines| - 2] == lines[|lines| - 1] == "User: " + latest
  {
    var m := AgentMessage("user", latest);
    HistoryAppend(store, Stored(owner, m), owner);
    var h := HistoryOf(store + [Stored(owner, m)], owner);
    assert h == HistoryOf(store, owner) + [m];
    LinesAt(h, |h| - 1);
    assert Lines(h)[|h| - 1] == Line(m) == "User: " + latest;
    var lines := Lines(h) + ["User: " + latest];
    assert lines[|lines| - 2] == Lines(h)[|h| - 1];
  }
}
