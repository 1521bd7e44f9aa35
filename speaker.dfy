/**
 * The client's sentence speaker (`useSentenceSpeaker`): every non-blank
 * sentence starts a speech request, admitted only while fewer than
 * `MaxParallel` requests are in flight; the requests' audio is played strictly
 * in the order the sentences arrived, one at a time. The network, the 200 ms
 * admission poll and the audio element are events: `Poll`, `FetchDone`,
 * `PlaybackDone`.
 */
module Speaker {
  import opened Wrappers
  import opened Text

  const MaxParallel: nat := 3

  /** Where one request's speech synthesis stands. */
  datatype Fetch =
    | Polling                 // waiting for a free slot
    | Fetching                // admitted: counted in `inflight`
    | Fetched(audio: string)  // audio ready (a data URL)
    | Failed                  // the request threw; its playback step finishes at once

  function CountFetching(fs: seq<Fetch>): nat {
    if fs == [] then 0 else (if fs[0] == Fetching then 1 else 0) + CountFetching(fs[1..])
  }

  lemma {:induction false} CountFetchingAppend(fs: seq<Fetch>, f: Fetch)
    ensures CountFetching(fs + [f]) == CountFetching(fs) + (if f == Fetching then 1 else 0)
  {
    if fs != [] {
      assert (fs + [f])[1..] == fs[1..] + [f];
      CountFetchingAppend(fs[1..], f);
    }
  }

  lemma {:induction false} CountFetchingUpdate(fs: seq<Fetch>, k: nat, f: Fetch)
    requires k < |fs|
    ensures CountFetching(fs[k := f])
      == CountFetching(fs) - (if fs[k] == Fetching then 1 else 0) + (if f == Fetching then 1 else 0)
  {
    if k > 0 {
      assert fs[k := f][1..] == fs[1..][k - 1 := f];
      CountFetchingUpdate(fs[1..], k - 1, f);
    }
  }

  class SentenceSpeaker {
    /** The sentence of each request, in the order `speakSentence` accepted them. */
    var texts: seq<string>
    var fetch: seq<Fetch>
    /** The `queue` ref: requests not yet taken for playback, oldest first. */
    var queue: seq<nat>
    /** The `playing` ref. */
    var playing: bool
    /** The request whose audio is being awaited or played while `playing`. */
    var current: Option<nat>
    /** The `inflight` ref. */
    var inflight: nat
    /** How many requests have been taken off the queue. */
    ghost var taken: nat

    /** Everything but the rule that an idle speaker has nothing queued. */
    ghost predicate Core()
      reads this
    {
      && |fetch| == |texts|
      && taken + |queue| == |texts|
      && (forall k :: 0 <= k < |queue| ==> queue[k] == taken + k)
      && (playing <==> current.Some?)
      && (current.Some? ==> current.value + 1 == taken)
      && inflight == CountFetching(fetch)
      && inflight <= MaxParallel
    }

    /**
     * The queue holds the newest requests in order after those taken; at most
     * one request plays, the last one taken; `inflight` counts exactly the
     * admitted requests and never exceeds `MaxParallel`; nothing waits in the
     * queue while the speaker is idle.
     */
    ghost predicate Valid()
      reads this
    {
      Core() && (!playing ==> queue == [])
    }

    constructor ()
      ensures Valid() && texts == [] && !playing && inflight == 0
    {
      texts, fetch, queue := [], [], [];
      playing, current, inflight := false, None, 0;
      taken := 0;
    }

    /** `maybePlayNext`: when idle, take the oldest queued request and play it. */
    method PlayNext()
      requires Core()
      modifies this
      ensures Valid()
      ensures texts == old(texts) && fetch == old(fetch) && inflight == old(inflight)
      ensures old(playing) || old(queue) == [] ==> playing == old(playing) && current == old(current) && queue == old(queue)
      ensures !old(playing) && old(queue) != [] ==>
        playing && current == Some(old(queue)[0]) && queue == old(queue)[1..] && current == Some(old(taken))
    {
      if playing || queue == [] {
        return;
      }
      playing := true;
      current := Some(queue[0]);
      queue := queue[1..];
      taken := taken + 1;
    }

    /**
     * `speakSentence`: a blank sentence is ignored; otherwise a request is
     * created (admitted at once when a slot is free), queued last, and played
     * if the speaker is idle.
     */
    method Speak(text: string)
      requires Valid()
      modifies this
      ensures Valid()
      ensures Trim(Js, text) == "" ==>
        && texts == old(texts) && fetch == old(fetch) && queue == old(queue)
        && playing == old(playing) && current == old(current) && inflight == old(inflight)
      ensures Trim(Js, text) != "" ==>
        && texts == old(texts) + [text]
        && fetch == old(fetch) + [if old(inflight) < MaxParallel then Fetching else Polling]
        && inflight == old(inflight) + (if old(inflight) < MaxParallel then 1 else 0)
      ensures Trim(Js, text) != "" && old(playing) ==>
        playing && current == old(current) && queue == old(queue) + [|old(texts)|]
      ensures Trim(Js, text) != "" && !old(playing) ==>
        playing && current == Some(|old(texts)|) && queue == []
    {
      if Trim(Js, text) == "" {
        return;
      }
      var admitted := inflight < MaxParallel;
      CountFetchingAppend(fetch, if admitted then Fetching else Polling);
      fetch := fetch + [if admitted then Fetching else Polling];
      if admitted {
        inflight := inflight + 1;
      }
      queue := queue + [|texts|];
      texts := texts + [text];
      PlayNext();
    }

    /** One turn of a waiting request's 200 ms poll: it is admitted when a slot is free. */
    method Poll(k: nat)
      requires Valid() && k < |fetch| && fetch[k] == Polling
      modifies this
      ensures Valid()
      ensures texts == old(texts) && queue == old(queue) && playing == old(playing) && current == old(current)
      ensures old(inflight) < MaxParallel ==> fetch == old(fetch)[k := Fetching] && inflight == old(inflight) + 1
      ensures old(inflight) >= MaxParallel ==> fetch == old(fetch) && inflight == old(inflight)
    {
      if inflight < MaxParallel {
        CountFetchingUpdate(fetch, k, Fetching);
        fetch := fetch[k := Fetching];
        inflight := inflight + 1;
      }
    }

    /** An admitted request settles (its `finally` frees the slot): with audio, or failed. */
    method FetchDone(k: nat, audio: Option<string>)
      requires Valid() && k < |fetch| && fetch[k] == Fetching
      modifies this
      ensures Valid()
      ensures texts == old(texts) && queue == old(queue) && playing == old(playing) && current == old(current)
      ensures fetch == old(fetch)[k := if audio.Some? then Fetched(audio.value) else Failed]
      ensures inflight == old(inflight) - 1
    {
      var f := if audio.Some? then Fetched(audio.value) else Failed;
      CountFetchingUpdate(fetch, k, f);
      fetch := fetch[k := f];
      inflight := inflight - 1;
    }

    /**
     * The playing request is done: its audio ended, playing it failed, or its
     * fetch failed. The speaker then plays the next queued request, in order.
     */
    method PlaybackDone()
      requires Valid() && playing
      requires current.value < |fetch| && (fetch[current.value].Fetched? || fetch[current.value] == Failed)
      modifies this
      ensures Valid()
      ensures texts == old(texts) && fetch == old(fetch) && inflight == old(inflight)
      ensures old(queue) == [] ==> !playing && queue == []
      ensures old(queue) != [] ==> playing && current == Some(old(current).value + 1) && queue == old(queue)[1..]
    {
      playing := false;
      current := None;
      PlayNext();
    }
  }
}
