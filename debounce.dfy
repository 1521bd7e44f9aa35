/**
 * The client's leading-edge `debounce`: the first call runs at once and arms a
 * timer; calls made while the timer is pending are dropped; the timer's expiry
 * disarms it. Time is an explicit `Expire` event.
 */
module Debounce {

  /** What happens to the debounced function: it is called, or the pending timer fires. */
  datatype Event = Call(arg: string) | Expire

  /** The arguments the wrapped function actually runs with, for events met with the timer `pending` or not. */
  function Fired(events: seq<Event>, pending: bool): seq<string> {
    if events == [] then []
    else match events[0]
      case Call(a) => if pending then Fired(events[1..], true) else [a] + Fired(events[1..], true)
      case Expire => Fired(events[1..], false)
  }

  /** Whether the timer is pending after the events. */
  function PendingAfter(events: seq<Event>, pending: bool): bool {
    if events == [] then pending
    else match events[0]
      case Call(_) => PendingAfter(events[1..], true)
      case Expire => PendingAfter(events[1..], false)
  }

  function Expiries(events: seq<Event>): nat {
    if events == [] then 0 else (if events[0] == Expire then 1 else 0) + Expiries(events[1..])
  }

  /**
   * At most one call goes through per timer window: the calls that run are at
   * most one more than the expiries (none more when the timer starts pending).
   */
  lemma {:induction false} FiredAtMostOncePerWindow(events: seq<Event>, pending: bool)
    ensures |Fired(events, pending)| <= Expiries(events) + (if pending then 0 else 1)
  {
    if events != [] {
      match events[0]
      case Call(a) =>
        FiredAtMostOncePerWindow(events[1..], true);
      case Expire =>
        FiredAtMostOncePerWindow(events[1..], false);
    }
  }

  /** Events split anywhere: the second part starts from the timer state the first part leaves. */
  lemma {:induction false} FiredAppend(events: seq<Event>, e: Event, pending: bool)
    ensures Fired(events + [e], pending) == Fired(events, pending) + Fired([e], PendingAfter(events, pending))
    ensures PendingAfter(events + [e], pending) == PendingAfter([e], PendingAfter(events, pending))
  {
    if events == [] {
      assert [e][1..] == [];
      assert events + [e] == [e];
    } else {
      assert (events + [e])[1..] == events[1..] + [e];
      match events[0]
      case Call(a) => FiredAppend(events[1..], e, true);
      case Expire => FiredAppend(events[1..], e, false);
    }
  }

  /** With the timer idle, the first call always runs, with its own argument. */
  lemma FirstCallRuns(a: string, rest: seq<Event>)
    ensures Fired([Call(a)] + rest, false) == [a] + Fired(rest, true)
  {
    assert ([Call(a)] + rest)[1..] == rest;
  }

  /** Every call that runs was made: what runs is a subsequence of the arguments given. */
  lemma {:induction false} FiredAreCalled(events: seq<Event>, pending: bool, k: nat)
    requires k < |Fired(events, pending)|
    ensures exists j :: 0 <= j < |events| && events[j] == Call(Fired(events, pending)[k])
  {
    match events[0]
    case Call(a) =>
      if pending {
        FiredAreCalled(events[1..], true, k);
        var j :| 0 <= j < |events[1..]| && events[1..][j] == Call(Fired(events[1..], true)[k]);
        assert events[j + 1] == events[1..][j];
      } else if k > 0 {
        FiredAreCalled(events[1..], true, k - 1);
        var j :| 0 <= j < |events[1..]| && events[1..][j] == Call(Fired(events[1..], true)[k - 1]);
        assert events[j + 1] == events[1..][j];
      } else {
        assert events[0] == Call(Fired(events, pending)[0]);
      }
    case Expire =>
      FiredAreCalled(events[1..], false, k);
      var j :| 0 <= j < |events[1..]| && events[1..][j] == Call(Fired(events[1..], false)[k]);
      assert events[j + 1] == events[1..][j];
  }

  /** The closure `debounce` returns, with its `timer` variable; `runs` records the calls of the wrapped function. */
  class Debouncer {
    var timerPending: bool
    var runs: seq<string>

    constructor ()
      ensures !timerPending && runs == []
    {
      timerPending := false;
      runs := [];
    }

    /** A call of the debounced function: it runs only when no timer is pending, and arms the timer. */
    method Call(arg: string) returns (ran: bool)
      modifies this
      ensures ran == !old(timerPending)
      ensures runs == old(runs) + (if ran then [arg] else [])
      ensures timerPending
    {
      if timerPending {
        return false;
      }
      runs := runs + [arg];
      timerPending := true;
      return true;
    }

    /** The timer fires and clears itself. */
    method Expire()
      modifies this
      ensures !timerPending && runs == old(runs)
    {
      timerPending := false;
    }

    /** A run of events on the closure does what `Fired` says. */
    method Run(events: seq<Event>)
      modifies this
      ensures runs == old(runs) + Fired(events, old(timerPending))
      ensures timerPending == PendingAfter(events, old(timerPending))
    {
      var i := 0;
      while i < |events|
        invariant i <= |events|
        invariant old(runs) + Fired(events, old(timerPending)) == runs + Fired(events[i..], timerPending)
        invariant PendingAfter(events, old(timerPending)) == PendingAfter(events[i..], timerPending)
      {
        assert events[i..][1..] == events[i + 1..];
        match events[i] {
          case Call(a) =>
            var _ := Call(a);
          case Expire =>
            Expire();
        }
        i := i + 1;
      }
    }
  }
}
