/**
 * The state every behaviour shares: its output signal, the input signals it
 * reads, its event mailbox, the freshness threshold and the start and end
 * times of its last run.
 */
module Behaviours {
  import opened Base
  import opened Events
  import opened Signals

  /** How far, in nanoseconds, an input may lag the output before a behaviour is not ready. */
  const DefaultDeltaThreshold := 100000

  class Behaviour {
    const name: string
    var lastStartTime: int
    var lastEndTime: int
    var signal: Signal
    var inputs: seq<Signal>
    const mailbox: Mailbox
    var deltaThreshold: int

    /** Behaviour(name, signal), both clock readings taken as `now`. */
    constructor (name: string, signal: Signal, now: int)
      ensures this.name == name && this.signal == signal
      ensures inputs == [] && deltaThreshold == DefaultDeltaThreshold
      ensures fresh(mailbox) && mailbox.events == []
      ensures lastStartTime == now && lastEndTime == now && LastRunTime() == 0
    {
      this.name := name;
      lastStartTime := now;
      lastEndTime := now;
      this.signal := signal;
      inputs := [];
      mailbox := new Mailbox();
      deltaThreshold := DefaultDeltaThreshold;
    }

    method AddInput(input: Signal)
      modifies this
      ensures inputs == old(inputs) + [input]
      ensures signal == old(signal) && deltaThreshold == old(deltaThreshold)
      ensures lastStartTime == old(lastStartTime) && lastEndTime == old(lastEndTime)
    {
      inputs := inputs + [input];
    }

    method AddInputs(more: seq<Signal>)
      modifies this
      ensures inputs == old(inputs) + more
      ensures signal == old(signal) && deltaThreshold == old(deltaThreshold)
      ensures lastStartTime == old(lastStartTime) && lastEndTime == old(lastEndTime)
    {
      inputs := inputs + more;
    }

    /** setSignal: installs `s` and hands back the signal it replaces. */
    method SetSignal(s: Signal) returns (previous: Signal)
      modifies this
      ensures previous == old(signal) && signal == s
      ensures inputs == old(inputs) && deltaThreshold == old(deltaThreshold)
      ensures lastStartTime == old(lastStartTime) && lastEndTime == old(lastEndTime)
    {
      previous := signal;
      signal := s;
    }

    /** handleEvent: the event is queued in the mailbox. */
    method HandleEvent(e: Event)
      modifies mailbox
      ensures mailbox.events == old(mailbox.events) + [e]
    {
      mailbox.HandleEvent(e);
    }

    /** The first half of call(): the start time is recorded before doRun. */
    method BeginRun(now: int)
      modifies this
      ensures lastStartTime == now && lastEndTime == old(lastEndTime)
      ensures signal == old(signal) && inputs == old(inputs) && deltaThreshold == old(deltaThreshold)
    {
      lastStartTime := now;
    }

    /** The second half of call(): the end time is recorded after doRun. */
    method EndRun(now: int)
      modifies this
      ensures lastEndTime == now && lastStartTime == old(lastStartTime)
      ensures signal == old(signal) && inputs == old(inputs) && deltaThreshold == old(deltaThreshold)
      ensures LastRunTime() == now - lastStartTime
    {
      lastEndTime := now;
    }

    /** getLastRunTime: how long the last run took. */
    function LastRunTime(): int
      reads this
    {
      lastEndTime - lastStartTime
    }

    /** No input lags the output signal by more than the threshold. */
    ghost predicate Ready()
      reads this, signal, inputs
    {
      forall i :: 0 <= i < |inputs| ==> signal.timeStamp - inputs[i].timeStamp <= deltaThreshold
    }

    /** isReady: scans the inputs in order and answers false at the first stale one. */
    method IsReady() returns (r: bool)
      ensures r <==> Ready()
      ensures !r ==> exists i :: 0 <= i < |inputs| && signal.timeStamp - inputs[i].timeStamp > deltaThreshold
    {
      var k := 0;
      while k < |inputs|
        invariant 0 <= k <= |inputs|
        invariant forall i :: 0 <= i < k ==> signal.timeStamp - inputs[i].timeStamp <= deltaThreshold
      {
        if signal.timeStamp - inputs[k].timeStamp > deltaThreshold {
          return false;
        }
        k := k + 1;
      }
      return true;
    }
  }

  /** The NEW_BEHAVIOUR announcements for the behaviours `made`, in order. */
  function Births(made: seq<object>, now: int): (r: seq<Event>)
    ensures |r| == |made|
    ensures forall i :: 0 <= i < |made| ==> r[i] == Event(made[i], Generic(NewBehaviour), Targetted, now)
  {
    if made == [] then [] else Births(made[..|made| - 1], now) + [Event(made[|made| - 1], Generic(NewBehaviour), Targetted, now)]
  }

  /** Every mailbox of `audience` holds what it held at `base` followed by the announcements of `made`. */
  ghost predicate Announced(audience: set<Mailbox>, base: map<Mailbox, seq<Event>>, made: seq<object>, now: int)
    reads audience
  {
    forall m :: m in audience ==> m in base && m.events == base[m] + Births(made, now)
  }
}
