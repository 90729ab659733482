/**
 * Lazy, the background redialer: its loop, the dial goroutine of each attempt, the reaper of an abandoned dial and any
 * number of Close calls, interleaved one atomic action at a time. Every client a dial returns is owned exactly once.
 */
module Lazy {
  import opened Base

  type ClientId = nat // numbered in the order their dials succeed

  datatype Outcome = Connected(c: ClientId) | Refused

  datatype Dial = InFlight | Landed(r: Outcome) | Taken

  datatype Loop = Dialing | Selecting | Pacing | Leaving | Gone

  datatype Caller = Stopping | Waiting | Returned

  /** One action of somebody; `first` picks the stop case when a select has more than one case ready. */
  datatype Action =
    | LandCurrent(ok: bool)
    | LandOrphan(ok: bool)
    | LoopStep(first: bool)
    | Reap
    | CloseStep(caller: nat)

  class Redialer {
    var client: Option<ClientId>
    var stop: bool
    var done: bool
    var loop: Loop
    var dial: Dial
    var orphan: Option<Dial>
    var callers: map<nat, Caller>
    var dialled: nat
    var closes: map<ClientId, nat> // how often each client was closed (history)
    var timers: nat // how often the pacing timer beat a closed stop channel (history)

    /** The client a dial has left in its channel. */
    static function Inside(d: Dial): Option<ClientId> {
      if d.Landed? && d.r.Connected? then Some(d.r.c) else None
    }

    function Orphaned(): Option<ClientId>
      reads this
    {
      if orphan.Some? then Inside(orphan.value) else None
    }

    /** Each client sits in exactly one of the three places and is open, or sits in none and was closed once. */
    ghost predicate Owned()
      reads this
    {
      && (forall c :: c in closes ==> c < dialled && closes[c] == 1)
      && (forall c: nat :: c < dialled ==>
        c in closes || client == Some(c) || Inside(dial) == Some(c) || Orphaned() == Some(c))
      && (client.Some? ==>
        client.value < dialled && client.value !in closes && client != Inside(dial) && client != Orphaned())
      && (Inside(dial).Some? ==>
        Inside(dial).value < dialled && Inside(dial).value !in closes && Inside(dial) != Orphaned())
      && (Orphaned().Some? ==> Orphaned().value < dialled && Orphaned().value !in closes)
    }

    ghost predicate Valid()
      reads this
    {
      && Owned()
      && (done <==> loop == Gone)
      && (loop == Selecting <==> dial != Taken)
      && (orphan.Some? || client.Some? ==> loop == Leaving || loop == Gone)
      && (forall k :: k in callers && callers[k] != Stopping ==> stop)
      && (forall k :: k in callers && callers[k] == Returned ==> done && client.None?)
    }

    /** Nothing is connected yet; the loop is about to dial. */
    constructor ()
      ensures Valid() && dialled == 0 && callers == map[] && !done
    {
      client, stop, done, loop, dial, orphan := None, false, false, Dialing, Taken, None;
      callers, dialled, closes, timers := map[], 0, map[], 0;
    }

    /** The startup dial succeeded: no loop runs. */
    constructor Seeded()
      ensures Valid() && dialled == 1 && client == Some(0) && callers == map[]
    {
      client, stop, done, loop, dial, orphan := Some(0), false, true, Gone, Taken, None;
      callers, dialled, closes, timers := map[], 1, map[], 0;
    }

    /** What a notifier call gets to use. */
    method Current() returns (c: Option<ClientId>)
      requires Valid()
      ensures c == client && (c.Some? ==> c.value < dialled && c.value !in closes)
      ensures (exists k :: k in callers && callers[k] == Returned) ==> c.None?
    {
      c := client;
    }

    method CloseClient(c: ClientId)
      modifies this`closes
      ensures closes == old(closes)[c := if c in old(closes) then old(closes)[c] + 1 else 1]
    {
      closes := closes[c := if c in closes then closes[c] + 1 else 1];
    }

    /** A dial returns into its own channel. */
    method Land(current: bool, ok: bool)
      requires Valid()
      modifies this`dial, this`orphan, this`dialled
      ensures Valid() && old(dialled) <= dialled
      ensures current && ok && old(dial) == InFlight ==> dial == Landed(Connected(old(dialled)))
    {
      var r := if ok then Connected(dialled) else Refused;
      if current && dial == InFlight {
        dial := Landed(r);
        if ok { dialled := dialled + 1; }
      } else if !current && orphan == Some(InFlight) {
        orphan := Some(Landed(r));
        if ok { dialled := dialled + 1; }
      }
    }

    /** How many actions the loop is from gone, once stop is closed and as long as no pacing timer beats it. */
    function Distance(): nat
      reads `loop
    {
      match loop
      case Dialing => 4
      case Selecting => 3
      case Pacing => 2
      case Leaving => 1
      case Gone => 0
    }

    /** The next action of the redial loop; a select takes any of its ready cases, and blocks if it has none. */
    method Redial(first: bool)
      requires Valid()
      modifies this`loop, this`dial, this`orphan, this`client, this`done, this`timers
      ensures Valid() && (old(done) ==> done && client == old(client))
      ensures old(loop) == Selecting && old(dial).Landed? && !(stop && first) ==>
        if old(dial).r.Connected? then client == Some(old(dial).r.c) && loop == Leaving else loop == Pacing
      ensures stop ==>
        if timers == old(timers) then Distance() < old(Distance()) || done
        else timers == old(timers) + 1 && Distance() <= old(Distance()) + 2 && old(loop) == Pacing && !first
    {
      match loop {
        case Dialing => dial, loop := InFlight, Selecting;
        case Selecting =>
          if stop && (first || dial == InFlight) {
            orphan, dial, loop := Some(dial), Taken, Leaving;
          } else if dial.Landed? {
            var r := dial.r;
            dial := Taken;
            if r.Connected? {
              client, loop := Some(r.c), Leaving;
            } else {
              loop := Pacing;
            }
          }
        case Pacing =>
          if stop && first {
            loop := Leaving;
          } else {
            if stop { timers := timers + 1; }
            loop := Dialing;
          }
        case Leaving => done, loop := true, Gone;
        case Gone =>
      }
    }

    /** The reaper of a dial nobody waits for any more. */
    method ReapOrphan()
      requires Valid()
      modifies this`orphan, this`closes
      ensures Valid()
    {
      if orphan.Some? && orphan.value.Landed? {
        var r := orphan.value.r;
        orphan := Some(Taken);
        if r.Connected? { CloseClient(r.c); }
      }
    }

    /** Close: stop the loop, wait for it, then close what it installed; safe any number of times. */
    method CloseCall(k: nat)
      requires Valid()
      modifies this`stop, this`callers, this`client, this`closes
      ensures Valid() && (client == old(client) || client.None?) && (old(stop) || k !in old(callers) ==> stop)
      ensures forall j :: j in old(callers) && old(callers)[j] == Returned ==> j in callers && callers[j] == Returned
    {
      if k !in callers {
        stop := true;
        callers := callers[k := Waiting];
      } else if callers[k] == Waiting && done {
        if client.Some? {
          CloseClient(client.value);
          client := None;
        }
        callers := callers[k := Returned];
      }
    }

    method Act(a: Action)
      requires Valid()
      modifies this
      ensures Valid() && (old(stop) ==> stop) && (old(done) ==> done)
      ensures forall k :: k in old(callers) && old(callers)[k] == Returned ==> k in callers && callers[k] == Returned
      ensures !a.LoopStep? ==> Distance() == old(Distance()) && timers == old(timers) && done == old(done)
      ensures a.LoopStep? && old(stop) ==>
        if timers == old(timers) then Distance() < old(Distance()) || done
        else timers == old(timers) + 1 && Distance() <= old(Distance()) + 2
    {
      match a {
        case LandCurrent(ok) => Land(true, ok);
        case LandOrphan(ok) => Land(false, ok);
        case LoopStep(first) => Redial(first);
        case Reap => ReapOrphan();
        case CloseStep(k) => CloseCall(k);
      }
    }

    /**
     * Any interleaving: no client is ever closed twice or usable after a Close returned, and once the loop, the reaper
     * and a Close are through, every client that was ever connected has been closed exactly once.
     */
    method Interleave(actions: seq<Action>)
      requires Valid()
      modifies this
      ensures Valid()
      ensures forall c :: c in closes ==> c < dialled && closes[c] == 1 && client != Some(c)
      ensures (exists k :: k in old(callers) && old(callers)[k] == Returned) ==> client.None?
      ensures (exists k :: k in callers && callers[k] == Returned) && (orphan.None? || orphan == Some(Taken)) ==>
        forall c: nat :: c < dialled ==> c in closes && closes[c] == 1
    {
      for n := 0 to |actions|
        invariant Valid()
        invariant forall k :: k in old(callers) && old(callers)[k] == Returned ==>
          k in callers && callers[k] == Returned
      {
        Act(actions[n]);
      }
    }

    /**
     * Close never waits on a dial: once stop is closed, and whatever dials do, however selects choose and whoever else
     * acts in between, the loop is gone after four of its own actions, three more for each time its pacing timer wins
     * the select against the closed stop channel.
     */
    method LoopLeaves(actions: seq<Action>)
      requires Valid() && stop
      modifies this
      ensures Valid() && stop && old(timers) <= timers
      ensures done || LoopSteps(actions) < 4 + 3 * (timers - old(timers))
    {
      ghost var start := Distance();
      for n := 0 to |actions|
        invariant Valid() && stop && old(timers) <= timers
        invariant start <= 4 && (done || LoopSteps(actions[..n]) + Distance() <= start + 3 * (timers - old(timers)))
      {
        assert actions[..n + 1][..n] == actions[..n];
        Act(actions[n]);
      }
      assert actions[..|actions|] == actions;
    }
  }

  function LoopSteps(actions: seq<Action>): nat {
    if actions == [] then 0
    else LoopSteps(actions[..|actions| - 1]) + if actions[|actions| - 1].LoopStep? then 1 else 0
  }
}
