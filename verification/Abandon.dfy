/**
 * AbandonedCheckoutWorkflow and ExpireDue as the loops they are, over any script of signals, interleaved actions and
 * statement outcomes. Every command they issue is recorded as the matching move of the watch machine.
 */
module Abandon {
  import opened Base
  import opened Domain
  import opened Store
  import opened Protocol
  import opened Repository
  import opened Theorems
  import opened Watch

  datatype Fired = FFinalize | FActivity | FTimer | FNothing | FStopped

  /** One attempt of the activity. */
  datatype Attempt = Erred | Stopped | Expired | Departed | NotDue(remaining: Time)

  datatype Exit = Ended | ContinueAsNew | StillWatching

  class Workflow {
    const repo: SessionRepository
    const sid: SessionId
    const ttl: nat
    var s: State
    var acts: nat
    var fins: nat
    var script: seq<Move>
    ghost const start: Watch
    ghost var w: Watch
    ghost var trace: seq<Move>

    ghost predicate Valid()
      reads this, repo
    {
      && w == Moves(start, trace) && w.s == s && repo.View() == s.db && w.sid == sid && w.ttl == ttl && s.takeover > 0
      && (!w.stage.Over? ==> acts == w.acts && fins == w.fins)
    }

    constructor (begun: Watch, script: seq<Move>)
      requires begun.stage.Waiting? && begun.s.takeover > 0
      ensures Valid() && w == begun && start == begun && trace == [] && this.script == script && fresh(repo)
    {
      sid, ttl, s, acts, fins := begun.sid, begun.ttl, begun.s, begun.acts, begun.fins;
      this.script, start, w, trace := script, begun, begun, [];
      repo := new SessionRepository(begun.s.db);
    }

    /** Blocks until the workflow's next turn, while signals are buffered and everybody else acts. */
    method Hear() returns (woken: Option<Ack>)
      requires Valid() && !w.stage.Over?
      modifies this, repo
      ensures Valid() && w.stage == old(w.stage) && w.until == old(w.until) && w.resets == old(w.resets)
      ensures if woken.Some? then |script| < old(|script|) else script == []
    {
      woken := None;
      while script != [] && woken.None?
        invariant Valid() && w.stage == old(w.stage) && w.until == old(w.until) && w.resets == old(w.resets)
        invariant if woken.Some? then |script| < old(|script|) else |script| <= old(|script|)
        decreases |script|
      {
        var move := script[0];
        script := script[1..];
        match move {
          case Wake(ack) => woken := Some(ack);
          case Activity => acts := acts + 1; Record(move);
          case Finalize =>
            if sid in s.db.sessions && Terminal(s.db.sessions[sid].status) { fins := fins + 1; }
            Record(move);
          case Sys(ev) =>
            TakeoverFixed(s, ev);
            s := Next(s, ev);
            repo.Load(s.db);
            Record(move);
        }
      }
    }

    ghost method Record(m: Move)
      requires w == Moves(start, trace)
      modifies this`w, this`trace
      ensures w == Move1(old(w), m) && w == Moves(start, trace)
    {
      assert (trace + [m])[..|trace|] == trace;
      w, trace := Move1(w, m), trace + [m];
    }

    /** Arms the timer and names the event that ended the wait; buffered signals win over the timer. */
    method AwaitNext(until: Time) returns (fired: Fired)
      requires Valid() && w.stage == Waiting && w.until == until
      modifies this, repo
      ensures Valid() && (if fired == FStopped then script == [] else |script| < old(|script|))
      ensures match fired
        case FFinalize => w.stage == Over(Finalized)
        case FActivity =>
          && w.resets == old(w.resets) + 1
          && (if w.resets >= MAX_RESETS then w.stage == Rotating else w.stage == Waiting && w.until == s.db.now + ttl)
        case FTimer => w.stage == Due && w.resets == old(w.resets)
        case FNothing => w.stage == Waiting && w.until == s.db.now + ClampRearm(until - s.db.now)
          && w.resets == old(w.resets)
        case FStopped => w.stage == Waiting && w.until == until && w.resets == old(w.resets)
    {
      var woken := Hear();
      if woken.None? { return FStopped; }
      if fins > 0 {
        fins, fired := fins - 1, FFinalize;
      } else if acts > 0 {
        acts, fired := acts - 1, FActivity;
      } else if s.db.now >= until {
        fired := FTimer;
      } else {
        fired := FNothing;
      }
      Record(Wake(woken.value));
    }

    /** Empties both channels; true if a finalize was among them. */
    method Drain() returns (finalized: bool)
      modifies this`acts, this`fins
      ensures acts == 0 && fins == 0 && finalized == (old(fins) > 0)
    {
      finalized := false;
      while acts > 0
        invariant fins == old(fins)
      {
        acts := acts - 1;
      }
      while fins > 0
        invariant acts == 0 && fins <= old(fins) && finalized == (fins < old(fins))
      {
        finalized, fins := true, fins - 1;
      }
    }

    /** At the reset cap: a buffered finalize completes the run, otherwise it continues as new. */
    method RotateAtCap() returns (exit: Exit)
      requires Valid() && w.stage == Rotating
      modifies this, repo
      ensures Valid() && |script| <= old(|script|)
      ensures match exit
        case Ended => w.stage == Over(Finalized) && acts == 0 && fins == 0
        case ContinueAsNew => w.stage == Waiting && w.until == s.db.now + ttl && w.resets == 0 && acts == 0 && fins == 0
        case StillWatching => w.stage == Rotating && script == []
    {
      var woken := Hear();
      if woken.None? { return StillWatching; }
      var finalized := Drain();
      Record(Wake(woken.value));
      exit := if finalized then Ended else ContinueAsNew;
    }

    /** One UPDATE of ExpireDue. */
    method Expire(parked: bool) returns (outcome: Result<Outcome, Option<()>>)
      requires Valid() && w.stage == if parked then Parked else Due
      modifies this, repo
      ensures Valid() && w.resets == old(w.resets)
      ensures match outcome
        case Failure(None) => script == [] && w.stage == old(w.stage)
        case Failure(Some(_)) => |script| < old(|script|) && w.stage == Due
        case Success(out) =>
          |script| < old(|script|) && w.stage == if out == Applied then Over(ExpiredIt) else if parked then Looking
            else Parked
    {
      var woken := Hear();
      if woken.None? { return Failure(None); }
      var ack := woken.value;
      outcome := Failure(Some(()));
      if ack == Good || ack == Lost {
        var out;
        if parked { out := repo.ExpireParked(sid, s.takeover); } else { out := repo.ExpireTimer(sid); }
        s := s.(db := repo.View());
        if ack == Good { outcome := Success(out); }
      }
      UpdateMoves(w, ack);
      Record(Wake(ack));
    }

    /** Neither UPDATE hit: find out why. */
    method LookBack() returns (attempt: Attempt)
      requires Valid() && w.stage == Looking
      modifies this, repo
      ensures Valid() && w.resets == old(w.resets) && Reports(attempt, old(|script|))
    {
      var woken := Hear();
      if woken.None? { return Stopped; }
      if woken.value != Good {
        Record(Wake(woken.value));
        return Erred;
      }
      if sid !in repo.sessions || repo.sessions[sid].status in {Completed, Cancelled, Status.Expired} {
        Record(Wake(Good));
        return Departed;
      }
      var row := repo.sessions[sid];
      Record(Wake(Good));
      if row.status == Confirming {
        attempt := ReadBinding();
        return;
      }
      var remaining := row.expiresAt - s.db.now;
      if remaining <= 0 { remaining := RETRY_WAIT; }
      attempt := NotDue(remaining);
    }

    method ReadBinding() returns (attempt: Attempt)
      requires Valid() && w.stage.Binding?
      modifies this, repo
      ensures Valid() && w.resets == old(w.resets) && Reports(attempt, old(|script|))
    {
      var woken := Hear();
      if woken.None? { return Stopped; }
      Record(Wake(woken.value));
      if woken.value != Good { return Erred; }
      if sid !in repo.sessions { return Departed; }
      var key := repo.sessions[sid].confirmKey;
      if key.None? || key.value !in repo.claims { return Departed; }
      if repo.claims[key.value].subject.Some? || repo.claims[key.value].response.Some? { return Departed; }
      attempt := NotDue(s.takeover);
    }

    /** What an attempt's answer means for the watch. */
    ghost predicate Reports(attempt: Attempt, before: nat)
      reads this
    {
      && (attempt == Stopped || |script| < before)
      && match attempt
         case Erred => w.stage == Due
         case Stopped => script == [] && !w.stage.Over?
         case Expired => w.stage == Over(ExpiredIt)
         case Departed => w.stage == Over(Gone)
         case NotDue(remaining) => w.stage == Waiting && remaining > 0 && w.until == s.db.now + remaining
    }

    /** The activity: four statements, in order, each landing when it lands. */
    method ExpireDue() returns (attempt: Attempt)
      requires Valid() && w.stage == Due
      modifies this, repo
      ensures Valid() && w.resets == old(w.resets) && Reports(attempt, old(|script|))
    {
      var timer := Expire(false);
      if timer == Failure(None) { return Stopped; }
      if timer.Failure? { return Erred; }
      if timer.value == Applied { return Attempt.Expired; }
      var parked := Expire(true);
      if parked == Failure(None) { return Stopped; }
      if parked.Failure? { return Erred; }
      if parked.value == Applied { return Attempt.Expired; }
      attempt := LookBack();
    }

    /** Retries without limit; ends the watch or re-arms it. */
    method ExpireOnce() returns (rearm: Option<Time>, done: bool)
      requires Valid() && w.stage == Due
      modifies this, repo
      ensures Valid() && w.resets == old(w.resets)
      ensures done ==> w.stage.Over?
      ensures rearm.Some? ==>
        !done && rearm.value > 0 && w.stage == Waiting && w.until == s.db.now + rearm.value && |script| < old(|script|)
      ensures rearm.None? && !done ==> script == [] && !w.stage.Over?
    {
      var attempt := ExpireDue();
      while attempt == Erred
        invariant Valid() && w.resets == old(w.resets)
        invariant Reports(attempt, old(|script|))
        decreases |script|, attempt == Erred
      {
        attempt := ExpireDue();
      }
      match attempt {
        case Expired => return None, true;
        case Departed => return None, true;
        case NotDue(remaining) => return Some(remaining), false;
        case _ => return None, false;
      }
    }

    /**
     * One run of the workflow. It is a run of the watch machine; it consumes at most MAX_RESETS activity signals, and
     * it continues as new only with no finalize buffered.
     */
    method Run() returns (exit: Exit, resets: nat)
      requires Valid() && w.stage == Waiting && w.until == s.db.now + ttl && w.resets == 0
      modifies this, repo
      ensures Valid() && w == Moves(start, trace)
      ensures resets <= MAX_RESETS
      ensures match exit
        case Ended => w.stage.Over? && acts == 0 && fins == 0
        case ContinueAsNew => w.stage == Waiting && w.until == s.db.now + ttl && w.resets == 0 && fins == 0
          && resets == MAX_RESETS
        case StillWatching => script == [] && !w.stage.Over?
    {
      resets := 0;
      var wait := ttl as Time;
      while true
        invariant Valid() && w.stage == Waiting && w.until == s.db.now + wait && w.resets == resets < MAX_RESETS
        decreases |script|
      {
        var armedUntil := s.db.now + wait;
        var fired := AwaitNext(armedUntil);
        match fired {
          case FStopped => return StillWatching, resets;
          case FFinalize =>
            var _ := Drain();
            return Ended, resets;
          case FActivity =>
            resets := resets + 1;
            if resets >= MAX_RESETS {
              exit := RotateAtCap();
              return;
            }
            wait := ttl;
          case FTimer =>
            var rearm, done := ExpireOnce();
            if done {
              var _ := Drain();
              return Ended, resets;
            }
            if rearm.None? { return StillWatching, resets; }
            wait := rearm.value;
          case FNothing =>
            wait := ClampRearm(armedUntil - s.db.now);
        }
      }
    }
  }
}
