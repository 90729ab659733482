/**
 * The abandonment watch beside the protocol: a timer and signal loop against the database deadline. Signals arrive
 * in any number at any time or never; everything else the system does interleaves with every statement of ExpireDue.
 */
module Watch {
  import opened Base
  import opened Domain
  import opened Store
  import opened Protocol
  import opened Safety
  import opened Theorems
  import opened Quotes

  const MAX_RESETS: nat := 500
  const RETRY_WAIT: Time := 1_000

  datatype End = Finalized | ExpiredIt | Gone

  datatype Stage =
    | Waiting            // a timer is armed
    | Rotating           // the reset cap is reached: drain, then continue as new
    | Due                // ExpireDue: the deadline UPDATE
    | Parked             // ExpireDue: the parked-confirm UPDATE
    | Looking            // ExpireDue: SELECT status, expires_at
    | Binding(seen: nat) // ExpireDue: SELECT the claim binding; `seen` is the revision the status came from (history)
    | Over(end: End)

  /** One watch. `acts` and `fins` are the buffered signals; `sent` counts every finalize ever buffered (history). */
  datatype Watch = Watch(
    s: State, sid: SessionId, ttl: nat, stage: Stage, until: Time, acts: nat, fins: nat, resets: nat, sent: nat)

  datatype Move =
    | Sys(ev: Event)     // anybody else
    | Activity           // an activity signal is buffered
    | Finalize           // a finalize signal is buffered; it is sent only after the row was completed or cancelled
    | Wake(ack: Ack)     // the workflow's next command

  predicate RowTerminal(s: State, sid: SessionId) { sid in s.db.sessions && Terminal(s.db.sessions[sid].status) }

  function Arm(w: Watch, wait: Time): Watch { w.(stage := Waiting, until := w.s.db.now + wait) }

  function Stop(w: Watch, end: End): Watch { w.(stage := Over(end), acts := 0, fins := 0) }

  function ClampRearm(wait: Time): (r: Time)
    ensures r > 0 && (wait > 0 ==> r == wait)
  {
    if wait <= 0 then RETRY_WAIT else wait
  }

  /** The selector: signals first, then the timer, then a spurious wake. */
  function Select(w: Watch): Watch {
    if w.fins > 0 then Stop(w, Finalized)
    else if w.acts > 0 then
      var w' := w.(acts := w.acts - 1, resets := w.resets + 1);
      if w'.resets >= MAX_RESETS then w'.(stage := Rotating) else Arm(w', w.ttl)
    else if w.s.db.now >= w.until then w.(stage := Due)
    else Arm(w, ClampRearm(w.until - w.s.db.now))
  }

  /** Continue-As-New starts over, unless a finalize is buffered. */
  function Rotate(w: Watch): Watch {
    if w.fins > 0 then Stop(w, Finalized) else Arm(w.(acts := 0, resets := 0), w.ttl)
  }

  /** The two UPDATEs; an attempt that errs is retried from the first statement, whether it was applied or not. */
  function Update(w: Watch, st: Stmt, ack: Ack, miss: Stage): Watch {
    if ack == Failed || ack == Invalid then w.(stage := Due)
    else
      var w' := w.(s := Write(w.s, w.sid, st));
      if ack == Lost then w'.(stage := Due)
      else if OutcomeOf(w.s.db, w.sid, st) == Applied then Stop(w', ExpiredIt) else w'.(stage := miss)
  }

  function Look(w: Watch, ack: Ack): Watch {
    if ack != Good then w.(stage := Due)
    else if w.sid !in w.s.db.sessions then Stop(w, Gone)
    else
      var r := w.s.db.sessions[w.sid];
      if Terminal(r.status) then Stop(w, Gone)
      else if r.status == Confirming then w.(stage := Binding(r.version))
      else Arm(w, ClampRearm(r.expiresAt - w.s.db.now))
  }

  predicate Attempted(c: Claim) { c.subject.Some? || c.response.Some? }

  /** The join finds no row when the session lost its binding meanwhile. */
  function Judge(w: Watch, ack: Ack): Watch {
    if ack != Good then w.(stage := Due)
    else if w.sid !in w.s.db.sessions then Stop(w, Gone)
    else
      var key := w.s.db.sessions[w.sid].confirmKey;
      if key.None? || key.value !in w.s.db.claims then Stop(w, Gone)
      else if Attempted(w.s.db.claims[key.value]) then Stop(w, Gone)
      else Arm(w, w.s.takeover)
  }

  /** The workflow's next command. */
  function Command(w: Watch, ack: Ack): Watch {
    match w.stage
    case Waiting => Select(w)
    case Rotating => Rotate(w)
    case Due => Update(w, ExpireTimer, ack, Parked)
    case Parked => Update(w, ExpireParked(w.s.takeover), ack, Looking)
    case Looking => Look(w, ack)
    case Binding(_) => Judge(w, ack)
    case Over(_) => w
  }

  function Move1(w: Watch, m: Move): Watch {
    match m
    case Sys(ev) => w.(s := Next(w.s, ev))
    case Activity => if w.stage.Over? then w else w.(acts := w.acts + 1)
    case Finalize => if w.stage.Over? || !RowTerminal(w.s, w.sid) then w else w.(fins := w.fins + 1, sent := w.sent + 1)
    case Wake(ack) => Command(w, ack)
  }

  function Moves(w: Watch, ms: seq<Move>): Watch {
    if ms == [] then w else Move1(Moves(w, ms[..|ms| - 1]), ms[|ms| - 1])
  }

  /** A watch starts on any reachable state, with nothing buffered and its timer armed. */
  ghost predicate Starts(w: Watch) {
    CoreInv(w.s) && RowInv(w.s) && w.ttl > 0 && w.stage.Waiting? && w.until == w.s.db.now + w.ttl
    && w.acts == 0 && w.fins == 0 && w.resets == 0 && w.sent == 0
  }

  // ---- What every watch keeps ----

  /** The timer's writes are events of the protocol. */
  lemma WakeIsEvent(w: Watch, m: Move)
    ensures
      var s' := Move1(w, m).s;
      s' == w.s || s' == Next(w.s, FireTimer(w.sid)) || s' == Next(w.s, FireParked(w.sid))
        || (m.Sys? && s' == Next(w.s, m.ev))
  {
  }

  /** The watch's own record: no finalize is pending unaccounted, and the reset cap is respected. */
  predicate RecordInv(w: Watch) {
    && w.ttl > 0
    && (w.fins > 0 ==> RowTerminal(w.s, w.sid))
    && (!w.stage.Over? ==> w.fins == w.sent)
    && w.resets <= MAX_RESETS && (w.stage.Rotating? ==> w.resets == MAX_RESETS)
    && (w.resets == MAX_RESETS ==> w.stage.Rotating? || w.stage.Over?)
    && (w.stage.Binding? ==>
         && w.sid in w.s.db.sessions && w.stage.seen <= w.s.db.sessions[w.sid].version
         && (w.s.db.sessions[w.sid].version == w.stage.seen ==> w.s.db.sessions[w.sid].status == Confirming))
  }

  ghost predicate WatchInv(w: Watch) { CoreInv(w.s) && RowInv(w.s) && RecordInv(w) }

  /** A terminal row stays terminal, no row goes away, and an unrevised row is unchanged. */
  predicate RowOnward(s: State, s': State, sid: SessionId) {
    && (RowTerminal(s, sid) ==> RowTerminal(s', sid))
    && (sid in s.db.sessions ==>
         && sid in s'.db.sessions && s.db.sessions[sid].version <= s'.db.sessions[sid].version
         && (s'.db.sessions[sid].version == s.db.sessions[sid].version ==> s'.db.sessions[sid] == s.db.sessions[sid]))
  }

  ghost predicate Onward(s: State, s': State, sid: SessionId) { CoreInv(s') && RowInv(s') && RowOnward(s, s', sid) }

  lemma EventOnward(s: State, ev: Event, sid: SessionId)
    requires CoreInv(s) && RowInv(s)
    ensures Onward(s, Next(s, ev), sid)
  {
    CoreStep(s, ev);
    RowInvStep(s, ev);
    if sid in s.db.sessions {
      RowDelta(s, ev, sid);
      RowsStep(s, ev, sid);
    }
    if RowTerminal(s, sid) { TerminalFixed(s, ev, sid); }
  }

  lemma MoveOnward(w: Watch, m: Move)
    requires CoreInv(w.s) && RowInv(w.s)
    ensures Onward(w.s, Move1(w, m).s, w.sid)
  {
    WakeIsEvent(w, m);
    var s' := Move1(w, m).s;
    if s' == w.s {
    } else if m.Sys? {
      EventOnward(w.s, m.ev, w.sid);
    } else if s' == Next(w.s, FireTimer(w.sid)) {
      EventOnward(w.s, FireTimer(w.sid), w.sid);
    } else {
      EventOnward(w.s, FireParked(w.sid), w.sid);
    }
  }

  /** What the two UPDATEs of ExpireDue do to the watch, by what the database and the network make of them. */
  lemma UpdateMoves(w: Watch, ack: Ack)
    requires w.stage.Due? || w.stage.Parked?
    ensures
      var st := if w.stage.Due? then ExpireTimer else ExpireParked(w.s.takeover);
      var w' := Command(w, ack);
      && w'.s == (if ack == Good || ack == Lost then Write(w.s, w.sid, st) else w.s)
      && w'.resets == w.resets && w'.sid == w.sid && w'.ttl == w.ttl
      && w'.stage == (if ack != Good then Due else if OutcomeOf(w.s.db, w.sid, st) == Applied then Over(ExpiredIt)
                      else if w.stage.Due? then Parked else Looking)
      && (!w'.stage.Over? ==> w'.acts == w.acts && w'.fins == w.fins)
  {
  }

  lemma CommandKeeps(w: Watch, ack: Ack)
    requires RecordInv(w) && RowOnward(w.s, Command(w, ack).s, w.sid)
    ensures RecordInv(Command(w, ack))
  {
    if w.stage.Due? || w.stage.Parked? { UpdateMoves(w, ack); }
  }

  lemma RecordKeeps(w: Watch, m: Move)
    requires RecordInv(w) && RowOnward(w.s, Move1(w, m).s, w.sid)
    ensures RecordInv(Move1(w, m))
  {
    if m.Wake? { CommandKeeps(w, m.ack); }
  }

  lemma {:induction false} WatchRun(w0: Watch, ms: seq<Move>)
    requires Starts(w0)
    ensures WatchInv(Moves(w0, ms))
  {
    if ms != [] {
      WatchRun(w0, ms[..|ms| - 1]);
      MoveOnward(Moves(w0, ms[..|ms| - 1]), ms[|ms| - 1]);
      RecordKeeps(Moves(w0, ms[..|ms| - 1]), ms[|ms| - 1]);
    }
  }

  // ---- What each command does ----

  /** A buffered finalize ends the watch, then an activity re-arms the full timer, up to the cap, then the timer. */
  lemma SelectorChooses(w: Watch, ack: Ack)
    requires w.stage.Waiting?
    ensures Command(w, ack) ==
      if w.fins > 0 then w.(stage := Over(Finalized), acts := 0, fins := 0)
      else if w.acts > 0 && w.resets + 1 >= 500 then w.(stage := Rotating, acts := w.acts - 1, resets := w.resets + 1)
      else if w.acts > 0 then w.(until := w.s.db.now + w.ttl, acts := w.acts - 1, resets := w.resets + 1)
      else if w.until <= w.s.db.now then w.(stage := Due) else w
  {
  }

  /** At the cap a buffered finalize ends the watch; otherwise it starts over with nothing buffered. */
  lemma RotationChooses(w: Watch, ack: Ack)
    requires w.stage.Rotating?
    ensures Command(w, ack) ==
      if w.fins > 0 then w.(stage := Over(Finalized), acts := 0, fins := 0)
      else w.(stage := Waiting, until := w.s.db.now + w.ttl, acts := 0, resets := 0)
  {
  }

  /** A row still shopping re-arms to its deadline, or by a second if that has come; a confirming one is looked into. */
  lemma LookDecides(w: Watch)
    requires w.stage.Looking?
    ensures Command(w, Good) ==
      if w.sid !in w.s.db.sessions || w.s.db.sessions[w.sid].status in {Completed, Cancelled, Expired}
      then w.(stage := Over(Gone), acts := 0, fins := 0)
      else
        var r := w.s.db.sessions[w.sid];
        if r.status == Confirming then w.(stage := Binding(r.version))
        else w.(stage := Waiting, until := if r.expiresAt > w.s.db.now then r.expiresAt else w.s.db.now + 1_000)
  {
  }

  /** A bound claim that was never marked or answered is waited for by the takeover window; any other ends the watch. */
  lemma JudgeDecides(w: Watch)
    requires w.stage.Binding?
    ensures Command(w, Good) ==
      if w.sid in w.s.db.sessions && w.s.db.sessions[w.sid].confirmKey.Some?
        && w.s.db.sessions[w.sid].confirmKey.value in w.s.db.claims
        && w.s.db.claims[w.s.db.sessions[w.sid].confirmKey.value].subject.None?
        && w.s.db.claims[w.s.db.sessions[w.sid].confirmKey.value].response.None?
      then w.(stage := Waiting, until := w.s.db.now + w.s.takeover)
      else w.(stage := Over(Gone), acts := 0, fins := 0)
  {
  }

  /** A read that fails retries the activity from its first statement. */
  lemma FailedReadRetries(w: Watch, ack: Ack)
    requires (w.stage.Looking? || w.stage.Binding?) && ack != Good
    ensures Command(w, ack) == w.(stage := Due)
  {
  }

  /** Every signal is buffered while the watch goes on; a finalize exists only once the session is over. */
  lemma SignalsBuffer(w: Watch)
    requires !w.stage.Over?
    ensures Move1(w, Activity) == w.(acts := w.acts + 1)
    ensures Move1(w, Finalize) ==
      if w.sid in w.s.db.sessions && w.s.db.sessions[w.sid].status in {Completed, Cancelled, Expired}
      then w.(fins := w.fins + 1, sent := w.sent + 1) else w
  {
  }

  // ---- When a watch may end ----

  /** Rows the watch has no business with: terminal, absent, or confirming under an attempted claim. */
  predicate EndSafe(s: State, sid: SessionId) {
    || sid !in s.db.sessions || Terminal(s.db.sessions[sid].status)
    || (s.db.sessions[sid].status == Confirming && s.db.sessions[sid].confirmKey.Some?
        && s.db.sessions[sid].confirmKey.value in s.db.claims
          && Attempted(s.db.claims[s.db.sessions[sid].confirmKey.value]))
  }

  /** The row left confirming for a shopping state after its status was read and before its binding is. */
  predicate LeftConfirming(w: Watch) {
    w.stage.Binding? && w.sid in w.s.db.sessions
    && (w.s.db.sessions[w.sid].status == Open || w.s.db.sessions[w.sid].status == AddressSet
        || w.s.db.sessions[w.sid].status == ShippingSet || w.s.db.sessions[w.sid].status == Ready)
  }

  /** Only the workflow's own command ends a watch. */
  lemma EndsOnCommand(w: Watch, m: Move)
    requires !w.stage.Over? && Move1(w, m).stage.Over?
    ensures m.Wake? && Move1(w, m) == Command(w, m.ack)
  {
  }

  lemma CommandEnds(w: Watch, ack: Ack)
    requires RecordInv(w) && !w.stage.Over? && Command(w, ack).stage.Over?
    requires w.stage.Binding? && w.sid in w.s.db.sessions ==> RowOk(w.s, w.sid)
    ensures EndSafe(Command(w, ack).s, w.sid) <==> !LeftConfirming(w)
  {
  }

  lemma EndsExactly(w: Watch, m: Move)
    requires WatchInv(w) && !w.stage.Over? && Move1(w, m).stage.Over?
    ensures EndSafe(Move1(w, m).s, w.sid) <==> !LeftConfirming(w)
  {
    EndsOnCommand(w, m);
    if w.sid in w.s.db.sessions { assert RowOk(w.s, w.sid); }
    CommandEnds(w, m.ack);
  }

  /**
   * For every pattern of signals, delays, retries and rotations: the watch ends only on a row that is terminal,
   * absent, or confirming under an attempted claim, if and only if the row did not leave confirming for a shopping
   * state between ExpireDue's last two reads.
   */
  lemma {:induction false} WatchEndsExactly(w0: Watch, ms: seq<Move>, m: Move)
    requires Starts(w0) && !Moves(w0, ms).stage.Over? && Moves(w0, ms + [m]).stage.Over?
    ensures EndSafe(Moves(w0, ms + [m]).s, w0.sid) <==> !LeftConfirming(Moves(w0, ms))
  {
    WatchRun(w0, ms);
    SameWatch(w0, ms);
    assert (ms + [m])[..|ms|] == ms;
    EndsExactly(Moves(w0, ms), m);
  }

  lemma {:induction false} SameWatch(w0: Watch, ms: seq<Move>)
    ensures Moves(w0, ms).sid == w0.sid
  {
    if ms != [] {
      SameWatch(w0, ms[..|ms| - 1]);
      MoveSameWatch(Moves(w0, ms[..|ms| - 1]), ms[|ms| - 1]);
    }
  }

  lemma MoveSameWatch(w: Watch, m: Move)
    ensures Move1(w, m).sid == w.sid
  {
  }

  /** Nobody wrote the row between the two reads: then the watch ends safely. */
  lemma {:induction false} UnwrittenEndsSafely(w0: Watch, ms: seq<Move>, m: Move)
    requires Starts(w0) && !Moves(w0, ms).stage.Over? && Moves(w0, ms + [m]).stage.Over?
    requires
      var w := Moves(w0, ms);
      w.stage.Binding? && w.sid in w.s.db.sessions ==> w.s.db.sessions[w.sid].version == w.stage.seen
    ensures EndSafe(Moves(w0, ms + [m]).s, w0.sid)
  {
    WatchRun(w0, ms);
    WatchEndsExactly(w0, ms, m);
  }

  /** No finalize is ever dropped, at the reset cap or elsewhere: while a watch goes on, every one sent is buffered. */
  lemma {:induction false} NoFinalizeLost(w0: Watch, ms: seq<Move>)
    requires Starts(w0)
    ensures
      var w := Moves(w0, ms);
      && (!w.stage.Over? ==> w.fins == w.sent)
      && (w.sent > 0 && w.stage.Rotating? ==> Rotate(w).stage == Over(Finalized))
      && w.resets <= 500 && (w.resets == 500 ==> w.stage.Rotating? || w.stage.Over?)
  {
    WatchRun(w0, ms);
  }

  /** Every wait that is ever armed is strictly positive. */
  lemma {:induction false} WaitsPositive(w0: Watch, ms: seq<Move>, ack: Ack)
    requires Starts(w0)
    ensures
      var w := Moves(w0, ms);
      var w' := Command(w, ack);
      w'.stage.Waiting? ==> w'.until > w'.s.db.now
  {
    WatchRun(w0, ms);
    CommandArms(Moves(w0, ms), ack);
  }

  lemma CommandArms(w: Watch, ack: Ack)
    requires w.ttl > 0 && w.s.takeover > 0
    ensures Command(w, ack).stage.Waiting? ==> Command(w, ack).until > Command(w, ack).s.db.now
  {
  }
}
