/**
 * How late the watch can be once signals stop and no confirm of the session is live. Everybody else in the system goes
 * on: any sequence of moves counts, as long as it leaves this row and its claim alone and each command of the workflow
 * comes at most `d` after it is due.
 */
module Lateness {
  import opened Base
  import opened Domain
  import opened Store
  import opened Protocol
  import opened Theorems
  import opened Watch

  function Max(a: int, b: int): int { if a >= b then a else b }

  // ---- One command at a time ----

  /** The timer is armed and nothing is buffered. */
  predicate Armed(w: Watch) { w.stage.Waiting? && w.acts == 0 && w.fins == 0 && w.sid in w.s.db.sessions }

  predicate Shopping(st: Status) { st == Open || st == AddressSet || st == ShippingSet || st == Ready }

  predicate ParkedRow(s: State, sid: SessionId) {
    && sid in s.db.sessions && s.db.sessions[sid].status == Confirming && s.db.sessions[sid].confirmKey.Some?
    && var k := s.db.sessions[sid].confirmKey.value;
       k in s.db.claims && !Attempted(s.db.claims[k])
  }

  /** The watch just expired the row. */
  predicate ExpiresRow(w: Watch, row: Session) {
    && w.stage == Over(ExpiredIt) && w.acts == 0 && w.fins == 0 && w.sid in w.s.db.sessions
    && w.s.db.sessions[w.sid].status == Expired && w.s.db.sessions[w.sid].quote == row.quote
  }

  lemma Fires(w: Watch)
    requires Armed(w) && w.s.db.now >= w.until
    ensures Command(w, Good) == w.(stage := Due)
  {
  }

  lemma WakesEarly(w: Watch)
    requires Armed(w) && w.s.db.now < w.until
    ensures Command(w, Good) == w
  {
  }

  lemma TimerHits(w: Watch)
    requires w.stage == Due && w.sid in w.s.db.sessions && Shopping(w.s.db.sessions[w.sid].status)
    requires w.s.db.sessions[w.sid].expiresAt <= w.s.db.now
    ensures ExpiresRow(Command(w, Good), w.s.db.sessions[w.sid]) && Command(w, Good).s.db.now == w.s.db.now
  {
  }

  lemma TimerMisses(w: Watch)
    requires w.stage == Due && w.sid in w.s.db.sessions
    requires w.s.db.sessions[w.sid].status == Confirming || w.s.db.sessions[w.sid].expiresAt > w.s.db.now
    ensures Command(w, Good) == w.(stage := Parked)
  {
  }

  lemma ParkedMisses(w: Watch)
    requires w.stage == Parked && w.sid in w.s.db.sessions
    requires !Matches(w.s.db, w.s.db.sessions[w.sid], ExpireParked(w.s.takeover))
    ensures Command(w, Good) == w.(stage := Looking)
  {
  }

  lemma ParkedHits(w: Watch)
    requires w.stage == Parked && w.sid in w.s.db.sessions
    requires Matches(w.s.db, w.s.db.sessions[w.sid], ExpireParked(w.s.takeover))
    ensures ExpiresRow(Command(w, Good), w.s.db.sessions[w.sid]) && Command(w, Good).s.db.now == w.s.db.now
  {
  }

  lemma LooksAtOpen(w: Watch)
    requires w.stage == Looking && w.sid in w.s.db.sessions && Shopping(w.s.db.sessions[w.sid].status)
    ensures
      Command(w, Good) ==
        w.(stage := Waiting, until := w.s.db.now + ClampRearm(w.s.db.sessions[w.sid].expiresAt - w.s.db.now))
  {
  }

  lemma LooksAtConfirming(w: Watch)
    requires w.stage == Looking && w.sid in w.s.db.sessions && w.s.db.sessions[w.sid].status == Confirming
    ensures Command(w, Good) == w.(stage := Binding(w.s.db.sessions[w.sid].version))
  {
  }

  lemma JudgesParked(w: Watch)
    requires w.stage.Binding? && ParkedRow(w.s, w.sid)
    ensures Command(w, Good) == w.(stage := Waiting, until := w.s.db.now + w.s.takeover)
  {
  }

  // ---- A watch with its own clock ----

  /** `since` is when the workflow's last effective command ran, `turns` how many ran. */
  datatype Timed = Timed(w: Watch, since: Time, turns: nat)

  /** When the next command is due: the armed timer, or at once. */
  function DueAt(t: Timed): Time { if t.w.stage.Waiting? then Max(t.w.until, t.since) else t.since }

  /** A wake before the armed timer is spurious and counts for nothing. */
  predicate Spurious(w: Watch) { w.stage.Over? || (w.stage.Waiting? && w.s.db.now < w.until) }

  function Tick(t: Timed, m: Move): Timed {
    match m
    case Wake(ack) =>
      if Spurious(t.w) then t.(w := Command(t.w, ack)) else Timed(Command(t.w, ack), t.w.s.db.now, t.turns + 1)
    case _ => t.(w := Move1(t.w, m))
  }

  function Ticks(t: Timed, ms: seq<Move>): Timed {
    if ms == [] then t else Tick(Ticks(t, ms[..|ms| - 1]), ms[|ms| - 1])
  }

  /** The row and the claim it is bound to, if any, are the same in both states. */
  predicate LeavesRow(s: State, s': State, sid: SessionId) {
    && sid in s.db.sessions && sid in s'.db.sessions && s'.db.sessions[sid] == s.db.sessions[sid]
    && (s.db.sessions[sid].confirmKey.Some? && s.db.sessions[sid].confirmKey.value in s.db.claims ==>
         var k := s.db.sessions[sid].confirmKey.value;
         k in s'.db.claims && s'.db.claims[k] == s.db.claims[k])
  }

  /** No signals; others leave the row and its claim alone; no command is more than `d` late, and each succeeds. */
  predicate CalmMove(t: Timed, m: Move, d: nat) {
    match m
    case Wake(ack) => ack == Good
    case Sys(ev) =>
      var s' := Next(t.w.s, ev);
      LeavesRow(t.w.s, s', t.w.sid) && (!t.w.stage.Over? ==> s'.db.now <= DueAt(t) + d)
    case _ => false
  }

  predicate Calm(t: Timed, ms: seq<Move>, d: nat) {
    ms == [] || (Calm(t, ms[..|ms| - 1], d) && CalmMove(Ticks(t, ms[..|ms| - 1]), ms[|ms| - 1], d))
  }

  /** The clock is bookkeeping: the watch inside is the watch. */
  lemma {:induction false} TicksAreMoves(t: Timed, ms: seq<Move>)
    ensures Ticks(t, ms).w == Moves(t.w, ms)
  {
    if ms != [] {
      TicksAreMoves(t, ms[..|ms| - 1]);
      TickIsMove(Ticks(t, ms[..|ms| - 1]), ms[|ms| - 1]);
    }
  }

  lemma TickIsMove(t: Timed, m: Move)
    ensures Tick(t, m).w == Move1(t.w, m)
  {
  }

  /** What everybody else may change of a watch: the state, not the watch. */
  lemma OthersOnly(t: Timed, m: Move, d: nat)
    requires m.Sys? && CalmMove(t, m, d)
    ensures
      var u := Tick(t, m);
      && u == t.(w := t.w.(s := u.w.s)) && LeavesRow(t.w.s, u.w.s, t.w.sid) && t.w.s.db.now <= u.w.s.db.now
      && (!t.w.stage.Over? ==> u.w.s.db.now <= DueAt(t) + d) && u.w.s.takeover == t.w.s.takeover
  {
    TakeoverFixed(t.w.s, m.ev);
    TimeMovesOn(t.w.s, m.ev);
  }

  lemma TimeMovesOn(s: State, ev: Event)
    ensures s.db.now <= Next(s, ev).db.now
  {
    if ev.Step? && ev.e in s.execs { StepFramed(s, ev.e, ev.input); }
  }

  // ---- A row that is not confirming ----

  function ShoppingLimit(row: Session, first: Time, d: nat): Time { Max(row.expiresAt, first) + RETRY_WAIT + 4 * d }

  /** Where the watch of a shopping row can be, at most two firings long; `first` is when its armed timer is due. */
  predicate OpenAt(t: Timed, row: Session, first: Time, d: nat) {
    var w, x := t.w, row.expiresAt;
    if w.stage.Over? then ExpiresRow(w, row) && x <= t.since <= ShoppingLimit(row, first, d)
    else
      && w.acts == 0 && w.fins == 0 && w.sid in w.s.db.sessions && w.s.db.sessions[w.sid] == row
      && t.since <= w.s.db.now <= DueAt(t) + d
      && match w.stage
         case Waiting => (t.turns == 0 && DueAt(t) <= first)
           || (t.turns == 4 && x <= w.until && DueAt(t) <= x + 2 * d + RETRY_WAIT)
         case Due => (t.turns == 1 && t.since <= first + d) || (t.turns == 5 && x <= t.since <= x + 3 * d + RETRY_WAIT)
         case Parked => t.turns == 2 && t.since < x
         case Looking => t.turns == 3 && t.since < x + d
         case _ => false
  }

  lemma OpenWakes(t: Timed, row: Session, first: Time, d: nat)
    requires OpenAt(t, row, first, d) && Shopping(row.status)
    ensures OpenAt(Tick(t, Wake(Good)), row, first, d)
  {
    var w := t.w;
    match w.stage
    case Waiting => if w.s.db.now < w.until { WakesEarly(w); } else { Fires(w); }
    case Due => if row.expiresAt <= w.s.db.now { TimerHits(w); } else { TimerMisses(w); }
    case Parked => ParkedMisses(w);
    case Looking => LooksAtOpen(w);
    case Over(_) =>
  }

  lemma OpenOthers(t: Timed, u: Timed, row: Session, first: Time, d: nat)
    requires OpenAt(t, row, first, d) && u == t.(w := t.w.(s := u.w.s)) && LeavesRow(t.w.s, u.w.s, t.w.sid)
    requires t.w.s.db.now <= u.w.s.db.now && (!t.w.stage.Over? ==> u.w.s.db.now <= DueAt(t) + d)
    ensures OpenAt(u, row, first, d)
  {
  }

  lemma {:induction false} OpenRun(t: Timed, ms: seq<Move>, row: Session, first: Time, d: nat)
    requires OpenAt(t, row, first, d) && Shopping(row.status) && Calm(t, ms, d)
    ensures OpenAt(Ticks(t, ms), row, first, d)
  {
    if ms != [] {
      var before, m := Ticks(t, ms[..|ms| - 1]), ms[|ms| - 1];
      OpenRun(t, ms[..|ms| - 1], row, first, d);
      if m.Wake? {
        OpenWakes(before, row, first, d);
      } else {
        OthersOnly(before, m, d);
        OpenOthers(before, Tick(before, m), row, first, d);
      }
    }
  }

  /**
   * A shopping row is expired, and never before its deadline, by max(expires_at, armed deadline) + 1 s + 4d: time
   * cannot pass that limit while the watch goes on, and six effective commands end it.
   */
  lemma {:induction false} ShoppingRowExpires(w: Watch, ms: seq<Move>, d: nat)
    requires Armed(w) && Shopping(w.s.db.sessions[w.sid].status) && Calm(Timed(w, w.s.db.now, 0), ms, d)
    ensures
      var row := w.s.db.sessions[w.sid];
      var limit := ShoppingLimit(row, Max(w.s.db.now, w.until), d);
      var t := Ticks(Timed(w, w.s.db.now, 0), ms);
      && t.w == Moves(w, ms)
      && if t.w.stage.Over? then ExpiresRow(t.w, row) && row.expiresAt <= t.since <= limit
         else t.w.s.db.now <= limit && t.turns < 6
  {
    var t0 := Timed(w, w.s.db.now, 0);
    TicksAreMoves(t0, ms);
    OpenRun(t0, ms, w.s.db.sessions[w.sid], Max(w.s.db.now, w.until), d);
  }

  // ---- A parked confirm ----

  /** The first instant the parked-confirm UPDATE can match. */
  function Dead(s: State, sid: SessionId): Time
    requires ParkedRow(s, sid)
  {
    var r := s.db.sessions[sid];
    var lock := s.db.claims[r.confirmKey.value].lock;
    if lock.Free? then r.expiresAt else Max(r.expiresAt, lock.at + s.takeover + 1)
  }

  lemma DeadMatches(s: State, sid: SessionId)
    requires ParkedRow(s, sid)
    ensures Matches(s.db, s.db.sessions[sid], ExpireParked(s.takeover)) <==> Dead(s, sid) <= s.db.now
  {
  }

  /** What stays the same while others act: the row, when its confirm is provably dead, and the takeover window. */
  datatype Parking = Parking(row: Session, dead: Time, window: Time, start: Time, first: Time, d: nat)

  predicate Parks(s: State, sid: SessionId, p: Parking) {
    ParkedRow(s, sid) && s.db.sessions[sid] == p.row && Dead(s, sid) == p.dead && s.takeover == p.window
  }

  /**
   * Expired by the first firing's UPDATE; or, only if the confirm was not provably dead when that firing was due,
   * within a window and five commands of being so.
   */
  predicate InTime(p: Parking, turns: nat, at: Time) {
    && p.dead <= at
    && ((turns == 3 && at <= p.first + 3 * p.d) || (p.first < p.dead && at < p.dead + p.window + 5 * p.d))
  }

  /** Five commands to a round, and a window between rounds. */
  predicate Paced(t: Timed, p: Parking, at: Time, i: nat) {
    && t.turns % 5 == i && (t.turns / 5) * p.window <= at - p.start
    && (t.turns / 5) * p.window <= Max(0, p.dead + p.d - p.start) + p.window
  }

  /** The first UPDATE came too early; this is n commands into the next round. */
  predicate Missed(p: Parking, at: Time, n: nat) { p.first < p.dead && at < p.dead + p.window + n * p.d }

  predicate ParkedAt(t: Timed, p: Parking) {
    var w, d := t.w, p.d;
    if w.stage.Over? then ExpiresRow(w, p.row) && InTime(p, t.turns, t.since)
    else
      && w.acts == 0 && w.fins == 0 && Parks(w.s, w.sid, p) && t.since <= w.s.db.now <= DueAt(t) + d
      && match w.stage
         case Waiting =>
           Paced(t, p, DueAt(t), 0) && if t.turns == 0 then DueAt(t) == p.first else Missed(p, DueAt(t), 2)
         case Due =>
           Paced(t, p, t.since, 1) && if t.turns == 1 then p.first <= t.since <= p.first + d else Missed(p, t.since, 3)
         case Parked =>
           Paced(t, p, t.since, 2) && if t.turns == 2 then p.first <= t.since <= p.first + 2 * d
             else Missed(p, t.since, 4)
         case Looking => Paced(t, p, t.since, 3) && p.first < p.dead && t.since < p.dead
         case Binding(_) => Paced(t, p, t.since, 4) && p.first < p.dead && t.since < p.dead + d
         case _ => false
  }

  lemma ParkedFires(t: Timed, p: Parking)
    requires ParkedAt(t, p) && t.w.stage.Waiting?
    ensures ParkedAt(Tick(t, Wake(Good)), p)
  {
    if t.w.s.db.now < t.w.until { WakesEarly(t.w); } else { Fires(t.w); }
  }

  lemma ParkedUpdates(t: Timed, p: Parking)
    requires ParkedAt(t, p) && t.w.stage == Parked
    ensures ParkedAt(Tick(t, Wake(Good)), p)
  {
    if p.dead <= t.w.s.db.now { HitEnds(t, p); } else { MissLooks(t, p); }
  }

  lemma HitEnds(t: Timed, p: Parking)
    requires ParkedAt(t, p) && t.w.stage == Parked && p.dead <= t.w.s.db.now
    ensures ParkedAt(Tick(t, Wake(Good)), p)
  {
    DeadMatches(t.w.s, t.w.sid);
    ParkedHits(t.w);
  }

  lemma MissLooks(t: Timed, p: Parking)
    requires ParkedAt(t, p) && t.w.stage == Parked && t.w.s.db.now < p.dead
    ensures ParkedAt(Tick(t, Wake(Good)), p)
  {
    DeadMatches(t.w.s, t.w.sid);
    ParkedMisses(t.w);
  }

  lemma ParkedJudges(t: Timed, p: Parking)
    requires ParkedAt(t, p) && t.w.stage.Binding? && p.window > 0
    ensures ParkedAt(Tick(t, Wake(Good)), p)
  {
    JudgesParked(t.w);
    NextRound(t, p);
  }

  lemma ParkedWakes(t: Timed, p: Parking)
    requires ParkedAt(t, p) && p.window > 0
    ensures ParkedAt(Tick(t, Wake(Good)), p)
  {
    match t.w.stage
    case Waiting => ParkedFires(t, p);
    case Due => TimerMisses(t.w);
    case Parked => ParkedUpdates(t, p);
    case Looking => LooksAtConfirming(t.w);
    case Binding(_) => ParkedJudges(t, p);
    case Over(_) =>
  }

  lemma NextRound(t: Timed, p: Parking)
    requires Paced(t, p, t.since, 4) && t.since < p.dead + p.d && t.since <= t.w.s.db.now
    ensures
      var n := t.turns + 1;
      && n % 5 == 0 && (n / 5) * p.window <= t.w.s.db.now + p.window - p.start
      && (n / 5) * p.window <= Max(0, p.dead + p.d - p.start) + p.window
  {
    var r := t.turns / 5;
    assert (t.turns + 1) / 5 == r + 1;
    assert (r + 1) * p.window == r * p.window + p.window;
  }

  lemma ParkedOthers(t: Timed, u: Timed, p: Parking)
    requires ParkedAt(t, p) && u == t.(w := t.w.(s := u.w.s)) && LeavesRow(t.w.s, u.w.s, t.w.sid)
    requires u.w.s.takeover == t.w.s.takeover
    requires t.w.s.db.now <= u.w.s.db.now && (!t.w.stage.Over? ==> u.w.s.db.now <= DueAt(t) + p.d)
    ensures ParkedAt(u, p)
  {
  }

  lemma {:induction false} ParkedRun(t: Timed, ms: seq<Move>, p: Parking)
    requires ParkedAt(t, p) && p.window > 0 && Calm(t, ms, p.d)
    ensures ParkedAt(Ticks(t, ms), p)
  {
    if ms != [] {
      var before, m := Ticks(t, ms[..|ms| - 1]), ms[|ms| - 1];
      ParkedRun(t, ms[..|ms| - 1], p);
      if m.Wake? {
        ParkedWakes(before, p);
      } else {
        OthersOnly(before, m, p.d);
        ParkedOthers(before, Tick(before, m), p);
      }
    }
  }

  function ParkingOf(w: Watch, d: nat): Parking
    requires ParkedRow(w.s, w.sid)
  {
    Parking(w.s.db.sessions[w.sid], Dead(w.s, w.sid), w.s.takeover, w.s.db.now, Max(w.s.db.now, w.until), d)
  }

  /**
   * A parked, never-attempted confirm whose owner is gone is never expired before it is provably dead. It is expired by
   * the first firing's UPDATE, at most 3d after the armed deadline, if it is provably dead by that deadline; otherwise
   * then or less than a takeover window + 5d after it is provably dead. Time cannot pass both limits while the watch
   * goes on, and the number of effective commands until then is bounded.
   */
  lemma {:induction false} ParkedRowExpires(w: Watch, ms: seq<Move>, d: nat)
    requires Armed(w) && ParkedRow(w.s, w.sid) && w.s.takeover > 0 && Calm(Timed(w, w.s.db.now, 0), ms, d)
    ensures
      var p := ParkingOf(w, d);
      var t := Ticks(Timed(w, w.s.db.now, 0), ms);
      && t.w == Moves(w, ms)
      && if t.w.stage.Over? then ExpiresRow(t.w, p.row) && InTime(p, t.turns, t.since)
         else
           && t.w.s.db.now <= Max(p.first + 3 * d, p.dead + p.window + 5 * d)
           && (t.turns / 5) * p.window <= Max(0, p.dead + d - p.start) + p.window
  {
    var t0 := Timed(w, w.s.db.now, 0);
    TicksAreMoves(t0, ms);
    ParkedRun(t0, ms, ParkingOf(w, d));
  }
}
