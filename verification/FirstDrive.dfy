/** The first confirm of a ready session, step by step, while everybody else goes on with other sessions. */
module FirstDrive {
  import opened Base
  import opened Domain
  import opened Money
  import opened Ledger
  import opened Store
  import opened Protocol
  import opened Safety
  import opened Theorems
  import opened Clean
  import opened Progress
  import Catalog

  /** A ready row nobody has confirmed, within the order bounds, and a key nobody has used. */
  predicate Fresh(s: State, d: Drive) {
    && d.sid in s.db.sessions && s.db.sessions[d.sid] == d.row && d.row.user == d.user && d.row.status == Ready
    && d.row.confirmKey.None? && OrderBounds(d.row.quote) && d.e !in s.execs && Unused(s, d) && s.db.now == d.at
  }

  predicate Unused(t: State, d: Drive) {
    (forall k :: k in t.db.claims ==> !Named(t.db.claims[k], d.user, d.key))
      && OrderKey(d.user, d.sid, d.key) !in t.orders
  }

  /** What the confirm's own steps meet: acknowledgements, a live deadline, a clean re-check, a redeemable code. */
  predicate Fair(t: State, d: Drive, input: Input) {
    && input.ack == Good && Catalog.Revalidation(d.row.quote.items, input.got).Clean?
    && (d.e in t.execs && t.execs[d.e].pc.Reading? ==> !LazyDue(d.row, t.db.now))
    && (d.e in t.execs && t.execs[d.e].pc.Redeeming? && d.row.quote.promo.Some? ==>
         Redeem(t.db.ledger, d.row.quote.promo.value, d.user, d.sid,
           JudgedAt(t, t.execs[d.e].started, input.judged)).Redeemed?)
  }

  ghost predicate FavouredStep(t: State, ev: Event, d: Drive) {
    if ev.Step? && ev.e == d.e then Fair(t, d, ev.input) else Leaves(t, ev, d)
  }

  ghost predicate Favoured(s: State, evs: seq<Event>, d: Drive) {
    evs == [] || (Favoured(s, evs[..|evs| - 1], d) && FavouredStep(Run(s, evs[..|evs| - 1]), evs[|evs| - 1], d))
  }

  // ---- The stages ----

  predicate Opened(t: State, d: Drive, row: Session, marked: bool) {
    && d.sid in t.db.sessions && t.db.sessions[d.sid] == row
    && d.k in t.db.claims
    && var c := t.db.claims[d.k];
       c.user == d.user && c.key == d.key && c.hash == d.sid && c.response.None? && c.lock.Held?
         && c.subject.Some? == marked
  }

  predicate Stands(t: State, d: Drive, pc: Pc, sess: Session) {
    && d.e in t.execs
    && var x := t.execs[d.e];
       && x.user == d.user && x.sid == d.sid && x.key == d.key && x.pc == pc && t.db.now <= x.limit
       && x.started == d.at && x.limit == x.started + CONFIRM_DEADLINE
       && (!pc.Reading? ==> x.sess == sess) && (Owns(pc) ==> x.claim == d.k && !x.marked)
  }

  /** The row as BeginConfirm leaves it. */
  predicate Begun(d: Drive, row: Session) {
    row == d.row.(status := Confirming, confirmKey := Some(d.k), version := row.version)
  }

  predicate Counted(t: State, d: Drive) {
    d.row.quote.promo.Some? ==> (d.row.quote.promo.value, d.sid) in t.db.ledger.uses
  }

  predicate Unplaced(t: State, d: Drive) { OrderKey(d.user, d.sid, d.key) !in t.orders }

  /** Claimed and confirming, at this program counter. */
  predicate Inside(t: State, d: Drive, pc: Pc, marked: bool) {
    && d.sid in t.db.sessions && Begun(d, t.db.sessions[d.sid])
    && Opened(t, d, t.db.sessions[d.sid], marked) && Stands(t, d, pc, t.db.sessions[d.sid])
  }

  /** The own step that sets the marker. */
  function MarkingStep(d: Drive): nat { if d.row.quote.promo.Some? then 6 else 5 }

  /** The claim the drive was given; fixed once it owns one. */
  function Owning(t: State, d: Drive): Drive { if d.e in t.execs then d.(k := t.execs[d.e].claim) else d }

  /** Before the re-read all that matters of its first snapshot is that the row was ready. */
  predicate Waits(t: State, d: Drive, pc: Pc) {
    d.e in t.execs && t.execs[d.e].sess.status == Ready && Stands(t, d, pc, t.execs[d.e].sess)
  }

  ghost predicate EarlyStage(t: State, d: Drive, n: nat) {
    if n == 0 then
      d.sid in t.db.sessions && t.db.sessions[d.sid] == d.row && Unused(t, d) && Stands(t, d, Reading, d.row)
    else if n == 1 then
      d.sid in t.db.sessions && t.db.sessions[d.sid] == d.row && Unused(t, d) && Waits(t, d, Claiming)
    else if n == 2 then Opened(t, d, d.row, false) && Waits(t, d, Entering) && Unplaced(t, d)
    else if n == 3 then
      && d.sid in t.db.sessions && Begun(d, t.db.sessions[d.sid])
      && Opened(t, d, t.db.sessions[d.sid], false) && Waits(t, d, Rereading) && Unplaced(t, d)
    else if n == 4 then Inside(t, d, Revalidating, false) && Unplaced(t, d)
    else Inside(t, d, Redeeming, false) && Unplaced(t, d) && d.row.quote.promo.Some?
  }

  /** n own steps past the point where the marker is due. */
  ghost predicate LateStage(t: State, d: Drive, n: nat) {
    && Counted(t, d)
    && (if n == 0 then Inside(t, d, Marking, false) && Unplaced(t, d)
        else if n == 1 then Inside(t, d, Ordering, true) && Unplaced(t, d)
        else if n == 2 then Inside(t, d, Noting, true) && Placed(t, d, t.execs[d.e].orderId)
        else if n == 3 then Inside(t, d, Completing, true) && Placed(t, d, t.execs[d.e].orderId)
        else if n == 4 then exists id :: CompletedBy(t, d, id) && Placed(t, d, id)
        else OrderStands(t, d))
  }

  ghost predicate FirstStage(t: State, d: Drive, n: nat) {
    var m := MarkingStep(d);
    if n < m then EarlyStage(t, Owning(t, d), n) else LateStage(t, Owning(t, d), n - m)
  }

  // ---- Its own steps ----

  lemma Reads(t: State, d: Drive, input: Input)
    requires EarlyStage(t, d, 0) && Fair(t, d, input) && OrderBounds(d.row.quote) && d.row.user == d.user
    requires d.row.status == Ready
    ensures EarlyStage(Next(t, Step(d.e, input)), d, 1)
  {
    ReadsRow(t, d.e, input);
  }

  /** An unused name gets the next claim id, locked now. */
  lemma ClaimInserts(db: Db, takeover: Time, d: Drive)
    requires (forall k :: k in db.claims ==> !Named(db.claims[k], d.user, d.key)) && db.nextClaim !in db.claims
    ensures
      var c := Claim(d.user, d.key, d.sid, Held(db.now, d.e), None, None, db.now);
      && ClaimDb(db, takeover, d.user, d.key, d.sid, d.e) ==
        db.(claims := db.claims[db.nextClaim := c], nextClaim := db.nextClaim + 1)
      && ClaimAnswerOf(db, takeover, d.user, d.key, d.sid) == Proceed(db.nextClaim, None)
  {
    assert FindClaim(db.claims, d.user, d.key).None?;
  }

  lemma Claims(t: State, d: Drive, input: Input)
    requires EarlyStage(t, d, 1) && Fair(t, d, input) && t.db.nextClaim !in t.db.claims
    ensures
      var u := Next(t, Step(d.e, input));
      EarlyStage(u, Owning(u, d), 2)
  {
    ClaimInserts(t.db, t.takeover, d);
    var u := Next(t, Step(d.e, input));
    assert u.execs[d.e] == t.execs[d.e].(pc := Entering, claim := t.db.nextClaim, marked := false);
  }

  lemma Enters(t: State, d: Drive, input: Input)
    requires EarlyStage(t, d, 2) && Fair(t, d, input) && d.row.status == Ready && d.row.confirmKey.None?
    ensures EarlyStage(Next(t, Step(d.e, input)), d, 3)
  {
    EntersRow(t, d.e, input);
  }

  /** The entry of a ready row nobody holds. */
  lemma EntersRow(t: State, e: Actor, input: Input)
    requires AtPc(t, e) && t.execs[e].pc.Entering? && t.execs[e].sess.status == Ready && input.ack == Good
    requires Hits(t, t.execs[e].sid, BeginConfirm(t.execs[e].claim))
    ensures
      var x := t.execs[e];
      Next(t, Step(e, input)) ==
        PutRow(t, x.sid, NewRow(t.db, x.sid, BeginConfirm(x.claim))).(execs := t.execs[e := x.(pc := Rereading)])
  {
    WriteIsPut(t, t.execs[e].sid, BeginConfirm(t.execs[e].claim));
  }

  lemma Rereads(t: State, d: Drive, input: Input)
    requires EarlyStage(t, d, 3) && Fair(t, d, input)
    ensures EarlyStage(Next(t, Step(d.e, input)), d, 4)
  {
  }

  lemma CleanMoves(t: State, e: Actor, v: Catalog.Verdict, lookups: bool)
    requires e in t.execs && v.Clean?
    ensures StepVerdict(t, e, t.execs[e], v, lookups) ==
      Goto(t, e, if t.execs[e].sess.quote.promo.Some? then Redeeming else Marking)
  {
  }

  lemma Clears(t: State, d: Drive, input: Input)
    requires Inside(t, d, Revalidating, false) && Fair(t, d, input)
    ensures
      var u := Next(t, Step(d.e, input));
      && Inside(u, d, if d.row.quote.promo.Some? then Redeeming else Marking, false) && u.orders == t.orders
  {
    CleanMoves(t, d.e, Catalog.Revalidation(d.row.quote.items, input.got), input.lookups);
  }

  lemma RedeemsCode(t: State, d: Drive, input: Input)
    requires Inside(t, d, Redeeming, false) && Fair(t, d, input) && d.row.quote.promo.Some?
    ensures
      var u := Next(t, Step(d.e, input));
      Inside(u, d, Marking, false) && u.orders == t.orders && Counted(u, d)
  {
    RedeemKeepsCodes(t.db.ledger, d.row.quote.promo.value, d.user, d.sid,
      JudgedAt(t, t.execs[d.e].started, input.judged));
  }

  lemma Marks(t: State, d: Drive, input: Input)
    requires LateStage(t, d, 0) && input.ack == Good
    ensures LateStage(Next(t, Step(d.e, input)), d, 1)
  {
  }

  lemma Orders(t: State, d: Drive, input: Input)
    requires LateStage(t, d, 1) && input.ack == Good
    ensures LateStage(Next(t, Step(d.e, input)), d, 2)
  {
  }

  lemma Notes(t: State, d: Drive, input: Input)
    requires LateStage(t, d, 2) && input.ack == Good
    ensures LateStage(Next(t, Step(d.e, input)), d, 3)
  {
  }

  lemma CompletedAs(t: State, d: Drive, u: State)
    requires LateStage(t, d, 3)
    requires
      var x, r := t.execs[d.e], t.db.sessions[d.sid];
      var x' := x.(pc := Finishing, sess := x.sess.(status := Completed, orderId := Some(x.orderId)));
      u == PutRow(t, d.sid,
        r.(status := Completed, orderId := Some(x.orderId), version := t.db.tick + 1)).(execs := t.execs[d.e := x'])
    ensures LateStage(u, d, 4)
  {
    assert CompletedBy(u, d, t.execs[d.e].orderId) && Placed(u, d, t.execs[d.e].orderId);
  }

  lemma Completes(t: State, d: Drive, input: Input)
    requires LateStage(t, d, 3) && input.ack == Good
    ensures LateStage(Next(t, Step(d.e, input)), d, 4)
  {
    CompletionStep(t, d, input);
    CompletedAs(t, d, Next(t, Step(d.e, input)));
  }

  lemma LateOwn(t: State, d: Drive, n: nat, input: Input)
    requires LateStage(t, d, n) && input.ack == Good
    ensures LateStage(Next(t, Step(d.e, input)), d, n + 1)
  {
    if n == 0 {
      Marks(t, d, input);
    } else if n == 1 {
      Orders(t, d, input);
    } else if n == 2 {
      Notes(t, d, input);
    } else if n == 3 {
      Completes(t, d, input);
    } else if n == 4 {
      var id :| CompletedBy(t, d, id) && Placed(t, d, id);
      Finishes(t, d, id, input);
    } else {
      DoneStays(t, d.e, input);
    }
  }

  lemma EarlyOwn(t: State, d: Drive, n: nat, input: Input)
    requires d.row.user == d.user && d.row.status == Ready && d.row.confirmKey.None?
    requires n == 0 ==> OrderBounds(d.row.quote)
    requires n != 1 && n + 1 < MarkingStep(d) && EarlyStage(t, d, n) && Fair(t, d, input)
    ensures EarlyStage(Next(t, Step(d.e, input)), d, n + 1)
  {
    if n == 0 {
      Reads(t, d, input);
    } else if n == 2 {
      Enters(t, d, input);
    } else if n == 3 {
      Rereads(t, d, input);
    } else {
      Clears(t, d, input);
    }
  }

  /** The last step before the marker is due. */
  lemma DueOwn(t: State, d: Drive, input: Input)
    requires EarlyStage(t, d, MarkingStep(d) - 1) && Fair(t, d, input)
    ensures LateStage(Next(t, Step(d.e, input)), d, 0)
  {
    if d.row.quote.promo.Some? { RedeemsCode(t, d, input); } else { Clears(t, d, input); }
  }

  /** Only the claim step changes the claim the drive owns. */
  lemma SameClaim(t: State, d: Drive, input: Input)
    requires d.e in t.execs && !t.execs[d.e].pc.Claiming?
    ensures Owning(Next(t, Step(d.e, input)), d) == Owning(t, d)
  {
    StepFramed(t, d.e, input);
    if t.execs[d.e].pc.Rereading? || t.execs[d.e].pc.Revalidating? { ReadsKeepClaim(t, d.e, input); }
  }

  lemma ReadsKeepClaim(t: State, e: Actor, input: Input)
    requires e in t.execs && (t.execs[e].pc.Rereading? || t.execs[e].pc.Revalidating?)
    ensures StepOf(t, e, input).execs[e].claim == t.execs[e].claim
  {
    if Alive(t, t.execs[e]) && t.execs[e].pc.Revalidating? {
      RevalidateShape(t, e, Catalog.Revalidation(t.execs[e].sess.quote.items, input.got), input.lookups);
    }
  }

  lemma FirstOwn(t: State, d: Drive, n: nat, input: Input)
    requires d.row.user == d.user && d.row.status == Ready && d.row.confirmKey.None? && OrderBounds(d.row.quote)
    requires FirstStage(t, d, n) && Fair(t, d, input) && t.db.nextClaim !in t.db.claims
    ensures FirstStage(Next(t, Step(d.e, input)), d, n + 1)
  {
    var o := Owning(t, d);
    StageHasExec(t, d, n);
    if n == 1 {
      Claims(t, o, input);
    } else {
      if n + 1 < MarkingStep(d) {
        EarlyOwn(t, o, n, input);
      } else if n < MarkingStep(d) {
        DueOwn(t, o, input);
      } else {
        LateOwn(t, o, n - MarkingStep(d), input);
      }
      SameClaim(t, d, input);
    }
  }

  // ---- Everybody else ----

  lemma EarlyOther(t: State, u: State, d: Drive, n: nat)
    requires EarlyStage(t, d, n) && d.e in t.execs && d.e in u.execs && u.execs[d.e] == t.execs[d.e]
    requires Untouched(t, u, d)
    ensures EarlyStage(u, d, n)
  {
  }

  lemma LateOther(t: State, u: State, d: Drive, n: nat)
    requires LateStage(t, d, n) && d.e in t.execs && d.e in u.execs && u.execs[d.e] == t.execs[d.e]
    requires Untouched(t, u, d)
    requires t.db.ledger.uses.Keys <= u.db.ledger.uses.Keys
    ensures LateStage(u, d, n)
  {
    if n == 4 {
      var id :| CompletedBy(t, d, id) && Placed(t, d, id);
      assert CompletedBy(u, d, id) && Placed(u, d, id);
    }
  }

  lemma FirstOther(t: State, d: Drive, n: nat, ev: Event)
    requires FirstStage(t, d, n) && Leaves(t, ev, d) && d.e in t.execs
    ensures FirstStage(Next(t, ev), d, n)
  {
    LeftAlone(t, ev, d);
    UsesGrow(t, ev);
    StageUntouched(t, Next(t, ev), d, n);
  }

  lemma StageUntouched(t: State, u: State, d: Drive, n: nat)
    requires FirstStage(t, d, n) && d.e in t.execs && d.e in u.execs && u.execs[d.e] == t.execs[d.e]
    requires Untouched(t, u, d)
    requires t.db.ledger.uses.Keys <= u.db.ledger.uses.Keys
    ensures FirstStage(u, d, n)
  {
    var o := Owning(t, d);
    if n < MarkingStep(d) { EarlyOther(t, u, o, n); } else { LateOther(t, u, o, n - MarkingStep(d)); }
  }

  // ---- The whole drive ----

  /** The next claim id is unused, at any point of these events. */
  ghost predicate IdsFresh(s: State, evs: seq<Event>) {
    Run(s, evs).db.nextClaim !in Run(s, evs).db.claims && (evs == [] || IdsFresh(s, evs[..|evs| - 1]))
  }

  lemma {:induction false} IdsStayFresh(s: State, evs: seq<Event>)
    requires CoreInv(s)
    ensures IdsFresh(s, evs)
  {
    CoreFrom(s, evs);
    NextClaimUnused(Run(s, evs));
    if evs != [] { IdsStayFresh(s, evs[..|evs| - 1]); }
  }

  /** On the stage its own steps so far lead to. */
  ghost predicate OnStage(begun: State, evs: seq<Event>, d: Drive) {
    FirstStage(Run(begun, evs), d, OwnSteps(evs, d.e))
  }

  lemma {:induction false} FirstCourse(begun: State, evs: seq<Event>, d: Drive)
    requires d.row.user == d.user && d.row.status == Ready && d.row.confirmKey.None? && OrderBounds(d.row.quote)
    requires FirstStage(begun, d, 0) && IdsFresh(begun, evs) && Favoured(begun, evs, d)
    ensures OnStage(begun, evs, d)
  {
    if evs != [] {
      var before, ev := evs[..|evs| - 1], evs[|evs| - 1];
      FirstCourse(begun, before, d);
      FirstCourseStep(begun, before, d, ev);
      assert before + [ev] == evs;
    }
  }

  lemma FreshBegins(s: State, d: Drive)
    requires Fresh(s, d)
    ensures FirstStage(Next(s, Start(d.e, d.user, d.sid, d.key)), d, 0)
  {
  }

  lemma FirstCourseStep(begun: State, before: seq<Event>, d: Drive, ev: Event)
    requires d.row.user == d.user && d.row.status == Ready && d.row.confirmKey.None? && OrderBounds(d.row.quote)
    requires OnStage(begun, before, d)
    requires Run(begun, before).db.nextClaim !in Run(begun, before).db.claims
    requires FavouredStep(Run(begun, before), ev, d)
    ensures OnStage(begun, before + [ev], d)
  {
    var t, n := Run(begun, before), OwnSteps(before, d.e);
    RunAppend(begun, before, ev);
    var evs := before + [ev];
    assert evs[..|evs| - 1] == before;
    if ev.Step? && ev.e == d.e {
      FirstOwn(t, d, n, ev.input);
    } else {
      StageHasExec(t, d, n);
      FirstOther(t, d, n, ev);
    }
  }

  lemma StageHasExec(t: State, d: Drive, n: nat)
    requires FirstStage(t, d, n)
    ensures d.e in t.execs && (n != 1 ==> !t.execs[d.e].pc.Claiming?)
  {
  }

  /**
   * A ready session within the order bounds is completed by one acknowledged confirm under a new key, whatever
   * everybody else does meanwhile to other sessions, provided its catalog re-check is clean and its promo (if any)
   * redeems when its turn comes: one order, created from the row's own quote, the row completed under it with that
   * quote untouched, the claim finished, the promo counted.
   */
  lemma {:induction false} FirstConfirmCompletes(s0: State, evs: seq<Event>, more: seq<Event>, d: Drive)
    requires Init(s0) && Fresh(Run(s0, evs), d) && OwnSteps(more, d.e) >= 11
    requires Favoured(Next(Run(s0, evs), Start(d.e, d.user, d.sid, d.key)), more, d)
    ensures
      var t := Run(s0, evs + [Start(d.e, d.user, d.sid, d.key)] + more);
      OrderStands(t, Owning(t, d)) && Counted(t, d)
  {
    var start := Start(d.e, d.user, d.sid, d.key);
    RunAppend(s0, evs, start);
    RunConcat(s0, evs + [start], more);
    var s := Run(s0, evs);
    CoreRun(s0, evs);
    CoreStep(s, start);
    IdsStayFresh(Next(s, start), more);
    FreshBegins(s, d);
    FirstCourse(Next(s, start), more, d);
  }
}
