/**
 * Clean runs: no user write takes a row out of confirming. There an attempted session is only ever confirming or
 * completed, what is charged is what the row shows, and no promo is charged without a redemption.
 */
module Clean {
  import opened Base
  import opened Domain
  import opened Money
  import opened Ledger
  import opened Store
  import opened Protocol
  import opened Safety
  import opened Theorems
  import Catalog

  /** The call behind this write read a confirming row; a caller sees it in the snapshot it holds. */
  predicate FromConfirming(s: State, ev: Event) {
    ev.UserWrite? && ev.call in s.pending && s.pending[ev.call].snap.status == Confirming
  }

  /** A write decided on a read of the confirming row reaches the database and finds the row still confirming. */
  predicate BreaksSeal(s: State, ev: Event) {
    && FromConfirming(s, ev) && (ev.ack == Good || ev.ack == Lost)
    && UserStmt(s.db, s.pending[ev.call], ev.req).Some?
    && Hits(s, s.pending[ev.call].sid, UserStmt(s.db, s.pending[ev.call], ev.req).value)
  }

  ghost predicate CleanRun(s0: State, evs: seq<Event>) {
    evs == [] || (CleanRun(s0, evs[..|evs| - 1]) && !BreaksSeal(Run(s0, evs[..|evs| - 1]), evs[|evs| - 1]))
  }

  // ---- The invariant of clean runs ----

  /** The fate of an attempted session: confirming or completed, and its promo, if any, already redeemed. */
  predicate Sealed(s: State, sid: SessionId) {
    && sid in s.db.sessions
    && (s.db.sessions[sid].status == Confirming || s.db.sessions[sid].status == Completed)
    && PromoCounted(s, s.db.sessions[sid].quote, sid)
  }

  predicate PromoCounted(s: State, q: Quote, sid: SessionId) {
    q.promo.Some? ==> (q.promo.value, sid) in s.db.ledger.uses
  }

  predicate OrderClean(s: State, key: OrderKey)
    requires key in s.orders
  {
    Sealed(s, key.sid) && s.orders[key].payload == PayloadOf(s.db.sessions[key.sid].quote)
  }

  predicate ExecClean(s: State, e: Actor)
    requires e in s.execs
  {
    var x := s.execs[e];
    AliveOwner(s, e) && Gated(x.pc) ==>
      && x.sid in s.db.sessions && s.db.sessions[x.sid].status == Confirming
      && (x.pc.Marking? ==> PromoCounted(s, x.sess.quote, x.sid))
  }

  ghost predicate CleanInv(s: State) {
    && (forall k :: k in s.db.claims && s.db.claims[k].subject.Some? ==> Sealed(s, s.db.claims[k].hash))
    && (forall key :: key in s.orders ==> OrderClean(s, key))
    && (forall e :: e in s.execs ==> ExecClean(s, e))
  }

  // ---- Nobody else moves a confirming row whose confirm is alive or attempted ----

  lemma CleanUserStmt(db: Db, c: UserCall, req: Request)
    requires UserStmt(db, c, req).Some? && c.snap.status != Confirming
    ensures
      var st := UserStmt(db, c, req).value;
      (st.MarkExpired? || st.UpdateStatus? || st.SetAddress? || st.SetShipping? || st.SetPaymentToken? || st.SetPromo?)
      && (st.MarkExpired? || st.from == c.snap.status)
  {
  }

  /** What a statement of a clean event can do to a confirming row. */
  lemma HitOnConfirming(s: State, ev: Event, sid: SessionId, st: Stmt)
    requires !BreaksSeal(s, ev) && RowStmt(s, ev) == Some((sid, st)) && Hits(s, sid, st)
    requires s.db.sessions[sid].status == Confirming
    ensures
      || st.Touch?
      || (ev.FireParked? && ProvablyDead(s.db, s.db.sessions[sid].confirmKey.value, s.takeover))
      || (ev.Step? && ev.e in s.execs && Alive(s, s.execs[ev.e]) && (Drops(st) || st.CompleteSession?)
          && st.key == s.execs[ev.e].claim && BoundConfirming(s.db.sessions[sid], st.key))
    ensures st.Touch? ==>
      NewRow(s.db, sid, st).status == Confirming && NewRow(s.db, sid, st).quote == s.db.sessions[sid].quote
    ensures st.CompleteSession? ==>
      NewRow(s.db, sid, st).status == Completed && NewRow(s.db, sid, st).quote == s.db.sessions[sid].quote
  {
    if ev.UserWrite? && ev.call in s.pending { CleanUserStmt(s.db, s.pending[ev.call], ev.req); }
  }

  lemma UsesGrow(s: State, ev: Event)
    ensures s.db.ledger.uses.Keys <= Next(s, ev).db.ledger.uses.Keys
  {
    if ev.Step? && ev.e in s.execs { StepFramed(s, ev.e, ev.input); }
  }

  /** An attempted session stays confirming or completed with its quote untouched, event by event. */
  lemma SealedStays(s: State, ev: Event, sid: SessionId, k: ClaimId)
    requires CoreInv(s) && !BreaksSeal(s, ev) && Committed(s, sid, k) && Sealed(s, sid)
    ensures Sealed(Next(s, ev), sid) && Next(s, ev).db.sessions[sid].quote == s.db.sessions[sid].quote
  {
    UsesGrow(s, ev);
    if Terminal(s.db.sessions[sid].status) {
      TerminalFixed(s, ev, sid);
    } else {
      AttemptedMoves(s, ev, sid, k);
      OnlyTouchedOrCompleted(s, ev, sid);
    }
  }

  /** An UPDATE of the event reaches the row and is neither a deadline bump nor a completion. */
  predicate Upsets(s: State, ev: Event, sid: SessionId) {
    && RowStmt(s, ev).Some? && RowStmt(s, ev).value.0 == sid && Hits(s, sid, RowStmt(s, ev).value.1)
    && !RowStmt(s, ev).value.1.Touch? && !RowStmt(s, ev).value.1.CompleteSession?
  }

  lemma OnlyTouchedOrCompleted(s: State, ev: Event, sid: SessionId)
    requires sid in s.db.sessions && s.db.sessions[sid].status == Confirming && !Upsets(s, ev, sid)
    ensures
      var s' := Next(s, ev);
      && sid in s'.db.sessions && s'.db.sessions[sid].quote == s.db.sessions[sid].quote
      && (s'.db.sessions[sid].status == Confirming || s'.db.sessions[sid].status == Completed)
  {
    RowDelta(s, ev, sid);
  }

  /** Once attempted, a session's row is neither dropped by its own confirm nor expired by the timer. */
  lemma AttemptedMoves(s: State, ev: Event, sid: SessionId, k: ClaimId)
    requires CoreInv(s) && !BreaksSeal(s, ev) && Committed(s, sid, k) && s.db.sessions[sid].status == Confirming
    ensures !Upsets(s, ev, sid)
  {
    if Upsets(s, ev, sid) { HitOnConfirming(s, ev, sid, RowStmt(s, ev).value.1); }
  }

  /** The row under a live gated execution stays confirming while others act. */
  lemma ConfirmingStays(s: State, ev: Event, e: Actor)
    requires CoreInv(s) && !BreaksSeal(s, ev) && AliveOwner(s, e) && Gated(s.execs[e].pc)
    requires s.execs[e].sid in s.db.sessions && s.db.sessions[s.execs[e].sid].status == Confirming
    requires !(ev.Step? && ev.e == e)
    ensures s.execs[e].sid in Next(s, ev).db.sessions && Next(s, ev).db.sessions[s.execs[e].sid].status == Confirming
  {
    var sid := s.execs[e].sid;
    assert ExecOk(s, e);
    RowDelta(s, ev, sid);
    if Next(s, ev).db.sessions[sid] != s.db.sessions[sid] {
      var st := RowStmt(s, ev).value.1;
      HitOnConfirming(s, ev, sid, st);
      if ev.FireParked? { OwnerNotStale(s, e); }
      if ev.Step? {
        StmtOwner(s, ev.e, st, ev.input);
      }
      assert st.Touch?;
    }
  }

  lemma StmtOwner(s: State, e: Actor, st: Stmt, input: Input)
    requires e in s.execs && Alive(s, s.execs[e]) && RowStmt(s, Step(e, input)).Some?
    requires RowStmt(s, Step(e, input)).value.1 == st
    ensures Drops(st) || st.CompleteSession? ==> AliveOwner(s, e) && Gated(s.execs[e].pc) && st.key == s.execs[e].claim
  {
  }

  // ---- Own steps ----

  /** A step that writes a row leaves the gate. */
  lemma WriterLeavesGate(s: State, e: Actor, input: Input)
    requires e in s.execs && Alive(s, s.execs[e]) && RowStmt(s, Step(e, input)).Some?
    ensures e in StepOf(s, e, input).execs && !Gated(StepOf(s, e, input).execs[e].pc)
  {
    var x := s.execs[e];
    match x.pc {
      case Requoting(items, subtotal, tax, d, why) =>
        DropCases(s, e, x, RequoteItems(x.claim, items, subtotal, tax, d), why, input.ack);
      case Stripping(reason) => DropCases(s, e, x, StripPromo(x.claim), reason, input.ack);
      case Completing => CompletePcs(s, e, input.ack);
      case _ => FewWrite(s, e, input);
    }
  }

  lemma FewWrite(s: State, e: Actor, input: Input)
    requires e in s.execs && Alive(s, s.execs[e])
    requires s.execs[e].pc.Lapsing? || s.execs[e].pc.Entering? || s.execs[e].pc.Aborting?
    ensures e in StepOf(s, e, input).execs && !Gated(StepOf(s, e, input).execs[e].pc)
  {
    match s.execs[e].pc
    case Entering => EnterShape(s, e, input.ack);
    case Aborting => AbortShape(s, e, input.ack);
    case _ =>
  }

  lemma CompletePcs(s: State, e: Actor, ack: Ack)
    requires e in s.execs
    ensures
      var pc := StepComplete(s, e, s.execs[e], ack).execs[e].pc;
      pc.Done? || pc.Finishing? || pc.Adopting?
  {
  }

  lemma RedeemMarks(s: State, e: Actor, input: Input)
    requires e in s.execs && s.execs[e].pc.Redeeming? && s.execs[e].sess.quote.promo.Some?
    ensures
      var s' := StepRedeem(s, e, s.execs[e], input);
      s'.execs[e].pc.Marking? ==> PromoCounted(s', s.execs[e].sess.quote, s.execs[e].sid)
  {
    var x := s.execs[e];
    RedeemKeepsCodes(s.db.ledger, x.sess.quote.promo.value, x.user, x.sid, JudgedAt(s, x.started, input.judged));
  }

  lemma VerdictMarks(s: State, e: Actor, v: Catalog.Verdict, lookups: bool)
    requires e in s.execs
    ensures
      var s' := StepVerdict(s, e, s.execs[e], v, lookups);
      s'.execs[e].pc.Marking? ==> s.execs[e].sess.quote.promo.None? && s'.execs[e].sess == s.execs[e].sess
  {
  }

  predicate Seeds(s: State, e: Actor, s': State) {
    && e in s.execs && e in s'.execs
    && (Gated(s'.execs[e].pc) && !Gated(s.execs[e].pc) ==>
         s.execs[e].pc.Rereading? && !s'.execs[e].pc.Marking?
         && s.execs[e].sid in s.db.sessions && s.db.sessions[s.execs[e].sid].status == Confirming)
    && s'.execs[e].sid == s.execs[e].sid
  }

  lemma SeedsStep(s: State, e: Actor, input: Input)
    requires e in s.execs && Alive(s, s.execs[e])
    ensures Seeds(s, e, StepOf(s, e, input))
  {
    StepFramed(s, e, input);
    if s.execs[e].pc.Rereading? { RereadSeeds(s, e, input.ack); }
    if s.execs[e].pc.Revalidating? {
      VerdictSid(s, e, Catalog.Revalidation(s.execs[e].sess.quote.items, input.got), input.lookups);
    }
  }

  lemma VerdictSid(s: State, e: Actor, v: Catalog.Verdict, lookups: bool)
    requires e in s.execs
    ensures StepVerdict(s, e, s.execs[e], v, lookups).execs[e].sid == s.execs[e].sid
  {
  }

  lemma RereadSeeds(s: State, e: Actor, ack: Ack)
    requires e in s.execs && s.execs[e].pc.Rereading?
    ensures Seeds(s, e, StepReread(s, e, s.execs[e], ack))
  {
  }

  lemma OwnGateStays(s: State, e: Actor, input: Input)
    requires CoreInv(s) && CleanInv(s) && e in s.execs && Alive(s, s.execs[e]) && Owns(s.execs[e].pc)
    ensures
      var s' := StepOf(s, e, input);
      e in s'.execs && (Gated(s'.execs[e].pc) ==>
        s'.execs[e].sid in s'.db.sessions && s'.db.sessions[s'.execs[e].sid].status == Confirming)
  {
    StepFramed(s, e, input);
    SeedsStep(s, e, input);
    assert ExecClean(s, e);
    if RowStmt(s, Step(e, input)).Some? { WriterLeavesGate(s, e, input); }
  }

  /** The only ways into the marking state: nothing to redeem, or redeemed just now. */
  lemma MarkingSeeds(s: State, e: Actor, input: Input)
    requires e in s.execs && Alive(s, s.execs[e])
    ensures
      var s' := StepOf(s, e, input);
      e in s'.execs && (s'.execs[e].pc.Marking? ==> PromoCounted(s', s'.execs[e].sess.quote, s'.execs[e].sid))
  {
    var x := s.execs[e];
    match x.pc {
      case Revalidating => VerdictMarks(s, e, Catalog.Revalidation(x.sess.quote.items, input.got), input.lookups);
      case Redeeming =>
        StepFramed(s, e, input);
        if x.sess.quote.promo.Some? { RedeemMarks(s, e, input); }
      case _ => OnlyIntoMarking(s, e, input);
    }
  }

  lemma OnlyIntoMarking(s: State, e: Actor, input: Input)
    requires e in s.execs && Alive(s, s.execs[e]) && !s.execs[e].pc.Revalidating? && !s.execs[e].pc.Redeeming?
    ensures e in StepOf(s, e, input).execs && !StepOf(s, e, input).execs[e].pc.Marking?
  {
    var x := s.execs[e];
    match x.pc {
      case Requoting(items, subtotal, tax, d, why) =>
        DropCases(s, e, x, RequoteItems(x.claim, items, subtotal, tax, d), why, input.ack);
      case Stripping(reason) => DropCases(s, e, x, StripPromo(x.claim), reason, input.ack);
      case Completing => CompletePcs(s, e, input.ack);
      case Marking | Ordering | Noting | Adopting | Finishing | Aborting | Releasing(_) | Done(_) =>
        LateNeverMarks(s, e, input);
      case _ => EarlyNeverMarks(s, e, input);
    }
  }

  lemma EarlyNeverMarks(s: State, e: Actor, input: Input)
    requires e in s.execs && Alive(s, s.execs[e])
    requires
      var pc := s.execs[e].pc;
      pc.Reading? || pc.Lapsing? || pc.Claiming? || pc.Entering? || pc.Recovering? || pc.Rereading?
    ensures e in StepOf(s, e, input).execs && !StepOf(s, e, input).execs[e].pc.Marking?
  {
    var x := s.execs[e];
    match x.pc
    case Reading => ReadShape(s, e, input.ack);
    case Claiming => ClaimPcs(s, e, input.ack);
    case Entering => EnterShape(s, e, input.ack);
    case _ => EarlyPcs(s, e, x, input.ack);
  }

  lemma EarlyPcs(s: State, e: Actor, x: Execution, ack: Ack)
    requires e in s.execs
    ensures !StepLapse(s, e, x, ack).execs[e].pc.Marking? && !StepRecover(s, e, x, ack).execs[e].pc.Marking?
    ensures !StepReread(s, e, x, ack).execs[e].pc.Marking?
  {
  }

  lemma LateNeverMarks(s: State, e: Actor, input: Input)
    requires e in s.execs && Alive(s, s.execs[e])
    requires
      var pc := s.execs[e].pc;
      pc.Marking? || pc.Ordering? || pc.Noting? || pc.Adopting? || pc.Finishing? || pc.Aborting? || pc.Releasing?
        || pc.Done?
    ensures e in StepOf(s, e, input).execs && !StepOf(s, e, input).execs[e].pc.Marking?
  {
    var x := s.execs[e];
    match x.pc
    case Aborting => AbortShape(s, e, input.ack);
    case Adopting => AdoptShape(s, e, input.ack);
    case Releasing(why) => ReleaseShape(s, e, why, input.ack);
    case _ => LatePcs(s, e, x, input.ack);
  }

  lemma LatePcs(s: State, e: Actor, x: Execution, ack: Ack)
    requires e in s.execs
    ensures !StepMark(s, e, x, ack).execs[e].pc.Marking? && !StepNote(s, e, x, ack).execs[e].pc.Marking?
    ensures !StepOrder(s, e, x, ack).execs[e].pc.Marking? && !StepFinish(s, e, x, ack).execs[e].pc.Marking?
  {
  }

  lemma ClaimPcs(s: State, e: Actor, ack: Ack)
    requires e in s.execs && s.execs[e].pc.Claiming?
    ensures
      var pc := StepClaim(s, e, s.execs[e], ack).execs[e].pc;
      pc.Done? || pc.Entering?
  {
  }

  // ---- Every event of a clean run ----

  lemma ClaimCleanStep(s: State, ev: Event, k: ClaimId)
    requires CoreInv(s) && CleanInv(s) && !BreaksSeal(s, ev)
    requires k in Next(s, ev).db.claims && Next(s, ev).db.claims[k].subject.Some?
    ensures Sealed(Next(s, ev), Next(s, ev).db.claims[k].hash)
  {
    if k in s.db.claims && s.db.claims[k].subject.Some? {
      MarkedStays(s, ev, k);
    } else {
      MarkerSetBy(s, ev, k);
      NewlyMarked(s, ev.e, ev.input, k);
    }
  }

  lemma MarkedStays(s: State, ev: Event, k: ClaimId)
    requires CoreInv(s) && CleanInv(s) && !BreaksSeal(s, ev) && k in Next(s, ev).db.claims
    requires k in s.db.claims && s.db.claims[k].subject.Some?
    ensures Sealed(Next(s, ev), Next(s, ev).db.claims[k].hash)
  {
    assert ClaimOk(s, k);
    StepClaims(s, ev, k);
    SealedStays(s, ev, s.db.claims[k].hash, k);
  }

  /** Only a marking or noting step of a live execution sets a subject. */
  lemma MarkerSetBy(s: State, ev: Event, k: ClaimId)
    requires k in Next(s, ev).db.claims && Next(s, ev).db.claims[k].subject.Some?
    requires !(k in s.db.claims && s.db.claims[k].subject.Some?)
    ensures ev.Step? && ev.e in s.execs && Alive(s, s.execs[ev.e]) && Sets(s.execs[ev.e], k)
  {
    if ev.Step? && ev.e in s.execs { StepFramed(s, ev.e, ev.input); }
  }

  lemma NewlyMarked(s: State, e: Actor, input: Input, k: ClaimId)
    requires CoreInv(s) && CleanInv(s) && e in s.execs && Alive(s, s.execs[e]) && Sets(s.execs[e], k)
    requires !(k in s.db.claims && s.db.claims[k].subject.Some?)
    requires k in StepOf(s, e, input).db.claims
    ensures Sealed(StepOf(s, e, input), StepOf(s, e, input).db.claims[k].hash)
  {
    MarkerSealed(s, e, k);
    MarkerWrites(s, e, input, k);
    SealedBeside(s, StepOf(s, e, input), s.execs[e].sid);
  }

  lemma MarkerSealed(s: State, e: Actor, k: ClaimId)
    requires CoreInv(s) && CleanInv(s) && e in s.execs && Alive(s, s.execs[e]) && Sets(s.execs[e], k)
    requires !(k in s.db.claims && s.db.claims[k].subject.Some?)
    ensures k in s.db.claims && s.db.claims[k].hash == s.execs[e].sid && Sealed(s, s.execs[e].sid)
  {
    assert ExecOk(s, e) && ExecClean(s, e) && ClaimOk(s, k);
  }

  lemma MarkerWrites(s: State, e: Actor, input: Input, k: ClaimId)
    requires e in s.execs && Alive(s, s.execs[e]) && Sets(s.execs[e], k) && k in s.db.claims
    ensures
      var s' := StepOf(s, e, input);
      && s'.db.sessions == s.db.sessions && s'.db.ledger == s.db.ledger
      && k in s'.db.claims && s'.db.claims[k].hash == s.db.claims[k].hash
  {
    StepFramed(s, e, input);
  }

  lemma OrderCleanStep(s: State, ev: Event, key: OrderKey)
    requires CoreInv(s) && CleanInv(s) && !BreaksSeal(s, ev) && key in Next(s, ev).orders
    ensures OrderClean(Next(s, ev), key)
  {
    OrderOrigin(s, ev, key);
    if key in s.orders && Next(s, ev).orders[key] == s.orders[key] {
      OrderSealed(s, key);
      SealedStays(s, ev, key.sid, s.orders[key].claim);
    } else {
      NewOrderClean(s, ev.e, ev.input, key);
    }
  }

  /** Only an ordering step of a live execution creates an order. */
  lemma OrderOrigin(s: State, ev: Event, key: OrderKey)
    requires key in Next(s, ev).orders
    ensures (key in s.orders && Next(s, ev).orders[key] == s.orders[key])
      || (ev.Step? && ev.e in s.execs && Alive(s, s.execs[ev.e])
        && Creates(s.execs[ev.e], key, Next(s, ev).orders[key]))
  {
    if ev.Step? && ev.e in s.execs { StepFramed(s, ev.e, ev.input); }
  }

  lemma OrderSealed(s: State, key: OrderKey)
    requires CoreInv(s) && CleanInv(s) && key in s.orders
    ensures OrderClean(s, key) && Committed(s, key.sid, s.orders[key].claim)
  {
    assert OrderOk(s, key);
    var a := Attempt(key.user, key.sid, key.key, s.orders[key].claim);
    assert AttemptOk(s, a);
    if a.claim in s.db.claims { assert ClaimOk(s, a.claim); }
  }

  lemma NewOrderClean(s: State, e: Actor, input: Input, key: OrderKey)
    requires CoreInv(s) && CleanInv(s) && e in s.execs && Alive(s, s.execs[e])
    requires key in StepOf(s, e, input).orders && Creates(s.execs[e], key, StepOf(s, e, input).orders[key])
    ensures OrderClean(StepOf(s, e, input), key)
  {
    OrderingSealed(s, e);
    OrderingWrites(s, e, input);
    SealedBeside(s, StepOf(s, e, input), s.execs[e].sid);
  }

  /** The row an order is created for is sealed and is what the execution re-read. */
  lemma OrderingSealed(s: State, e: Actor)
    requires CoreInv(s) && CleanInv(s) && AliveOwner(s, e) && s.execs[e].pc.Ordering?
    ensures Sealed(s, s.execs[e].sid) && s.db.sessions[s.execs[e].sid].quote == s.execs[e].sess.quote
  {
    assert ExecOk(s, e) && ExecClean(s, e) && ClaimOk(s, s.execs[e].claim);
  }

  lemma OrderingWrites(s: State, e: Actor, input: Input)
    requires e in s.execs && s.execs[e].pc.Ordering?
    ensures StepOf(s, e, input).db == s.db
  {
  }

  lemma SealedBeside(s: State, s': State, sid: SessionId)
    requires Sealed(s, sid) && s'.db.sessions == s.db.sessions && s.db.ledger.uses.Keys <= s'.db.ledger.uses.Keys
    ensures Sealed(s', sid)
  {
  }

  lemma ExecCleanStep(s: State, ev: Event, e: Actor)
    requires CoreInv(s) && CleanInv(s) && !BreaksSeal(s, ev) && e in Next(s, ev).execs
    ensures ExecClean(Next(s, ev), e)
  {
    if ev.Step? && ev.e == e && e in s.execs && Alive(s, s.execs[e]) {
      OwnCleanStep(s, e, ev.input);
    } else {
      OtherExecSame(s, ev, e);
      TimeGrows(s, ev);
      if AliveOwner(Next(s, ev), e) && Gated(Next(s, ev).execs[e].pc) {
        assert ExecClean(s, e);
        ConfirmingUnmoved(s, ev, e);
        UsesGrow(s, ev);
      }
    }
  }

  lemma ConfirmingUnmoved(s: State, ev: Event, e: Actor)
    requires CoreInv(s) && !BreaksSeal(s, ev) && AliveOwner(s, e) && Gated(s.execs[e].pc) && ExecClean(s, e)
    requires !(ev.Step? && ev.e == e && Alive(s, s.execs[e]))
    ensures s.execs[e].sid in Next(s, ev).db.sessions && Next(s, ev).db.sessions[s.execs[e].sid].status == Confirming
  {
    ConfirmingStays(s, ev, e);
  }

  lemma OwnCleanStep(s: State, e: Actor, input: Input)
    requires CoreInv(s) && CleanInv(s) && e in s.execs && Alive(s, s.execs[e])
    ensures e in StepOf(s, e, input).execs && ExecClean(StepOf(s, e, input), e)
  {
    SeedsStep(s, e, input);
    if Owns(s.execs[e].pc) {
      OwnGateStays(s, e, input);
      MarkingSeeds(s, e, input);
    }
  }

  lemma CleanStep(s: State, ev: Event)
    requires CoreInv(s) && CleanInv(s) && !BreaksSeal(s, ev)
    ensures CleanInv(Next(s, ev))
  {
    var s' := Next(s, ev);
    forall k | k in s'.db.claims && s'.db.claims[k].subject.Some? ensures Sealed(s', s'.db.claims[k].hash) {
      ClaimCleanStep(s, ev, k);
    }
    forall key | key in s'.orders ensures OrderClean(s', key) { OrderCleanStep(s, ev, key); }
    forall e | e in s'.execs ensures ExecClean(s', e) { ExecCleanStep(s, ev, e); }
  }

  lemma {:induction false} CleanRunInv(s0: State, evs: seq<Event>)
    requires Init(s0) && CleanRun(s0, evs)
    ensures CleanInv(Run(s0, evs))
  {
    if evs != [] {
      var before := evs[..|evs| - 1];
      CleanRunInv(s0, before);
      CoreRun(s0, before);
      CleanStep(Run(s0, before), evs[|evs| - 1]);
    }
  }

  // ---- What clean runs guarantee ----

  /** A session whose claim carries the marker is only ever confirming or completed. */
  lemma {:induction false} AttemptedStaysAttempted(s0: State, evs: seq<Event>, k: ClaimId)
    requires Init(s0) && CleanRun(s0, evs)
    requires k in Run(s0, evs).db.claims && Run(s0, evs).db.claims[k].subject.Some?
    ensures
      var s := Run(s0, evs);
      var sid := s.db.claims[k].hash;
      Tied(s, sid, k) && (s.db.sessions[sid].status == Confirming || s.db.sessions[sid].status == Completed)
  {
    CleanRunInv(s0, evs);
    CoreRun(s0, evs);
    assert ClaimOk(Run(s0, evs), k);
  }

  /** Charged equals shown: the order was created from exactly the items, token, fee, tax and discount of the row. */
  lemma {:induction false} ChargedEqualsShown(s0: State, evs: seq<Event>, key: OrderKey)
    requires Init(s0) && CleanRun(s0, evs) && key in Run(s0, evs).orders
    ensures
      var s := Run(s0, evs);
      && key.sid in s.db.sessions
      && (s.db.sessions[key.sid].status == Confirming || s.db.sessions[key.sid].status == Completed)
      && s.orders[key].payload == PayloadOf(s.db.sessions[key.sid].quote)
  {
    CleanRunInv(s0, evs);
    assert OrderClean(Run(s0, evs), key);
  }

  /** Every completed session has that order. */
  lemma {:induction false} CompletedIsCharged(s0: State, evs: seq<Event>, sid: SessionId)
    requires Init(s0) && CleanRun(s0, evs)
    requires sid in Run(s0, evs).db.sessions && Run(s0, evs).db.sessions[sid].status == Completed
    ensures
      var s := Run(s0, evs);
      exists key :: key in s.orders && key.sid == sid && Some(s.orders[key].id) == s.db.sessions[sid].orderId
        && s.orders[key].payload == PayloadOf(s.db.sessions[sid].quote)
  {
    CoreRun(s0, evs);
    var s := Run(s0, evs);
    assert RowOk(s, sid);
    var r := s.db.sessions[sid];
    ChargedEqualsShown(s0, evs, OrderKey(r.user, sid, s.issued[r.confirmKey.value].key));
  }

  /**
   * Every CreateOrder call carrying a promo code follows a committed redemption of it, on first drives and re-drives.
   */
  lemma {:induction false} RedeemedBeforeOrdering(s0: State, evs: seq<Event>, e: Actor)
    requires Init(s0) && CleanRun(s0, evs)
    requires AliveOwner(Run(s0, evs), e) && Run(s0, evs).execs[e].pc.Ordering?
    requires Run(s0, evs).execs[e].sess.quote.promo.Some?
    ensures
      var s := Run(s0, evs);
      (s.execs[e].sess.quote.promo.value, s.execs[e].sid) in s.db.ledger.uses
  {
    CleanRunInv(s0, evs);
    CoreRun(s0, evs);
    var s := Run(s0, evs);
    assert ExecOk(s, e) && ExecClean(s, e) && ClaimOk(s, s.execs[e].claim);
  }

  // ---- Exactly which events break the seal ----

  predicate Breaks(s: State, ev: Event, sid: SessionId) { BreaksSeal(s, ev) && s.pending[ev.call].sid == sid }

  lemma ConfirmingUserStmt(db: Db, c: UserCall, req: Request)
    requires c.snap.status == Confirming && UserStmt(db, c, req).Some?
    ensures UserStmt(db, c, req).value.SetShipping? || UserStmt(db, c, req).value.SetPaymentToken?
  {
  }

  /**
   * From any reachable state, an attempted confirming session leaves {confirming, completed} on an event if and
   * only if that event is a PUT shipping or PUT payment write decided on a read of the confirming row.
   */
  lemma {:induction false} SealBreaksExactly(s0: State, evs: seq<Event>, ev: Event, k: ClaimId)
    requires Init(s0)
    requires k in Run(s0, evs).db.claims && Run(s0, evs).db.claims[k].subject.Some?
    requires
      var s := Run(s0, evs);
      s.db.claims[k].hash in s.db.sessions && s.db.sessions[s.db.claims[k].hash].status == Confirming
    ensures
      var s := Run(s0, evs);
      var sid := s.db.claims[k].hash;
      var s' := Next(s, ev);
      && sid in s'.db.sessions
      && (s'.db.sessions[sid].status != Confirming && s'.db.sessions[sid].status != Completed <==> Breaks(s, ev, sid))
  {
    CoreRun(s0, evs);
    var s := Run(s0, evs);
    assert ClaimOk(s, k);
    SealBreakAt(s, ev, k);
  }

  lemma SealBreakAt(s: State, ev: Event, k: ClaimId)
    requires CoreInv(s) && k in s.db.claims && s.db.claims[k].subject.Some? && Tied(s, s.db.claims[k].hash, k)
    requires s.db.sessions[s.db.claims[k].hash].status == Confirming
    ensures
      var sid := s.db.claims[k].hash;
      var s' := Next(s, ev);
      && sid in s'.db.sessions
      && (s'.db.sessions[sid].status != Confirming && s'.db.sessions[sid].status != Completed <==> Breaks(s, ev, sid))
  {
    var sid := s.db.claims[k].hash;
    if BreaksSeal(s, ev) {
      SealBreakLands(s, ev, sid);
    } else {
      AttemptedMoves(s, ev, sid, k);
      OnlyTouchedOrCompleted(s, ev, sid);
    }
  }

  lemma SealBreakLands(s: State, ev: Event, sid: SessionId)
    requires BreaksSeal(s, ev) && sid in s.db.sessions && s.db.sessions[sid].status == Confirming
    ensures
      var s' := Next(s, ev);
      && sid in s'.db.sessions
      && (s'.db.sessions[sid].status != Confirming && s'.db.sessions[sid].status != Completed <==> Breaks(s, ev, sid))
  {
    ConfirmingUserStmt(s.db, s.pending[ev.call], ev.req);
    BreakLands(s, ev, s.pending[ev.call]);
  }

  lemma BreakLands(s: State, ev: Event, c: UserCall)
    requires FromConfirming(s, ev) && c == s.pending[ev.call] && UserStmt(s.db, c, ev.req).Some?
    requires UserStmt(s.db, c, ev.req).value.SetShipping? || UserStmt(s.db, c, ev.req).value.SetPaymentToken?
    ensures
      var st := UserStmt(s.db, c, ev.req).value;
      var s' := Next(s, ev);
      s'.db.sessions ==
        if (ev.ack == Good || ev.ack == Lost) && Hits(s, c.sid, st) then s.db.sessions[c.sid := NewRow(s.db, c.sid, st)]
          else s.db.sessions
    ensures
      var st := UserStmt(s.db, c, ev.req).value;
      Hits(s, c.sid, st) ==> NewRow(s.db, c.sid, st).status == Ready || NewRow(s.db, c.sid, st).status == ShippingSet
  {
    WriteIsPut(s, c.sid, UserStmt(s.db, c, ev.req).value);
  }

  // ---- Exactly which events part what is charged from what is shown ----

  /** The write stores something CreateOrder was told otherwise. */
  predicate Reprices(q: Quote, st: Stmt) {
    match st
    case SetPaymentToken(_, token) => q.token != Some(token)
    case SetShipping(_, _, _, fee, tax, d) => (q.fee, q.tax, q.discount) != (fee, tax, d)
    case _ => false
  }

  /**
   * While a run is clean, an event makes some order differ from its session's row (in items, token, fee, tax or
   * discount) if and only if it is a landing PUT shipping or PUT payment decided on a read of that confirming row, and
   * it stores another token, fee, tax or discount than the row has.
   */
  lemma {:induction false} ChargedDiffersExactly(s0: State, evs: seq<Event>, ev: Event, key: OrderKey)
    requires Init(s0) && CleanRun(s0, evs) && key in Next(Run(s0, evs), ev).orders
    ensures
      var s := Run(s0, evs);
      var s' := Next(s, ev);
      && key.sid in s'.db.sessions
      && (s'.orders[key].payload != PayloadOf(s'.db.sessions[key.sid].quote) <==>
            Breaks(s, ev, key.sid) && key.sid in s.db.sessions
            && Reprices(s.db.sessions[key.sid].quote, UserStmt(s.db, s.pending[ev.call], ev.req).value))
  {
    CoreRun(s0, evs);
    CleanRunInv(s0, evs);
    var s := Run(s0, evs);
    if BreaksSeal(s, ev) {
      assert OrderClean(s, key);
      WriteParts(s, ev, key);
    } else {
      OrderCleanStep(s, ev, key);
    }
  }

  lemma WriteParts(s: State, ev: Event, key: OrderKey)
    requires BreaksSeal(s, ev) && key in s.orders && key.sid in s.db.sessions
    requires s.orders[key].payload == PayloadOf(s.db.sessions[key.sid].quote)
    ensures
      var s' := Next(s, ev);
      && key in s'.orders && key.sid in s'.db.sessions
      && (s'.orders[key].payload != PayloadOf(s'.db.sessions[key.sid].quote) <==>
            Breaks(s, ev, key.sid)
              && Reprices(s.db.sessions[key.sid].quote, UserStmt(s.db, s.pending[ev.call], ev.req).value))
  {
    var c := s.pending[ev.call];
    ConfirmingUserStmt(s.db, c, ev.req);
    BreakLands(s, ev, c);
  }
}
