/**
 * The multi-table invariant of the confirm protocol, kept by every event of every run, and what follows from it:
 * deadline fencing, one order per session, agreement of all answers, and the permanence of bound claims.
 */
module Safety {
  import opened Base
  import opened Domain
  import opened Money
  import opened Ledger
  import opened Store
  import opened Protocol
  import Catalog

  /** The true last instant a confirm execution can write, counted from its start. */
  const LAST_WRITE: Time := CONFIRM_DEADLINE + 2 * RELEASE_TIMEOUT

  // ---- The invariant, entity by entity ----

  /** The session is bound to the claim. */
  predicate Tied(s: State, sid: SessionId, k: ClaimId) {
    sid in s.db.sessions && s.db.sessions[sid].confirmKey == Some(k)
  }

  /** The row is completed and shows this body's quote and order. */
  predicate ShownBy(r: Session, body: Session) {
    r.status == Completed && r.quote == body.quote && r.orderId == body.orderId && r.user == body.user
  }

  predicate ClaimOk(s: State, k: ClaimId)
    requires k in s.db.claims
  {
    var c := s.db.claims[k];
    && k in s.issued && s.issued[k] == ClaimName(c.user, c.key, c.hash)
    && (c.subject.Some? ==> Tied(s, c.hash, k))
    && (c.response.Some? ==> Tied(s, c.hash, k) && ShownBy(s.db.sessions[c.hash], c.response.value))
  }

  predicate RowOk(s: State, sid: SessionId)
    requires sid in s.db.sessions
  {
    var r := s.db.sessions[sid];
    && (r.status == Confirming || r.status == Completed ==> r.confirmKey.Some?)
    && (r.confirmKey.Some? ==>
         var k := r.confirmKey.value;
         && k in s.issued && s.issued[k].sid == sid && s.issued[k].user == r.user
         && (r.status == Completed || (k in s.db.claims && s.db.claims[k].response.None?))
         && (r.status == Completed ==>
              var key := OrderKey(r.user, sid, s.issued[k].key);
              key in s.orders && r.orderId == Some(s.orders[key].id)))
  }

  predicate AttemptOk(s: State, a: Attempt) {
    && Tied(s, a.sid, a.claim)
    && a.claim in s.issued && s.issued[a.claim] == ClaimName(a.user, a.key, a.sid)
    && (a.claim in s.db.claims ==> s.db.claims[a.claim].subject.Some?)
    && (a.claim !in s.db.claims ==> s.db.sessions[a.sid].status == Completed)
  }

  predicate OrderOk(s: State, key: OrderKey)
    requires key in s.orders
  {
    Attempt(key.user, key.sid, key.key, s.orders[key].claim) in s.attempts && 1 <= s.orders[key].id < s.nextOrder
  }

  /** The execution has claimed its key and has writes under it left. */
  predicate Owns(pc: Pc) {
    !pc.Reading? && !pc.Lapsing? && !pc.Claiming? && !pc.Done?
  }

  /** The attempt marker cannot have been set yet, provided the claim carried none. */
  predicate BeforeMarker(x: Execution) {
    match x.pc
    case Entering | Rereading => !x.marked
    case Revalidating | Requoting(_, _, _, _, _) | Redeeming | Stripping(_) | Marking | Aborting => true
    case _ => false
  }

  predicate AfterMarker(x: Execution) {
    match x.pc
    case Entering | Rereading => x.marked
    case Ordering | Noting | Completing => true
    case _ => false
  }

  /** Past the entry gate's re-read, before the row's fate is written. */
  predicate Gated(pc: Pc) {
    pc.Revalidating? || pc.Requoting? || pc.Redeeming? || pc.Stripping? || pc.Marking? || pc.Aborting?
    || pc.Ordering? || pc.Noting? || pc.Completing?
  }

  /** The lock is this execution's, taken after it started. */
  predicate LockedBy(c: Claim, e: Actor, x: Execution) {
    c.lock.Held? && c.lock.owner == e && x.started <= c.lock.at
  }

  predicate AliveOwner(s: State, e: Actor) {
    e in s.execs && Alive(s, s.execs[e]) && Owns(s.execs[e].pc)
  }

  predicate OwnerOk(s: State, e: Actor)
    requires e in s.execs
  {
    var x := s.execs[e];
    && (x.claim in s.db.claims ==> LockedBy(s.db.claims[x.claim], e, x))
    && (!x.pc.Releasing? ==> x.claim in s.db.claims && s.db.claims[x.claim].response.None?)
    && (BeforeMarker(x) ==> s.db.claims[x.claim].subject.None?)
    && (AfterMarker(x) ==> s.db.claims[x.claim].subject.Some?)
    && (Gated(x.pc) ==> Tied(s, x.sid, x.claim))
    && (Gated(x.pc) && s.db.sessions[x.sid].status == Confirming ==> s.db.sessions[x.sid].quote == x.sess.quote)
  }

  predicate ExecOk(s: State, e: Actor)
    requires e in s.execs
  {
    var x := s.execs[e];
    && x.started <= s.db.now
    && x.limit <= x.started + (if x.pc.Releasing? then LAST_WRITE
                               else if x.pc.Aborting? then MAX_CONFIRM_WRITE else if x.pc.Done? then LAST_WRITE
                                 else CONFIRM_DEADLINE)
    && (!x.pc.Reading? && !x.pc.Lapsing? && !x.pc.Done? ==>
         x.sid in s.db.sessions && s.db.sessions[x.sid].user == x.user && x.sess.user == x.user)
    && (Owns(x.pc) ==> x.claim in s.issued && s.issued[x.claim] == ClaimName(x.user, x.key, x.sid))
    && (AliveOwner(s, e) ==> OwnerOk(s, e))
    && (x.pc.Claiming? || x.pc.Entering? || x.pc.Recovering? ==>
         x.sess.status == Completed ==> s.db.sessions[x.sid] == x.sess)
    && (x.pc.Recovering? ==> x.sess.status == Completed && x.sess.confirmKey == Some(x.claim))
    && (x.pc.Redeeming? ==> x.sess.quote.promo.Some?)
    && (x.pc.Noting? || x.pc.Completing? ==>
         OrderKey(x.user, x.sid, x.key) in s.orders && s.orders[OrderKey(x.user, x.sid, x.key)].id == x.orderId)
    && (x.pc.Finishing? ==> Tied(s, x.sid, x.claim) && ShownBy(s.db.sessions[x.sid], x.sess))
    && (x.pc.Done? && x.pc.answer.Confirmed? ==>
         x.sid in s.db.sessions && ShownBy(s.db.sessions[x.sid], x.pc.answer.body))
  }

  ghost predicate TablesOk(s: State) {
    && UniqueNames(s.db.claims)
    && (forall k :: k in s.issued ==> k < s.db.nextClaim)
    && s.nextOrder >= 1
    && (forall k :: k in s.db.claims ==> ClaimOk(s, k))
    && (forall sid :: sid in s.db.sessions ==> RowOk(s, sid))
    && (forall a :: a in s.attempts ==> AttemptOk(s, a))
    && (forall key :: key in s.orders ==> OrderOk(s, key))
  }

  ghost predicate ExecsOk(s: State) {
    forall e :: e in s.execs ==> ExecOk(s, e)
  }

  ghost predicate CoreInv(s: State) {
    TakeoverAccepted(s.takeover) && TablesOk(s) && ExecsOk(s)
  }

  // ---- Fencing ----

  /** While the holder of a lock can write, its lock is not stale: no takeover and no parked expiry can fire. */
  lemma OwnerNotStale(s: State, e: Actor)
    requires CoreInv(s) && AliveOwner(s, e) && s.execs[e].claim in s.db.claims
    ensures !Stale(s.db.claims[s.execs[e].claim].lock, s.takeover, s.db.now)
  {
    assert ExecOk(s, e);
  }

  lemma SoleOwner(s: State, e: Actor, e': Actor)
    requires CoreInv(s) && AliveOwner(s, e) && AliveOwner(s, e')
    requires s.execs[e].claim == s.execs[e'].claim && s.execs[e].claim in s.db.claims
    ensures e == e'
  {
    assert ExecOk(s, e) && ExecOk(s, e');
  }

  // ---- Preservation: events that touch one execution only ----

  predicate OnlyExec(s: State, s': State, e: Actor) {
    e in s'.execs && s' == s.(execs := s.execs[e := s'.execs[e]])
  }

  lemma ExecOnly(s: State, s': State, e: Actor)
    requires CoreInv(s) && OnlyExec(s, s', e) && ExecOk(s', e)
    ensures CoreInv(s')
  {
    forall e' | e' in s'.execs ensures ExecOk(s', e') {
      if e' != e { assert ExecOk(s, e'); }
    }
    forall k | k in s'.db.claims ensures ClaimOk(s', k) { assert ClaimOk(s, k); }
    forall sid | sid in s'.db.sessions ensures RowOk(s', sid) { assert RowOk(s, sid); }
    forall a | a in s'.attempts ensures AttemptOk(s', a) { assert AttemptOk(s, a); }
    forall key | key in s'.orders ensures OrderOk(s', key) { assert OrderOk(s, key); }
  }

  // ---- Preservation: row writes that keep the binding ----

  function PutRow(s: State, sid: SessionId, r: Session): State {
    s.(db := s.db.(sessions := s.db.sessions[sid := r], tick := s.db.tick + 1))
  }

  function NewRow(db: Db, sid: SessionId, st: Stmt): Session
    requires sid in db.sessions
  {
    Assigned(db.sessions[sid], st).(version := db.tick + 1)
  }

  predicate Hits(s: State, sid: SessionId, st: Stmt) { OutcomeOf(s.db, sid, st) == Applied }

  lemma WriteIsPut(s: State, sid: SessionId, st: Stmt)
    ensures Write(s, sid, st) == if Hits(s, sid, st) then PutRow(s, sid, NewRow(s.db, sid, st)) else s
  {
  }

  /** Row changes that cannot disturb any confirm: the binding stays, terminal rows stay, nobody enters confirming. */
  predicate Harmless(r: Session, r': Session) {
    && r'.user == r.user && r'.confirmKey == r.confirmKey
    && !Terminal(r.status) && r'.status != Completed
    && (r'.status == Confirming ==> r.status == Confirming && r'.quote == r.quote)
  }

  lemma HarmlessTables(s: State, sid: SessionId, r': Session)
    requires TablesOk(s) && sid in s.db.sessions && Harmless(s.db.sessions[sid], r')
    ensures TablesOk(PutRow(s, sid, r'))
  {
    var s' := PutRow(s, sid, r');
    forall k | k in s'.db.claims ensures ClaimOk(s', k) { assert ClaimOk(s, k); }
    forall t | t in s'.db.sessions ensures RowOk(s', t) { assert RowOk(s, t); }
    forall a | a in s'.attempts ensures AttemptOk(s', a) { assert AttemptOk(s, a); }
    forall key | key in s'.orders ensures OrderOk(s', key) { assert OrderOk(s, key); }
  }

  lemma HarmlessWrite(s: State, sid: SessionId, r': Session)
    requires CoreInv(s) && sid in s.db.sessions && Harmless(s.db.sessions[sid], r')
    ensures CoreInv(PutRow(s, sid, r'))
  {
    var s' := PutRow(s, sid, r');
    HarmlessTables(s, sid, r');
    forall e | e in s'.execs ensures ExecOk(s', e) { HarmlessExec(s, sid, r', e); }
  }

  lemma HarmlessExec(s: State, sid: SessionId, r': Session, e: Actor)
    requires e in s.execs && ExecOk(s, e) && sid in s.db.sessions && Harmless(s.db.sessions[sid], r')
    ensures ExecOk(PutRow(s, sid, r'), e)
  {
  }

  /** The statements users, timers and readers issue, with the FSM check of their snapshot, are harmless. */
  predicate Bystander(st: Stmt) {
    match st
    case UpdateStatus(from, to) => to == Cancelled && CanTransition(from, Cancelled)
    case SetAddress(from, _, _) => CanTransition(from, AddressSet)
    case SetShipping(from, _, _, _, _, _) => CanTransition(from, ShippingSet)
    case SetPaymentToken(from, _) => CanTransition(from, Ready)
    case SetPromo(from, _, _) => HoldsPromo(from)
    case Touch(_) | MarkExpired | ExpireTimer => true
    case _ => false
  }

  lemma BystanderHarmless(s: State, sid: SessionId, st: Stmt)
    requires Bystander(st) && Hits(s, sid, st)
    ensures sid in s.db.sessions && Harmless(s.db.sessions[sid], NewRow(s.db, sid, st))
  {
  }

  lemma BystanderStep(s: State, sid: SessionId, st: Stmt)
    requires CoreInv(s) && Bystander(st)
    ensures CoreInv(Write(s, sid, st))
  {
    WriteIsPut(s, sid, st);
    if Hits(s, sid, st) {
      BystanderHarmless(s, sid, st);
      HarmlessWrite(s, sid, NewRow(s.db, sid, st));
    }
  }

  lemma UserStmtBystander(db: Db, c: UserCall, req: Request)
    ensures UserStmt(db, c, req).Some? ==> Bystander(UserStmt(db, c, req).value)
  {
  }

  // ---- Preservation: the clock, creation, reaping, starting ----

  lemma PassTables(s: State, s': State)
    requires TablesOk(s) && s' == s.(db := s.db.(now := s'.db.now))
    ensures TablesOk(s')
  {
    forall k | k in s'.db.claims ensures ClaimOk(s', k) { assert ClaimOk(s, k); }
    forall sid | sid in s'.db.sessions ensures RowOk(s', sid) { assert RowOk(s, sid); }
    forall a | a in s'.attempts ensures AttemptOk(s', a) { assert AttemptOk(s, a); }
    forall key | key in s'.orders ensures OrderOk(s', key) { assert OrderOk(s, key); }
  }

  lemma PassStep(s: State, ms: nat)
    requires CoreInv(s)
    ensures CoreInv(Next(s, Pass(ms)))
  {
    var s' := Next(s, Pass(ms));
    PassTables(s, s');
    forall e | e in s'.execs ensures ExecOk(s', e) { PassExec(s, s', e); }
  }

  lemma PassExec(s: State, s': State, e: Actor)
    requires e in s.execs && ExecOk(s, e) && s' == s.(db := s.db.(now := s'.db.now)) && s.db.now <= s'.db.now
    ensures ExecOk(s', e)
  {
  }

  lemma CreateStep(s: State, sid: SessionId, user: UserId, items: seq<Item>, at: Time)
    requires CoreInv(s)
    ensures CoreInv(Next(s, Create(sid, user, items, at)))
  {
    if Insertable(s.db, sid, user, items) {
      var r := Session(user, Open, FreshQuote(items), None, None, at, None, s.db.tick + 1);
      assert Next(s, Create(sid, user, items, at)) == PutRow(s, sid, r);
      NewRowStep(s, sid, r);
    }
  }

  lemma NewRowTables(s: State, sid: SessionId, r: Session)
    requires TablesOk(s) && sid !in s.db.sessions && r.status == Open && r.confirmKey.None?
    ensures TablesOk(PutRow(s, sid, r))
  {
    var s' := PutRow(s, sid, r);
    forall k | k in s'.db.claims ensures ClaimOk(s', k) { assert ClaimOk(s, k); }
    forall t | t in s'.db.sessions ensures RowOk(s', t) { if t != sid { assert RowOk(s, t); } }
    forall a | a in s'.attempts ensures AttemptOk(s', a) { assert AttemptOk(s, a); }
    forall key | key in s'.orders ensures OrderOk(s', key) { assert OrderOk(s, key); }
  }

  lemma NewRowStep(s: State, sid: SessionId, r: Session)
    requires CoreInv(s) && sid !in s.db.sessions && r.status == Open && r.confirmKey.None?
    ensures CoreInv(PutRow(s, sid, r))
  {
    var s' := PutRow(s, sid, r);
    NewRowTables(s, sid, r);
    forall e | e in s'.execs ensures ExecOk(s', e) { NewRowExec(s, sid, r, e); }
  }

  lemma NewRowExec(s: State, sid: SessionId, r: Session, e: Actor)
    requires e in s.execs && ExecOk(s, e) && sid !in s.db.sessions
    ensures ExecOk(PutRow(s, sid, r), e)
  {
  }

  lemma ReapTables(s: State, s': State, ttl: Time)
    requires TablesOk(s) && s' == s.(db := ReapDb(s.db, ttl))
    ensures TablesOk(s')
  {
    forall k | k in s'.db.claims ensures ClaimOk(s', k) { assert ClaimOk(s, k); }
    forall sid | sid in s'.db.sessions ensures RowOk(s', sid) { assert RowOk(s, sid); }
    forall a | a in s'.attempts ensures AttemptOk(s', a) {
      assert AttemptOk(s, a);
      if a.claim in s.db.claims { assert ClaimOk(s, a.claim); }
    }
    forall key | key in s'.orders ensures OrderOk(s', key) { assert OrderOk(s, key); }
  }

  lemma ReapStep(s: State, ttl: Time)
    requires CoreInv(s)
    ensures CoreInv(Next(s, Reap(ttl)))
  {
    var s' := Next(s, Reap(ttl));
    ReapTables(s, s', ttl);
    forall e | e in s'.execs ensures ExecOk(s', e) { ReapExec(s, s', ttl, e); }
  }

  lemma ReapExec(s: State, s': State, ttl: Time, e: Actor)
    requires e in s.execs && ExecOk(s, e) && s' == s.(db := ReapDb(s.db, ttl))
    ensures ExecOk(s', e)
  {
  }

  // ---- Preservation: clearing a binding ----

  /** A confirming row gives up its binding. */
  predicate Unbinds(r: Session, r': Session) {
    && r.status == Confirming && r.confirmKey.Some? && r'.confirmKey.None? && r'.user == r.user
    && r'.status != Completed && r'.status != Confirming
  }

  lemma ClearTables(s: State, sid: SessionId, r': Session)
    requires TablesOk(s) && sid in s.db.sessions && Unbinds(s.db.sessions[sid], r')
    requires s.db.sessions[sid].confirmKey.value in s.db.claims
    requires s.db.claims[s.db.sessions[sid].confirmKey.value].subject.None?
    ensures TablesOk(PutRow(s, sid, r'))
  {
    var s' := PutRow(s, sid, r');
    assert RowOk(s, sid);
    forall k | k in s'.db.claims ensures ClaimOk(s', k) { assert ClaimOk(s, k); }
    forall t | t in s'.db.sessions ensures RowOk(s', t) { assert RowOk(s, t); }
    forall a | a in s'.attempts ensures AttemptOk(s', a) { assert AttemptOk(s, a); }
    forall key | key in s'.orders ensures OrderOk(s', key) { assert OrderOk(s, key); }
  }

  /** A binding may go when no attempt was ever authorized under it and no live execution relies on it. */
  lemma ClearBinding(s: State, sid: SessionId, r': Session)
    requires CoreInv(s) && sid in s.db.sessions && Unbinds(s.db.sessions[sid], r')
    requires s.db.sessions[sid].confirmKey.value in s.db.claims
    requires s.db.claims[s.db.sessions[sid].confirmKey.value].subject.None?
    requires forall e :: AliveOwner(s, e) && s.execs[e].claim == s.db.sessions[sid].confirmKey.value ==>
      !Gated(s.execs[e].pc)
    ensures CoreInv(PutRow(s, sid, r'))
  {
    var s' := PutRow(s, sid, r');
    ClearTables(s, sid, r');
    forall e | e in s'.execs ensures ExecOk(s', e) { ClearExec(s, sid, r', e); }
  }

  lemma ClearExec(s: State, sid: SessionId, r': Session, e: Actor)
    requires e in s.execs && ExecOk(s, e) && sid in s.db.sessions && Unbinds(s.db.sessions[sid], r')
    requires AliveOwner(s, e) && s.execs[e].claim == s.db.sessions[sid].confirmKey.value ==> !Gated(s.execs[e].pc)
    ensures ExecOk(PutRow(s, sid, r'), e)
  {
  }

  lemma ParkedUnbinds(s: State, sid: SessionId)
    requires Hits(s, sid, ExpireParked(s.takeover))
    ensures sid in s.db.sessions && Unbinds(s.db.sessions[sid], NewRow(s.db, sid, ExpireParked(s.takeover)))
    ensures ProvablyDead(s.db, s.db.sessions[sid].confirmKey.value, s.takeover)
  {
  }

  lemma NoGateUnderDeadClaim(s: State, k: ClaimId)
    requires CoreInv(s) && ProvablyDead(s.db, k, s.takeover)
    ensures forall e :: AliveOwner(s, e) && s.execs[e].claim == k ==> !Gated(s.execs[e].pc)
  {
    forall e | e in s.execs ensures ExecOk(s, e) {}
  }

  lemma ParkedStep(s: State, sid: SessionId)
    requires CoreInv(s)
    ensures CoreInv(Next(s, FireParked(sid)))
  {
    var st := ExpireParked(s.takeover);
    WriteIsPut(s, sid, st);
    if Hits(s, sid, st) {
      ParkedUnbinds(s, sid);
      NoGateUnderDeadClaim(s, s.db.sessions[sid].confirmKey.value);
      ClearBinding(s, sid, NewRow(s.db, sid, st));
    }
  }

  predicate Drops(st: Stmt) { st.RequoteItems? || st.StripPromo? || st.AbortConfirm? }

  lemma DropUnbinds(s: State, sid: SessionId, st: Stmt)
    requires Drops(st) && Hits(s, sid, st)
    ensures sid in s.db.sessions && BoundConfirming(s.db.sessions[sid], st.key)
    ensures Unbinds(s.db.sessions[sid], NewRow(s.db, sid, st))
  {
  }

  /** The claim's lock holder has moved on from the gate, so nobody relies on the binding. */
  lemma NoGateButMine(s: State, e: Actor, k: ClaimId)
    requires CoreInv(s) && e in s.execs && !Gated(s.execs[e].pc)
    requires k in s.db.claims && LockedBy(s.db.claims[k], e, s.execs[e])
    ensures forall e' :: AliveOwner(s, e') && s.execs[e'].claim == k ==> !Gated(s.execs[e'].pc)
  {
    forall e' | AliveOwner(s, e') && s.execs[e'].claim == k ensures !Gated(s.execs[e'].pc) {
      assert ExecOk(s, e');
    }
  }

  /** Requote, strip and abort, with the execution already counted as past its gate. */
  lemma DropStep(s: State, e: Actor, sid: SessionId, st: Stmt)
    requires CoreInv(s) && e in s.execs && !Gated(s.execs[e].pc) && Drops(st)
    requires st.key in s.db.claims && s.db.claims[st.key].subject.None? && LockedBy(s.db.claims[st.key], e, s.execs[e])
    ensures CoreInv(Write(s, sid, st))
  {
    WriteIsPut(s, sid, st);
    if Hits(s, sid, st) {
      DropUnbinds(s, sid, st);
      NoGateButMine(s, e, st.key);
      ClearBinding(s, sid, NewRow(s.db, sid, st));
    }
  }

  // ---- Preservation: the other row writes of a confirm ----

  lemma BeginsRow(s: State, sid: SessionId, k: ClaimId)
    requires Hits(s, sid, BeginConfirm(k))
    ensures sid in s.db.sessions && BeginsFor(s.db.sessions[sid], k, NewRow(s.db, sid, BeginConfirm(k)))
  {
  }

  lemma CompletesRow(s: State, sid: SessionId, k: ClaimId, id: OrderId)
    requires Hits(s, sid, CompleteSession(k, id))
    ensures sid in s.db.sessions && CompletesFor(s.db.sessions[sid], k, id, NewRow(s.db, sid, CompleteSession(k, id)))
  {
  }

  lemma BeginStep(s: State, e: Actor)
    requires CoreInv(s) && AliveOwner(s, e) && s.execs[e].pc.Entering?
    ensures CoreInv(Write(s, s.execs[e].sid, BeginConfirm(s.execs[e].claim)))
  {
    var x := s.execs[e];
    var st := BeginConfirm(x.claim);
    WriteIsPut(s, x.sid, st);
    assert ExecOk(s, e);
    if Hits(s, x.sid, st) {
      BeginsRow(s, x.sid, x.claim);
      BeginRow(s, e, NewRow(s.db, x.sid, st));
    }
  }

  predicate BeginsFor(r: Session, k: ClaimId, r': Session) {
    && r.status == Ready && (r.confirmKey.None? || r.confirmKey == Some(k))
    && r'.status == Confirming && r'.confirmKey == Some(k) && r'.user == r.user
  }

  predicate CompletesFor(r: Session, k: ClaimId, id: OrderId, r': Session) {
    && r.status == Confirming && r.confirmKey == Some(k)
    && r'.status == Completed && r'.confirmKey == Some(k) && r'.user == r.user && r'.quote == r.quote
    && r'.orderId == Some(id)
  }

  /** The live owner of the claim a row is bound to is the only execution past its gate. */
  predicate Alone(s: State, e: Actor) {
    && AliveOwner(s, e) && s.execs[e].claim in s.db.claims
    && LockedBy(s.db.claims[s.execs[e].claim], e, s.execs[e])
    && s.execs[e].sid in s.db.sessions
  }

  lemma BeginRow(s: State, e: Actor, r': Session)
    requires CoreInv(s) && Alone(s, e) && s.execs[e].pc.Entering?
    requires BeginsFor(s.db.sessions[s.execs[e].sid], s.execs[e].claim, r')
    ensures CoreInv(PutRow(s, s.execs[e].sid, r'))
  {
    BeginTables(s, e, r');
    RowExecs(s, e, r');
  }

  lemma BeginTables(s: State, e: Actor, r': Session)
    requires TablesOk(s) && Alone(s, e) && ExecOk(s, e) && s.execs[e].pc.Entering?
    requires BeginsFor(s.db.sessions[s.execs[e].sid], s.execs[e].claim, r')
    ensures TablesOk(PutRow(s, s.execs[e].sid, r'))
  {
    var s' := PutRow(s, s.execs[e].sid, r');
    assert RowOk(s, s.execs[e].sid);
    forall k | k in s'.db.claims ensures ClaimOk(s', k) { assert ClaimOk(s, k); }
    forall t | t in s'.db.sessions ensures RowOk(s', t) { assert RowOk(s, t); }
    forall a | a in s'.attempts ensures AttemptOk(s', a) { assert AttemptOk(s, a); }
    forall key | key in s'.orders ensures OrderOk(s', key) { assert OrderOk(s, key); }
  }

  lemma CompleteTables(s: State, e: Actor, r': Session)
    requires TablesOk(s) && Alone(s, e) && ExecOk(s, e) && s.execs[e].pc.Completing?
    requires CompletesFor(s.db.sessions[s.execs[e].sid], s.execs[e].claim, s.execs[e].orderId, r')
    ensures TablesOk(PutRow(s, s.execs[e].sid, r'))
  {
    var s' := PutRow(s, s.execs[e].sid, r');
    assert RowOk(s, s.execs[e].sid);
    forall k | k in s'.db.claims ensures ClaimOk(s', k) { assert ClaimOk(s, k); }
    forall t | t in s'.db.sessions ensures RowOk(s', t) { assert RowOk(s, t); }
    forall a | a in s'.attempts ensures AttemptOk(s', a) { assert AttemptOk(s, a); }
    forall key | key in s'.orders ensures OrderOk(s', key) { assert OrderOk(s, key); }
  }

  /** Entering or completing under one's own claim disturbs no execution. */
  lemma RowExecs(s: State, e: Actor, r': Session)
    requires ExecsOk(s) && Alone(s, e)
    requires
      var x := s.execs[e];
      var r := s.db.sessions[x.sid];
      || (x.pc.Entering? && BeginsFor(r, x.claim, r'))
      || (x.pc.Completing? && CompletesFor(r, x.claim, x.orderId, r'))
    ensures ExecsOk(PutRow(s, s.execs[e].sid, r'))
  {
    var s' := PutRow(s, s.execs[e].sid, r');
    forall e' | e' in s'.execs ensures ExecOk(s', e') {
      assert ExecOk(s, e');
      RowExec(s, e, r', e');
    }
  }

  lemma RowExec(s: State, e: Actor, r': Session, e': Actor)
    requires Alone(s, e) && e' in s.execs && ExecOk(s, e')
    requires
      var x := s.execs[e];
      var r := s.db.sessions[x.sid];
      || (x.pc.Entering? && BeginsFor(r, x.claim, r'))
      || (x.pc.Completing? && CompletesFor(r, x.claim, x.orderId, r'))
    ensures ExecOk(PutRow(s, s.execs[e].sid, r'), e')
  {
    var s' := PutRow(s, s.execs[e].sid, r');
    if AliveOwner(s, e') { assert OwnerOk(s', e'); }
  }

  lemma CompleteWrite(s: State, e: Actor)
    requires CoreInv(s) && AliveOwner(s, e) && s.execs[e].pc.Completing?
    ensures CoreInv(Write(s, s.execs[e].sid, CompleteSession(s.execs[e].claim, s.execs[e].orderId)))
  {
    var x := s.execs[e];
    var st := CompleteSession(x.claim, x.orderId);
    WriteIsPut(s, x.sid, st);
    assert ExecOk(s, e);
    if Hits(s, x.sid, st) {
      CompletesRow(s, x.sid, x.claim, x.orderId);
      CompleteTables(s, e, NewRow(s.db, x.sid, st));
      RowExecs(s, e, NewRow(s.db, x.sid, st));
    }
  }

  // ---- Preservation: claim writes ----

  function PutClaim(s: State, k: ClaimId, c: Claim): State {
    s.(db := s.db.(claims := s.db.claims[k := c]))
  }

  /** How a live owner may rewrite its claim: set a bound session's marker, cache what the row shows, free the lock. */
  predicate Rewrites(s: State, x: Execution, c: Claim, c': Claim) {
    && c'.user == c.user && c'.key == c.key && c'.hash == c.hash
    && (c.subject.Some? ==> c'.subject.Some?)
    && (c'.subject.Some? ==> Tied(s, x.sid, x.claim))
    && (c'.response != c.response ==>
         c'.response.Some? && Tied(s, x.sid, x.claim) && ShownBy(s.db.sessions[x.sid], c'.response.value))
  }

  lemma RewriteTables(s: State, e: Actor, c': Claim)
    requires TablesOk(s) && AliveOwner(s, e) && ExecOk(s, e) && s.execs[e].claim in s.db.claims
    requires Rewrites(s, s.execs[e], s.db.claims[s.execs[e].claim], c')
    ensures TablesOk(PutClaim(s, s.execs[e].claim, c'))
  {
    var x := s.execs[e];
    var s' := PutClaim(s, x.claim, c');
    assert ClaimOk(s, x.claim);
    forall k | k in s'.db.claims ensures ClaimOk(s', k) { assert ClaimOk(s, k); }
    forall t | t in s'.db.sessions ensures RowOk(s', t) { assert RowOk(s, t); }
    forall a | a in s'.attempts ensures AttemptOk(s', a) { assert AttemptOk(s, a); }
    forall key | key in s'.orders ensures OrderOk(s', key) { assert OrderOk(s, key); }
  }

  lemma RewriteExec(s: State, e: Actor, c': Claim, e': Actor)
    requires Alone(s, e) && e' in s.execs && e' != e && ExecOk(s, e')
    ensures ExecOk(PutClaim(s, s.execs[e].claim, c'), e')
  {
    var s' := PutClaim(s, s.execs[e].claim, c');
    if AliveOwner(s, e') { assert OwnerOk(s', e'); }
  }

  /** The owner moves on to s1 and rewrites its claim in one step. */
  lemma RewriteStep(s: State, s1: State, e: Actor, c': Claim)
    requires CoreInv(s) && Alone(s, e) && OnlyExec(s, s1, e)
    requires Rewrites(s, s.execs[e], s.db.claims[s.execs[e].claim], c')
    requires ExecOk(PutClaim(s1, s.execs[e].claim, c'), e)
    ensures CoreInv(PutClaim(s1, s.execs[e].claim, c'))
  {
    var k := s.execs[e].claim;
    var s' := PutClaim(s1, k, c');
    var t := PutClaim(s, k, c');
    assert ExecOk(s, e);
    RewriteTables(s, e, c');
    forall e' | e' in s'.execs ensures ExecOk(s', e') {
      if e' != e {
        assert ExecOk(s, e');
        RewriteExec(s, e, c', e');
        assert ExecOk(t, e');
      }
    }
    assert TablesOk(s') by { SameTables(t, s'); }
  }

  lemma SameTables(s: State, s': State)
    requires TablesOk(s) && s' == s.(execs := s'.execs)
    ensures TablesOk(s')
  {
    forall k | k in s'.db.claims ensures ClaimOk(s', k) { assert ClaimOk(s, k); }
    forall t | t in s'.db.sessions ensures RowOk(s', t) { assert RowOk(s, t); }
    forall a | a in s'.attempts ensures AttemptOk(s', a) { assert AttemptOk(s, a); }
    forall key | key in s'.orders ensures OrderOk(s', key) { assert OrderOk(s, key); }
  }

  // ---- Preservation: the steps of an execution ----

  predicate AtPc(s: State, e: Actor) { e in s.execs && Alive(s, s.execs[e]) }

  lemma GotoKeeps(s: State, e: Actor, pc: Pc)
    requires CoreInv(s) && e in s.execs && ExecOk(Goto(s, e, pc), e)
    ensures CoreInv(Goto(s, e, pc))
  {
    ExecOnly(s, Goto(s, e, pc), e);
  }

  /** Stopping is always safe. */
  lemma StopKeeps(s: State, e: Actor, why: Refusal)
    requires CoreInv(s) && e in s.execs
    ensures CoreInv(Refuse(s, e, why))
  {
    assert ExecOk(s, e);
    GotoKeeps(s, e, Done(Refused(why)));
  }

  lemma ReadShape(s: State, e: Actor, ack: Ack)
    requires e in s.execs
    ensures
      var x := s.execs[e];
      var s' := StepRead(s, e, x, ack);
      && OnlyExec(s, s', e)
      && (|| s'.execs[e] == x.(pc := Lapsing)
          || (s'.execs[e].pc.Done? && s'.execs[e].pc.answer.Refused? && s'.execs[e] == x.(pc := s'.execs[e].pc))
          || (x.sid in s.db.sessions && s.db.sessions[x.sid].user == x.user
              && s'.execs[e] == x.(pc := Claiming, sess := s.db.sessions[x.sid])))
  {
  }

  lemma ReadLocal(s: State, s': State, e: Actor)
    requires AtPc(s, e) && s.execs[e].pc.Reading? && ExecOk(s, e) && OnlyExec(s, s', e)
    requires
      var x := s.execs[e];
      || s'.execs[e] == x.(pc := Lapsing)
      || (s'.execs[e].pc.Done? && s'.execs[e].pc.answer.Refused? && s'.execs[e] == x.(pc := s'.execs[e].pc))
      || (x.sid in s.db.sessions && s.db.sessions[x.sid].user == x.user
        && s'.execs[e] == x.(pc := Claiming, sess := s.db.sessions[x.sid]))
    ensures ExecOk(s', e)
  {
  }

  lemma ReadStep(s: State, e: Actor, ack: Ack)
    requires CoreInv(s) && AtPc(s, e) && s.execs[e].pc.Reading?
    ensures CoreInv(StepRead(s, e, s.execs[e], ack))
  {
    assert ExecOk(s, e);
    ReadShape(s, e, ack);
    ReadLocal(s, StepRead(s, e, s.execs[e], ack), e);
    ExecOnly(s, StepRead(s, e, s.execs[e], ack), e);
  }

  lemma LapseStep(s: State, e: Actor, ack: Ack)
    requires CoreInv(s) && AtPc(s, e) && s.execs[e].pc.Lapsing?
    ensures CoreInv(StepLapse(s, e, s.execs[e], ack))
  {
    BystanderStep(s, s.execs[e].sid, MarkExpired);
    StopKeeps(if ack == Failed then s else Write(s, s.execs[e].sid, MarkExpired), e, Lapsed);
  }

  /** The entry gate's decision, the BeginConfirm write set aside. */
  lemma EnterLocal(s: State, e: Actor, pc: Pc)
    requires AtPc(s, e) && s.execs[e].pc.Entering? && ExecOk(s, e)
    requires pc.Releasing? || pc.Rereading?
      || (pc.Recovering? && s.execs[e].sess.status == Completed && s.execs[e].sess.confirmKey == Some(s.execs[e].claim))
    ensures ExecOk(Goto(s, e, pc), e)
  {
  }

  lemma EnterShape(s: State, e: Actor, ack: Ack)
    requires e in s.execs && s.execs[e].pc.Entering?
    ensures
      var x := s.execs[e];
      var s' := StepEnter(s, e, x, ack);
      var pc := s'.execs[e].pc;
      && s' == Goto(if x.sess.status == Ready
        && (ack == Good || ack == Lost) then Write(s, x.sid, BeginConfirm(x.claim)) else s, e, pc)
      && (pc.Releasing? || pc.Rereading?
          || (pc.Recovering? && x.sess.status == Completed && x.sess.confirmKey == Some(x.claim)))
  {
    WriteFrame(s, s.execs[e].sid, BeginConfirm(s.execs[e].claim));
  }

  lemma WriteFrame(s: State, sid: SessionId, st: Stmt)
    ensures Write(s, sid, st) == s.(db := Write(s, sid, st).db)
    ensures Write(s, sid, st).db.now == s.db.now && Write(s, sid, st).db.claims == s.db.claims
  {
  }

  lemma EnterStep(s: State, e: Actor, ack: Ack)
    requires CoreInv(s) && AtPc(s, e) && s.execs[e].pc.Entering?
    ensures CoreInv(StepEnter(s, e, s.execs[e], ack))
  {
    var x := s.execs[e];
    EnterShape(s, e, ack);
    var pc := StepEnter(s, e, x, ack).execs[e].pc;
    BeginStep(s, e);
    WriteFrame(s, x.sid, BeginConfirm(x.claim));
    EnterFrom(s, e, pc);
    EnterFrom(Write(s, x.sid, BeginConfirm(x.claim)), e, pc);
  }

  lemma EnterFrom(s: State, e: Actor, pc: Pc)
    requires CoreInv(s) && AtPc(s, e) && s.execs[e].pc.Entering?
    requires pc.Releasing? || pc.Rereading?
      || (pc.Recovering? && s.execs[e].sess.status == Completed && s.execs[e].sess.confirmKey == Some(s.execs[e].claim))
    ensures CoreInv(Goto(s, e, pc))
  {
    assert ExecOk(s, e);
    EnterLocal(s, e, pc);
    GotoKeeps(s, e, pc);
  }

  /** Caching a shown answer, freeing the lock, or setting the marker, each with the execution's next state. */
  lemma RewriteLocal(s: State, e: Actor, pc: Pc, c': Claim)
    requires AtPc(s, e) && Owns(s.execs[e].pc) && ExecOk(s, e) && s.execs[e].claim in s.db.claims
    requires ClaimOk(s, s.execs[e].claim)
    requires
      var x := s.execs[e];
      var c := s.db.claims[x.claim];
      || (x.pc.Recovering? && c' == c.(response := Some(x.sess)) && (pc == Done(Confirmed(x.sess)) || pc.Releasing?))
      || (x.pc.Finishing? && c' == c.(response := Some(x.sess))
        && (pc == Done(Confirmed(x.sess)) || (pc.Done? && pc.answer.Refused?)))
      || (x.pc.Marking? && c' == c.(subject := Some(0)) && (pc == Ordering || (pc.Done? && pc.answer.Refused?)))
      || (x.pc.Noting? && c' == c.(subject := Some(x.orderId)) && pc == Completing)
      || (x.pc.Releasing? && c' == c.(lock := Free) && pc.Done? && pc.answer.Refused?)
    ensures Alone(s, e) && Rewrites(s, s.execs[e], s.db.claims[s.execs[e].claim], c')
    ensures ExecOk(PutClaim(Goto(s, e, pc), s.execs[e].claim, c'), e)
  {
  }

  lemma RewriteKeeps(s: State, e: Actor, pc: Pc, c': Claim)
    requires CoreInv(s) && AtPc(s, e) && Owns(s.execs[e].pc) && s.execs[e].claim in s.db.claims
    requires
      var x := s.execs[e];
      var c := s.db.claims[x.claim];
      || (x.pc.Recovering? && c' == c.(response := Some(x.sess)) && (pc == Done(Confirmed(x.sess)) || pc.Releasing?))
      || (x.pc.Finishing? && c' == c.(response := Some(x.sess))
        && (pc == Done(Confirmed(x.sess)) || (pc.Done? && pc.answer.Refused?)))
      || (x.pc.Marking? && c' == c.(subject := Some(0)) && (pc == Ordering || (pc.Done? && pc.answer.Refused?)))
      || (x.pc.Noting? && c' == c.(subject := Some(x.orderId)) && pc == Completing)
      || (x.pc.Releasing? && c' == c.(lock := Free) && pc.Done? && pc.answer.Refused?)
    ensures CoreInv(PutClaim(Goto(s, e, pc), s.execs[e].claim, c'))
  {
    assert ExecOk(s, e) && ClaimOk(s, s.execs[e].claim);
    RewriteLocal(s, e, pc, c');
    RewriteStep(s, Goto(s, e, pc), e, c');
  }

  lemma HoldsClaim(s: State, e: Actor)
    requires CoreInv(s) && AtPc(s, e) && Owns(s.execs[e].pc) && !s.execs[e].pc.Releasing?
    ensures s.execs[e].claim in s.db.claims && ExecOk(s, e)
  {
    assert ExecOk(s, e);
  }

  lemma RecoverShape(s: State, e: Actor, ack: Ack)
    requires AtPc(s, e) && s.execs[e].claim in s.db.claims
    ensures
      var x := s.execs[e];
      var c' := s.db.claims[x.claim].(response := Some(x.sess));
      StepRecover(s, e, x, ack) ==
        if ack == Good then PutClaim(Goto(s, e, Done(Confirmed(x.sess))), x.claim, c')
        else if ack == Lost then PutClaim(Goto(s, e, Releasing(Unavailable)), x.claim, c')
        else Goto(s, e, Releasing(Unavailable))
  {
  }

  lemma RecoverLocal(s: State, e: Actor)
    requires AtPc(s, e) && s.execs[e].pc.Recovering? && ExecOk(s, e)
    ensures ExecOk(Goto(s, e, Releasing(Unavailable)), e)
  {
  }

  lemma RecoverStep(s: State, e: Actor, ack: Ack)
    requires CoreInv(s) && AtPc(s, e) && s.execs[e].pc.Recovering?
    ensures CoreInv(StepRecover(s, e, s.execs[e], ack))
  {
    var x := s.execs[e];
    HoldsClaim(s, e);
    RecoverShape(s, e, ack);
    if ack == Good || ack == Lost {
      RewriteKeeps(s, e, if ack == Lost then Releasing(Unavailable) else Done(Confirmed(x.sess)),
        s.db.claims[x.claim].(response := Some(x.sess)));
    } else {
      RecoverLocal(s, e);
      GotoKeeps(s, e, Releasing(Unavailable));
    }
  }

  lemma RereadShape(s: State, e: Actor, ack: Ack)
    requires e in s.execs
    ensures
      var x := s.execs[e];
      var s' := StepReread(s, e, x, ack);
      && OnlyExec(s, s', e)
      && (|| s'.execs[e] == x.(pc := Done(Refused(Unavailable))) || s'.execs[e] == x.(pc := Done(Refused(InFlight)))
          || (x.sid in s.db.sessions && BoundConfirming(s.db.sessions[x.sid], x.claim)
              && s'.execs[e] == x.(pc := if x.marked then Ordering else Revalidating, sess := s.db.sessions[x.sid])))
  {
  }

  lemma RereadLocal(s: State, s': State, e: Actor)
    requires AtPc(s, e) && s.execs[e].pc.Rereading? && ExecOk(s, e) && OnlyExec(s, s', e)
    requires
      var x := s.execs[e];
      || s'.execs[e] == x.(pc := Done(Refused(Unavailable))) || s'.execs[e] == x.(pc := Done(Refused(InFlight)))
      || (x.sid in s.db.sessions && BoundConfirming(s.db.sessions[x.sid], x.claim)
          && s'.execs[e] == x.(pc := if x.marked then Ordering else Revalidating, sess := s.db.sessions[x.sid]))
    ensures ExecOk(s', e)
  {
  }

  lemma RereadStep(s: State, e: Actor, ack: Ack)
    requires CoreInv(s) && AtPc(s, e) && s.execs[e].pc.Rereading?
    ensures CoreInv(StepReread(s, e, s.execs[e], ack))
  {
    assert ExecOk(s, e);
    RereadShape(s, e, ack);
    RereadLocal(s, StepReread(s, e, s.execs[e], ack), e);
    ExecOnly(s, StepReread(s, e, s.execs[e], ack), e);
  }

  lemma RevalidateLocal(s: State, e: Actor, pc: Pc, limit: Time)
    requires AtPc(s, e) && s.execs[e].pc.Revalidating? && ExecOk(s, e)
    requires (limit == s.execs[e].limit
      && (pc.Requoting? || pc.Marking? || (pc.Redeeming? && s.execs[e].sess.quote.promo.Some?)))
      || (limit == s.db.now + RELEASE_TIMEOUT && pc == Aborting)
    ensures ExecOk(MoveOn(s, e, pc, limit), e)
  {
  }

  function MoveOn(s: State, e: Actor, pc: Pc, limit: Time): State
    requires e in s.execs
  {
    s.(execs := s.execs[e := s.execs[e].(pc := pc, limit := limit)])
  }

  lemma RevalidateShape(s: State, e: Actor, v: Catalog.Verdict, lookups: bool)
    requires AtPc(s, e) && s.execs[e].pc.Revalidating?
    ensures
      var s' := StepVerdict(s, e, s.execs[e], v, lookups);
      var pc, limit := s'.execs[e].pc, s'.execs[e].limit;
      && s' == MoveOn(s, e, pc, limit)
      && ((limit == s.execs[e].limit
        && (pc.Requoting? || pc.Marking? || (pc.Redeeming? && s.execs[e].sess.quote.promo.Some?)))
          || (limit == s.db.now + RELEASE_TIMEOUT && pc == Aborting))
  {
  }

  lemma RevalidateStep(s: State, e: Actor, input: Input)
    requires CoreInv(s) && AtPc(s, e) && s.execs[e].pc.Revalidating?
    ensures CoreInv(StepRevalidate(s, e, s.execs[e], input))
  {
    assert ExecOk(s, e);
    RevalidateShape(s, e, Catalog.Revalidation(s.execs[e].sess.quote.items, input.got), input.lookups);
    var s' := StepRevalidate(s, e, s.execs[e], input);
    RevalidateLocal(s, e, s'.execs[e].pc, s'.execs[e].limit);
    ExecOnly(s, s', e);
  }

  lemma DropLocal(s: State, e: Actor, pc: Pc)
    requires AtPc(s, e) && (s.execs[e].pc.Requoting? || s.execs[e].pc.Stripping?) && ExecOk(s, e)
    requires pc.Releasing? || (pc.Done? && pc.answer.Refused?)
    ensures ExecOk(Goto(s, e, pc), e)
    ensures s.execs[e].claim in s.db.claims && s.db.claims[s.execs[e].claim].subject.None?
    ensures LockedBy(s.db.claims[s.execs[e].claim], e, s.execs[e])
  {
  }

  lemma DropShape(s: State, e: Actor, st: Stmt, why: Refusal, ack: Ack)
    requires e in s.execs
    ensures
      var s' := StepDrop(s, e, s.execs[e], st, why, ack);
      || s' == Refuse(s, e, InFlight)
      || s' == Write(Refuse(s, e, InFlight), s.execs[e].sid, st)
      || s' == Write(Goto(s, e, Releasing(why)), s.execs[e].sid, st)
  {
    WriteFrame(s, s.execs[e].sid, st);
  }

  lemma DropHolds(s: State, s': State, e: Actor, pc: Pc)
    requires AtPc(s, e) && (s.execs[e].pc.Requoting? || s.execs[e].pc.Stripping?) && ExecOk(s, e)
    requires s' == Goto(s, e, pc)
    ensures
      var k := s.execs[e].claim;
      k in s'.db.claims && s'.db.claims[k].subject.None? && LockedBy(s'.db.claims[k], e, s'.execs[e])
  {
  }

  lemma DropThrough(s: State, e: Actor, st: Stmt, pc: Pc)
    requires CoreInv(s) && AtPc(s, e) && (s.execs[e].pc.Requoting? || s.execs[e].pc.Stripping?)
    requires Drops(st) && st.key == s.execs[e].claim && (pc.Releasing? || (pc.Done? && pc.answer.Refused?))
    ensures CoreInv(Write(Goto(s, e, pc), s.execs[e].sid, st))
  {
    assert ExecOk(s, e);
    DropLocal(s, e, pc);
    GotoKeeps(s, e, pc);
    DropHolds(s, Goto(s, e, pc), e, pc);
    DropStep(Goto(s, e, pc), e, s.execs[e].sid, st);
  }

  lemma DropExecStep(s: State, e: Actor, st: Stmt, why: Refusal, ack: Ack)
    requires CoreInv(s) && AtPc(s, e) && (s.execs[e].pc.Requoting? || s.execs[e].pc.Stripping?)
    requires Drops(st) && st.key == s.execs[e].claim
    ensures CoreInv(StepDrop(s, e, s.execs[e], st, why, ack))
  {
    DropShape(s, e, st, why, ack);
    StopKeeps(s, e, InFlight);
    DropThrough(s, e, st, Releasing(why));
    DropThrough(s, e, st, Done(Refused(InFlight)));
  }

  lemma LedgerOnly(s: State, l: PromoLedger)
    requires CoreInv(s)
    ensures CoreInv(s.(db := s.db.(ledger := l)))
  {
    var s' := s.(db := s.db.(ledger := l));
    forall e | e in s'.execs ensures ExecOk(s', e) { assert ExecOk(s, e); }
    forall k | k in s'.db.claims ensures ClaimOk(s', k) { assert ClaimOk(s, k); }
    forall t | t in s'.db.sessions ensures RowOk(s', t) { assert RowOk(s, t); }
    forall a | a in s'.attempts ensures AttemptOk(s', a) { assert AttemptOk(s, a); }
    forall key | key in s'.orders ensures OrderOk(s', key) { assert OrderOk(s, key); }
  }

  lemma RedeemLocal(s: State, e: Actor, pc: Pc, limit: Time)
    requires AtPc(s, e) && s.execs[e].pc.Redeeming? && ExecOk(s, e)
    requires (limit == s.execs[e].limit && (pc.Marking? || pc.Stripping?))
      || (limit == s.db.now + RELEASE_TIMEOUT && pc == Aborting)
    ensures ExecOk(MoveOn(s, e, pc, limit), e)
  {
  }

  lemma RedeemShape(s: State, e: Actor, input: Input)
    requires e in s.execs && s.execs[e].pc.Redeeming? && s.execs[e].sess.quote.promo.Some?
    ensures
      var s' := StepRedeem(s, e, s.execs[e], input);
      var pc, limit := s'.execs[e].pc, s'.execs[e].limit;
      && s' == MoveOn(s.(db := s.db.(ledger := s'.db.ledger)), e, pc, limit)
      && s'.db.ledger.codes.Keys == s.db.ledger.codes.Keys && s.db.ledger.uses.Keys <= s'.db.ledger.uses.Keys
      && ((limit == s.execs[e].limit && (pc.Marking? || pc.Stripping?))
        || (limit == s.db.now + RELEASE_TIMEOUT && pc == Aborting))
  {
    var r := Redeems(s, s.execs[e], input);
    RedeemMoves(s, e, input, r);
    if r.Redeemed? { RedeemGrows(s, s.execs[e], input); }
  }

  lemma RedeemMoves(s: State, e: Actor, input: Input, r: Redemption)
    requires e in s.execs && s.execs[e].sess.quote.promo.Some? && r == Redeems(s, s.execs[e], input)
    ensures
      var l := if r.Redeemed? && (input.ack == Good || input.ack == Lost) then r.ledger else s.db.ledger;
      var pc := if input.ack != Good then Aborting else if r.Redeemed? then Marking
                else Stripping(if r.PromoExpired? then CodeExpired else CodeExhausted);
      var limit := if input.ack != Good then s.db.now + RELEASE_TIMEOUT else s.execs[e].limit;
      StepRedeem(s, e, s.execs[e], input) == MoveOn(s.(db := s.db.(ledger := l)), e, pc, limit)
  {
  }

  lemma RedeemGrows(s: State, x: Execution, input: Input)
    requires x.sess.quote.promo.Some? && Redeems(s, x, input).Redeemed?
    ensures
      var l := Redeems(s, x, input).ledger;
      l.codes.Keys == s.db.ledger.codes.Keys && s.db.ledger.uses.Keys <= l.uses.Keys
  {
    RedeemKeepsCodes(s.db.ledger, x.sess.quote.promo.value, x.user, x.sid, JudgedAt(s, x.started, input.judged));
  }

  lemma RedeemStep(s: State, e: Actor, input: Input)
    requires CoreInv(s) && AtPc(s, e) && s.execs[e].pc.Redeeming? && s.execs[e].sess.quote.promo.Some?
    ensures CoreInv(StepRedeem(s, e, s.execs[e], input))
  {
    RedeemShape(s, e, input);
    var s' := StepRedeem(s, e, s.execs[e], input);
    var s1 := s.(db := s.db.(ledger := s'.db.ledger));
    LedgerOnly(s, s'.db.ledger);
    assert ExecOk(s1, e);
    RedeemLocal(s1, e, s'.execs[e].pc, s'.execs[e].limit);
    ExecOnly(s1, s', e);
  }

  lemma MarkStep(s: State, e: Actor, ack: Ack)
    requires CoreInv(s) && AtPc(s, e) && s.execs[e].pc.Marking?
    ensures CoreInv(StepMark(s, e, s.execs[e], ack))
  {
    HoldsClaim(s, e);
    if ack == Good || ack == Lost {
      RewriteKeeps(s, e, if ack == Lost then Done(Refused(Unavailable)) else Ordering,
        s.db.claims[s.execs[e].claim].(subject := Some(0)));
    } else {
      StopKeeps(s, e, Unavailable);
    }
  }

  lemma NoteShape(s: State, e: Actor, ack: Ack)
    requires AtPc(s, e) && s.execs[e].claim in s.db.claims
    ensures
      var x := s.execs[e];
      StepNote(s, e, x, ack) ==
        if ack == Good || ack == Lost then
          PutClaim(Goto(s, e, Completing), x.claim, s.db.claims[x.claim].(subject := Some(x.orderId)))
        else Goto(s, e, Completing)
  {
  }

  lemma NoteLocal(s: State, e: Actor)
    requires AtPc(s, e) && s.execs[e].pc.Noting? && ExecOk(s, e)
    ensures ExecOk(Goto(s, e, Completing), e)
  {
  }

  lemma NoteStep(s: State, e: Actor, ack: Ack)
    requires CoreInv(s) && AtPc(s, e) && s.execs[e].pc.Noting?
    ensures CoreInv(StepNote(s, e, s.execs[e], ack))
  {
    var x := s.execs[e];
    HoldsClaim(s, e);
    NoteShape(s, e, ack);
    if ack == Good || ack == Lost {
      var c' := s.db.claims[x.claim].(subject := Some(x.orderId));
      assert StepNote(s, e, x, ack) == PutClaim(Goto(s, e, Completing), x.claim, c');
      RewriteKeeps(s, e, Completing, c');
    } else {
      NoteLocal(s, e);
      GotoKeeps(s, e, Completing);
    }
  }

  lemma ReleaseStep(s: State, e: Actor, why: Refusal, ack: Ack)
    requires CoreInv(s) && AtPc(s, e) && s.execs[e].pc.Releasing?
    ensures CoreInv(StepRelease(s, e, s.execs[e], why, ack))
  {
    var x := s.execs[e];
    if (ack == Good || ack == Lost) && x.claim in s.db.claims {
      RewriteKeeps(s, e, Done(Refused(why)), s.db.claims[x.claim].(lock := Free));
    } else {
      StopKeeps(s, e, why);
    }
  }

  lemma FinishShape(s: State, e: Actor, ack: Ack)
    requires AtPc(s, e) && s.execs[e].claim in s.db.claims
    ensures
      var x := s.execs[e];
      var c' := s.db.claims[x.claim].(response := Some(x.sess));
      StepFinish(s, e, x, ack) ==
        if ack == Good then PutClaim(Goto(s, e, Done(Confirmed(x.sess))), x.claim, c')
        else if ack == Lost then PutClaim(Goto(s, e, Done(Refused(Unavailable))), x.claim, c')
        else Refuse(s, e, Unavailable)
  {
  }

  lemma FinishStep(s: State, e: Actor, ack: Ack)
    requires CoreInv(s) && AtPc(s, e) && s.execs[e].pc.Finishing?
    ensures CoreInv(StepFinish(s, e, s.execs[e], ack))
  {
    var x := s.execs[e];
    HoldsClaim(s, e);
    FinishShape(s, e, ack);
    if ack == Good || ack == Lost {
      RewriteKeeps(s, e, Done(if ack == Lost then Refused(Unavailable) else Confirmed(x.sess)),
        s.db.claims[x.claim].(response := Some(x.sess)));
    } else {
      StopKeeps(s, e, Unavailable);
    }
  }

  lemma CompleteLocal(s: State, s': State, e: Actor)
    requires AtPc(s, e) && s.execs[e].pc.Completing? && ExecOk(s, e) && OnlyExec(s, s', e)
    requires
      var x := s.execs[e];
      || s'.execs[e] == x.(pc := Adopting)
      || (s'.execs[e].pc.Done? && s'.execs[e] == x.(pc := s'.execs[e].pc) && s'.execs[e].pc.answer.Refused?)
      || (Tied(s, x.sid, x.claim) && s.db.sessions[x.sid].status == Completed
          && s.db.sessions[x.sid].quote == x.sess.quote && s.db.sessions[x.sid].orderId == Some(x.orderId)
          && s'.execs[e] == x.(pc := Finishing, sess := x.sess.(status := Completed, orderId := Some(x.orderId))))
    ensures ExecOk(s', e)
  {
  }

  lemma CompleteShape(s: State, e: Actor, ack: Ack)
    requires AtPc(s, e) && s.execs[e].pc.Completing? && ExecOk(s, e) && (ack == Good || ack == Lost)
    ensures
      var x := s.execs[e];
      var s1 := Write(s, x.sid, CompleteSession(x.claim, x.orderId));
      var s' := StepComplete(s, e, x, ack);
      && AtPc(s1, e) && s1.execs == s.execs && OnlyExec(s1, s', e)
      && (|| s'.execs[e] == x.(pc := Adopting)
          || s'.execs[e] == x.(pc := Done(Refused(Unavailable)))
          || (Tied(s1, x.sid, x.claim) && s1.db.sessions[x.sid].status == Completed
              && s1.db.sessions[x.sid].quote == x.sess.quote && s1.db.sessions[x.sid].orderId == Some(x.orderId)
              && s'.execs[e] == x.(pc := Finishing, sess := x.sess.(status := Completed, orderId := Some(x.orderId)))))
  {
    var x := s.execs[e];
    var st := CompleteSession(x.claim, x.orderId);
    WriteFrame(s, x.sid, st);
    WriteIsPut(s, x.sid, st);
    if Hits(s, x.sid, st) { CompletesRow(s, x.sid, x.claim, x.orderId); }
  }

  lemma CompleteExecStep(s: State, e: Actor, ack: Ack)
    requires CoreInv(s) && AtPc(s, e) && s.execs[e].pc.Completing?
    ensures CoreInv(StepComplete(s, e, s.execs[e], ack))
  {
    var x := s.execs[e];
    HoldsClaim(s, e);
    if ack == Good || ack == Lost {
      var s1 := Write(s, x.sid, CompleteSession(x.claim, x.orderId));
      CompleteShape(s, e, ack);
      CompleteWrite(s, e);
      CompletedFrom(s1, StepComplete(s, e, x, ack), e);
    } else {
      StopKeeps(s, e, Unavailable);
    }
  }

  lemma CompletedFrom(s: State, s': State, e: Actor)
    requires CoreInv(s) && AtPc(s, e) && s.execs[e].pc.Completing? && OnlyExec(s, s', e)
    requires
      var x := s.execs[e];
      || s'.execs[e] == x.(pc := Adopting)
      || s'.execs[e] == x.(pc := Done(Refused(Unavailable)))
      || (Tied(s, x.sid, x.claim) && s.db.sessions[x.sid].status == Completed
          && s.db.sessions[x.sid].quote == x.sess.quote && s.db.sessions[x.sid].orderId == Some(x.orderId)
          && s'.execs[e] == x.(pc := Finishing, sess := x.sess.(status := Completed, orderId := Some(x.orderId))))
    ensures CoreInv(s')
  {
    assert ExecOk(s, e);
    CompleteLocal(s, s', e);
    ExecOnly(s, s', e);
  }

  lemma AdoptShape(s: State, e: Actor, ack: Ack)
    requires AtPc(s, e)
    ensures
      var x := s.execs[e];
      var s' := StepAdopt(s, e, x, ack);
      && OnlyExec(s, s', e)
      && (|| (s'.execs[e].pc.Done? && s'.execs[e].pc.answer.Refused? && s'.execs[e] == x.(pc := s'.execs[e].pc))
          || (Tied(s, x.sid, x.claim) && s.db.sessions[x.sid].status == Completed
              && s'.execs[e] == x.(pc := Finishing, sess := s.db.sessions[x.sid])))
  {
  }

  lemma AdoptLocal(s: State, s': State, e: Actor)
    requires AtPc(s, e) && s.execs[e].pc.Adopting? && ExecOk(s, e) && OnlyExec(s, s', e)
    requires
      var x := s.execs[e];
      || (s'.execs[e].pc.Done? && s'.execs[e].pc.answer.Refused? && s'.execs[e] == x.(pc := s'.execs[e].pc))
      || (Tied(s, x.sid, x.claim) && s.db.sessions[x.sid].status == Completed
          && s'.execs[e] == x.(pc := Finishing, sess := s.db.sessions[x.sid]))
    ensures ExecOk(s', e)
  {
  }

  lemma AdoptStep(s: State, e: Actor, ack: Ack)
    requires CoreInv(s) && AtPc(s, e) && s.execs[e].pc.Adopting?
    ensures CoreInv(StepAdopt(s, e, s.execs[e], ack))
  {
    HoldsClaim(s, e);
    AdoptShape(s, e, ack);
    AdoptLocal(s, StepAdopt(s, e, s.execs[e], ack), e);
    ExecOnly(s, StepAdopt(s, e, s.execs[e], ack), e);
  }

  lemma AbortLocal(s: State, e: Actor)
    requires AtPc(s, e) && s.execs[e].pc.Aborting? && ExecOk(s, e)
    ensures ExecOk(Detach(s, e, Releasing(UpstreamDown)), e)
    ensures s.execs[e].claim in s.db.claims && s.db.claims[s.execs[e].claim].subject.None?
    ensures LockedBy(s.db.claims[s.execs[e].claim], e, s.execs[e])
  {
  }

  lemma AbortShape(s: State, e: Actor, ack: Ack)
    requires e in s.execs
    ensures
      var s1 := Detach(s, e, Releasing(UpstreamDown));
      var s' := StepAbort(s, e, s.execs[e], ack);
      s' == s1 || s' == Write(s1, s.execs[e].sid, AbortConfirm(s.execs[e].claim))
  {
    WriteFrame(s, s.execs[e].sid, AbortConfirm(s.execs[e].claim));
  }

  lemma AbortStep(s: State, e: Actor, ack: Ack)
    requires CoreInv(s) && AtPc(s, e) && s.execs[e].pc.Aborting?
    ensures CoreInv(StepAbort(s, e, s.execs[e], ack))
  {
    AbortShape(s, e, ack);
    AbortDetached(s, e);
  }

  lemma AbortDetached(s: State, e: Actor)
    requires CoreInv(s) && AtPc(s, e) && s.execs[e].pc.Aborting?
    ensures
      var s1 := Detach(s, e, Releasing(UpstreamDown));
      CoreInv(s1) && CoreInv(Write(s1, s.execs[e].sid, AbortConfirm(s.execs[e].claim)))
  {
    assert ExecOk(s, e);
    AbortLocal(s, e);
    var s1 := Detach(s, e, Releasing(UpstreamDown));
    ExecOnly(s, s1, e);
    DropStep(s1, e, s.execs[e].sid, AbortConfirm(s.execs[e].claim));
  }

  lemma OrderLocal(s: State, e: Actor, s': State)
    requires AtPc(s, e) && s.execs[e].pc.Ordering? && ExecOk(s, e) && OnlyExec(s, s', e)
    requires
      var x := s.execs[e];
      || s'.execs[e] == x.(pc := Releasing(Rejected)) || s'.execs[e] == x.(pc := Releasing(UpstreamDown))
      || (OrderKey(x.user, x.sid, x.key) in s.orders
          && s'.execs[e] == x.(pc := Noting, orderId := s.orders[OrderKey(x.user, x.sid, x.key)].id))
    ensures ExecOk(s', e)
  {
  }

  lemma OrderExecs(s: State, s': State)
    requires ExecsOk(s) && s' == s.(attempts := s'.attempts, orders := s'.orders, nextOrder := s'.nextOrder)
    requires forall k :: k in s.orders ==> k in s'.orders && s'.orders[k] == s.orders[k]
    ensures ExecsOk(s')
  {
    forall e | e in s'.execs ensures ExecOk(s', e) { assert ExecOk(s, e); }
  }

  function Called(s: State, x: Execution): State {
    s.(attempts := s.attempts + {Attempt(x.user, x.sid, x.key, x.claim)})
  }

  lemma OrderShape(s: State, e: Actor, ack: Ack)
    requires AtPc(s, e) && s.execs[e].pc.Ordering?
    ensures
      var x := s.execs[e];
      var s1 := Called(s, x);
      var s2 := if ack == Good || ack == Lost then Place(s1, x) else s1;
      var s' := StepOrder(s, e, x, ack);
      && s2.execs == s.execs && s2.db == s.db && OnlyExec(s2, s', e)
      && s2 == s.(attempts := s2.attempts, orders := s2.orders, nextOrder := s2.nextOrder)
      && (forall k :: k in s.orders ==> k in s2.orders && s2.orders[k] == s.orders[k])
      && (|| s'.execs[e] == x.(pc := Releasing(Rejected)) || s'.execs[e] == x.(pc := Releasing(UpstreamDown))
          || (OrderKey(x.user, x.sid, x.key) in s2.orders
              && s'.execs[e] == x.(pc := Noting, orderId := s2.orders[OrderKey(x.user, x.sid, x.key)].id)))
  {
  }

  /** The call is recorded, and the order exists, under the claim that carries the marker. */
  lemma OrderStep(s: State, e: Actor, ack: Ack)
    requires CoreInv(s) && AtPc(s, e) && s.execs[e].pc.Ordering?
    ensures CoreInv(StepOrder(s, e, s.execs[e], ack))
  {
    var x := s.execs[e];
    var s1 := Called(s, x);
    var s2 := if ack == Good || ack == Lost then Place(s1, x) else s1;
    OrderShape(s, e, ack);
    OrderCalled(s, s2, e);
    OrderedFrom(s2, StepOrder(s, e, x, ack), e);
  }

  lemma OrderCalled(s: State, s2: State, e: Actor)
    requires CoreInv(s) && AtPc(s, e) && s.execs[e].pc.Ordering?
    requires s2 == Called(s, s.execs[e]) || s2 == Place(Called(s, s.execs[e]), s.execs[e])
    requires s2 == s.(attempts := s2.attempts, orders := s2.orders, nextOrder := s2.nextOrder)
    requires forall k :: k in s.orders ==> k in s2.orders && s2.orders[k] == s.orders[k]
    ensures CoreInv(s2)
  {
    assert ExecOk(s, e);
    OrderTables(s, Called(s, s.execs[e]), e);
    PlaceTables(Called(s, s.execs[e]), s.execs[e]);
    OrderExecs(s, s2);
  }

  lemma OrderedFrom(s: State, s': State, e: Actor)
    requires CoreInv(s) && AtPc(s, e) && s.execs[e].pc.Ordering? && OnlyExec(s, s', e)
    requires
      var x := s.execs[e];
      || s'.execs[e] == x.(pc := Releasing(Rejected)) || s'.execs[e] == x.(pc := Releasing(UpstreamDown))
      || (OrderKey(x.user, x.sid, x.key) in s.orders
          && s'.execs[e] == x.(pc := Noting, orderId := s.orders[OrderKey(x.user, x.sid, x.key)].id))
    ensures CoreInv(s')
  {
    assert ExecOk(s, e);
    OrderLocal(s, e, s');
    ExecOnly(s, s', e);
  }

  lemma OrderTables(s: State, s1: State, e: Actor)
    requires TablesOk(s) && AliveOwner(s, e) && ExecOk(s, e) && s.execs[e].pc.Ordering?
    requires s1 ==
      s.(attempts := s.attempts + {Attempt(s.execs[e].user, s.execs[e].sid, s.execs[e].key, s.execs[e].claim)})
    ensures TablesOk(s1)
  {
    forall k | k in s1.db.claims ensures ClaimOk(s1, k) { assert ClaimOk(s, k); }
    forall t | t in s1.db.sessions ensures RowOk(s1, t) { assert RowOk(s, t); }
    forall a | a in s1.attempts ensures AttemptOk(s1, a) { if a in s.attempts { assert AttemptOk(s, a); } }
    forall key | key in s1.orders ensures OrderOk(s1, key) { assert OrderOk(s, key); }
  }

  lemma PlaceTables(s: State, x: Execution)
    requires TablesOk(s) && Attempt(x.user, x.sid, x.key, x.claim) in s.attempts
    ensures TablesOk(Place(s, x))
  {
    var s' := Place(s, x);
    assert s' == s.(orders := s'.orders, nextOrder := s'.nextOrder);
    assert forall key :: key in s.orders ==> key in s'.orders && s'.orders[key] == s.orders[key];
    forall k | k in s'.db.claims ensures ClaimOk(s', k) { assert ClaimOk(s, k); }
    forall t | t in s'.db.sessions ensures RowOk(s', t) { assert RowOk(s, t); }
    forall a | a in s'.attempts ensures AttemptOk(s', a) { assert AttemptOk(s, a); }
    forall key | key in s'.orders ensures OrderOk(s', key) { if key in s.orders { assert OrderOk(s, key); } }
  }

  // ---- Preservation: the claim ----

  /** A takeover never robs a live owner, and a new row's id was never used. */
  lemma ClaimTables(s: State, e: Actor, x: Execution)
    requires CoreInv(s) && e in s.execs && s.execs[e] == x && x.pc.Claiming?
    ensures
      var answer := ClaimAnswerOf(s.db, s.takeover, x.user, x.key, x.sid);
      answer.Proceed? ==>
        var s1 := s.(db := ClaimDb(s.db, s.takeover, x.user, x.key, x.sid, e),
                     issued := s.issued[answer.id := ClaimName(x.user, x.key, x.sid)]);
        TablesOk(s1) && ExecsOk(s1)
  {
    var answer := ClaimAnswerOf(s.db, s.takeover, x.user, x.key, x.sid);
    if answer.Proceed? {
      var k := answer.id;
      var s1 := s.(db := ClaimDb(s.db, s.takeover, x.user, x.key, x.sid, e),
                   issued := s.issued[k := ClaimName(x.user, x.key, x.sid)]);
      if k in s.db.claims {
        ClaimTaken(s, s1, k, e);
      } else {
        ClaimInserted(s, s1, x, e);
      }
    }
  }

  lemma ClaimTaken(s: State, s1: State, k: ClaimId, e: Actor)
    requires CoreInv(s) && k in s.db.claims && Stale(s.db.claims[k].lock, s.takeover, s.db.now)
    requires s1 == s.(db := s.db.(claims := s.db.claims[k := s.db.claims[k].(lock := Held(s.db.now, e))]))
      .(issued := s.issued[k := ClaimName(s.db.claims[k].user, s.db.claims[k].key, s.db.claims[k].hash)])
    ensures TablesOk(s1) && ExecsOk(s1)
  {
    assert ClaimOk(s, k);
    assert s1.issued == s.issued;
    RelockTables(s, s1, k, e);
    forall e' | AliveOwner(s, e') ensures s.execs[e'].claim != k {
      if s.execs[e'].claim == k { OwnerNotStale(s, e'); }
    }
    RelockExecs(s, s1, k, e);
  }

  lemma RelockExecs(s: State, s1: State, k: ClaimId, e: Actor)
    requires ExecsOk(s) && k in s.db.claims && forall e' :: AliveOwner(s, e') ==> s.execs[e'].claim != k
    requires s1 == s.(db := s.db.(claims := s.db.claims[k := s.db.claims[k].(lock := Held(s.db.now, e))]))
    ensures ExecsOk(s1)
  {
    forall e' | e' in s1.execs ensures ExecOk(s1, e') { assert ExecOk(s, e'); }
  }

  lemma RelockTables(s: State, s1: State, k: ClaimId, e: Actor)
    requires TablesOk(s) && k in s.db.claims
    requires s1 == s.(db := s.db.(claims := s.db.claims[k := s.db.claims[k].(lock := Held(s.db.now, e))]))
    ensures TablesOk(s1)
  {
    forall a | a in s1.db.claims ensures ClaimOk(s1, a) { assert ClaimOk(s, a); }
    forall t | t in s1.db.sessions ensures RowOk(s1, t) { assert RowOk(s, t); }
    forall a | a in s1.attempts ensures AttemptOk(s1, a) { assert AttemptOk(s, a); }
    forall key | key in s1.orders ensures OrderOk(s1, key) { assert OrderOk(s, key); }
  }

  lemma ClaimInserted(s: State, s1: State, x: Execution, e: Actor)
    requires CoreInv(s) && FindClaim(s.db.claims, x.user, x.key).None?
    requires
      var k := s.db.nextClaim;
      s1 == s.(db := s.db.(nextClaim := k + 1,
        claims := s.db.claims[k := Claim(x.user, x.key, x.sid, Held(s.db.now, e), None, None, s.db.now)]))
        .(issued := s.issued[k := ClaimName(x.user, x.key, x.sid)])
    ensures TablesOk(s1) && ExecsOk(s1)
  {
    var k := s.db.nextClaim;
    assert k !in s.issued;
    forall a | a in s.db.claims ensures a in s.issued { assert ClaimOk(s, a); }
    InsertTables(s, s1, x, e);
    forall e' | e' in s1.execs ensures ExecOk(s1, e') { assert ExecOk(s, e'); }
  }

  lemma InsertTables(s: State, s1: State, x: Execution, e: Actor)
    requires TablesOk(s) && FindClaim(s.db.claims, x.user, x.key).None?
    requires s.db.nextClaim !in s.issued && s.db.nextClaim !in s.db.claims
    requires
      var k := s.db.nextClaim;
      s1 == s.(db := s.db.(nextClaim := k + 1,
        claims := s.db.claims[k := Claim(x.user, x.key, x.sid, Held(s.db.now, e), None, None, s.db.now)]))
        .(issued := s.issued[k := ClaimName(x.user, x.key, x.sid)])
    ensures TablesOk(s1)
  {
    forall a | a in s1.db.claims ensures ClaimOk(s1, a) { if a != s.db.nextClaim { assert ClaimOk(s, a); } }
    forall t | t in s1.db.sessions ensures RowOk(s1, t) { assert RowOk(s, t); }
    forall a | a in s1.attempts ensures AttemptOk(s1, a) { assert AttemptOk(s, a); }
    forall key | key in s1.orders ensures OrderOk(s1, key) { assert OrderOk(s, key); }
  }

  lemma ClaimLocal(s: State, e: Actor, pc: Pc)
    requires AtPc(s, e) && s.execs[e].pc.Claiming? && ExecOk(s, e) && pc.Done?
    requires pc.answer.Confirmed? ==> ShownBy(s.db.sessions[s.execs[e].sid], pc.answer.body)
    ensures ExecOk(Goto(s, e, pc), e)
  {
  }

  lemma ClaimedLocal(s: State, e: Actor, k: ClaimId, marked: bool)
    requires AtPc(s, e) && s.execs[e].pc.Claiming? && ExecOk(s, e)
    requires k in s.issued && s.issued[k] == ClaimName(s.execs[e].user, s.execs[e].key, s.execs[e].sid)
    requires k in s.db.claims && s.db.claims[k].response.None? && LockedBy(s.db.claims[k], e, s.execs[e])
    requires marked == s.db.claims[k].subject.Some?
    ensures ExecOk(s.(execs := s.execs[e := s.execs[e].(pc := Entering, claim := k, marked := marked)]), e)
  {
  }

  lemma ClaimReplay(s: State, e: Actor, body: Session)
    requires CoreInv(s) && AtPc(s, e) && s.execs[e].pc.Claiming?
    requires ClaimAnswerOf(s.db, s.takeover, s.execs[e].user, s.execs[e].key, s.execs[e].sid) == Replay(body)
    ensures s.execs[e].sid in s.db.sessions && ShownBy(s.db.sessions[s.execs[e].sid], body)
  {
    var k := FindClaim(s.db.claims, s.execs[e].user, s.execs[e].key).value;
    assert ClaimOk(s, k);
  }

  function Claimed(s: State, e: Actor, x: Execution, k: ClaimId, db: Db): State {
    s.(db := db, issued := s.issued[k := ClaimName(x.user, x.key, x.sid)])
  }

  lemma ClaimShape(s: State, e: Actor, ack: Ack)
    requires AtPc(s, e) && s.execs[e].pc.Claiming?
    ensures
      var x := s.execs[e];
      var s' := StepClaim(s, e, x, ack);
      var answer := ClaimAnswerOf(s.db, s.takeover, x.user, x.key, x.sid);
      var db := ClaimDb(s.db, s.takeover, x.user, x.key, x.sid, e);
      || s' == Refuse(s, e, Unavailable) || s' == Refuse(s, e, KeyConflict) || s' == Refuse(s, e, InFlight)
      || (answer.Replay? && s' == Goto(s, e, Done(Confirmed(answer.body))))
      || (answer.Proceed? && s' == Refuse(Claimed(s, e, x, answer.id, db), e, Unavailable))
      || (answer.Proceed? && s' == Claimed(s, e, x, answer.id, db)
            .(execs := s.execs[e := x.(pc := Entering, claim := answer.id, marked := answer.subject.Some?)]))
  {
  }

  lemma ClaimStep(s: State, e: Actor, ack: Ack)
    requires CoreInv(s) && AtPc(s, e) && s.execs[e].pc.Claiming?
    ensures CoreInv(StepClaim(s, e, s.execs[e], ack))
  {
    var x := s.execs[e];
    var answer := ClaimAnswerOf(s.db, s.takeover, x.user, x.key, x.sid);
    ClaimShape(s, e, ack);
    StopKeeps(s, e, Unavailable);
    StopKeeps(s, e, KeyConflict);
    StopKeeps(s, e, InFlight);
    if answer.Replay? {
      ClaimReplay(s, e, answer.body);
      ClaimReplayed(s, e, answer.body);
    } else if answer.Proceed? {
      ClaimProceeds(s, e);
    }
  }

  lemma ClaimReplayed(s: State, e: Actor, body: Session)
    requires CoreInv(s) && AtPc(s, e) && s.execs[e].pc.Claiming?
    requires s.execs[e].sid in s.db.sessions && ShownBy(s.db.sessions[s.execs[e].sid], body)
    ensures CoreInv(Goto(s, e, Done(Confirmed(body))))
  {
    assert ExecOk(s, e);
    ClaimLocal(s, e, Done(Confirmed(body)));
    GotoKeeps(s, e, Done(Confirmed(body)));
  }

  lemma ClaimDbFacts(s: State, e: Actor, x: Execution)
    requires ClaimAnswerOf(s.db, s.takeover, x.user, x.key, x.sid).Proceed? && s.db.nextClaim !in s.db.claims
    ensures
      var answer := ClaimAnswerOf(s.db, s.takeover, x.user, x.key, x.sid);
      var db := ClaimDb(s.db, s.takeover, x.user, x.key, x.sid, e);
      && answer.id in db.claims && db.claims[answer.id].response.None? && db.now == s.db.now
      && db.claims[answer.id].lock == Held(s.db.now, e) && db.sessions == s.db.sessions
      && answer.subject.Some? == db.claims[answer.id].subject.Some?
      && (answer.id in s.db.claims || answer.id == s.db.nextClaim)
  {
  }

  lemma ClaimProceeds(s: State, e: Actor)
    requires CoreInv(s) && AtPc(s, e) && s.execs[e].pc.Claiming?
    requires ClaimAnswerOf(s.db, s.takeover, s.execs[e].user, s.execs[e].key, s.execs[e].sid).Proceed?
    ensures
      var x := s.execs[e];
      var answer := ClaimAnswerOf(s.db, s.takeover, x.user, x.key, x.sid);
      var s1 := Claimed(s, e, x, answer.id, ClaimDb(s.db, s.takeover, x.user, x.key, x.sid, e));
      && CoreInv(Refuse(s1, e, Unavailable))
      && CoreInv(s1.(execs := s.execs[e := x.(pc := Entering, claim := answer.id, marked := answer.subject.Some?)]))
  {
    var x := s.execs[e];
    var answer := ClaimAnswerOf(s.db, s.takeover, x.user, x.key, x.sid);
    var s1 := Claimed(s, e, x, answer.id, ClaimDb(s.db, s.takeover, x.user, x.key, x.sid, e));
    ClaimTables(s, e, x);
    NextClaimUnused(s);
    ClaimDbFacts(s, e, x);
    ClaimEntered(s1, e, answer.id, answer.subject.Some?);
    StopKeeps(s1, e, Unavailable);
  }

  lemma NextClaimUnused(s: State)
    requires CoreInv(s)
    ensures s.db.nextClaim !in s.db.claims
  {
    forall k | k in s.db.claims ensures k < s.db.nextClaim { assert ClaimOk(s, k); }
  }

  lemma ClaimEntered(s: State, e: Actor, k: ClaimId, marked: bool)
    requires CoreInv(s) && AtPc(s, e) && s.execs[e].pc.Claiming?
    requires k in s.issued && s.issued[k] == ClaimName(s.execs[e].user, s.execs[e].key, s.execs[e].sid)
    requires k in s.db.claims && s.db.claims[k].response.None? && s.db.claims[k].lock == Held(s.db.now, e)
    requires marked == s.db.claims[k].subject.Some?
    ensures CoreInv(s.(execs := s.execs[e := s.execs[e].(pc := Entering, claim := k, marked := marked)]))
  {
    assert ExecOk(s, e);
    ClaimedLocal(s, e, k, marked);
    ExecOnly(s, s.(execs := s.execs[e := s.execs[e].(pc := Entering, claim := k, marked := marked)]), e);
  }

  // ---- Every event, every run ----

  lemma ExecStep(s: State, e: Actor, input: Input)
    requires CoreInv(s) && e in s.execs
    ensures CoreInv(StepOf(s, e, input))
  {
    var x := s.execs[e];
    var ack := input.ack;
    if Alive(s, x) {
      match x.pc
      case Reading => ReadStep(s, e, ack);
      case Lapsing => LapseStep(s, e, ack);
      case Claiming => ClaimStep(s, e, ack);
      case Entering => EnterStep(s, e, ack);
      case Recovering => RecoverStep(s, e, ack);
      case Rereading => RereadStep(s, e, ack);
      case Revalidating => RevalidateStep(s, e, input);
      case Requoting(items, subtotal, tax, d, why) =>
        DropExecStep(s, e, RequoteItems(x.claim, items, subtotal, tax, d), why, ack);
      case Redeeming => if x.sess.quote.promo.Some? { RedeemStep(s, e, input); }
      case Stripping(reason) => DropExecStep(s, e, StripPromo(x.claim), reason, ack);
      case Marking => MarkStep(s, e, ack);
      case Ordering => OrderStep(s, e, ack);
      case Noting => NoteStep(s, e, ack);
      case Completing => CompleteExecStep(s, e, ack);
      case Adopting => AdoptStep(s, e, ack);
      case Finishing => FinishStep(s, e, ack);
      case Aborting => AbortStep(s, e, ack);
      case Releasing(why) => ReleaseStep(s, e, why, ack);
      case Done(_) =>
    }
  }

  lemma HistoryOnly(s: State, s': State)
    requires CoreInv(s) && s' == s.(pending := s'.pending, quotes := s'.quotes)
    ensures CoreInv(s')
  {
    SameExecs(s, s');
    forall k | k in s'.db.claims ensures ClaimOk(s', k) { assert ClaimOk(s, k); }
    forall t | t in s'.db.sessions ensures RowOk(s', t) { assert RowOk(s, t); }
    forall a | a in s'.attempts ensures AttemptOk(s', a) { assert AttemptOk(s, a); }
    forall key | key in s'.orders ensures OrderOk(s', key) { assert OrderOk(s, key); }
  }

  lemma SameExecs(s: State, s': State)
    requires ExecsOk(s) && s' == s.(pending := s'.pending, quotes := s'.quotes)
    ensures ExecsOk(s')
  {
    forall e | e in s'.execs ensures ExecOk(s', e) { assert ExecOk(s, e); }
  }

  lemma UserWriteStep(s: State, call: nat, req: Request, ack: Ack)
    requires CoreInv(s) && call in s.pending
    ensures CoreInv(UserStep(s, call, req, ack))
  {
    var c := s.pending[call];
    var s' := UserStep(s, call, req, ack);
    match UserStmt(s.db, c, req) {
      case None => HistoryOnly(s, s');
      case Some(st) =>
        UserStmtBystander(s.db, c, req);
        BystanderStep(s, c.sid, st);
        HistoryOnly(if ack == Good || ack == Lost then Write(s, c.sid, st) else s, s');
    }
  }

  lemma StartStep(s: State, ev: Event)
    requires CoreInv(s) && ev.Start?
    ensures CoreInv(Next(s, ev))
  {
    if ev.e !in s.execs { ExecOnly(s, Next(s, ev), ev.e); }
  }

  lemma {:induction false} CoreStep(s: State, ev: Event)
    requires CoreInv(s)
    ensures CoreInv(Next(s, ev))
  {
    match ev
    case Pass(ms) => PassStep(s, ms);
    case Create(sid, user, items, at) => CreateStep(s, sid, user, items, at);
    case UserRead(_, _, _) => HistoryOnly(s, Next(s, ev));
    case UserWrite(call, req, ack) => if call in s.pending { UserWriteStep(s, call, req, ack); }
    case TouchRow(sid, at) => BystanderStep(s, sid, Touch(at));
    case FireTimer(sid) => BystanderStep(s, sid, ExpireTimer);
    case FireParked(sid) => ParkedStep(s, sid);
    case Reap(ttl) => ReapStep(s, ttl);
    case Start(_, _, _, _) => StartStep(s, ev);
    case Step(e, input) => if e in s.execs { ExecStep(s, e, input); }
    case Crash(e) => if e in s.execs && !s.execs[e].pc.Done? { StopKeeps(s, e, Crashed); }
  }

  lemma InitCore(s: State)
    requires Init(s)
    ensures CoreInv(s)
  {
  }

  lemma {:induction false} CoreRun(s0: State, evs: seq<Event>)
    requires Init(s0)
    ensures CoreInv(Run(s0, evs))
  {
    if evs == [] {
      InitCore(s0);
    } else {
      CoreRun(s0, evs[..|evs| - 1]);
      CoreStep(Run(s0, evs[..|evs| - 1]), evs[|evs| - 1]);
    }
  }
}
