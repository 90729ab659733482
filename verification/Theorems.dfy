/** What the core invariant means, over every run of the confirm protocol. */
module Theorems {
  import opened Base
  import opened Domain
  import opened Money
  import opened Store
  import opened Protocol
  import opened Safety
  import Catalog

  // ---- One order per session ----

  /** CreateOrder is never called with two different keys for one session, whatever ran, crashed or interleaved. */
  lemma {:induction false} OneOrderKeyPerSession(s0: State, evs: seq<Event>)
    requires Init(s0)
    ensures forall a, b :: a in Run(s0, evs).attempts && b in Run(s0, evs).attempts && a.sid == b.sid ==> a == b
  {
    CoreRun(s0, evs);
    var s := Run(s0, evs);
    forall a, b | a in s.attempts && b in s.attempts && a.sid == b.sid ensures a == b {
      assert AttemptOk(s, a) && AttemptOk(s, b);
    }
  }

  /** So order-service holds at most one order of a session, and it was asked for by a recorded call. */
  lemma {:induction false} OneOrderPerSession(s0: State, evs: seq<Event>)
    requires Init(s0)
    ensures forall j, k :: j in Run(s0, evs).orders && k in Run(s0, evs).orders && j.sid == k.sid ==> j == k
  {
    CoreRun(s0, evs);
    var s := Run(s0, evs);
    forall j, k | j in s.orders && k in s.orders && j.sid == k.sid ensures j == k {
      assert OrderOk(s, j) && OrderOk(s, k);
      OneOrderKeyPerSession(s0, evs);
    }
  }

  // ---- Who writes session rows ----

  /** The UPDATE an event sends to a session row, if any. */
  function RowStmt(s: State, ev: Event): Option<(SessionId, Stmt)> {
    match ev
    case TouchRow(sid, at) => Some((sid, Touch(at)))
    case FireTimer(sid) => Some((sid, ExpireTimer))
    case FireParked(sid) => Some((sid, ExpireParked(s.takeover)))
    case UserWrite(call, req, ack) =>
      if call !in s.pending || (ack != Good && ack != Lost) then None
      else
        (match UserStmt(s.db, s.pending[call], req)
         case None => None
         case Some(st) => Some((s.pending[call].sid, st)))
    case Step(e, input) =>
      if e !in s.execs || !Alive(s, s.execs[e]) then None else ExecStmt(s.execs[e], input.ack)
    case _ => None
  }

  function ExecStmt(x: Execution, ack: Ack): Option<(SessionId, Stmt)> {
    if x.pc.Lapsing? && ack != Failed then Some((x.sid, MarkExpired))
    else if ack != Good && ack != Lost then None
    else
      match x.pc
      case Entering => if x.sess.status == Ready then Some((x.sid, BeginConfirm(x.claim))) else None
      case Requoting(items, subtotal, tax, d, _) => Some((x.sid, RequoteItems(x.claim, items, subtotal, tax, d)))
      case Stripping(_) => Some((x.sid, StripPromo(x.claim)))
      case Completing => Some((x.sid, CompleteSession(x.claim, x.orderId)))
      case Aborting => Some((x.sid, AbortConfirm(x.claim)))
      case _ => None
  }

  predicate ExecOnlyStmt(st: Stmt) {
    st.BeginConfirm? || st.RequoteItems? || st.StripPromo? || st.CompleteSession? || st.AbortConfirm?
  }

  // ---- What one execution step can touch outside its own record ----

  function SessionsAfter(s: State, w: Option<(SessionId, Stmt)>): map<SessionId, Session> {
    match w
    case None => s.db.sessions
    case Some((sid, st)) => Exec(s.db, sid, st).sessions
  }

  /** Claim rows keep their identity and their marker; the only new row is the next one; names are only added. */
  ghost predicate ClaimsGrow(s: State, s': State) {
    && (forall k :: k in s.db.claims ==>
         k in s'.db.claims && s'.db.claims[k].hash == s.db.claims[k].hash
         && (s.db.claims[k].subject.Some? ==> s'.db.claims[k].subject.Some?))
    && (forall k :: k in s'.db.claims ==> k in s.db.claims || k == s.db.nextClaim)
    && (forall k :: k in s.issued ==> k in s'.issued)
  }

  ghost predicate Framed(s: State, s': State, e: Actor, w: Option<(SessionId, Stmt)>) {
    && s'.db.sessions == SessionsAfter(s, w) && s'.db.now == s.db.now && s'.takeover == s.takeover
    && s'.db.rates == s.db.rates && s'.db.ledger.codes.Keys == s.db.ledger.codes.Keys && s'.pending == s.pending
    && s.db.ledger.uses.Keys <= s'.db.ledger.uses.Keys
    && s'.quotes == s.quotes
    && s'.db.tick == (if w.None? then s.db.tick else Exec(s.db, w.value.0, w.value.1).tick)
    && ClaimsGrow(s, s')
    && e in s.execs && e in s'.execs && s'.execs == s.execs[e := s'.execs[e]]
    && (s.execs[e].pc.Redeeming? || s'.db.ledger == s.db.ledger)
    && (forall k :: k in s'.db.claims && s'.db.claims[k].subject.Some? ==>
         (k in s.db.claims && s.db.claims[k].subject.Some?) || Sets(s.execs[e], k))
    && (forall key :: key in s.orders ==> key in s'.orders && s'.orders[key] == s.orders[key])
    && (forall key :: key in s'.orders ==>
         (key in s.orders && s'.orders[key] == s.orders[key]) || Creates(s.execs[e], key, s'.orders[key]))
  }

  /** The only steps that may set a marker, and the only one that may create an order. */
  predicate Sets(x: Execution, k: ClaimId) { (x.pc.Marking? || x.pc.Noting?) && k == x.claim }

  predicate Creates(x: Execution, key: OrderKey, o: Order) {
    x.pc.Ordering? && key == OrderKey(x.user, x.sid, x.key) && o.payload == PayloadOf(x.sess.quote)
      && o.claim == x.claim
  }

  /** The step keeps the execution's identity and snapshot, and enters no pricing state it was not in. */
  predicate Carries(x: Execution, x': Execution) {
    && x'.user == x.user && x'.sid == x.sid && x'.key == x.key && x'.started == x.started
    && (x.pc.Redeeming? || x.pc.Aborting? || x'.limit == x.limit) && (x.pc.Claiming? || x'.claim == x.claim)
    && (Gated(x'.pc) ==> Gated(x.pc) && x'.sess == x.sess && (x'.pc.Requoting? ==> x'.pc == x.pc))
  }

  /** Steps that only move their own execution. */
  lemma FrameExec(s: State, s': State, e: Actor)
    requires OnlyExec(s, s', e) && e in s.execs
    ensures Framed(s, s', e, None)
  {
  }

  lemma FrameRead(s: State, e: Actor, x: Execution, ack: Ack)
    requires e in s.execs && s.execs[e] == x && x.pc.Reading?
    ensures Framed(s, StepRead(s, e, x, ack), e, None)
    ensures Carries(x, StepRead(s, e, x, ack).execs[e])
  {
    ReadShape(s, e, ack);
    FrameExec(s, StepRead(s, e, x, ack), e);
  }

  lemma FrameReread(s: State, e: Actor, x: Execution, ack: Ack)
    requires e in s.execs
    ensures Framed(s, StepReread(s, e, x, ack), e, None)
  {
    FrameExec(s, StepReread(s, e, x, ack), e);
  }

  lemma FrameAdopt(s: State, e: Actor, x: Execution, ack: Ack)
    requires e in s.execs && s.execs[e] == x && x.pc.Adopting?
    ensures Framed(s, StepAdopt(s, e, x, ack), e, None)
    ensures Carries(x, StepAdopt(s, e, x, ack).execs[e])
  {
    FrameExec(s, StepAdopt(s, e, x, ack), e);
  }

  lemma VerdictOnly(s: State, e: Actor, x: Execution, v: Catalog.Verdict, lookups: bool)
    requires e in s.execs
    ensures OnlyExec(s, StepVerdict(s, e, x, v, lookups), e)
  {
  }

  lemma FrameVerdict(s: State, e: Actor, x: Execution, v: Catalog.Verdict, lookups: bool)
    requires e in s.execs
    ensures Framed(s, StepVerdict(s, e, x, v, lookups), e, None)
  {
    VerdictOnly(s, e, x, v, lookups);
    FrameExec(s, StepVerdict(s, e, x, v, lookups), e);
  }

  /** The claim either re-locks a row or inserts an unmarked one. */
  lemma ClaimDbShape(db: Db, takeover: Time, user: UserId, key: string, hash: SessionId, e: Actor)
    ensures
      var db' := ClaimDb(db, takeover, user, key, hash, e);
      || db' == db
      || (exists k :: k in db.claims && db' == db.(claims := db.claims[k := db.claims[k].(lock := Held(db.now, e))]))
      || (db.nextClaim !in db.claims
          && db' == db.(nextClaim := db.nextClaim + 1,
               claims := db.claims[db.nextClaim := Claim(user, key, hash, Held(db.now, e), None, None, db.now)]))
  {
  }

  lemma FrameClaimWrite(s: State, s': State, e: Actor, k: ClaimId, c: Claim)
    requires s' == s.(db := s'.db, issued := s'.issued, execs := s'.execs)
    requires s'.db == s.db.(claims := s.db.claims[k := c], nextClaim := s'.db.nextClaim)
    requires if k in s.db.claims then c == s.db.claims[k].(lock := c.lock) else k == s.db.nextClaim && c.subject.None?
    requires e in s.execs && e in s'.execs && s'.execs == s.execs[e := s'.execs[e]]
    requires forall k :: k in s.issued ==> k in s'.issued
    ensures Framed(s, s', e, None)
  {
  }

  lemma ClaimDbFrame(s: State, s': State, user: UserId, key: string, hash: SessionId, e: Actor)
    requires s'.db == ClaimDb(s.db, s.takeover, user, key, hash, e)
    requires s' == s.(db := s'.db, issued := s'.issued, execs := s'.execs)
    requires e in s.execs && e in s'.execs && s'.execs == s.execs[e := s'.execs[e]]
    requires forall k :: k in s.issued ==> k in s'.issued
    ensures Framed(s, s', e, None)
  {
    ClaimDbShape(s.db, s.takeover, user, key, hash, e);
    if s'.db != s.db {
      if k :|
        k in s.db.claims
        && s'.db == s.db.(claims := s.db.claims[k := s.db.claims[k].(lock := Held(s.db.now, e))]) {
        FrameClaimWrite(s, s', e, k, s.db.claims[k].(lock := Held(s.db.now, e)));
      } else {
        FrameClaimWrite(s, s', e, s.db.nextClaim, s'.db.claims[s.db.nextClaim]);
      }
    }
  }

  lemma FrameClaim(s: State, e: Actor, x: Execution, ack: Ack)
    requires e in s.execs && s.execs[e] == x && x.pc.Claiming?
    ensures Framed(s, StepClaim(s, e, x, ack), e, None)
  {
    var s' := StepClaim(s, e, x, ack);
    if ack == Failed || ack == Invalid {
      FrameExec(s, s', e);
    } else {
      ClaimDbFrame(s, s', x.user, x.key, x.sid, e);
    }
  }

  /** The execution after its claim, by the answer it was given. */
  lemma ClaimMoves(s: State, e: Actor, x: Execution, ack: Ack)
    requires e in s.execs && s.execs[e] == x
    ensures
      var x' := StepClaim(s, e, x, ack).execs[e];
      if ack != Good then x' == x.(pc := Done(Refused(Unavailable)))
      else
        match ClaimAnswerOf(s.db, s.takeover, x.user, x.key, x.sid)
        case Conflict => x' == x.(pc := Done(Refused(KeyConflict)))
        case LockedOut => x' == x.(pc := Done(Refused(InFlight)))
        case Replay(body) => x' == x.(pc := Done(Confirmed(body)))
        case Proceed(k, subject) => x' == x.(pc := Entering, claim := k, marked := subject.Some?)
  {
  }

  lemma CarryClaim(x: Execution, x': Execution)
    requires x.pc.Claiming?
    requires (x'.pc.Done? && x' == x.(pc := x'.pc))
      || (x'.pc.Entering? && x' == x.(pc := Entering, claim := x'.claim, marked := x'.marked))
    ensures Carries(x, x')
  {
  }

  lemma FrameWrite(s: State, s': State, e: Actor, sid: SessionId, st: Stmt)
    requires e in s.execs && e in s'.execs && s' == Write(s, sid, st).(execs := s.execs[e := s'.execs[e]])
    ensures Framed(s, s', e, Some((sid, st)))
  {
    WriteFrame(s, sid, st);
  }

  lemma FrameEnter(s: State, e: Actor, x: Execution, ack: Ack)
    requires e in s.execs && s.execs[e] == x && x.pc.Entering?
    ensures Framed(s, StepEnter(s, e, x, ack), e, ExecStmt(x, ack))
    ensures Carries(x, StepEnter(s, e, x, ack).execs[e])
  {
    var s' := StepEnter(s, e, x, ack);
    EnterShape(s, e, ack);
    if x.sess.status == Ready && (ack == Good || ack == Lost) {
      FrameWrite(s, s', e, x.sid, BeginConfirm(x.claim));
    } else {
      FrameExec(s, s', e);
    }
  }

  lemma DropCases(s: State, e: Actor, x: Execution, st: Stmt, why: Refusal, ack: Ack)
    requires e in s.execs
    ensures
      var s' := StepDrop(s, e, x, st, why, ack);
      var pc := if ack == Good && OutcomeOf(s.db, x.sid, st) == Applied then Releasing(why)
        else Done(Refused(InFlight));
      s' == Goto(if ack == Good || ack == Lost then Write(s, x.sid, st) else s, e, pc)
  {
  }

  lemma FrameDrop(s: State, e: Actor, x: Execution, st: Stmt, why: Refusal, ack: Ack)
    requires e in s.execs && s.execs[e] == x
    ensures Framed(s, StepDrop(s, e, x, st, why, ack), e, if ack == Good || ack == Lost then Some((x.sid, st))
      else None)
    ensures Carries(x, StepDrop(s, e, x, st, why, ack).execs[e])
  {
    DropCases(s, e, x, st, why, ack);
    var pc := if ack == Good && OutcomeOf(s.db, x.sid, st) == Applied then Releasing(why) else Done(Refused(InFlight));
    WriteFrame(s, x.sid, st);
    if ack == Good || ack == Lost {
      FrameWrite(s, Goto(Write(s, x.sid, st), e, pc), e, x.sid, st);
    } else {
      FrameExec(s, Goto(s, e, pc), e);
    }
  }

  lemma FrameLedger(s: State, s': State, e: Actor)
    requires e in s.execs && e in s'.execs
    requires s.execs[e].pc.Redeeming?
    requires s' == s.(db := s.db.(ledger := s'.db.ledger)).(execs := s.execs[e := s'.execs[e]])
    requires s'.db.ledger.codes.Keys == s.db.ledger.codes.Keys && s.db.ledger.uses.Keys <= s'.db.ledger.uses.Keys
    ensures Framed(s, s', e, None)
  {
  }

  lemma FrameRedeem(s: State, e: Actor, x: Execution, input: Input)
    requires e in s.execs && s.execs[e] == x && x.pc.Redeeming? && x.sess.quote.promo.Some?
    ensures Framed(s, StepRedeem(s, e, x, input), e, None)
  {
    RedeemShape(s, e, input);
    FrameLedger(s, StepRedeem(s, e, x, input), e);
  }

  lemma CarryRedeem(s: State, e: Actor, x: Execution, input: Input)
    requires e in s.execs && s.execs[e] == x && x.pc.Redeeming? && x.sess.quote.promo.Some?
    ensures Carries(x, StepRedeem(s, e, x, input).execs[e])
  {
    RedeemShape(s, e, input);
  }

  /** Creating, or finding, the order of the composed key. */
  lemma FrameOrders(s: State, s': State, e: Actor, x: Execution)
    requires e in s.execs && s.execs[e] == x && x.pc.Ordering? && e in s'.execs
    requires s' ==
      s.(orders := s'.orders, nextOrder := s'.nextOrder, attempts := s'.attempts, execs := s.execs[e := s'.execs[e]])
    requires s'.orders == s.orders || (
      var key := OrderKey(x.user, x.sid, x.key);
      key !in s.orders && key in s'.orders && s'.orders == s.orders[key := s'.orders[key]]
        && Creates(x, key, s'.orders[key]))
    ensures Framed(s, s', e, None)
  {
  }

  lemma OrderIs(s: State, e: Actor, x: Execution, ack: Ack)
    requires e in s.execs && s.execs[e] == x && x.pc.Ordering?
    ensures
      var s' := StepOrder(s, e, x, ack);
      var key := OrderKey(x.user, x.sid, x.key);
      && e in s'.execs
      && s' == s.(orders := s'.orders, nextOrder := s'.nextOrder, attempts := s'.attempts,
        execs := s.execs[e := s'.execs[e]])
      && (s'.orders == s.orders
          || (key !in s.orders && key in s'.orders && s'.orders == s.orders[key := s'.orders[key]]
            && Creates(x, key, s'.orders[key])))
  {
  }

  lemma CarryOrder(s: State, e: Actor, x: Execution, ack: Ack)
    requires e in s.execs && s.execs[e] == x && x.pc.Ordering?
    ensures Carries(x, StepOrder(s, e, x, ack).execs[e])
  {
  }

  lemma FrameOrder(s: State, e: Actor, x: Execution, ack: Ack)
    requires e in s.execs && s.execs[e] == x && x.pc.Ordering?
    ensures Framed(s, StepOrder(s, e, x, ack), e, None)
    ensures Carries(x, StepOrder(s, e, x, ack).execs[e])
  {
    OrderIs(s, e, x, ack);
    FrameOrders(s, StepOrder(s, e, x, ack), e, x);
    CarryOrder(s, e, x, ack);
  }

  /** The claim rows are rewritten in place; a marker may be added by the steps that set one, and is never removed. */
  ghost predicate ClaimsKept(a: map<ClaimId, Claim>, b: map<ClaimId, Claim>, x: Execution) {
    && b.Keys == a.Keys
    && forall k :: k in a ==>
         && b[k].hash == a[k].hash && (a[k].subject.Some? ==> b[k].subject.Some?)
         && (b[k].subject.Some? ==> a[k].subject.Some? || Sets(x, k))
  }

  /** A step that only rewrites claim rows and moves on. */
  lemma FrameGoto(s: State, s': State, e: Actor, pc: Pc)
    requires e in s.execs && s' == Goto(s.(db := s.db.(claims := s'.db.claims)), e, pc)
    requires ClaimsKept(s.db.claims, s'.db.claims, s.execs[e])
    requires Gated(pc) ==> Gated(s.execs[e].pc) && !pc.Requoting?
    ensures Framed(s, s', e, None) && Carries(s.execs[e], s'.execs[e])
  {
  }

  lemma FrameMark(s: State, e: Actor, x: Execution, ack: Ack)
    requires e in s.execs && s.execs[e] == x && x.pc.Marking?
    ensures Framed(s, StepMark(s, e, x, ack), e, None)
    ensures Carries(x, StepMark(s, e, x, ack).execs[e])
  {
    FrameGoto(s, StepMark(s, e, x, ack), e, StepMark(s, e, x, ack).execs[e].pc);
  }

  lemma FrameNote(s: State, e: Actor, x: Execution, ack: Ack)
    requires e in s.execs && s.execs[e] == x && x.pc.Noting?
    ensures Framed(s, StepNote(s, e, x, ack), e, None)
    ensures Carries(x, StepNote(s, e, x, ack).execs[e])
  {
    FrameGoto(s, StepNote(s, e, x, ack), e, Completing);
  }

  lemma FrameFinish(s: State, e: Actor, x: Execution, ack: Ack)
    requires e in s.execs && s.execs[e] == x && x.pc.Finishing?
    ensures Framed(s, StepFinish(s, e, x, ack), e, None)
    ensures Carries(x, StepFinish(s, e, x, ack).execs[e])
  {
    FrameGoto(s, StepFinish(s, e, x, ack), e, StepFinish(s, e, x, ack).execs[e].pc);
  }

  lemma FrameRecover(s: State, e: Actor, x: Execution, ack: Ack)
    requires e in s.execs && s.execs[e] == x && x.pc.Recovering?
    ensures Framed(s, StepRecover(s, e, x, ack), e, None)
    ensures Carries(x, StepRecover(s, e, x, ack).execs[e])
  {
    FrameGoto(s, StepRecover(s, e, x, ack), e, StepRecover(s, e, x, ack).execs[e].pc);
  }

  lemma FrameRelease(s: State, e: Actor, x: Execution, why: Refusal, ack: Ack)
    requires e in s.execs && s.execs[e] == x && x.pc.Releasing?
    ensures Framed(s, StepRelease(s, e, x, why, ack), e, None)
    ensures Carries(x, StepRelease(s, e, x, why, ack).execs[e])
  {
    FrameGoto(s, StepRelease(s, e, x, why, ack), e, Done(Refused(why)));
  }

  lemma FrameLapse(s: State, e: Actor, x: Execution, ack: Ack)
    requires e in s.execs && s.execs[e] == x && x.pc.Lapsing?
    ensures Framed(s, StepLapse(s, e, x, ack), e, if ack != Failed then Some((x.sid, MarkExpired)) else None)
    ensures Carries(x, StepLapse(s, e, x, ack).execs[e])
  {
    WriteFrame(s, x.sid, MarkExpired);
  }

  lemma CompleteMoves(s: State, e: Actor, x: Execution, ack: Ack)
    requires e in s.execs && s.execs[e] == x
    ensures
      var s' := StepComplete(s, e, x, ack);
      var st := CompleteSession(x.claim, x.orderId);
      && e in s'.execs
      && s' == (if ack == Good || ack == Lost then Write(s, x.sid, st) else s).(execs := s.execs[e := s'.execs[e]])
      && s'.execs[e] ==
        if ack != Good then x.(pc := Done(Refused(Unavailable)))
        else if OutcomeOf(s.db, x.sid, st) == Applied then
          x.(pc := Finishing, sess := x.sess.(status := Completed, orderId := Some(x.orderId)))
        else x.(pc := Adopting)
  {
  }

  lemma FrameComplete(s: State, e: Actor, x: Execution, ack: Ack)
    requires e in s.execs && s.execs[e] == x && x.pc.Completing?
    ensures Framed(s, StepComplete(s, e, x, ack), e,
      if ack == Good || ack == Lost then Some((x.sid, CompleteSession(x.claim, x.orderId))) else None)
    ensures Carries(x, StepComplete(s, e, x, ack).execs[e])
  {
    CompleteMoves(s, e, x, ack);
    var s' := StepComplete(s, e, x, ack);
    if ack == Good || ack == Lost {
      FrameWrite(s, s', e, x.sid, CompleteSession(x.claim, x.orderId));
    } else {
      FrameExec(s, s', e);
    }
  }

  lemma FrameAbort(s: State, e: Actor, x: Execution, ack: Ack)
    requires e in s.execs && s.execs[e] == x && x.pc.Aborting?
    ensures Framed(s, StepAbort(s, e, x, ack), e,
      if ack == Good || ack == Lost then Some((x.sid, AbortConfirm(x.claim))) else None)
    ensures Carries(x, StepAbort(s, e, x, ack).execs[e])
  {
    WriteFrame(s, x.sid, AbortConfirm(x.claim));
  }

  lemma StepFramed(s: State, e: Actor, input: Input)
    requires e in s.execs
    ensures Framed(s, StepOf(s, e, input), e, RowStmt(s, Step(e, input)))
    ensures !s.execs[e].pc.Rereading? && !s.execs[e].pc.Revalidating? ==>
      Carries(s.execs[e], StepOf(s, e, input).execs[e])
  {
    if Alive(s, s.execs[e]) {
      match s.execs[e].pc
      case Reading | Lapsing | Claiming => EarlyFramed(s, e, input);
      case Entering | Recovering => EnterFramed(s, e, input);
      case Rereading | Revalidating => CheckFramed(s, e, input);
      case Requoting(_, _, _, _, _) | Stripping(_) => DropFramed(s, e, input);
      case Redeeming => RedeemFramed(s, e, input);
      case Marking => MarkFramed(s, e, input);
      case Ordering | Noting => OrderFramed(s, e, input);
      case Completing => CompleteFramed(s, e, input);
      case Adopting | Finishing => FinishFramed(s, e, input);
      case _ => ReleaseFramed(s, e, input);
    }
  }

  lemma EarlyFramed(s: State, e: Actor, input: Input)
    requires e in s.execs && Alive(s, s.execs[e])
    requires (s.execs[e].pc.Reading? || s.execs[e].pc.Lapsing? || s.execs[e].pc.Claiming?)
    ensures Framed(s, StepOf(s, e, input), e, RowStmt(s, Step(e, input)))
    ensures Carries(s.execs[e], StepOf(s, e, input).execs[e])
  {
    var x := s.execs[e];
    match x.pc
    case Reading => FrameRead(s, e, x, input.ack);
    case Lapsing => FrameLapse(s, e, x, input.ack);
    case Claiming =>
      FrameClaim(s, e, x, input.ack);
      ClaimMoves(s, e, x, input.ack);
      CarryClaim(x, StepClaim(s, e, x, input.ack).execs[e]);
  }

  lemma EnterFramed(s: State, e: Actor, input: Input)
    requires e in s.execs && Alive(s, s.execs[e]) && (s.execs[e].pc.Entering? || s.execs[e].pc.Recovering?)
    ensures Framed(s, StepOf(s, e, input), e, RowStmt(s, Step(e, input)))
    ensures Carries(s.execs[e], StepOf(s, e, input).execs[e])
  {
    match s.execs[e].pc
    case Entering => FrameEnter(s, e, s.execs[e], input.ack);
    case Recovering => FrameRecover(s, e, s.execs[e], input.ack);
  }

  lemma CheckFramed(s: State, e: Actor, input: Input)
    requires e in s.execs && Alive(s, s.execs[e]) && (s.execs[e].pc.Rereading? || s.execs[e].pc.Revalidating?)
    ensures Framed(s, StepOf(s, e, input), e, RowStmt(s, Step(e, input)))
  {
    var x := s.execs[e];
    match x.pc
    case Rereading => FrameReread(s, e, x, input.ack);
    case Revalidating => FrameVerdict(s, e, x, Catalog.Revalidation(x.sess.quote.items, input.got), input.lookups);
  }

  lemma DropFramed(s: State, e: Actor, input: Input)
    requires e in s.execs && Alive(s, s.execs[e]) && (s.execs[e].pc.Requoting? || s.execs[e].pc.Stripping?)
    ensures Framed(s, StepOf(s, e, input), e, RowStmt(s, Step(e, input)))
    ensures Carries(s.execs[e], StepOf(s, e, input).execs[e])
  {
    var x := s.execs[e];
    match x.pc
    case Requoting(items, subtotal, tax, d, why) =>
      FrameDrop(s, e, x, RequoteItems(x.claim, items, subtotal, tax, d), why, input.ack);
    case Stripping(reason) => FrameDrop(s, e, x, StripPromo(x.claim), reason, input.ack);
  }

  lemma RedeemFramed(s: State, e: Actor, input: Input)
    requires e in s.execs && Alive(s, s.execs[e]) && s.execs[e].pc.Redeeming?
    ensures Framed(s, StepOf(s, e, input), e, RowStmt(s, Step(e, input)))
    ensures Carries(s.execs[e], StepOf(s, e, input).execs[e])
  {
    var x := s.execs[e];
    if x.sess.quote.promo.Some? {
      FrameRedeem(s, e, x, input);
      CarryRedeem(s, e, x, input);
    }
  }

  lemma MarkFramed(s: State, e: Actor, input: Input)
    requires e in s.execs && Alive(s, s.execs[e]) && s.execs[e].pc.Marking?
    ensures Framed(s, StepOf(s, e, input), e, RowStmt(s, Step(e, input)))
    ensures Carries(s.execs[e], StepOf(s, e, input).execs[e])
  {
    FrameMark(s, e, s.execs[e], input.ack);
  }

  lemma OrderFramed(s: State, e: Actor, input: Input)
    requires e in s.execs && Alive(s, s.execs[e]) && (s.execs[e].pc.Ordering? || s.execs[e].pc.Noting?)
    ensures Framed(s, StepOf(s, e, input), e, RowStmt(s, Step(e, input)))
    ensures Carries(s.execs[e], StepOf(s, e, input).execs[e])
  {
    match s.execs[e].pc
    case Ordering => FrameOrder(s, e, s.execs[e], input.ack);
    case Noting => FrameNote(s, e, s.execs[e], input.ack);
  }

  lemma CompleteFramed(s: State, e: Actor, input: Input)
    requires e in s.execs && Alive(s, s.execs[e]) && s.execs[e].pc.Completing?
    ensures Framed(s, StepOf(s, e, input), e, RowStmt(s, Step(e, input)))
    ensures Carries(s.execs[e], StepOf(s, e, input).execs[e])
  {
    FrameComplete(s, e, s.execs[e], input.ack);
  }

  lemma FinishFramed(s: State, e: Actor, input: Input)
    requires e in s.execs && Alive(s, s.execs[e]) && (s.execs[e].pc.Adopting? || s.execs[e].pc.Finishing?)
    ensures Framed(s, StepOf(s, e, input), e, RowStmt(s, Step(e, input)))
    ensures Carries(s.execs[e], StepOf(s, e, input).execs[e])
  {
    match s.execs[e].pc
    case Adopting => FrameAdopt(s, e, s.execs[e], input.ack);
    case Finishing => FrameFinish(s, e, s.execs[e], input.ack);
  }

  lemma ReleaseFramed(s: State, e: Actor, input: Input)
    requires e in s.execs && Alive(s, s.execs[e]) && (s.execs[e].pc.Aborting? || s.execs[e].pc.Releasing?)
    ensures Framed(s, StepOf(s, e, input), e, RowStmt(s, Step(e, input)))
    ensures Carries(s.execs[e], StepOf(s, e, input).execs[e])
  {
    match s.execs[e].pc
    case Aborting => FrameAbort(s, e, s.execs[e], input.ack);
    case Releasing(why) => FrameRelease(s, e, s.execs[e], why, input.ack);
  }

  /** Apart from creation, a session row changes only by the one UPDATE its event sends. */
  lemma OnlyWriters(s: State, ev: Event)
    ensures
      var s' := Next(s, ev);
      match RowStmt(s, ev)
      case Some((sid, st)) =>
        && s'.db.sessions == Exec(s.db, sid, st).sessions
        && (Bystander(st) || st.ExpireParked? || ExecOnlyStmt(st))
      case None =>
        || s'.db.sessions == s.db.sessions
        || (ev.Create? && ev.sid !in s.db.sessions && s'.db.sessions.Keys == s.db.sessions.Keys + {ev.sid}
            && s'.db.sessions[ev.sid].status == Open && s'.db.sessions - {ev.sid} == s.db.sessions)
  {
    match ev
    case Step(e, input) => if e in s.execs { StepWrites(s, e, input); }
    case UserWrite(call, req, ack) => UserOnlyWrites(s, call, req, ack);
    case Create(sid, user, items, at) => CreateWrites(s.db, sid, user, items, at);
    case _ =>
  }

  lemma CreateWrites(db: Db, sid: SessionId, user: UserId, items: seq<Item>, at: Time)
    ensures
      var db' := Insert(db, sid, user, items, at);
      || db' == db
      || (sid !in db.sessions && db'.sessions.Keys == db.sessions.Keys + {sid}
          && db'.sessions[sid].status == Open && db'.sessions - {sid} == db.sessions)
  {
  }

  lemma UserOnlyWrites(s: State, call: nat, req: Request, ack: Ack)
    ensures
      var w := RowStmt(s, UserWrite(call, req, ack));
      && Next(s, UserWrite(call, req, ack)).db.sessions == SessionsAfter(s, w)
      && (w.Some? ==> Bystander(w.value.1))
  {
    if call in s.pending { UserStmtBystander(s.db, s.pending[call], req); }
  }

  lemma StepWrites(s: State, e: Actor, input: Input)
    requires e in s.execs
    ensures StepOf(s, e, input).db.sessions == SessionsAfter(s, RowStmt(s, Step(e, input)))
    ensures
      var w := RowStmt(s, Step(e, input));
      w.Some? ==> Bystander(w.value.1) || ExecOnlyStmt(w.value.1)
  {
    StepFramed(s, e, input);
  }

  lemma RowDelta(s: State, ev: Event, sid: SessionId)
    requires sid in s.db.sessions
    ensures
      var s' := Next(s, ev);
      && sid in s'.db.sessions
      && (s'.db.sessions[sid] == s.db.sessions[sid]
          || (RowStmt(s, ev).Some? && RowStmt(s, ev).value.0 == sid && Hits(s, sid, RowStmt(s, ev).value.1)
              && s'.db.sessions[sid] == NewRow(s.db, sid, RowStmt(s, ev).value.1)
              && (Bystander(RowStmt(s, ev).value.1) || RowStmt(s, ev).value.1.ExpireParked?
                || ExecOnlyStmt(RowStmt(s, ev).value.1))))
  {
    OnlyWriters(s, ev);
    match RowStmt(s, ev) {
      case Some((t, st)) => WriteIsPut(s, t, st);
      case None => if ev.Create?
        { assert sid in (Next(s, ev).db.sessions - {ev.sid}) || Next(s, ev).db.sessions == s.db.sessions; }
    }
  }

  // ---- What other people's events leave alone ----

  predicate Concerns(ev: Event, e: Actor) {
    (ev.Start? && ev.e == e) || (ev.Step? && ev.e == e) || (ev.Crash? && ev.e == e)
  }

  lemma {:induction false} OthersKeep(s: State, evs: seq<Event>, e: Actor)
    requires e in s.execs && forall ev :: ev in evs ==> !Concerns(ev, e)
    ensures e in Run(s, evs).execs && Run(s, evs).execs[e] == s.execs[e]
  {
    if evs != [] {
      var before := evs[..|evs| - 1];
      OthersKeep(s, before, e);
      OtherKeeps(Run(s, before), evs[|evs| - 1], e);
    }
  }

  lemma OtherKeeps(s: State, ev: Event, e: Actor)
    requires e in s.execs && !Concerns(ev, e)
    ensures e in Next(s, ev).execs && Next(s, ev).execs[e] == s.execs[e]
  {
    if ev.Step? && ev.e in s.execs { StepFramed(s, ev.e, ev.input); }
  }

  lemma NewcomerReads(s: State, ev: Event, e: Actor)
    requires e !in s.execs && e in Next(s, ev).execs
    ensures Next(s, ev).execs[e].pc.Reading?
  {
    if ev.Step? && ev.e in s.execs { StepFramed(s, ev.e, ev.input); }
  }

  /** Only its own live step moves an execution to, or along, the gate. */
  lemma OtherExecSame(s: State, ev: Event, e: Actor)
    requires e in Next(s, ev).execs && !(ev.Step? && ev.e == e && e in s.execs && Alive(s, s.execs[e]))
    ensures (e in s.execs && Next(s, ev).execs[e] == s.execs[e]) || !Gated(Next(s, ev).execs[e].pc)
  {
    if e in s.execs && !Concerns(ev, e) {
      OtherKeeps(s, ev, e);
    } else if e !in s.execs {
      NewcomerReads(s, ev, e);
    }
  }

  lemma TimeGrows(s: State, ev: Event)
    ensures s.db.now <= Next(s, ev).db.now
  {
    if ev.Step? && ev.e in s.execs { StepFramed(s, ev.e, ev.input); }
  }

  lemma TakeoverFixed(s: State, ev: Event)
    ensures Next(s, ev).takeover == s.takeover
  {
    if ev.Step? && ev.e in s.execs { StepFramed(s, ev.e, ev.input); }
  }

  lemma {:induction false} CoreFrom(s: State, evs: seq<Event>)
    requires CoreInv(s)
    ensures CoreInv(Run(s, evs))
  {
    if evs != [] {
      CoreFrom(s, evs[..|evs| - 1]);
      CoreStep(Run(s, evs[..|evs| - 1]), evs[|evs| - 1]);
    }
  }

  // ---- The FSM refined by every statement of every run ----

  lemma StmtEdge(s: State, sid: SessionId, st: Stmt)
    requires Hits(s, sid, st) && (Bystander(st) || st.ExpireParked? || ExecOnlyStmt(st))
    ensures sid in s.db.sessions
    ensures
      var from, to := s.db.sessions[sid].status, NewRow(s.db, sid, st).status;
      && !Terminal(from)
      && (if st.Touch? || st.SetPromo? then from == to
          else CanTransition(from, to) || (st.ExpireParked? && from == Confirming && to == Expired))
    ensures NewRow(s.db, sid, st).user == s.db.sessions[sid].user
  {
  }

  /** Every status change is an edge of the FSM table, except ExpireDue's guarded confirming -> expired. */
  lemma {:induction false} StatusChangesAreEdges(s: State, ev: Event, sid: SessionId)
    requires sid in s.db.sessions
    ensures sid in Next(s, ev).db.sessions
    ensures
      var from, to := s.db.sessions[sid].status, Next(s, ev).db.sessions[sid].status;
      from != to ==> CanTransition(from, to) || (ev.FireParked? && from == Confirming && to == Expired)
    ensures Next(s, ev).db.sessions[sid].user == s.db.sessions[sid].user
  {
    RowDelta(s, ev, sid);
    ParkedOnlyFired(s, ev);
    var s' := Next(s, ev);
    if s'.db.sessions[sid] != s.db.sessions[sid] {
      HitEdge(s, sid, RowStmt(s, ev).value.1, s'.db.sessions[sid]);
    }
  }

  lemma HitEdge(s: State, sid: SessionId, st: Stmt, r': Session)
    requires Hits(s, sid, st) && (Bystander(st) || st.ExpireParked? || ExecOnlyStmt(st)) && r' == NewRow(s.db, sid, st)
    ensures
      var from, to := s.db.sessions[sid].status, r'.status;
      !Terminal(from)
        && (from != to ==> CanTransition(from, to) || (st.ExpireParked? && from == Confirming && to == Expired))
    ensures r'.user == s.db.sessions[sid].user
  {
    StmtEdge(s, sid, st);
  }

  lemma ParkedOnlyFired(s: State, ev: Event)
    ensures RowStmt(s, ev).Some? && RowStmt(s, ev).value.1.ExpireParked? ==> ev.FireParked?
  {
    if ev.UserWrite? && ev.call in s.pending {
      UserStmtBystander(s.db, s.pending[ev.call], ev.req);
    }
  }

  /** A terminal row is never written again. */
  lemma TerminalFixed(s: State, ev: Event, sid: SessionId)
    requires sid in s.db.sessions && Terminal(s.db.sessions[sid].status)
    ensures sid in Next(s, ev).db.sessions && Next(s, ev).db.sessions[sid] == s.db.sessions[sid]
  {
    RowDelta(s, ev, sid);
    if Next(s, ev).db.sessions[sid] != s.db.sessions[sid] {
      StmtEdge(s, sid, RowStmt(s, ev).value.1);
    }
  }

  lemma {:induction false} TerminalForever(s: State, more: seq<Event>, sid: SessionId)
    requires sid in s.db.sessions && Terminal(s.db.sessions[sid].status)
    ensures sid in Run(s, more).db.sessions && Run(s, more).db.sessions[sid] == s.db.sessions[sid]
  {
    if more != [] {
      TerminalForever(s, more[..|more| - 1], sid);
      TerminalFixed(Run(s, more[..|more| - 1]), more[|more| - 1], sid);
    }
  }

  /** At most one active session per user, in every reachable state. */
  ghost predicate OneActive(s: State) {
    forall a, b :: a in s.db.sessions && b in s.db.sessions && a != b && Live(s, a) && Live(s, b) ==>
      s.db.sessions[a].user != s.db.sessions[b].user
  }

  predicate Live(s: State, sid: SessionId) { sid in s.db.sessions && !Terminal(s.db.sessions[sid].status) }

  /** A row that is live after an event either is the one just created, or was live before for the same user. */
  lemma LiveBefore(s: State, ev: Event, sid: SessionId)
    requires Live(Next(s, ev), sid)
    ensures
      if sid in s.db.sessions then Live(s, sid) && s.db.sessions[sid].user == Next(s, ev).db.sessions[sid].user
      else
        && ev.Create? && ev.sid == sid && Insertable(s.db, sid, ev.user, ev.items)
        && Next(s, ev).db.sessions[sid].user == ev.user
  {
    if sid in s.db.sessions {
      StatusChangesAreEdges(s, ev, sid);
      TerminalIfSo(s, ev, sid);
    } else {
      NewcomerIs(s, ev, sid);
    }
  }

  lemma TerminalIfSo(s: State, ev: Event, sid: SessionId)
    requires sid in s.db.sessions
    ensures sid in Next(s, ev).db.sessions
    ensures Terminal(s.db.sessions[sid].status) ==> Terminal(Next(s, ev).db.sessions[sid].status)
  {
    RowDelta(s, ev, sid);
    if Terminal(s.db.sessions[sid].status) { TerminalFixed(s, ev, sid); }
  }

  lemma NewcomerIs(s: State, ev: Event, sid: SessionId)
    requires sid !in s.db.sessions && sid in Next(s, ev).db.sessions
    ensures ev.Create? && ev.sid == sid && Insertable(s.db, sid, ev.user, ev.items)
    ensures Next(s, ev).db.sessions[sid].user == ev.user
  {
    OnlyWriters(s, ev);
    match RowStmt(s, ev) {
      case Some((t, st)) => WriteIsPut(s, t, st);
      case None =>
    }
  }

  lemma OneActiveStep(s: State, ev: Event)
    requires OneActive(s)
    ensures OneActive(Next(s, ev))
  {
    var s' := Next(s, ev);
    forall a, b | a in s'.db.sessions && b in s'.db.sessions && a != b && Live(s', a) && Live(s', b)
      ensures s'.db.sessions[a].user != s'.db.sessions[b].user
    {
      LiveBefore(s, ev, a);
      LiveBefore(s, ev, b);
      if a in s.db.sessions && ev.Create? {
        assert Live(s, a) ==> !ActiveFor(s.db.sessions[a], ev.user) || b in s.db.sessions;
      }
      if b in s.db.sessions && ev.Create? {
        assert Live(s, b) ==> !ActiveFor(s.db.sessions[b], ev.user) || a in s.db.sessions;
      }
    }
  }

  lemma {:induction false} OneActivePerUser(s0: State, evs: seq<Event>)
    requires Init(s0)
    ensures OneActive(Run(s0, evs))
  {
    if evs != [] {
      OneActivePerUser(s0, evs[..|evs| - 1]);
      OneActiveStep(Run(s0, evs[..|evs| - 1]), evs[|evs| - 1]);
    }
  }

  // ---- The marker and the binding ----

  /** What never goes away once an attempt may exist: the binding, with the marker or a completed row behind it. */
  predicate Committed(s: State, sid: SessionId, k: ClaimId) {
    && Tied(s, sid, k)
    && (if k in s.db.claims then s.db.claims[k].hash == sid && s.db.claims[k].subject.Some?
        else k in s.issued && s.db.sessions[sid].status == Completed)
  }

  lemma StepClaims(s: State, ev: Event, k: ClaimId)
    requires k in s.db.claims && s.db.claims[k].subject.Some?
    ensures
      var s' := Next(s, ev);
      if k in s'.db.claims then s'.db.claims[k].hash == s.db.claims[k].hash && s'.db.claims[k].subject.Some?
      else ev.Reap? && s.db.claims[k].response.Some?
  {
    if ev.Step? && ev.e in s.execs { StepFramed(s, ev.e, ev.input); }
  }

  lemma IssuedGrows(s: State, ev: Event)
    requires CoreInv(s)
    ensures forall k :: k in s.issued ==> k in Next(s, ev).issued && (k !in s.db.claims ==> k !in Next(s, ev).db.claims)
  {
    NextClaimUnused(s);
    NamesGrow(s, ev);
  }

  lemma NamesGrow(s: State, ev: Event)
    requires s.db.nextClaim !in s.db.claims && forall k :: k in s.issued ==> k < s.db.nextClaim
    ensures forall k :: k in s.issued ==> k in Next(s, ev).issued && (k !in s.db.claims ==> k !in Next(s, ev).db.claims)
  {
    if ev.Step? && ev.e in s.execs { StepFramed(s, ev.e, ev.input); }
  }

  lemma CommittedStep(s: State, ev: Event, sid: SessionId, k: ClaimId)
    requires CoreInv(s) && Committed(s, sid, k)
    ensures Committed(Next(s, ev), sid, k)
  {
    var s' := Next(s, ev);
    CoreStep(s, ev);
    IssuedGrows(s, ev);
    if k in s.db.claims {
      assert ClaimOk(s, k);
      StepClaims(s, ev, k);
      if k in s'.db.claims {
        assert ClaimOk(s', k);
      } else {
        TerminalFixed(s, ev, sid);
      }
    } else {
      TerminalFixed(s, ev, sid);
    }
  }

  lemma {:induction false} CommittedForever(s0: State, evs: seq<Event>, more: seq<Event>, sid: SessionId, k: ClaimId)
    requires Init(s0) && Committed(Run(s0, evs), sid, k)
    ensures Committed(Run(s0, evs + more), sid, k)
  {
    if more == [] {
      assert evs + more == evs;
    } else {
      var m := more[..|more| - 1];
      CommittedForever(s0, evs, m, sid, k);
      CommittedNext(s0, evs + m, more[|more| - 1], sid, k);
      assert evs + more == (evs + m) + [more[|more| - 1]];
    }
  }

  lemma CommittedNext(s0: State, evs: seq<Event>, ev: Event, sid: SessionId, k: ClaimId)
    requires Init(s0) && Committed(Run(s0, evs), sid, k)
    ensures Committed(Run(s0, evs + [ev]), sid, k)
  {
    CoreRun(s0, evs);
    CommittedStep(Run(s0, evs), ev, sid, k);
    RunAppend(s0, evs, ev);
  }

  /** The inductive core: the binding of an attempted claim survives every event. */
  lemma {:induction false} MarkedClaimStaysBound(s0: State, evs: seq<Event>, more: seq<Event>, k: ClaimId)
    requires Init(s0)
    requires k in Run(s0, evs).db.claims && Run(s0, evs).db.claims[k].subject.Some?
    ensures Tied(Run(s0, evs + more), Run(s0, evs).db.claims[k].hash, k)
  {
    CoreRun(s0, evs);
    var s := Run(s0, evs);
    assert ClaimOk(s, k);
    CommittedForever(s0, evs, more, s.db.claims[k].hash, k);
  }

  // ---- Deadline fencing ----

  /**
   * In every reachable state, while an execution can still write under a claim: it is the only one, the claim
   * answers any same-key request with "locked", and the parked-confirm expiry of its session cannot fire.
   */
  lemma {:induction false} Fenced(s0: State, evs: seq<Event>, e: Actor)
    requires Init(s0) && AliveOwner(Run(s0, evs), e) && Run(s0, evs).execs[e].claim in Run(s0, evs).db.claims
    ensures
      var s := Run(s0, evs);
      var x := s.execs[e];
      && (forall e' :: AliveOwner(s, e') && s.execs[e'].claim == x.claim ==> e' == e)
      && !Stale(s.db.claims[x.claim].lock, s.takeover, s.db.now)
      && !ClaimAnswerOf(s.db, s.takeover, x.user, x.key, x.sid).Proceed?
      && (Tied(s, x.sid, x.claim) ==> Next(s, FireParked(x.sid)) == s)
  {
    CoreRun(s0, evs);
    FencedAt(Run(s0, evs), e);
  }

  lemma FencedAt(s: State, e: Actor)
    requires CoreInv(s) && AliveOwner(s, e) && s.execs[e].claim in s.db.claims
    ensures
      var x := s.execs[e];
      && (forall e' :: AliveOwner(s, e') && s.execs[e'].claim == x.claim ==> e' == e)
      && !Stale(s.db.claims[x.claim].lock, s.takeover, s.db.now)
      && !ClaimAnswerOf(s.db, s.takeover, x.user, x.key, x.sid).Proceed?
      && (Tied(s, x.sid, x.claim) ==> Next(s, FireParked(x.sid)) == s)
  {
    var x := s.execs[e];
    assert ExecOk(s, e) && ClaimOk(s, x.claim);
    OwnerNotStale(s, e);
    forall e' | AliveOwner(s, e') && s.execs[e'].claim == x.claim ensures e' == e { SoleOwner(s, e, e'); }
    LockAnswers(s.db, s.takeover, x.claim, x.sid);
    ParkedMisses(s, x.sid, x.claim);
  }

  /** A held lock that is not stale never lets a same-name request through. */
  lemma LockAnswers(db: Db, takeover: Time, k: ClaimId, sid: SessionId)
    requires UniqueNames(db.claims) && k in db.claims && !Stale(db.claims[k].lock, takeover, db.now)
    ensures !ClaimAnswerOf(db, takeover, db.claims[k].user, db.claims[k].key, sid).Proceed?
  {
    var c := db.claims[k];
    assert Named(c, c.user, c.key);
    var j := FindClaim(db.claims, c.user, c.key).value;
    assert Named(db.claims[j], c.user, c.key);
  }

  lemma ParkedMisses(s: State, sid: SessionId, k: ClaimId)
    requires k in s.db.claims && !Stale(s.db.claims[k].lock, s.takeover, s.db.now)
    ensures Tied(s, sid, k) ==> Next(s, FireParked(sid)) == s
  {
  }

  /**
   * When a step can still change anything, in any store, at order-service or in its own record: never later than
   * ConfirmDeadline + 2 x releaseTimeout after the start, and past MaxConfirmWrite if and only if it is a release under
   * a deadline that late. It then frees its lock, and does so exactly when the call reaches the database.
   */
  lemma {:induction false} LatestWrite(s0: State, evs: seq<Event>, e: Actor, input: Input)
    requires Init(s0) && e in Run(s0, evs).execs
    ensures
      var s := Run(s0, evs);
      var x := s.execs[e];
      var s' := Next(s, Step(e, input));
      var past := s.db.now > x.started + MAX_CONFIRM_WRITE;
      var releases := x.pc.Releasing? && x.started + MAX_CONFIRM_WRITE < s.db.now <= x.limit;
      && (s' != s ==> s.db.now <= x.started + 21_000 < x.started + s.takeover)
      && (s' != s && past <==> releases)
      && (past && s' != s ==>
        s' == s.(execs := s'.execs, db := s'.db) && (s'.db == s.db || s'.db == ReleaseDb(s.db, x.claim)))
      && (s'.db != s.db && past <==> releases && x.claim in s.db.claims && (input.ack == Good || input.ack == Lost))
  {
    CoreRun(s0, evs);
    var s := Run(s0, evs);
    assert ExecOk(s, e);
    LateIsRelease(s, e, input);
  }

  lemma LateIsRelease(s: State, e: Actor, input: Input)
    requires e in s.execs && ExecOk(s, e)
    ensures
      var x := s.execs[e];
      var s' := StepOf(s, e, input);
      var past := s.db.now > x.started + MAX_CONFIRM_WRITE;
      var releases := x.pc.Releasing? && x.started + MAX_CONFIRM_WRITE < s.db.now <= x.limit;
      && (s' != s ==> s.db.now <= x.started + LAST_WRITE)
      && (s' != s && past <==> releases)
      && (past && s' != s ==>
        s' == s.(execs := s'.execs, db := s'.db) && (s'.db == s.db || s'.db == ReleaseDb(s.db, x.claim)))
      && (s'.db != s.db && past <==> releases && x.claim in s.db.claims && (input.ack == Good || input.ack == Lost))
  {
    var x := s.execs[e];
    if Alive(s, x) && x.pc.Releasing? {
      ReleaseShape(s, e, x.pc.because, input.ack);
      ReleaseFrees(s, e);
    }
  }

  lemma ReleaseShape(s: State, e: Actor, why: Refusal, ack: Ack)
    requires e in s.execs
    ensures
      var x := s.execs[e];
      StepRelease(s, e, x, why, ack) ==
        Refuse(if ack == Good || ack == Lost then s.(db := ReleaseDb(s.db, x.claim)) else s, e, why)
  {
  }

  /** A live owner's claim row, if it is there, is locked; so releasing it changes it. */
  lemma ReleaseFrees(s: State, e: Actor)
    requires AliveOwner(s, e) && ExecOk(s, e)
    ensures ReleaseDb(s.db, s.execs[e].claim) != s.db <==> s.execs[e].claim in s.db.claims
  {
    var k := s.execs[e].claim;
    if k in s.db.claims { assert ReleaseDb(s.db, k).claims[k].lock == Free; }
  }

  /** The execution's current context ends later than MaxConfirmWrite after its start. */
  predicate Late(s: State, e: Actor) {
    e in s.execs && !s.execs[e].pc.Done? && s.execs[e].limit > s.execs[e].started + MAX_CONFIRM_WRITE
  }

  /** The detached abort is made when ConfirmDeadline has already passed. */
  predicate AbortsLate(s: State, ev: Event, e: Actor) {
    && ev.Step? && ev.e == e && e in s.execs && s.execs[e].pc == Aborting
    && s.execs[e].started + CONFIRM_DEADLINE < s.db.now <= s.execs[e].limit
  }

  /**
   * In every run an event gives an execution a context that outlasts MaxConfirmWrite if and only if it is that
   * execution's abort made past ConfirmDeadline; the context is then the release that follows it.
   */
  lemma {:induction false} GoesLateExactly(s0: State, evs: seq<Event>, e: Actor, ev: Event)
    requires Init(s0) && !Late(Run(s0, evs), e)
    ensures
      var s := Run(s0, evs);
      var s' := Next(s, ev);
      && (Late(s', e) <==> AbortsLate(s, ev, e))
      && (Late(s', e) ==>
           s'.execs[e] == s.execs[e].(pc := Releasing(UpstreamDown), limit := s.db.now + RELEASE_TIMEOUT))
  {
    CoreRun(s0, evs);
    GoesLateAt(Run(s0, evs), e, ev);
  }

  lemma GoesLateAt(s: State, e: Actor, ev: Event)
    requires CoreInv(s) && !Late(s, e)
    ensures
      var s' := Next(s, ev);
      && (Late(s', e) <==> AbortsLate(s, ev, e))
      && (Late(s', e) ==>
           s'.execs[e] == s.execs[e].(pc := Releasing(UpstreamDown), limit := s.db.now + RELEASE_TIMEOUT))
  {
    if e !in s.execs {
      if e in Next(s, ev).execs { StartIsEarly(s, ev, e); }
    } else if !Concerns(ev, e) {
      OtherKeeps(s, ev, e);
    } else if ev.Step? {
      StepKeepsExec(s, e, ev.input);
      StepGoesLate(s, e, ev.input);
    }
  }

  lemma StepKeepsExec(s: State, e: Actor, input: Input)
    requires CoreInv(s) && e in s.execs
    ensures ExecOk(s, e) && (e in Next(s, Step(e, input)).execs ==> ExecOk(Next(s, Step(e, input)), e))
  {
    CoreStep(s, Step(e, input));
    ExecsHold(Next(s, Step(e, input)), e);
  }

  lemma ExecsHold(s: State, e: Actor)
    requires CoreInv(s)
    ensures e in s.execs ==> ExecOk(s, e)
  {
  }

  lemma StepGoesLate(s: State, e: Actor, input: Input)
    requires e in s.execs && !Late(s, e) && ExecOk(s, e)
    requires e in StepOf(s, e, input).execs ==> ExecOk(StepOf(s, e, input), e)
    ensures
      var s' := StepOf(s, e, input);
      && (Late(s', e) <==> AbortsLate(s, Step(e, input), e))
      && (Late(s', e) ==>
           s'.execs[e] == s.execs[e].(pc := Releasing(UpstreamDown), limit := s.db.now + RELEASE_TIMEOUT))
  {
    if AtPc(s, e) && s.execs[e].pc == Aborting {
      AbortMoves(s, e, input);
    } else if AtPc(s, e) && Late(StepOf(s, e, input), e) {
      LimitKept(s, e, input, StepOf(s, e, input).execs[e]);
    }
  }

  lemma AbortMoves(s: State, e: Actor, input: Input)
    requires AtPc(s, e) && s.execs[e].pc == Aborting
    ensures e in StepOf(s, e, input).execs
    ensures StepOf(s, e, input).execs[e] ==
      s.execs[e].(pc := Releasing(UpstreamDown), limit := s.db.now + RELEASE_TIMEOUT)
  {
    AbortShape(s, e, input.ack);
  }

  lemma StartIsEarly(s: State, ev: Event, e: Actor)
    requires e !in s.execs && e in Next(s, ev).execs
    ensures Next(s, ev).execs[e].limit <= Next(s, ev).execs[e].started + MAX_CONFIRM_WRITE
  {
    if ev.Step? && ev.e in s.execs { StepFramed(s, ev.e, ev.input); }
  }

  /** Everybody else starts a release, if any, under the deadline they already had. */
  lemma LimitKept(s: State, e: Actor, input: Input, x': Execution)
    requires AtPc(s, e) && s.execs[e].pc != Aborting && e in StepOf(s, e, input).execs
    requires StepOf(s, e, input).execs[e] == x'
    requires x'.pc.Releasing?
    ensures x'.limit == s.execs[e].limit && x'.started == s.execs[e].started
  {
    match s.execs[e].pc
    case Redeeming => if s.execs[e].sess.quote.promo.Some? { RedeemShape(s, e, input); }
    case Revalidating =>
      RevalidateShape(s, e, Catalog.Revalidation(s.execs[e].sess.quote.items, input.got), input.lookups);
    case Rereading => RereadSame(s, e, input.ack);
    case _ => StepFramed(s, e, input);
  }

  lemma RereadSame(s: State, e: Actor, ack: Ack)
    requires e in s.execs
    ensures
      var x' := StepReread(s, e, s.execs[e], ack).execs[e];
      x'.limit == s.execs[e].limit && x'.started == s.execs[e].started
  {
  }

  /** The run holds an abort of this execution made past ConfirmDeadline. */
  ghost predicate AbortedLate(s0: State, evs: seq<Event>, e: Actor) {
    evs != []
    && (AbortedLate(s0, evs[..|evs| - 1], e) || AbortsLate(Run(s0, evs[..|evs| - 1]), evs[|evs| - 1], e))
  }

  lemma {:induction false} LateWasAborted(s0: State, evs: seq<Event>, e: Actor)
    requires Init(s0) && Late(Run(s0, evs), e)
    ensures AbortedLate(s0, evs, e)
  {
    if evs != [] {
      var before := evs[..|evs| - 1];
      if Late(Run(s0, before), e) {
        LateWasAborted(s0, before, e);
      } else {
        GoesLateExactly(s0, before, e, evs[|evs| - 1]);
      }
    }
  }

  /**
   * MaxConfirmWrite bounds an execution's writes in exactly the runs that hold no abort of it made past
   * ConfirmDeadline: without one nothing changes past it, and with one the release at its own deadline writes the
   * database past it.
   */
  lemma {:induction false} WriteBoundHolds(s0: State, evs: seq<Event>, e: Actor, input: Input)
    requires Init(s0) && e in Run(s0, evs).execs && !AbortedLate(s0, evs, e)
    ensures
      var s := Run(s0, evs);
      Next(s, Step(e, input)) != s ==> s.db.now <= s.execs[e].started + 18_000
  {
    LatestWrite(s0, evs, e, input);
    if Late(Run(s0, evs), e) { LateWasAborted(s0, evs, e); }
  }

  lemma {:induction false} WriteBoundFails(s0: State, evs: seq<Event>, e: Actor, ev: Event, input: Input)
    requires Init(s0) && AbortsLate(Run(s0, evs), ev, e) && (input.ack == Good || input.ack == Lost)
    ensures
      var u := Run(s0, evs + [ev] + [Pass(RELEASE_TIMEOUT)]);
      && e in u.execs && u.db.now > u.execs[e].started + MAX_CONFIRM_WRITE && Next(u, Step(e, input)).db != u.db
  {
    var s := Run(s0, evs);
    CoreRun(s0, evs);
    AbortingHolds(s, e);
    RunAppend(s0, evs, ev);
    RunAppend(s0, evs + [ev], Pass(RELEASE_TIMEOUT));
    AbortMoves(s, e, ev.input);
    AbortClaims(s, e, ev.input);
    LatestWrite(s0, evs + [ev] + [Pass(RELEASE_TIMEOUT)], e, input);
  }

  lemma AbortingHolds(s: State, e: Actor)
    requires CoreInv(s) && AtPc(s, e) && s.execs[e].pc == Aborting
    ensures s.execs[e].claim in s.db.claims
  {
    HoldsClaim(s, e);
  }

  lemma AbortClaims(s: State, e: Actor, input: Input)
    requires AtPc(s, e) && s.execs[e].pc == Aborting
    ensures StepOf(s, e, input).db.claims == s.db.claims && StepOf(s, e, input).db.now == s.db.now
  {
    WriteFrame(s, s.execs[e].sid, AbortConfirm(s.execs[e].claim));
  }

  // ---- ABA-freedom ----

  /**
   * Whenever Complete, Requote, Strip or Abort succeeds for an execution, the row's quote (items, address, fee,
   * tax, promo, discount, token, totals) is exactly what that execution re-read after the gate.
   */
  lemma {:induction false} NoABA(s0: State, evs: seq<Event>, e: Actor, input: Input)
    requires Init(s0) && e in Run(s0, evs).execs && RowStmt(Run(s0, evs), Step(e, input)).Some?
    ensures
      var s := Run(s0, evs);
      var (sid, st) := RowStmt(s, Step(e, input)).value;
      (st.CompleteSession? || Drops(st)) && Hits(s, sid, st) ==>
        sid in s.db.sessions && s.db.sessions[sid].quote == s.execs[e].sess.quote
  {
    CoreRun(s0, evs);
    assert ExecOk(Run(s0, evs), e);
    NoABAAt(Run(s0, evs), e, input);
  }

  lemma NoABAAt(s: State, e: Actor, input: Input)
    requires e in s.execs && ExecOk(s, e) && RowStmt(s, Step(e, input)).Some?
    ensures
      var (sid, st) := RowStmt(s, Step(e, input)).value;
      (st.CompleteSession? || Drops(st)) && Hits(s, sid, st) ==>
        sid in s.db.sessions && s.db.sessions[sid].quote == s.execs[e].sess.quote
  {
  }

  // ---- All answers agree ----

  /** A successful answer shows the completed row: its quote and the one order of the session's composed key. */
  lemma {:induction false} AnswerShowsRow(s0: State, evs: seq<Event>, e: Actor)
    requires Init(s0) && e in Run(s0, evs).execs && Run(s0, evs).execs[e].pc.Done?
    requires Run(s0, evs).execs[e].pc.answer.Confirmed?
    ensures ShowsItsRow(Run(s0, evs), e)
  {
    CoreRun(s0, evs);
    assert ExecOk(Run(s0, evs), e);
    assert RowOk(Run(s0, evs), Run(s0, evs).execs[e].sid);
  }

  predicate ShowsItsRow(s: State, e: Actor)
    requires e in s.execs && s.execs[e].pc.Done? && s.execs[e].pc.answer.Confirmed?
  {
    var x := s.execs[e];
    var body := x.pc.answer.body;
    && x.sid in s.db.sessions
    && var r := s.db.sessions[x.sid];
    && r.status == Completed && r.confirmKey.Some? && body.quote == r.quote && body.orderId == r.orderId
    && r.confirmKey.value in s.issued
    && OrderKey(r.user, x.sid, s.issued[r.confirmKey.value].key) in s.orders
    && r.orderId == Some(s.orders[OrderKey(r.user, x.sid, s.issued[r.confirmKey.value].key)].id)
  }

  /** Fresh, replayed, recovered or adopted: all successful answers for a session carry one order and one quote. */
  lemma {:induction false} AnswersAgree(s0: State, evs: seq<Event>, e: Actor, e': Actor)
    requires Init(s0)
    requires
      var s := Run(s0, evs);
      && e in s.execs && e' in s.execs && s.execs[e].sid == s.execs[e'].sid
      && s.execs[e].pc.Done? && s.execs[e].pc.answer.Confirmed?
      && s.execs[e'].pc.Done? && s.execs[e'].pc.answer.Confirmed?
    ensures
      var s := Run(s0, evs);
      var a, b := s.execs[e].pc.answer.body, s.execs[e'].pc.answer.body;
      && a.orderId == b.orderId && a.quote == b.quote && a.orderId.Some?
      && s.execs[e].sid in s.db.sessions && s.db.sessions[s.execs[e].sid].orderId == a.orderId
      && exists k :: k in s.orders && k.sid == s.execs[e].sid && Some(s.orders[k].id) == a.orderId
  {
    AnswerShowsRow(s0, evs, e);
    AnswerShowsRow(s0, evs, e');
  }

  /** A claim is finished only if its session is completed under it, and its cached body is what the row shows. */
  lemma {:induction false} FinishedMeansCompleted(s0: State, evs: seq<Event>, k: ClaimId)
    requires Init(s0) && k in Run(s0, evs).db.claims && Run(s0, evs).db.claims[k].response.Some?
    ensures
      var s := Run(s0, evs);
      var c := s.db.claims[k];
      && Tied(s, c.hash, k) && s.db.sessions[c.hash].status == Completed
      && c.response.value.quote == s.db.sessions[c.hash].quote
        && c.response.value.orderId == s.db.sessions[c.hash].orderId
  {
    CoreRun(s0, evs);
    assert ClaimOk(Run(s0, evs), k);
  }

  // ---- The bound claim outlives the reaper ----

  /** The claim a confirming session is bound to exists, unfinished, in every reachable state: no reap removes it. */
  lemma {:induction false} BoundClaimNeverReaped(s0: State, evs: seq<Event>, sid: SessionId, ttl: Time)
    requires Init(s0) && sid in Run(s0, evs).db.sessions && Run(s0, evs).db.sessions[sid].status == Confirming
    ensures
      var s := Run(s0, evs);
      var r := s.db.sessions[sid];
      && r.confirmKey.Some? && r.confirmKey.value in ReapDb(s.db, ttl).claims
      && s.db.claims[r.confirmKey.value].response.None? && s.db.claims[r.confirmKey.value].hash == sid
  {
    CoreRun(s0, evs);
    var s := Run(s0, evs);
    assert RowOk(s, sid);
    assert ClaimOk(s, s.db.sessions[sid].confirmKey.value);
  }

  /** So an abort that matches has seen the claim row itself, unattempted; never merely its absence. */
  lemma {:induction false} AbortSawTheClaim(s0: State, evs: seq<Event>, sid: SessionId, k: ClaimId)
    requires Init(s0) && Hits(Run(s0, evs), sid, AbortConfirm(k))
    ensures k in Run(s0, evs).db.claims && Run(s0, evs).db.claims[k].subject.None?
  {
    BoundClaimNeverReaped(s0, evs, sid, 0);
  }
}
