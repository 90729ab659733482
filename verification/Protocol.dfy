/**
 * The confirm protocol as a step system. Every store write, upstream call and re-read is one atomic step of one
 * execution; user calls, the expiry timer, the reaper and the clock interleave freely, any execution may stop
 * after any step, and any write may be applied although its caller sees an error.
 */
module Protocol {
  import opened Base
  import opened Domain
  import opened Money
  import opened Ledger
  import opened Store
  import Catalog

  const CONFIRM_DEADLINE: Time := 15_000
  const RELEASE_TIMEOUT: Time := 3_000
  const MAX_CONFIRM_WRITE: Time := CONFIRM_DEADLINE + RELEASE_TIMEOUT

  datatype Refusal =
    | NoSession | Lapsed | Rejected | KeyConflict | InFlight | InvalidTransition | UpstreamDown | Unavailable
    | PriceChanged | StockUnavailable | AvailabilityUnknown | CodeExpired | CodeExhausted | Crashed

  datatype Answer = Confirmed(body: Session) | Refused(why: Refusal)

  /** The next action of a confirm execution. */
  datatype Pc =
    | Reading                 // ownedSession, lazyExpire, validateOrderBounds
    | Lapsing                 // MarkExpired, best effort
    | Claiming
    | Entering                // the entry gate on the pre-claim snapshot
    | Recovering              // Finish for a session found completed under this claim
    | Rereading
    | Revalidating
    | Requoting(items: seq<Item>, subtotal: int, tax: int, discount: int, why: Refusal)
    | Redeeming
    | Stripping(reason: Refusal)
    | Marking                 // the attempt marker
    | Ordering                // CreateOrder
    | Noting                  // Checkpoint with the order id, best effort
    | Completing
    | Adopting                // re-read after a stale completion
    | Finishing
    | Aborting                // detached AbortConfirm
    | Releasing(because: Refusal)
    | Done(answer: Answer)

  /** `limit` is the deadline of the context the next action runs under. */
  datatype Execution = Execution(
    user: UserId, sid: SessionId, key: string, started: Time, limit: Time, pc: Pc,
    sess: Session, claim: ClaimId, marked: bool, orderId: OrderId)

  /** Everything CreateOrder is told about the money. */
  datatype Payload = Payload(items: seq<Item>, token: Option<string>, fee: int, tax: int, discount: int)

  function PayloadOf(q: Quote): Payload { Payload(q.items, q.token, q.fee, q.tax, q.discount) }

  /** The composed idempotency key, scoped to the user. */
  datatype OrderKey = OrderKey(user: UserId, sid: SessionId, key: string)

  /** An order-service order; `claim` is a history value. */
  datatype Order = Order(id: OrderId, payload: Payload, claim: ClaimId)

  /** One CreateOrder call that was made, whatever came of it. */
  datatype Attempt = Attempt(user: UserId, sid: SessionId, key: string, claim: ClaimId)

  datatype ClaimName = ClaimName(user: UserId, key: string, sid: SessionId)

  /** A user call between its read and its write; its lazy-expiry check was made at the read, at time `at`. */
  datatype UserCall = UserCall(sid: SessionId, snap: Session, at: Time)

  datatype State = State(
    db: Db, takeover: Time,
    orders: map<OrderKey, Order>, nextOrder: OrderId,
    execs: map<Actor, Execution>, pending: map<nat, UserCall>,
    // history
    issued: map<ClaimId, ClaimName>, attempts: set<Attempt>, quotes: set<(string, string, int)>)

  datatype Request =
    | PutAddress(addr: Address)
    | PutShipping(shipMethod: string, answer: QuoteAnswer)
    | PutPayment(token: string)
    | ApplyPromo(code: string)
    | RemovePromo
    | Cancel
    | Get

  /** How a remote call went: acknowledged, applied but reported failed, not applied, or refused as invalid. */
  datatype Ack = Good | Lost | Failed | Invalid

  /** `judged` is the instant at which a redemption compares the code's expiry, before it commits. */
  datatype Input = Input(ack: Ack, got: Catalog.Reads, lookups: bool, judged: Time)

  datatype Event =
    | Pass(ms: nat)
    | Create(sid: SessionId, user: UserId, items: seq<Item>, expiresAt: Time)
    | UserRead(call: nat, user: UserId, sid: SessionId)
    | UserWrite(call: nat, req: Request, ack: Ack)
    | TouchRow(sid: SessionId, expiresAt: Time)
    | FireTimer(sid: SessionId)
    | FireParked(sid: SessionId)
    | Reap(ttl: Time)
    | Start(e: Actor, user: UserId, sid: SessionId, key: string)
    | Step(e: Actor, input: Input)
    | Crash(e: Actor)

  // ---- Service decisions on a snapshot ----

  /** lazyExpire's deadline test: confirming and terminal rows never expire lazily. */
  predicate LazyDue(snap: Session, now: Time) {
    !Terminal(snap.status) && snap.status != Confirming && snap.expiresAt <= now
  }

  function SessionDiscount(l: PromoLedger, promo: Option<string>, subtotal: int, fee: int, tax: int)
    : Result<int, Money.Failed>
  {
    if promo.None? || promo.value !in l.codes then Success(0)
    else DiscountFor(l.codes[promo.value], subtotal, fee, tax)
  }

  predicate HoldsPromo(s: Status) { s == Open || s == AddressSet || s == ShippingSet || s == Ready }

  /** The write a user call decides on from its snapshot, if it gets that far. */
  function UserStmt(db: Db, c: UserCall, req: Request): Option<Stmt> {
    var snap := c.snap;
    var q := snap.quote;
    if req.PutPayment? && !ValidPaymentToken(req.token) then None
    else if snap.status == Expired then None
    else if LazyDue(snap, c.at) then Some(MarkExpired)
    else
      match req
      case PutAddress(addr) =>
        if !CanTransition(snap.status, AddressSet) then None
        else
          (match SessionDiscount(db.ledger, q.promo, q.subtotal, 0, 0)
           case Failure(_) => None
           case Success(d) => Some(SetAddress(snap.status, addr, d)))
      case PutShipping(m, answer) =>
        if !CanTransition(snap.status, ShippingSet) || q.address.None? then None
        else
          (match PriceShipping(answer, RateFor(db.rates, q.address.value.country), q.subtotal)
           case Failure(_) => None
           case Success((fee, tax)) =>
             match SessionDiscount(db.ledger, q.promo, q.subtotal, fee, tax)
             case Failure(_) => None
             case Success(d) => Some(SetShipping(snap.status, snap.version, m, fee, tax, d)))
      case PutPayment(token) =>
        if !CanTransition(snap.status, Ready) then None
        else Some(SetPaymentToken(snap.status, token))
      case ApplyPromo(code) =>
        if !HoldsPromo(snap.status) || code !in db.ledger.codes then None
        else
          (match DiscountFor(db.ledger.codes[code], q.subtotal, q.fee, q.tax)
           case Failure(_) => None
           case Success(d) => Some(SetPromo(snap.status, Some(code), d)))
      case RemovePromo => if !HoldsPromo(snap.status) then None else Some(SetPromo(snap.status, None, 0))
      case Cancel => if !CanTransition(snap.status, Cancelled) then None else Some(UpdateStatus(snap.status, Cancelled))
      case Get => None
  }

  /** Tax and discount re-derived from a re-validated subtotal. */
  function Components(db: Db, q: Quote, subtotal: int): Option<(int, int)> {
    var tax :=
      if q.address.None? then Some(q.tax)
      else
        match RateFor(db.rates, q.address.value.country)
        case None => None
        case Some(bps) => FlatTax(Wrap(subtotal + q.fee), bps);
    if tax.None? then None
    else
      match SessionDiscount(db.ledger, q.promo, subtotal, q.fee, tax.value)
      case Failure(_) => None
      case Success(d) => Some((tax.value, d))
  }

  // ---- The steps of one confirm execution ----

  function Goto(s: State, e: Actor, pc: Pc): State
    requires e in s.execs
  {
    s.(execs := s.execs[e := s.execs[e].(pc := pc)])
  }

  function Refuse(s: State, e: Actor, why: Refusal): State
    requires e in s.execs
  {
    Goto(s, e, Done(Refused(why)))
  }

  /** A detached context starts now. */
  function Detach(s: State, e: Actor, pc: Pc): State
    requires e in s.execs
  {
    s.(execs := s.execs[e := s.execs[e].(pc := pc, limit := s.db.now + RELEASE_TIMEOUT)])
  }

  function Write(s: State, sid: SessionId, st: Stmt): State { s.(db := Exec(s.db, sid, st)) }

  function StepRead(s: State, e: Actor, x: Execution, ack: Ack): State
    requires e in s.execs
  {
    if ack != Good then Refuse(s, e, Unavailable)
    else if x.sid !in s.db.sessions || s.db.sessions[x.sid].user != x.user then Refuse(s, e, NoSession)
    else
      var r := s.db.sessions[x.sid];
      if r.status == Expired then Refuse(s, e, Lapsed)
      else if LazyDue(r, s.db.now) then Goto(s, e, Lapsing)
      else if !OrderBounds(r.quote) then Refuse(s, e, Rejected)
      else s.(execs := s.execs[e := x.(pc := Claiming, sess := r)])
  }

  function StepLapse(s: State, e: Actor, x: Execution, ack: Ack): State
    requires e in s.execs
  {
    Refuse(if ack == Failed then s else Write(s, x.sid, MarkExpired), e, Lapsed)
  }

  function StepClaim(s: State, e: Actor, x: Execution, ack: Ack): State
    requires e in s.execs
  {
    if ack == Failed || ack == Invalid then Refuse(s, e, Unavailable)
    else
      var answer := ClaimAnswerOf(s.db, s.takeover, x.user, x.key, x.sid);
      var s' := s.(db := ClaimDb(s.db, s.takeover, x.user, x.key, x.sid, e),
                   issued := if answer.Proceed? then s.issued[answer.id := ClaimName(x.user, x.key, x.sid)]
                     else s.issued);
      if ack == Lost then Refuse(s', e, Unavailable)
      else
        match answer
        case Conflict => Refuse(s', e, KeyConflict)
        case LockedOut => Refuse(s', e, InFlight)
        case Replay(body) => Goto(s', e, Done(Confirmed(body)))
        case Proceed(k, subject) =>
          s'.(execs := s'.execs[e := x.(pc := Entering, claim := k, marked := subject.Some?)])
  }

  function StepEnter(s: State, e: Actor, x: Execution, ack: Ack): State
    requires e in s.execs
  {
    match x.sess.status
    case Ready =>
      if ack == Failed || ack == Invalid then Goto(s, e, Releasing(Unavailable))
      else
        var won := OutcomeOf(s.db, x.sid, BeginConfirm(x.claim)) == Applied;
        var s' := Write(s, x.sid, BeginConfirm(x.claim));
        if ack == Lost then Goto(s', e, Releasing(Unavailable))
        else if won then Goto(s', e, Rereading)
        else Goto(s', e, Releasing(InFlight))
    case Confirming => Goto(s, e, if x.sess.confirmKey == Some(x.claim) then Rereading else Releasing(InFlight))
    case Completed =>
      Goto(s, e, if x.sess.confirmKey == Some(x.claim) then Recovering else Releasing(InvalidTransition))
    case _ => Goto(s, e, Releasing(InvalidTransition))
  }

  function StepRecover(s: State, e: Actor, x: Execution, ack: Ack): State
    requires e in s.execs
  {
    if ack == Failed || ack == Invalid then Goto(s, e, Releasing(Unavailable))
    else
      var s' := s.(db := FinishDb(s.db, x.claim, x.sess));
      if ack == Lost then Goto(s', e, Releasing(Unavailable)) else Goto(s', e, Done(Confirmed(x.sess)))
  }

  function StepReread(s: State, e: Actor, x: Execution, ack: Ack): State
    requires e in s.execs
  {
    if ack != Good then Refuse(s, e, Unavailable)
    else if x.sid in s.db.sessions && BoundConfirming(s.db.sessions[x.sid], x.claim) then
      s.(execs := s.execs[e := x.(pc := if x.marked then Ordering else Revalidating, sess := s.db.sessions[x.sid])])
    else Refuse(s, e, InFlight)
  }

  function StepRevalidate(s: State, e: Actor, x: Execution, input: Input): State
    requires e in s.execs
  {
    StepVerdict(s, e, x, Catalog.Revalidation(x.sess.quote.items, input.got), input.lookups)
  }

  function StepVerdict(s: State, e: Actor, x: Execution, v: Catalog.Verdict, lookups: bool): State
    requires e in s.execs
  {
    var q := x.sess.quote;
    match v
    case Retry => Detach(s, e, Aborting)
    case Untracked => Goto(s, e, Requoting(q.items, q.subtotal, q.tax, q.discount, AvailabilityUnknown))
    case Clean => Goto(s, e, if q.promo.Some? then Redeeming else Marking)
    case Drift(items, subtotal, short) =>
      match Components(s.db, q, subtotal)
      case None => Detach(s, e, Aborting)
      case Some((tax, d)) =>
        if !lookups then Detach(s, e, Aborting)
        else Goto(s, e, Requoting(items, subtotal, tax, d, if short then StockUnavailable else PriceChanged))
  }

  /** The two writes that drop a confirming row under its binding: any trouble answers 409 and keeps the lock. */
  function StepDrop(s: State, e: Actor, x: Execution, st: Stmt, why: Refusal, ack: Ack): State
    requires e in s.execs
  {
    if ack == Failed || ack == Invalid then Refuse(s, e, InFlight)
    else
      var done := OutcomeOf(s.db, x.sid, st) == Applied;
      var s' := Write(s, x.sid, st);
      if ack == Good && done then Goto(s', e, Releasing(why)) else Refuse(s', e, InFlight)
  }

  /** The instant lies within the execution; any other stands for the commit itself. */
  function JudgedAt(s: State, started: Time, judged: Time): Time {
    if started <= judged <= s.db.now then judged else s.db.now
  }

  /** The redemption transaction as one act at its commit, the expiry judged when it was. */
  function Redeems(s: State, x: Execution, input: Input): Redemption
    requires x.sess.quote.promo.Some?
  {
    Redeem(s.db.ledger, x.sess.quote.promo.value, x.user, x.sid, JudgedAt(s, x.started, input.judged))
  }

  function StepRedeem(s: State, e: Actor, x: Execution, input: Input): State
    requires e in s.execs && x.sess.quote.promo.Some?
  {
    var ack := input.ack;
    var r := Redeems(s, x, input);
    var s' := if r.Redeemed? && (ack == Good || ack == Lost) then s.(db := s.db.(ledger := r.ledger)) else s;
    if ack != Good then Detach(s', e, Aborting)
    else
      match r
      case Redeemed(_) => Goto(s', e, Marking)
      case PromoExpired => Goto(s', e, Stripping(CodeExpired))
      case _ => Goto(s', e, Stripping(CodeExhausted))
  }

  function StepMark(s: State, e: Actor, x: Execution, ack: Ack): State
    requires e in s.execs
  {
    if ack == Failed || ack == Invalid then Refuse(s, e, Unavailable)
    else
      var s' := s.(db := CheckpointDb(s.db, x.claim, 0));
      if ack == Lost then Refuse(s', e, Unavailable) else Goto(s', e, Ordering)
  }

  /** Create-or-replay on the composed key. */
  function Place(s: State, x: Execution): State {
    var k := OrderKey(x.user, x.sid, x.key);
    if k in s.orders then s
    else s.(orders := s.orders[k := Order(s.nextOrder, PayloadOf(x.sess.quote), x.claim)], nextOrder := s.nextOrder + 1)
  }

  function StepOrder(s: State, e: Actor, x: Execution, ack: Ack): State
    requires e in s.execs
  {
    var called := s.(attempts := s.attempts + {Attempt(x.user, x.sid, x.key, x.claim)});
    match ack
    case Invalid => Goto(called, e, Releasing(Rejected))
    case Failed => Goto(called, e, Releasing(UpstreamDown))
    case Lost => Goto(Place(called, x), e, Releasing(UpstreamDown))
    case Good =>
      var s' := Place(called, x);
      s'.(execs := s'.execs[e := x.(pc := Noting, orderId := s'.orders[OrderKey(x.user, x.sid, x.key)].id)])
  }

  function StepNote(s: State, e: Actor, x: Execution, ack: Ack): State
    requires e in s.execs
  {
    Goto(if ack == Good || ack == Lost then s.(db := CheckpointDb(s.db, x.claim, x.orderId)) else s, e, Completing)
  }

  function StepComplete(s: State, e: Actor, x: Execution, ack: Ack): State
    requires e in s.execs
  {
    if ack == Failed || ack == Invalid then Refuse(s, e, Unavailable)
    else
      var done := OutcomeOf(s.db, x.sid, CompleteSession(x.claim, x.orderId)) == Applied;
      var s' := Write(s, x.sid, CompleteSession(x.claim, x.orderId));
      if ack == Lost then Refuse(s', e, Unavailable)
      else if done then
        s'.(execs := s'.execs[e := x.(pc := Finishing,
          sess := x.sess.(status := Completed, orderId := Some(x.orderId)))])
      else Goto(s', e, Adopting)
  }

  function StepAdopt(s: State, e: Actor, x: Execution, ack: Ack): State
    requires e in s.execs
  {
    if ack != Good then Refuse(s, e, Unavailable)
    else if x.sid in s.db.sessions && s.db.sessions[x.sid].status == Completed
              && s.db.sessions[x.sid].confirmKey == Some(x.claim) then
      s.(execs := s.execs[e := x.(pc := Finishing, sess := s.db.sessions[x.sid])])
    else Refuse(s, e, InFlight)
  }

  function StepFinish(s: State, e: Actor, x: Execution, ack: Ack): State
    requires e in s.execs
  {
    if ack == Failed || ack == Invalid then Refuse(s, e, Unavailable)
    else
      var s' := s.(db := FinishDb(s.db, x.claim, x.sess));
      if ack == Lost then Refuse(s', e, Unavailable) else Goto(s', e, Done(Confirmed(x.sess)))
  }

  function StepAbort(s: State, e: Actor, x: Execution, ack: Ack): State
    requires e in s.execs
  {
    Detach(if ack == Good || ack == Lost then Write(s, x.sid, AbortConfirm(x.claim)) else s, e, Releasing(UpstreamDown))
  }

  function StepRelease(s: State, e: Actor, x: Execution, why: Refusal, ack: Ack): State
    requires e in s.execs
  {
    Refuse(if ack == Good || ack == Lost then s.(db := ReleaseDb(s.db, x.claim)) else s, e, why)
  }

  /** An execution can still act: it has not answered and its current context has not expired. */
  predicate Alive(s: State, x: Execution) { !x.pc.Done? && s.db.now <= x.limit }

  function StepOf(s: State, e: Actor, input: Input): State
    requires e in s.execs
  {
    var x := s.execs[e];
    var ack := input.ack;
    if !Alive(s, x) then s
    else
      match x.pc
      case Reading => StepRead(s, e, x, ack)
      case Lapsing => StepLapse(s, e, x, ack)
      case Claiming => StepClaim(s, e, x, ack)
      case Entering => StepEnter(s, e, x, ack)
      case Recovering => StepRecover(s, e, x, ack)
      case Rereading => StepReread(s, e, x, ack)
      case Revalidating => StepRevalidate(s, e, x, input)
      case Requoting(items, subtotal, tax, d, why) =>
        StepDrop(s, e, x, RequoteItems(x.claim, items, subtotal, tax, d), why, ack)
      case Redeeming => if x.sess.quote.promo.Some? then StepRedeem(s, e, x, input) else s
      case Stripping(reason) => StepDrop(s, e, x, StripPromo(x.claim), reason, ack)
      case Marking => StepMark(s, e, x, ack)
      case Ordering => StepOrder(s, e, x, ack)
      case Noting => StepNote(s, e, x, ack)
      case Completing => StepComplete(s, e, x, ack)
      case Adopting => StepAdopt(s, e, x, ack)
      case Finishing => StepFinish(s, e, x, ack)
      case Aborting => StepAbort(s, e, x, ack)
      case Releasing(why) => StepRelease(s, e, x, why, ack)
      case Done(_) => s
  }

  // ---- The whole system ----

  predicate ActiveFor(r: Session, user: UserId) { r.user == user && !Terminal(r.status) }

  /** A new row's money: nothing but the lines and their subtotal. */
  function QuoteOf(items: seq<Item>, subtotal: int): Quote {
    Quote(items, None, None, 0, 0, None, 0, subtotal, subtotal, None)
  }

  function FreshQuote(items: seq<Item>): Quote { QuoteOf(items, Wrap(Sum(items))) }

  const BLANK := Session("", Open, FreshQuote([]), None, None, 0, None, 0)

  /** INSERT: the quantity CHECK and the one-active-session unique index. */
  predicate Insertable(db: Db, sid: SessionId, user: UserId, items: seq<Item>) {
    && sid !in db.sessions
    && (forall i :: 0 <= i < |items| ==> items[i].quantity > 0)
    && (forall other :: other in db.sessions ==> !ActiveFor(db.sessions[other], user))
  }

  function InsertRow(db: Db, sid: SessionId, user: UserId, items: seq<Item>, q: Quote, expiresAt: Time): Db {
    if !Insertable(db, sid, user, items) then db
    else
      var r := Session(user, Open, q, None, None, expiresAt, None, db.tick + 1);
      db.(sessions := db.sessions[sid := r], tick := db.tick + 1)
  }

  /** What CreateSession inserts: the snapshot of the cart with its int64 subtotal. */
  function Insert(db: Db, sid: SessionId, user: UserId, items: seq<Item>, expiresAt: Time): Db {
    InsertRow(db, sid, user, items, FreshQuote(items), expiresAt)
  }

  function UserStep(s: State, call: nat, req: Request, ack: Ack): State
    requires call in s.pending
  {
    var c := s.pending[call];
    var s' := s.(pending := s.pending - {call});
    match UserStmt(s.db, c, req)
    case None => s'
    case Some(st) =>
      var quoted := if st.SetShipping? then s.quotes + {(st.shipMethod, c.snap.quote.address.value.country, st.fee)}
        else s.quotes;
      if ack == Good || ack == Lost then Write(s', c.sid, st).(quotes := quoted) else s'.(quotes := quoted)
  }

  function Next(s: State, ev: Event): State {
    match ev
    case Pass(ms) => s.(db := s.db.(now := s.db.now + ms))
    case Create(sid, user, items, at) => s.(db := Insert(s.db, sid, user, items, at))
    case UserRead(call, user, sid) =>
      if sid in s.db.sessions && s.db.sessions[sid].user == user
      then s.(pending := s.pending[call := UserCall(sid, s.db.sessions[sid], s.db.now)]) else s
    case UserWrite(call, req, ack) => if call in s.pending then UserStep(s, call, req, ack) else s
    case TouchRow(sid, at) => Write(s, sid, Touch(at))
    case FireTimer(sid) => Write(s, sid, ExpireTimer)
    case FireParked(sid) => Write(s, sid, ExpireParked(s.takeover))
    case Reap(ttl) => s.(db := ReapDb(s.db, ttl))
    case Start(e, user, sid, key) =>
      if e in s.execs then s
      else s.(execs := s.execs[e := Execution(user, sid, key, s.db.now, s.db.now + CONFIRM_DEADLINE, Reading, BLANK, 0,
        false, 0)])
    case Step(e, input) => if e in s.execs then StepOf(s, e, input) else s
    case Crash(e) => if e in s.execs && !s.execs[e].pc.Done? then Refuse(s, e, Crashed) else s
  }

  function Run(s: State, evs: seq<Event>): State {
    if evs == [] then s else Next(Run(s, evs[..|evs| - 1]), evs[|evs| - 1])
  }

  /** The startup gate on the lock takeover window. */
  predicate TakeoverAccepted(takeover: Time) { takeover > 4 * MAX_CONFIRM_WRITE }

  /** A fresh deployment: empty tables, any tax table and promo codes the schema admits. */
  ghost predicate Init(s: State) {
    && s.db.sessions == map[] && s.db.claims == map[] && s.db.ledger.uses == map[]
    && LedgerOk(s.db.ledger) && RatesOk(s.db.rates) && TakeoverAccepted(s.takeover)
    && s.orders == map[] && s.nextOrder == 1 && s.execs == map[] && s.pending == map[]
    && s.issued == map[] && s.attempts == {} && s.quotes == {}
  }

  lemma RunAppend(s: State, evs: seq<Event>, ev: Event)
    ensures Run(s, evs + [ev]) == Next(Run(s, evs), ev)
  {
    assert (evs + [ev])[..|evs|] == evs;
  }

  lemma {:induction false} RunConcat(s: State, a: seq<Event>, b: seq<Event>)
    ensures Run(s, a + b) == Run(Run(s, a), b)
  {
    if b == [] {
      assert a + b == a;
    } else {
      var m := b[..|b| - 1];
      RunConcat(s, a, m);
      assert (a + b)[..|a + b| - 1] == a + m;
    }
  }
}
