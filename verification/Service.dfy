/** The user calls of CheckoutService: what each one decides from the row it read, writes, and answers. */
module Service {
  import opened Base
  import opened Domain
  import opened Money
  import opened Ledger
  import opened Store
  import opened Protocol
  import opened Repository
  import Catalog

  datatype Fault =
    | SessionExpired | TransitionRefused | InvalidToken | PriceFault(why: Failed)
    | PromoUnknown | PromoLapsed | PromoSpent | NotWritten | StoreDown

  /** How the store calls of one user call go; `lookups` says whether its tax and promo reads answer. */
  datatype Fates = Fates(expire: Ack, lookups: bool, write: Ack, touch: Ack, reread: Ack)

  /** A call that takes effect, whatever its caller hears. */
  predicate Reaches(ack: Ack) { ack == Good || ack == Lost }

  /** The advisory checks of an apply; the authoritative gate is the redemption at confirm. */
  predicate PreviewOk(db: Db, c: UserCall, code: string) {
    && code in db.ledger.codes && !PastExpiry(db.ledger.codes[code], db.now)
    && !CodeSpent(db.ledger.codes[code]) && !UserSpent(db.ledger, code, c.snap.user)
  }

  /** The requests that read tax rules or a promo code before they write. */
  predicate Looks(c: UserCall, req: Request) {
    match req
    case PutAddress(_) => c.snap.quote.promo.Some?
    case PutShipping(_, _) => true
    case ApplyPromo(_) => true
    case _ => false
  }

  /** The statement a call comes to: a failed lookup ends it before its own write. */
  function Decided(db: Db, c: UserCall, req: Request, f: Fates): Option<Stmt> {
    var st := UserStmt(db, c, req);
    if st.Some? && !st.value.MarkExpired? && !f.lookups && Looks(c, req) then None else st
  }

  /** The statement a call decided on, then the deadline bump of a mutation that was acknowledged. */
  function Applying(db: Db, sid: SessionId, st: Option<Stmt>, ttl: nat, f: Fates): Db {
    match st
    case None => db
    case Some(MarkExpired) => if Reaches(f.expire) then Exec(db, sid, Stmt.MarkExpired) else db
    case Some(st) =>
      if !Reaches(f.write) then db
      else
        var db' := Exec(db, sid, st);
        if Landing(db, sid, Some(st), f) && !st.UpdateStatus? && Reaches(f.touch)
        then Exec(db', sid, Stmt.Touch(db.now + ttl)) else db'
  }

  function Written(db: Db, c: UserCall, req: Request, ttl: nat, f: Fates): Db {
    Applying(db, c.sid, Decided(db, c, req, f), ttl, f)
  }

  /** The call's own statement was applied and the call was told so. */
  predicate Landing(db: Db, sid: SessionId, st: Option<Stmt>, f: Fates) {
    st.Some? && !st.value.MarkExpired? && f.write == Good && OutcomeOf(db, sid, st.value) == Applied
  }

  predicate Lands(db: Db, c: UserCall, req: Request, f: Fates) { Landing(db, c.sid, Decided(db, c, req, f), f) }

  /** Up to its revision stamp the answered session is the stored row. */
  predicate Shows(db: Db, sid: SessionId, body: Session) {
    sid in db.sessions && body.(version := 0) == db.sessions[sid].(version := 0)
  }

  /** The session a successful call answers with: its snapshot with its own statement applied to it. */
  function Told(snap: Session, st: Stmt, at: Time): Session { Assigned(snap, st).(expiresAt := at) }

  /**
   * The call answers with a session exactly when its own statement was applied and acknowledged. Its in-memory totals
   * are Go int64 sums; they are exact whenever the statement's own sums are.
   */
  predicate Telling(db: Db, c: UserCall, st: Option<Stmt>, ttl: nat, f: Fates, r: Result<Session, Fault>) {
    && (r.Success? <==> Landing(db, c.sid, st, f))
    && (r.Success? && Fits(c.snap, st.value) ==> r.value == Told(c.snap, st.value, db.now + ttl))
  }

  predicate Tells(db: Db, c: UserCall, req: Request, ttl: nat, f: Fates, r: Result<Session, Fault>) {
    Telling(db, c, Decided(db, c, req, f), ttl, f, r)
  }

  /**
   * If nobody wrote the row in between, the answer is the stored row; only a lost deadline bump leaves the old
   * deadline.
   */
  lemma {:induction false} ToldIsStored(db: Db, c: UserCall, req: Request, ttl: nat, f: Fates)
    requires Lands(db, c, req, f) && !UserStmt(db, c, req).value.UpdateStatus? && db.sessions[c.sid] == c.snap
    ensures Fits(c.snap, UserStmt(db, c, req).value)
    ensures
      var at := if Reaches(f.touch) then db.now + ttl else c.snap.expiresAt;
      Shows(Written(db, c, req, ttl, f), c.sid, Told(c.snap, UserStmt(db, c, req).value, at))
  {
    StmtKind(db, c, req);
    TouchedRow(db, c.sid, UserStmt(db, c, req).value, ttl);
  }

  lemma StmtKind(db: Db, c: UserCall, req: Request)
    requires UserStmt(db, c, req).Some? && !UserStmt(db, c, req).value.MarkExpired?
    requires !UserStmt(db, c, req).value.UpdateStatus?
    ensures
      var st := UserStmt(db, c, req).value;
      st.SetAddress? || st.SetShipping? || st.SetPaymentToken? || st.SetPromo?
    ensures HoldsPromo(c.snap.status) || c.snap.status == Confirming
    ensures
      var st := UserStmt(db, c, req).value;
      st.from == c.snap.status && (c.snap.status == Confirming ==> st.SetShipping? || st.SetPaymentToken?)
  {
  }

  lemma TouchedRow(db: Db, sid: SessionId, st: Stmt, ttl: nat)
    requires OutcomeOf(db, sid, st) == Applied
    requires st.SetAddress? || st.SetShipping? || st.SetPaymentToken? || st.SetPromo?
    requires !Terminal(Assigned(db.sessions[sid], st).status)
    ensures Shows(Exec(Exec(db, sid, st), sid, Stmt.Touch(db.now + ttl)), sid,
      Assigned(db.sessions[sid], st).(expiresAt := db.now + ttl))
    ensures Shows(Exec(db, sid, st), sid, Assigned(db.sessions[sid], st).(expiresAt := db.sessions[sid].expiresAt))
  {
  }

  /** The call found its session expired, or past its deadline while it could still be edited. */
  predicate FoundExpired(c: UserCall) {
    c.snap.status == Expired
    || (c.snap.status in {Open, AddressSet, ShippingSet, Ready} && c.snap.expiresAt <= c.at)
  }

  /** What a call on an expired session, or on one it may not change from this status, is told. */
  predicate Gatekept(c: UserCall, from: set<Status>, r: Result<Session, Fault>) {
    && (FoundExpired(c) ==> r == Failure(SessionExpired))
    && (!FoundExpired(c) && c.snap.status !in from ==> r == Failure(TransitionRefused))
  }

  class CheckoutService {
    const repo: SessionRepository
    const ttl: nat

    constructor (repo: SessionRepository, ttl: nat)
      ensures this.repo == repo && this.ttl == ttl
    {
      this.repo, this.ttl := repo, ttl;
    }

    /** The deadline test of the read; an elapsed one is recorded, whatever became of the row since. */
    method LazyExpire(c: UserCall, f: Fates) returns (expired: bool)
      modifies repo
      ensures expired <==> c.snap.status == Expired || LazyDue(c.snap, c.at)
      ensures expired <==> FoundExpired(c)
      ensures repo.View() ==
        if LazyDue(c.snap, c.at) && Reaches(f.expire) then Exec(old(repo.View()), c.sid, Stmt.MarkExpired)
          else old(repo.View())
    {
      if c.snap.status == Expired { return true; }
      if Terminal(c.snap.status) || c.snap.status == Confirming || c.snap.expiresAt > c.at { return false; }
      if Reaches(f.expire) { var _ := repo.MarkExpired(c.sid); }
      expired := true;
    }

    /** The deadline bump after a mutation; its error goes nowhere. */
    method TouchRow(sid: SessionId, session: Session, f: Fates) returns (body: Session)
      modifies repo
      ensures repo.View() == if Reaches(f.touch) then Exec(old(repo.View()), sid, Stmt.Touch(old(repo.now) + ttl))
        else old(repo.View())
      ensures body == session.(expiresAt := old(repo.now) + ttl)
    {
      body := session.(expiresAt := repo.now + ttl);
      if Reaches(f.touch) { var _ := repo.Touch(sid, body.expiresAt); }
    }

    method SessionDiscount(promo: Option<string>, subtotal: int, fee: int, tax: int, f: Fates)
        returns (d: Result<int, Fault>)
      ensures
        if promo.Some? && !f.lookups then d == Failure(StoreDown)
        else
          match Protocol.SessionDiscount(repo.View().ledger, promo, subtotal, fee, tax)
          case Failure(why) => d == Failure(PriceFault(why))
          case Success(v) => d == Success(v)
    {
      if promo.None? { return Success(0); }
      if !f.lookups { return Failure(StoreDown); }
      if promo.value !in repo.codes { return Success(0); }
      var worth := DiscountFor(repo.codes[promo.value], subtotal, fee, tax);
      d := if worth.Failure? then Failure(PriceFault(worth.error)) else Success(worth.value);
    }

    method SetAddress(c: UserCall, addr: Address, f: Fates) returns (r: Result<Session, Fault>)
      modifies repo
      ensures repo.View() == Written(old(repo.View()), c, PutAddress(addr), ttl, f)
      ensures Tells(old(repo.View()), c, PutAddress(addr), ttl, f, r)
      ensures Gatekept(c, {Open, AddressSet, ShippingSet, Ready}, r)
      ensures c.snap.quote.promo.Some? && !f.lookups ==> r.Failure?
    {
      var expired := LazyExpire(c, f);
      if expired { return Failure(SessionExpired); }
      var session := c.snap;
      if !CanTransition(session.status, AddressSet) { return Failure(TransitionRefused); }
      var d := SessionDiscount(session.quote.promo, session.quote.subtotal, 0, 0, f);
      if d.Failure? { return Failure(d.error); }
      r := WriteAddress(c, addr, d.value, f);
    }

    method WriteAddress(c: UserCall, addr: Address, d: int, f: Fates) returns (r: Result<Session, Fault>)
      modifies repo
      ensures
        var st := Some(Stmt.SetAddress(c.snap.status, addr, d));
        repo.View() == Applying(old(repo.View()), c.sid, st, ttl, f) && Telling(old(repo.View()), c, st, ttl, f, r)
    {
      var session := c.snap;
      if !Reaches(f.write) { return Failure(StoreDown); }
      var out := repo.SetAddress(c.sid, session.status, addr, d);
      if f.write != Good { return Failure(StoreDown); }
      if out != Applied { return Failure(NotWritten); }
      session := session.(status := AddressSet, quote := session.quote.(address := Some(addr), shipMethod := None,
        fee := 0, tax := 0, discount := d, total := Wrap(session.quote.subtotal - d)));
      session := TouchRow(c.sid, session, f);
      r := Success(session);
    }

    method SetShipping(c: UserCall, shipMethod: string, answer: QuoteAnswer, f: Fates)
        returns (r: Result<Session, Fault>)
      modifies repo
      ensures repo.View() == Written(old(repo.View()), c, PutShipping(shipMethod, answer), ttl, f)
      ensures Tells(old(repo.View()), c, PutShipping(shipMethod, answer), ttl, f, r)
      ensures Gatekept(c, {AddressSet, ShippingSet, Ready, Confirming}, r)
      ensures !FoundExpired(c) && c.snap.quote.address.None? ==> r == Failure(TransitionRefused)
      ensures !f.lookups ==> r.Failure?
    {
      var expired := LazyExpire(c, f);
      if expired { return Failure(SessionExpired); }
      var priced := PriceFor(c, shipMethod, answer, f);
      if priced.Failure? { return Failure(priced.error); }
      var (fee, tax, d) := priced.value;
      r := WriteShipping(c, shipMethod, fee, tax, d, f);
    }

    /** Fee, tax and discount for the row the call read. */
    method PriceFor(c: UserCall, shipMethod: string, answer: QuoteAnswer, f: Fates)
        returns (r: Result<(int, int, int), Fault>)
      requires c.snap.status != Expired && !LazyDue(c.snap, c.at)
      ensures Decided(repo.View(), c, PutShipping(shipMethod, answer), f) == (match r
        case Failure(_) => None
        case Success((fee, tax, d)) => Some(Stmt.SetShipping(c.snap.status, c.snap.version, shipMethod, fee, tax, d)))
      ensures c.snap.status !in {AddressSet, ShippingSet, Ready, Confirming} || c.snap.quote.address.None? ==>
        r == Failure(TransitionRefused)
    {
      var q := c.snap.quote;
      if !CanTransition(c.snap.status, ShippingSet) || q.address.None? { return Failure(TransitionRefused); }
      if !f.lookups { return Failure(StoreDown); }
      var priced := PriceShipping(answer, RateFor(repo.rates, q.address.value.country), q.subtotal);
      if priced.Failure? { return Failure(PriceFault(priced.error)); }
      var (fee, tax) := priced.value;
      var d := SessionDiscount(q.promo, q.subtotal, fee, tax, f);
      if d.Failure? { return Failure(d.error); }
      r := Success((fee, tax, d.value));
    }

    method WriteShipping(c: UserCall, shipMethod: string, fee: int, tax: int, d: int, f: Fates)
        returns (r: Result<Session, Fault>)
      modifies repo
      ensures
        var st := Some(Stmt.SetShipping(c.snap.status, c.snap.version, shipMethod, fee, tax, d));
        repo.View() == Applying(old(repo.View()), c.sid, st, ttl, f) && Telling(old(repo.View()), c, st, ttl, f, r)
    {
      var session := c.snap;
      var q := session.quote;
      if !Reaches(f.write) { return Failure(StoreDown); }
      var out := repo.SetShipping(c.sid, session.status, session.version, shipMethod, fee, tax, d);
      if f.write != Good { return Failure(StoreDown); }
      if out != Applied { return Failure(NotWritten); }
      session := session.(status := ShippingSet, quote := q.(shipMethod := Some(shipMethod), fee := fee, tax := tax,
        discount := d, total := Wrap(Wrap(Wrap(q.subtotal + fee) + tax) - d)));
      session := TouchRow(c.sid, session, f);
      r := Success(session);
    }

    method SetPayment(c: UserCall, token: string, f: Fates) returns (r: Result<Session, Fault>)
      modifies repo
      ensures repo.View() == Written(old(repo.View()), c, PutPayment(token), ttl, f)
      ensures Tells(old(repo.View()), c, PutPayment(token), ttl, f, r)
      ensures if !ValidPaymentToken(token) then r == Failure(InvalidToken)
        else Gatekept(c, {ShippingSet, Ready, Confirming}, r)
    {
      if !ValidPaymentToken(token) { return Failure(InvalidToken); }
      var expired := LazyExpire(c, f);
      if expired { return Failure(SessionExpired); }
      if !CanTransition(c.snap.status, Ready) { return Failure(TransitionRefused); }
      r := WritePayment(c, token, f);
    }

    method WritePayment(c: UserCall, token: string, f: Fates) returns (r: Result<Session, Fault>)
      modifies repo
      ensures
        var st := Some(Stmt.SetPaymentToken(c.snap.status, token));
        repo.View() == Applying(old(repo.View()), c.sid, st, ttl, f) && Telling(old(repo.View()), c, st, ttl, f, r)
    {
      var session := c.snap;
      if !Reaches(f.write) { return Failure(StoreDown); }
      var out := repo.SetPaymentToken(c.sid, session.status, token);
      if f.write != Good { return Failure(StoreDown); }
      if out != Applied { return Failure(NotWritten); }
      session := session.(status := Ready, quote := session.quote.(token := Some(token)));
      session := TouchRow(c.sid, session, f);
      r := Success(session);
    }

    /** The user-facing checks on a code; they count nothing. */
    method Preview(c: UserCall, code: string, f: Fates) returns (refused: Option<Fault>)
      ensures refused.None? <==> f.lookups && PreviewOk(repo.View(), c, code)
      ensures refused.None? <==>
        && f.lookups && code in repo.codes
        && (repo.codes[code].expiresAt.Some? ==> repo.now <= repo.codes[code].expiresAt.value)
        && (repo.codes[code].maxRedemptions.Some? ==>
             repo.codes[code].redeemedCount < repo.codes[code].maxRedemptions.value)
        && (repo.codes[code].perUserLimit.Some? ==>
             |UserUses(PromoLedger(repo.codes, repo.uses), code, c.snap.user)| < repo.codes[code].perUserLimit.value)
      ensures f.lookups ==>
        && (refused == Some(PromoUnknown) <==> code !in repo.codes)
        && (refused == Some(PromoLapsed) <==>
             code in repo.codes && repo.codes[code].expiresAt.Some? && repo.codes[code].expiresAt.value < repo.now)
        && refused in {None, Some(PromoUnknown), Some(PromoLapsed), Some(PromoSpent)}
    {
      if !f.lookups { return Some(StoreDown); }
      if code !in repo.codes { return Some(PromoUnknown); }
      var p := repo.codes[code];
      if p.expiresAt.Some? && p.expiresAt.value < repo.now { return Some(PromoLapsed); }
      if p.maxRedemptions.Some? && p.redeemedCount >= p.maxRedemptions.value { return Some(PromoSpent); }
      if p.perUserLimit.Some? {
        var mine := |UserUses(PromoLedger(repo.codes, repo.uses), code, c.snap.user)|;
        if mine >= p.perUserLimit.value { return Some(PromoSpent); }
      }
      refused := None;
    }

    method AttachPromo(c: UserCall, code: string, f: Fates) returns (r: Result<Session, Fault>)
      modifies repo
      ensures repo.View() == (if PreviewOk(old(repo.View()), c, code) || LazyDue(c.snap, c.at)
        then Written(old(repo.View()), c, ApplyPromo(code), ttl, f) else old(repo.View()))
      ensures if PreviewOk(old(repo.View()), c, code) then Tells(old(repo.View()), c, ApplyPromo(code), ttl, f, r)
        else r.Failure?
      ensures Gatekept(c, {Open, AddressSet, ShippingSet, Ready}, r)
      ensures !f.lookups ==> r.Failure?
    {
      var expired := LazyExpire(c, f);
      if expired { return Failure(SessionExpired); }
      var q := c.snap.quote;
      if !HoldsPromo(c.snap.status) { return Failure(TransitionRefused); }
      var refused := Preview(c, code, f);
      if refused.Some? { return Failure(refused.value); }
      var d := DiscountFor(repo.codes[code], q.subtotal, q.fee, q.tax);
      if d.Failure? { return Failure(PriceFault(d.error)); }
      r := WritePromo(c, Some(code), d.value, f);
    }

    method WritePromo(c: UserCall, code: Option<string>, d: int, f: Fates) returns (r: Result<Session, Fault>)
      modifies repo
      ensures
        var st := Some(Stmt.SetPromo(c.snap.status, code, d));
        repo.View() == Applying(old(repo.View()), c.sid, st, ttl, f) && Telling(old(repo.View()), c, st, ttl, f, r)
    {
      var q := c.snap.quote;
      if !Reaches(f.write) { return Failure(StoreDown); }
      var out := repo.SetPromo(c.sid, c.snap.status, code, d);
      if f.write != Good { return Failure(StoreDown); }
      if out != Applied { return Failure(NotWritten); }
      var session := c.snap.(quote := q.(promo := code, discount := d,
        total := Wrap(Wrap(Wrap(q.subtotal + q.fee) + q.tax) - d)));
      session := TouchRow(c.sid, session, f);
      r := Success(session);
    }

    method DetachPromo(c: UserCall, f: Fates) returns (r: Result<Session, Fault>)
      modifies repo
      ensures repo.View() == Written(old(repo.View()), c, RemovePromo, ttl, f)
      ensures Tells(old(repo.View()), c, RemovePromo, ttl, f, r)
      ensures Gatekept(c, {Open, AddressSet, ShippingSet, Ready}, r)
    {
      var expired := LazyExpire(c, f);
      if expired { return Failure(SessionExpired); }
      if !HoldsPromo(c.snap.status) { return Failure(TransitionRefused); }
      r := WritePromo(c, None, 0, f);
    }

    /** A session that is cancelled already, or ended while the call ran, needs no write of its own. */
    method CancelSession(c: UserCall, f: Fates) returns (r: Result<(), Fault>)
      modifies repo
      ensures repo.View() == Written(old(repo.View()), c, Cancel, ttl, f)
      ensures r.Success? <==>
        || c.snap.status == Cancelled
        || Lands(old(repo.View()), c, Cancel, f)
        || (CanTransition(c.snap.status, Cancelled) && !LazyDue(c.snap, c.at) && f.write == Good && f.reread == Good
            && c.sid in old(repo.sessions) && Terminal(old(repo.sessions)[c.sid].status))
      ensures r.Success? && c.snap.status != Cancelled ==>
        c.sid in repo.sessions && Terminal(repo.sessions[c.sid].status)
    {
      if c.snap.status == Cancelled { return Success(()); }
      var expired := LazyExpire(c, f);
      if expired { return Failure(SessionExpired); }
      if !CanTransition(c.snap.status, Cancelled) { return Failure(TransitionRefused); }
      if !Reaches(f.write) { return Failure(StoreDown); }
      var out := repo.UpdateStatus(c.sid, c.snap.status, Cancelled);
      if f.write != Good { return Failure(StoreDown); }
      if out != Applied {
        if f.reread == Good && c.sid in repo.sessions && Terminal(repo.sessions[c.sid].status) { return Success(()); }
        return Failure(NotWritten);
      }
      r := Success(());
    }
  }

  // ---- CreateSession's snapshot ----

  datatype CartLine = CartLine(productId: string, nameRunes: nat, quantity: int, cartPrice: int)

  /** A cart line priced by the catalog; a line product no longer offers keeps the cart price and is flagged. */
  function Snapshot(l: CartLine, info: Option<Catalog.ProductInfo>): Item {
    if info.None? then Item(l.productId, l.nameRunes, l.quantity, l.cartPrice, l.cartPrice, true)
    else Item(l.productId, l.nameRunes, l.quantity, info.value.unitPrice, l.cartPrice,
      info.value.unitPrice != l.cartPrice)
  }

  /** The item CreateSession builds for a line, as the loop builds it. */
  lemma SnapshotIs(l: CartLine, known: bool, price: int, info: Option<Catalog.ProductInfo>)
    requires known == info.Some? && price == if known then info.value.unitPrice else l.cartPrice
    ensures Snapshot(l, info) ==
      Item(l.productId, l.nameRunes, l.quantity, price, l.cartPrice, !known || price != l.cartPrice)
  {
  }

  /** The loop of CreateSession: one item per line, in order, and the running int64 subtotal. */
  method SnapshotCart(lines: seq<CartLine>, infos: seq<Catalog.ProductInfo>) returns (items: seq<Item>, subtotal: int)
    ensures |items| == |lines|
    ensures forall i :: 0 <= i < |lines| ==> items[i] == Snapshot(lines[i], Catalog.Lookup(infos, lines[i].productId))
    ensures forall i :: 0 <= i < |lines| ==>
      var known := Catalog.Lookup(infos, lines[i].productId);
      && items[i].productId == lines[i].productId && items[i].quantity == lines[i].quantity
      && items[i].nameRunes == lines[i].nameRunes && items[i].cartPrice == lines[i].cartPrice
      && items[i].unitPrice == (if known.Some? then known.value.unitPrice else lines[i].cartPrice)
      && (items[i].priceChanged <==> known.None? || known.value.unitPrice != lines[i].cartPrice)
    ensures subtotal == Wrap(Sum(items)) && FreshQuote(items).total == subtotal
  {
    var byID := Catalog.IndexById(infos);
    items, subtotal := [], 0;
    for n := 0 to |lines|
      invariant |items| == n && subtotal == Wrap(Sum(items))
      invariant forall i :: 0 <= i < n ==> items[i] == Snapshot(lines[i], Catalog.Lookup(infos, lines[i].productId))
    {
      var l := lines[n];
      var known := l.productId in byID;
      var price := if known then byID[l.productId].unitPrice else l.cartPrice;
      SnapshotIs(l, known, price, Catalog.Lookup(infos, l.productId));
      var item := Item(l.productId, l.nameRunes, l.quantity, price, l.cartPrice, !known || price != l.cartPrice);
      subtotal := Catalog.AddLine(items, item, subtotal);
      items := items + [item];
    }
  }
}
