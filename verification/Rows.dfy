/**
 * What one user call, timer or insert makes of the database, in terms of the row it finds and nothing else: when it
 * lands, every column it leaves behind, and that it leaves everything alone when it does not.
 */
module Rows {
  import opened Base
  import opened Domain
  import opened Money
  import opened Ledger
  import opened Store
  import opened Protocol
  import opened Safety
  import opened Theorems
  import opened Quotes
  import opened Discounts
  import Catalog

  // ---- Reading ----

  /** A read of a session that is absent or somebody else's comes to nothing at all; one's own is what it finds. */
  lemma {:induction false} ReadsOwnOnly(s: State, call: nat, user: UserId, sid: SessionId)
    ensures
      var s' := Next(s, UserRead(call, user, sid));
      if sid in s.db.sessions && s.db.sessions[sid].user == user
      then s' == s.(pending := s.pending[call := UserCall(sid, s.db.sessions[sid], s.db.now)]) else s' == s
  {
  }

  /** Nobody's session changes hands. */
  lemma OwnerKept(s: State, ev: Event, sid: SessionId)
    requires sid in s.db.sessions
    ensures sid in Next(s, ev).db.sessions && Next(s, ev).db.sessions[sid].user == s.db.sessions[sid].user
  {
    RowDelta(s, ev, sid);
  }

  lemma PendingFrom(s: State, ev: Event, call: nat)
    requires call in Next(s, ev).pending
    ensures
      || (call in s.pending && Next(s, ev).pending[call] == s.pending[call])
      || (ev.UserRead? && ev.call == call && ev.sid in s.db.sessions && s.db.sessions[ev.sid].user == ev.user
          && Next(s, ev).pending[call].sid == ev.sid)
  {
    if ev.Step? && ev.e in s.execs { StepFramed(s, ev.e, ev.input); }
  }

  /** In every run a call that may still write was started by the owner of its session. */
  lemma {:induction false} CallsAreOwned(s0: State, evs: seq<Event>, call: nat)
    requires Init(s0) && call in Run(s0, evs).pending
    ensures
      var sid := Run(s0, evs).pending[call].sid;
      && sid in Run(s0, evs).db.sessions
      && UserRead(call, Run(s0, evs).db.sessions[sid].user, sid) in evs
  {
    var before, ev := evs[..|evs| - 1], evs[|evs| - 1];
    var s := Run(s0, before);
    var sid := Run(s0, evs).pending[call].sid;
    PendingFrom(s, ev, call);
    if call in s.pending && Run(s0, evs).pending[call] == s.pending[call] { CallsAreOwned(s0, before, call); }
    OwnerKept(s, ev, sid);
  }

  // ---- User writes ----

  /** The call found its session past its deadline while it could still be edited. */
  predicate FoundLapsed(c: UserCall) {
    c.snap.status in {Open, AddressSet, ShippingSet, Ready} && c.snap.expiresAt <= c.at
  }

  /** One row rewritten and restamped, everything else as it was. */
  predicate RowBecomes(db: Db, db': Db, sid: SessionId, r: Session) {
    db' == db.(sessions := db.sessions[sid := r.(version := db.tick + 1)], tick := db.tick + 1)
  }

  /** The three BIGINT sums of a total. */
  predicate SumsFit(q: Quote, d: int) {
    Int64(q.subtotal + q.fee) && Int64(q.subtotal + q.fee + q.tax) && Int64(q.subtotal + q.fee + q.tax - d)
  }

  /** The call took the database from `db` to `db'`, having decided on `st`. */
  predicate Took(db: Db, db': Db, c: UserCall, st: Option<Stmt>, ack: Ack) {
    db' == if st.Some? && (ack == Good || ack == Lost) then Exec(db, c.sid, st.value) else db
  }

  /** A write changes the database by the statement its call decided on, if it reaches it, and by nothing else. */
  lemma CallDecides(s: State, call: nat, req: Request, ack: Ack)
    requires call in s.pending
    ensures Took(s.db, Next(s, UserWrite(call, req, ack)).db, s.pending[call], UserStmt(s.db, s.pending[call], req),
      ack)
  {
  }

  /** A call that found its session past the deadline expires it, unless it has moved on to confirm or ended. */
  lemma LapsedCallExpires(db: Db, db': Db, c: UserCall, req: Request, ack: Ack)
    requires Took(db, db', c, UserStmt(db, c, req), ack)
    requires FoundLapsed(c) && c.sid in db.sessions
    requires req.PutPayment? ==> ValidPaymentToken(req.token)
    ensures
      var r := db.sessions[c.sid];
      if (ack == Good || ack == Lost) && r.status in {Open, AddressSet, ShippingSet, Ready}
      then RowBecomes(db, db', c.sid, r.(status := Expired, expiredReason := Some(ByLazy))) else db' == db
  {
  }

  /**
   * PUT address: the new destination replaces whatever was stored, the shipping choice, its fee and its tax go, and
   * the discount is what the code the call found is worth on the subtotal the call found.
   */
  lemma PutAddressLands(db: Db, db': Db, c: UserCall, addr: Address, ack: Ack)
    requires Took(db, db', c, UserStmt(db, c, PutAddress(addr)), ack)
    requires !FoundLapsed(c)
    ensures
      var d := Protocol.SessionDiscount(db.ledger, c.snap.quote.promo, c.snap.quote.subtotal, 0, 0);
      if (ack == Good || ack == Lost) && c.snap.status in {Open, AddressSet, ShippingSet, Ready} && d.Success?
        && c.sid in db.sessions && db.sessions[c.sid].status == c.snap.status
        && Int64(db.sessions[c.sid].quote.subtotal - d.value)
      then
        var r := db.sessions[c.sid];
        RowBecomes(db, db', c.sid, r.(status := AddressSet, quote := Quote(r.quote.items, Some(addr), None, 0, 0,
          r.quote.promo, d.value, r.quote.subtotal, r.quote.subtotal - d.value, r.quote.token)))
      else db' == db
  {
  }

  /** PUT payment: a well-formed token is stored and the session is ready, also for a call that read a confirm. */
  lemma PutPaymentLands(db: Db, db': Db, c: UserCall, token: string, ack: Ack)
    requires Took(db, db', c, UserStmt(db, c, PutPayment(token)), ack)
    requires FoundLapsed(c) ==> !ValidPaymentToken(token)
    ensures
      if (ack == Good || ack == Lost) && ValidPaymentToken(token) && c.snap.status in {ShippingSet, Ready, Confirming}
        && c.sid in db.sessions && db.sessions[c.sid].status == c.snap.status
      then
        var r := db.sessions[c.sid];
        RowBecomes(db, db', c.sid, r.(status := Ready, quote := r.quote.(token := Some(token))))
      else db' == db
  {
  }

  /** Applying a code: stored with what it is worth on the components the call found; the status stays. */
  lemma ApplyPromoLands(db: Db, db': Db, c: UserCall, code: string, ack: Ack)
    requires Took(db, db', c, UserStmt(db, c, ApplyPromo(code)), ack)
    requires !FoundLapsed(c)
    ensures
      var d := Protocol.SessionDiscount(db.ledger, Some(code), c.snap.quote.subtotal, c.snap.quote.fee,
        c.snap.quote.tax);
      if (ack == Good || ack == Lost) && c.snap.status in {Open, AddressSet, ShippingSet, Ready}
        && code in db.ledger.codes && c.sid in db.sessions && db.sessions[c.sid].status == c.snap.status
        && d.Success? && SumsFit(db.sessions[c.sid].quote, d.value)
      then
        var r := db.sessions[c.sid];
        RowBecomes(db, db', c.sid, r.(quote := r.quote.(promo := Some(code), discount := d.value,
          total := r.quote.subtotal + r.quote.fee + r.quote.tax - d.value)))
      else db' == db
  {
  }

  /** Removing a code takes its discount with it. */
  lemma RemovePromoLands(db: Db, db': Db, c: UserCall, ack: Ack)
    requires Took(db, db', c, UserStmt(db, c, RemovePromo), ack)
    requires !FoundLapsed(c)
    ensures
      if (ack == Good || ack == Lost) && c.snap.status in {Open, AddressSet, ShippingSet, Ready}
        && c.sid in db.sessions && db.sessions[c.sid].status == c.snap.status
        && SumsFit(db.sessions[c.sid].quote, 0)
      then
        var r := db.sessions[c.sid];
        RowBecomes(db, db', c.sid, r.(quote := r.quote.(promo := None, discount := 0,
          total := r.quote.subtotal + r.quote.fee + r.quote.tax)))
      else db' == db
  {
  }

  /** Cancel ends any session that is still being edited, and never one that is confirming or over. */
  lemma CancelLands(db: Db, db': Db, c: UserCall, ack: Ack)
    requires Took(db, db', c, UserStmt(db, c, Cancel), ack)
    requires !FoundLapsed(c)
    ensures
      if (ack == Good || ack == Lost) && c.snap.status in {Open, AddressSet, ShippingSet, Ready}
        && c.sid in db.sessions && db.sessions[c.sid].status == c.snap.status
      then RowBecomes(db, db', c.sid, db.sessions[c.sid].(status := Cancelled)) else db' == db
  {
  }
  /** The tax on a base by the table: at the region's own rate, or without one at the DEFAULT rate, if that exists. */
  predicate TaxedBy(rates: map<string, int>, country: string, base: int, tax: int) {
    if country in rates then tax == base * rates[country] / 10_000
    else "DEFAULT" in rates && tax == base * rates["DEFAULT"] / 10_000
  }

  /** What a stored code takes off: nothing if there is none, else its worth up to everything payable. */
  lemma {:induction false} CodeWorth(l: PromoLedger, promo: Option<string>, subtotal: int, fee: int, tax: int)
    requires LedgerOk(l) && Int64(subtotal + fee) && Int64(subtotal + fee + tax)
    ensures
      var d := Protocol.SessionDiscount(l, promo, subtotal, fee, tax);
      if promo.None? || promo.value !in l.codes then d == Success(0)
      else
        var p := l.codes[promo.value];
        var worth := if p.kind.Fixed? then p.value else subtotal * p.value / 100;
        && (d.Success? <==> p.kind.Fixed? || 0 <= subtotal <= MAX64 / 10_001)
        && (d.Success? ==> d.value == if worth <= subtotal + fee + tax then worth else subtotal + fee + tax)
    ensures
      var d := Protocol.SessionDiscount(l, promo, subtotal, fee, tax);
      d.Success? && 0 <= subtotal + fee + tax ==> 0 <= d.value <= subtotal + fee + tax
  {
    if promo.Some? && promo.value in l.codes { DiscountClamped(l.codes[promo.value], subtotal, fee, tax); }
  }

  /** PUT shipping can be priced: a quoted fee, a tax row for the country or a DEFAULT one, and a taxable base. */
  predicate Priced(db: Db, q: Quote, answer: QuoteAnswer) {
    && q.address.Some? && answer.Quoted? && answer.fee >= 0
    && (q.address.value.country in db.rates || "DEFAULT" in db.rates)
    && 0 <= q.subtotal + answer.fee <= MAX64 / 10_001
  }

  lemma ShippingPriced(db: Db, q: Quote, answer: QuoteAnswer, tax: int)
    requires RatesOk(db.rates) && Int64(q.subtotal) && q.address.Some?
    requires Priced(db, q, answer) ==> TaxedBy(db.rates, q.address.value.country, q.subtotal + answer.fee, tax)
    ensures
      var priced := PriceShipping(answer, RateFor(db.rates, q.address.value.country), q.subtotal);
      && (priced.Success? <==> Priced(db, q, answer))
      && (priced.Success? ==>
           && priced.value == (answer.fee, tax) && 0 <= tax
           && Int64(q.subtotal + answer.fee) && Int64(q.subtotal + answer.fee + tax))
  {
    PriceShippingExact(answer, RateFor(db.rates, q.address.value.country), q.subtotal);
  }

  lemma ShippingDecided(db: Db, c: UserCall, shipMethod: string, answer: QuoteAnswer, tax: int)
    requires !FoundLapsed(c)
    requires c.snap.quote.address.Some? ==>
      var priced := PriceShipping(answer, RateFor(db.rates, c.snap.quote.address.value.country), c.snap.quote.subtotal);
      && (priced.Success? <==> Priced(db, c.snap.quote, answer))
      && (priced.Success? ==> priced.value == (answer.fee, tax))
    ensures
      var q := c.snap.quote;
      UserStmt(db, c, PutShipping(shipMethod, answer)) ==
        if c.snap.status in {AddressSet, ShippingSet, Ready, Confirming} && Priced(db, q, answer)
          && Protocol.SessionDiscount(db.ledger, q.promo, q.subtotal, answer.fee, tax).Success?
        then Some(SetShipping(c.snap.status, c.snap.version, shipMethod, answer.fee, tax,
          Protocol.SessionDiscount(db.ledger, q.promo, q.subtotal, answer.fee, tax).value))
        else None
  {
  }

  /** The call's snapshot is an earlier state of its row: the row has not been written since if it has its version. */
  predicate Earlier(db: Db, c: UserCall) {
    && c.sid in db.sessions && Int64(c.snap.quote.subtotal)
    && (c.snap.version == db.sessions[c.sid].version ==> c.snap == db.sessions[c.sid])
  }

  /** So it is for every pending call of every run, with a sound ledger and tax table. */
  lemma CallsAreEarlier(s0: State, evs: seq<Event>, call: nat)
    requires Init(s0) && call in Run(s0, evs).pending
    ensures
      var s := Run(s0, evs);
      Earlier(s.db, s.pending[call]) && RatesOk(s.db.rates) && LedgerOk(s.db.ledger)
  {
    RowRun(s0, evs);
    LedgerRun(s0, evs);
    assert SnapOk(Run(s0, evs), Run(s0, evs).pending[call]);
  }

  /**
   * PUT shipping lands only on the very row the call read, and stores the quoted fee, its tax by the region's row of
   * the table, and the stored code's discount on all of it. A region without a rate is not priced.
   */
  lemma {:induction false} PutShippingLands(db: Db, db': Db, c: UserCall, shipMethod: string, answer: QuoteAnswer,
      ack: Ack, tax: int)
    requires RatesOk(db.rates) && LedgerOk(db.ledger) && Earlier(db, c) && !FoundLapsed(c)
    requires Took(db, db', c, UserStmt(db, c, PutShipping(shipMethod, answer)), ack)
    requires
      var q := c.snap.quote;
      Priced(db, q, answer) ==> TaxedBy(db.rates, q.address.value.country, q.subtotal + answer.fee, tax)
    ensures
      var q := c.snap.quote;
      if (ack == Good || ack == Lost) && c.snap.status in {AddressSet, ShippingSet, Ready, Confirming}
        && db.sessions[c.sid] == c.snap && Priced(db, q, answer)
        && Protocol.SessionDiscount(db.ledger, q.promo, q.subtotal, answer.fee, tax).Success?
      then
        var d := Protocol.SessionDiscount(db.ledger, q.promo, q.subtotal, answer.fee, tax).value;
        RowBecomes(db, db', c.sid, c.snap.(status := ShippingSet, quote := Quote(q.items, q.address, Some(shipMethod),
          answer.fee, tax, q.promo, d, q.subtotal, q.subtotal + answer.fee + tax - d, q.token)))
      else db' == db
  {
    var q := c.snap.quote;
    if q.address.Some? { ShippingPriced(db, q, answer, tax); }
    ShippingDecided(db, c, shipMethod, answer, tax);
    if Priced(db, q, answer) { CodeWorth(db.ledger, q.promo, q.subtotal, answer.fee, tax); }
    ShippingTook(db, db', c, shipMethod, answer, ack, tax, UserStmt(db, c, PutShipping(shipMethod, answer)));
  }

  lemma ShippingTook(db: Db, db': Db, c: UserCall, shipMethod: string, answer: QuoteAnswer, ack: Ack, tax: int,
      st: Option<Stmt>)
    requires c.sid in db.sessions && Took(db, db', c, st, ack)
    requires c.snap.version == db.sessions[c.sid].version ==> c.snap == db.sessions[c.sid]
    requires
      var q := c.snap.quote;
      st == if c.snap.status in {AddressSet, ShippingSet, Ready, Confirming} && Priced(db, q, answer)
          && Protocol.SessionDiscount(db.ledger, q.promo, q.subtotal, answer.fee, tax).Success?
        then Some(SetShipping(c.snap.status, c.snap.version, shipMethod, answer.fee, tax,
          Protocol.SessionDiscount(db.ledger, q.promo, q.subtotal, answer.fee, tax).value))
        else None
    requires
      var q := c.snap.quote;
      Priced(db, q, answer) ==>
        var d := Protocol.SessionDiscount(db.ledger, q.promo, q.subtotal, answer.fee, tax);
        && Int64(q.subtotal + answer.fee) && Int64(q.subtotal + answer.fee + tax)
        && (d.Success? ==> 0 <= d.value <= q.subtotal + answer.fee + tax)
    ensures
      var q := c.snap.quote;
      if (ack == Good || ack == Lost) && c.snap.status in {AddressSet, ShippingSet, Ready, Confirming}
        && db.sessions[c.sid] == c.snap && Priced(db, q, answer)
        && Protocol.SessionDiscount(db.ledger, q.promo, q.subtotal, answer.fee, tax).Success?
      then
        var d := Protocol.SessionDiscount(db.ledger, q.promo, q.subtotal, answer.fee, tax).value;
        RowBecomes(db, db', c.sid, c.snap.(status := ShippingSet, quote := Quote(q.items, q.address, Some(shipMethod),
          answer.fee, tax, q.promo, d, q.subtotal, q.subtotal + answer.fee + tax - d, q.token)))
      else db' == db
  {
    if st.Some? { ShippingWritten(db, c, shipMethod, answer.fee, tax, st.value.discount); }
  }

  lemma ShippingWritten(db: Db, c: UserCall, shipMethod: string, fee: int, tax: int, d: int)
    requires c.sid in db.sessions && Int64(c.snap.quote.subtotal + fee) && Int64(c.snap.quote.subtotal + fee + tax)
    requires 0 <= d <= c.snap.quote.subtotal + fee + tax
    requires c.snap.version == db.sessions[c.sid].version ==> c.snap == db.sessions[c.sid]
    ensures
      var q, db' := c.snap.quote, Exec(db, c.sid, SetShipping(c.snap.status, c.snap.version, shipMethod, fee, tax, d));
      if db.sessions[c.sid] == c.snap then RowBecomes(db, db', c.sid, c.snap.(status := ShippingSet,
          quote := Quote(q.items, q.address, Some(shipMethod), fee, tax, q.promo, d, q.subtotal,
            q.subtotal + fee + tax - d, q.token)))
      else db' == db
  {
  }

  // ---- Tax ----

  /**
   * In every reachable row with a shipping method the stored tax is that of the table on the stored subtotal and fee:
   * at the country's own rate if it has one, and otherwise at the DEFAULT rate, which then exists.
   */
  lemma {:induction false} TaxFollowsTable(s0: State, evs: seq<Event>, sid: SessionId)
    requires Init(s0) && sid in Run(s0, evs).db.sessions && Run(s0, evs).db.sessions[sid].quote.shipMethod.Some?
    ensures
      var q, rates := Run(s0, evs).db.sessions[sid].quote, Run(s0, evs).db.rates;
      && q.address.Some? && rates == s0.db.rates
      && var country := q.address.value.country;
         if country in rates then q.tax == (q.subtotal + q.fee) * rates[country] / 10_000
         else "DEFAULT" in rates && q.tax == (q.subtotal + q.fee) * rates["DEFAULT"] / 10_000
  {
    RowAt(s0, evs, sid);
    RatesKept(s0, evs);
  }

  lemma {:induction false} RatesKept(s0: State, evs: seq<Event>)
    ensures Run(s0, evs).db.rates == s0.db.rates
  {
    if evs != [] {
      RatesKept(s0, evs[..|evs| - 1]);
      LaterStep(Run(s0, evs[..|evs| - 1]), evs[|evs| - 1]);
    }
  }

  /** A requote derives the tax by the same table and the discount of the stored code on it, or derives nothing. */
  lemma {:induction false} RequoteFollowsTable(db: Db, q: Quote, subtotal: int, tax: int)
    requires RatesOk(db.rates) && q.address.Some?
    requires
      var country := q.address.value.country;
      if country in db.rates then tax == Wrap(subtotal + q.fee) * db.rates[country] / 10_000
      else "DEFAULT" in db.rates ==> tax == Wrap(subtotal + q.fee) * db.rates["DEFAULT"] / 10_000
    ensures
      Components(db, q, subtotal) ==
        if (q.address.value.country in db.rates || "DEFAULT" in db.rates)
          && 0 <= Wrap(subtotal + q.fee) <= MAX64 / 10_001
          && Protocol.SessionDiscount(db.ledger, q.promo, subtotal, q.fee, tax).Success?
        then Some((tax, Protocol.SessionDiscount(db.ledger, q.promo, subtotal, q.fee, tax).value))
        else None
  {
    var rate := RateFor(db.rates, q.address.value.country);
    if rate.Some? {
      var base := Wrap(subtotal + q.fee);
      FlatTaxExact(base, rate.value);
      if 0 <= base <= MAX64 / 10_001 { Floor(base * rate.value, FlatTax(base, rate.value).value, tax); }
    }
  }

  lemma Floor(n: int, a: int, b: int)
    requires a * 10_000 <= n < (a + 1) * 10_000 && b == n / 10_000
    ensures a == b
  {
  }

  // ---- Timers, readers and inserts ----

  /** The timer expires exactly a row that is still being edited and whose deadline has come. */
  lemma TimerExpires(s: State, sid: SessionId)
    ensures
      var db' := Next(s, FireTimer(sid)).db;
      if sid in s.db.sessions && s.db.sessions[sid].status in {Open, AddressSet, ShippingSet, Ready}
        && s.db.sessions[sid].expiresAt <= s.db.now
      then RowBecomes(s.db, db', sid, s.db.sessions[sid].(status := Expired, expiredReason := Some(ByTimer)))
      else db' == s.db
  {
  }

  /** The claim exists, was never marked or answered, and its lock is free or was taken longer than the window ago. */
  predicate DeadClaim(s: State, k: ClaimId) {
    && k in s.db.claims && s.db.claims[k].subject.None? && s.db.claims[k].response.None?
    && (s.db.claims[k].lock.Held? ==> s.db.claims[k].lock.at + s.takeover < s.db.now)
  }

  /** A parked confirm expires exactly when its deadline has come and its claim is dead; it loses its binding. */
  lemma ParkedExpires(s: State, sid: SessionId)
    ensures
      var db' := Next(s, FireParked(sid)).db;
      if sid in s.db.sessions && s.db.sessions[sid].status == Confirming && s.db.sessions[sid].expiresAt <= s.db.now
        && s.db.sessions[sid].confirmKey.Some? && DeadClaim(s, s.db.sessions[sid].confirmKey.value)
      then RowBecomes(s.db, db', sid,
        s.db.sessions[sid].(status := Expired, expiredReason := Some(ByTimer), confirmKey := None))
      else db' == s.db
  {
  }

  /** A deadline bump moves the deadline of a row that is not over, and nothing else. */
  lemma TouchBumps(s: State, sid: SessionId, at: Time)
    ensures
      var db' := Next(s, TouchRow(sid, at)).db;
      if sid in s.db.sessions && s.db.sessions[sid].status !in {Completed, Cancelled, Expired}
      then RowBecomes(s.db, db', sid, s.db.sessions[sid].(expiresAt := at)) else db' == s.db
  {
  }

  /**
   * A session is created exactly on a new id, with positive quantities, for a user with no session that is not over;
   * it carries the lines, their int64 subtotal and nothing else.
   */
  lemma CreateLands(s: State, sid: SessionId, user: UserId, items: seq<Item>, at: Time)
    ensures
      var db', subtotal := Next(s, Create(sid, user, items, at)).db, Wrap(Sum(items));
      if sid !in s.db.sessions && (forall i :: 0 <= i < |items| ==> items[i].quantity > 0)
        && (forall other :: other in s.db.sessions && s.db.sessions[other].user == user ==>
             s.db.sessions[other].status in {Completed, Cancelled, Expired})
      then RowBecomes(s.db, db', sid, Session(user, Open,
        Quote(items, None, None, 0, 0, None, 0, subtotal, subtotal, None), None, None, at, None, 0))
      else db' == s.db
  {
    InsertableIs(s.db, sid, user, items);
  }

  lemma InsertableIs(db: Db, sid: SessionId, user: UserId, items: seq<Item>)
    ensures Insertable(db, sid, user, items) <==>
      sid !in db.sessions && (forall i :: 0 <= i < |items| ==> items[i].quantity > 0)
      && (forall other :: other in db.sessions && db.sessions[other].user == user ==>
           db.sessions[other].status in {Completed, Cancelled, Expired})
  {
    assert forall other :: other in db.sessions ==> (ActiveFor(db.sessions[other], user) <==>
      db.sessions[other].user == user && db.sessions[other].status !in {Completed, Cancelled, Expired});
  }

  // ---- Who writes what ----

  /** The event is a step of an execution standing at this action. */
  predicate StepAt(s: State, ev: Event, pc: Pc) { ev.Step? && ev.e in s.execs && s.execs[ev.e].pc == pc }

  /**
   * Every column has its writers, whoever else acts: the destination only moves to what a PUT address names, the token
   * to what a PUT payment names, the method and fee to what a PUT shipping names or to nothing with a new address;
   * codes come and go with their own calls and the strip; lines and subtotal move only by a requote.
   */
  lemma {:induction false} QuoteWriters(s: State, ev: Event, sid: SessionId, q: Quote, q': Quote)
    requires sid in s.db.sessions && q == s.db.sessions[sid].quote
    requires sid in Next(s, ev).db.sessions && q' == Next(s, ev).db.sessions[sid].quote
    ensures q'.address != q.address ==> ev.UserWrite? && ev.req.PutAddress? && q'.address == Some(ev.req.addr)
    ensures q'.token != q.token ==> ev.UserWrite? && ev.req.PutPayment? && q'.token == Some(ev.req.token)
    ensures q'.shipMethod != q.shipMethod || q'.fee != q.fee ==>
      || (ev.UserWrite? && ev.req.PutAddress? && q'.shipMethod.None? && q'.fee == 0)
      || (ev.UserWrite? && ev.req.PutShipping? && q'.shipMethod == Some(ev.req.shipMethod) && ev.req.answer.Quoted?
          && q'.fee == ev.req.answer.fee)
    ensures q'.promo != q.promo ==>
      || (ev.UserWrite? && ev.req.ApplyPromo? && q'.promo == Some(ev.req.code))
      || (q'.promo.None? && q'.discount == 0 && (ev.Step? || (ev.UserWrite? && ev.req.RemovePromo?)))
    ensures q'.items != q.items || q'.subtotal != q.subtotal ==>
      ev.Step? && ev.e in s.execs && s.execs[ev.e].pc.Requoting? && s.execs[ev.e].sid == sid
  {
    RowDelta(s, ev, sid);
    if q' != q {
      StmtColumns(s.db.sessions[sid], RowStmt(s, ev).value.1);
      StmtSource(s, ev);
    }
  }

  /** The order and the binding move only by a confirm or a parked expiry, the deadline only by a bump. */
  lemma {:induction false} BindingWriters(s: State, ev: Event, sid: SessionId, r: Session, r': Session)
    requires sid in s.db.sessions && r == s.db.sessions[sid]
    requires sid in Next(s, ev).db.sessions && r' == Next(s, ev).db.sessions[sid]
    ensures r'.user == r.user
    ensures r'.orderId != r.orderId ==> StepAt(s, ev, Completing) && r'.orderId == Some(s.execs[ev.e].orderId)
    ensures r'.confirmKey != r.confirmKey && r'.confirmKey.Some? ==>
      StepAt(s, ev, Entering) && r'.confirmKey == Some(s.execs[ev.e].claim)
    ensures r'.confirmKey != r.confirmKey && r'.confirmKey.None? ==> ev.Step? || ev.FireParked?
    ensures r'.expiresAt != r.expiresAt ==> ev.TouchRow? && r'.expiresAt == ev.expiresAt
    ensures r'.expiredReason != r.expiredReason ==> r'.status == Expired
  {
    RowDelta(s, ev, sid);
    if r' != r {
      StmtColumns(r, RowStmt(s, ev).value.1);
      StmtSource(s, ev);
    }
  }

  /** The columns each statement leaves alone. */
  lemma StmtColumns(r: Session, st: Stmt)
    ensures
      var r' := Assigned(r, st);
      var q, q' := r.quote, r'.quote;
      && r'.user == r.user
      && (q'.address != q.address ==> st.SetAddress? && q'.address == Some(st.addr))
      && (q'.token != q.token ==> st.SetPaymentToken? && q'.token == Some(st.token))
      && (q'.shipMethod != q.shipMethod || q'.fee != q.fee ==>
           || (st.SetAddress? && q'.shipMethod.None? && q'.fee == 0)
           || (st.SetShipping? && q'.shipMethod == Some(st.shipMethod) && q'.fee == st.fee))
      && (q'.promo != q.promo ==>
           || (st.SetPromo? && q'.promo == st.code && q'.discount == st.discount)
           || (st.StripPromo? && q'.promo.None? && q'.discount == 0))
      && (q'.items != q.items || q'.subtotal != q.subtotal ==> st.RequoteItems?)
      && (r'.orderId != r.orderId ==> st.CompleteSession? && r'.orderId == Some(st.orderId))
      && (r'.confirmKey != r.confirmKey ==>
           || (st.BeginConfirm? && r'.confirmKey == Some(st.key))
           || (r'.confirmKey.None? && (st.AbortConfirm? || st.RequoteItems? || st.StripPromo? || st.ExpireParked?)))
      && (r'.expiresAt != r.expiresAt ==> st.Touch? && r'.expiresAt == st.expiresAt)
      && (r'.expiredReason != r.expiredReason ==> r'.status == Expired)
  {
  }

  /** The event each statement comes from. */
  lemma StmtSource(s: State, ev: Event)
    requires RowStmt(s, ev).Some?
    ensures
      var (sid, st) := RowStmt(s, ev).value;
      && (st.SetAddress? ==> ev.UserWrite? && ev.req == PutAddress(st.addr))
      && (st.SetPaymentToken? ==> ev.UserWrite? && ev.req == PutPayment(st.token))
      && (st.SetShipping? ==>
           && ev.UserWrite? && ev.req.PutShipping? && ev.req.shipMethod == st.shipMethod
           && ev.req.answer.Quoted? && ev.req.answer.fee == st.fee)
      && (st.SetPromo? ==>
           && ev.UserWrite? && ev.req == (if st.code.Some? then ApplyPromo(st.code.value) else RemovePromo)
           && (st.code.None? ==> st.discount == 0))
      && (st.Touch? ==> ev.TouchRow? && ev.expiresAt == st.expiresAt)
      && (st.ExpireParked? ==> ev.FireParked?)
      && (ExecOnlyStmt(st) ==> ev.Step? && ev.e in s.execs && s.execs[ev.e].sid == sid && Source(s.execs[ev.e], st))
  {
  }

  predicate Source(x: Execution, st: Stmt) {
    match st
    case BeginConfirm(k) => x.pc.Entering? && k == x.claim
    case RequoteItems(_, _, _, _, _) => x.pc.Requoting?
    case StripPromo(_) => x.pc.Stripping?
    case CompleteSession(_, orderId) => x.pc.Completing? && orderId == x.orderId
    case AbortConfirm(_) => x.pc.Aborting?
    case _ => false
  }
}
