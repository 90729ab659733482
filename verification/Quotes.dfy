/**
 * Stored money is coherent in every reachable row: totals, quoted fees, flat tax, and the subtotals of distinct
 * products.
 */
module Quotes {
  import opened Base
  import opened Domain
  import opened Money
  import opened Ledger
  import opened Store
  import opened Protocol
  import opened Safety
  import opened Theorems
  import Catalog

  // ---- The invariant ----

  /** The true floor of (subtotal + fee) x bps / 10000 at the region's rate. */
  predicate TaxIs(rates: map<string, int>, region: string, base: int, tax: int) {
    RateFor(rates, region).Some? && 0 <= base <= MAX64 / 10_001 && tax == base * RateFor(rates, region).value / 10_000
  }

  /** What a quote must satisfy by itself, whatever the row's status. */
  predicate QuoteFine(s: State, q: Quote) {
    && Int64(q.subtotal) && 0 <= q.fee <= MAX64 && q.tax >= 0
    && q.total == q.subtotal + q.fee + q.tax - q.discount
    && (q.shipMethod.None? ==> q.fee == 0 && q.tax == 0)
    && (q.shipMethod.Some? ==>
         && q.address.Some?
         && (q.shipMethod.value, q.address.value.country, q.fee) in s.quotes
         && TaxIs(s.db.rates, q.address.value.country, q.subtotal + q.fee, q.tax))
    && (DistinctProducts(q.items) ==> q.subtotal == Wrap(Sum(q.items)))
  }

  predicate Shipped(st: Status) { st == ShippingSet || st == Ready || st == Confirming || st == Completed }

  predicate ReadyOrLater(st: Status) { st == Ready || st == Confirming || st == Completed }

  predicate QuoteOk(s: State, r: Session) {
    && QuoteFine(s, r.quote)
    && (Shipped(r.status) ==> r.quote.address.Some? && r.quote.shipMethod.Some?)
    && (ReadyOrLater(r.status) ==> r.quote.token.Some? && ValidPaymentToken(r.quote.token.value))
    && r.version <= s.db.tick
  }

  /** A snapshot was coherent, is never ahead of its row, and equal versions mean equal rows. */
  predicate SnapOk(s: State, c: UserCall) {
    && QuoteFine(s, c.snap.quote)
    && c.sid in s.db.sessions && c.snap.version <= s.db.sessions[c.sid].version
    && (c.snap.version == s.db.sessions[c.sid].version ==> c.snap == s.db.sessions[c.sid])
  }

  /** What a pending requote is about to store, judged against the snapshot it was computed from. */
  predicate RequoteFine(s: State, q: Quote, items: seq<Item>, subtotal: int, tax: int) {
    && Int64(subtotal) && tax >= 0 && SameLines(q.items, items)
    && (q.shipMethod.Some? && q.address.Some? ==> TaxIs(s.db.rates, q.address.value.country, subtotal + q.fee, tax))
    && (DistinctProducts(q.items) ==> subtotal == Wrap(Sum(items)))
  }

  predicate ExecQuoteOk(s: State, x: Execution) {
    && (Gated(x.pc) ==> QuoteFine(s, x.sess.quote) && x.sess.quote.shipMethod.Some?)
    && (x.pc.Requoting? ==> RequoteFine(s, x.sess.quote, x.pc.items, x.pc.subtotal, x.pc.tax))
  }

  ghost predicate RowInv(s: State) {
    && RatesOk(s.db.rates)
    && (forall sid :: sid in s.db.sessions ==> QuoteOk(s, s.db.sessions[sid]))
    && (forall c :: c in s.pending ==> SnapOk(s, s.pending[c]))
    && (forall e :: e in s.execs ==> ExecQuoteOk(s, s.execs[e]))
  }

  // ---- Row writes ----

  lemma SubtotalKept(items: seq<Item>, q: Quote)
    requires SameLines(q.items, items) && DistinctProducts(q.items)
    ensures RepriceAll(q.items, items) == items && DistinctProducts(items)
  {
    RepriceDistinct(q.items, items);
    forall i, j | 0 <= i < j < |items| ensures items[i].productId != items[j].productId {
      assert RepriceLine(q.items[i], items[i]) == items[i] && RepriceLine(q.items[j], items[j]) == items[j];
    }
  }

  /** Repricing never renames a line, so distinctness of the result is distinctness of the rows. */
  lemma {:induction false} RepriceKeepsProducts(rows: seq<Item>, items: seq<Item>)
    ensures forall i :: 0 <= i < |rows| ==> RepriceAll(rows, items)[i].productId == rows[i].productId
  {
    if items != [] { RepriceKeepsProducts(rows, items[..|items| - 1]); }
  }

  lemma RequotedFine(s: State, q: Quote, st: Stmt)
    requires st.RequoteItems? && QuoteFine(s, q) && q.shipMethod.Some?
    requires RequoteFine(s, q, st.items, st.subtotal, st.tax)
    ensures
      var q' := q.(items := RepriceAll(q.items, st.items), subtotal := st.subtotal, tax := st.tax,
                   discount := st.discount, total := st.subtotal + q.fee + st.tax - st.discount);
      QuoteFine(s, q') && q'.shipMethod.Some?
  {
    RepriceKeepsProducts(q.items, st.items);
    var after := RepriceAll(q.items, st.items);
    if DistinctProducts(after) {
      forall i, j | 0 <= i < j < |q.items| ensures q.items[i].productId != q.items[j].productId {
        assert after[i].productId != after[j].productId;
      }
      SubtotalKept(st.items, q);
    }
  }

  /** The extra knowledge each kind of statement carries from the code that issued it. */
  predicate Justified(s: State, sid: SessionId, st: Stmt)
    requires sid in s.db.sessions
  {
    var q := s.db.sessions[sid].quote;
    match st
    case SetShipping(from, _, m, fee, tax, _) =>
      && CanTransition(from, ShippingSet) && q.address.Some? && 0 <= fee <= MAX64 && tax >= 0
      && (m, q.address.value.country, fee) in s.quotes
        && TaxIs(s.db.rates, q.address.value.country, q.subtotal + fee, tax)
    case SetPaymentToken(from, token) => CanTransition(from, Ready) && ValidPaymentToken(token)
    case RequoteItems(_, items, subtotal, tax, _) => RequoteFine(s, q, items, subtotal, tax)
    case UpdateStatus(_, to) => to == Cancelled
    case _ => true
  }

  lemma NewQuoteFine(s: State, sid: SessionId, st: Stmt)
    requires Hits(s, sid, st) && QuoteOk(s, s.db.sessions[sid]) && Justified(s, sid, st)
    ensures QuoteFine(s, NewRow(s.db, sid, st).quote)
  {
    if st.RequoteItems? { RequotedFine(s, s.db.sessions[sid].quote, st); }
  }

  lemma NewStatusOk(s: State, sid: SessionId, st: Stmt)
    requires Hits(s, sid, st) && QuoteOk(s, s.db.sessions[sid]) && Justified(s, sid, st)
    ensures
      var r := NewRow(s.db, sid, st);
      && (Shipped(r.status) ==> r.quote.address.Some? && r.quote.shipMethod.Some?)
      && (ReadyOrLater(r.status) ==> r.quote.token.Some? && ValidPaymentToken(r.quote.token.value))
  {
  }

  lemma NewRowOk(s: State, sid: SessionId, st: Stmt)
    requires Hits(s, sid, st) && QuoteOk(s, s.db.sessions[sid]) && Justified(s, sid, st)
    ensures QuoteOk(s.(db := s.db.(tick := s.db.tick + 1)), NewRow(s.db, sid, st))
  {
    NewQuoteFine(s, sid, st);
    NewStatusOk(s, sid, st);
  }

  // ---- Monotone history ----

  /** Rates fixed, quotes only added, versions only growing: what is fine stays fine. */
  predicate Later(s: State, s': State) {
    s'.db.rates == s.db.rates && s.quotes <= s'.quotes && s.db.tick <= s'.db.tick
  }

  lemma QuoteFineLater(s: State, s': State, q: Quote)
    requires Later(s, s') && QuoteFine(s, q)
    ensures QuoteFine(s', q)
  {
  }

  lemma ExecQuoteLater(s: State, s': State, x: Execution)
    requires Later(s, s') && ExecQuoteOk(s, x)
    ensures ExecQuoteOk(s', x)
  {
  }

  // ---- User writes ----

  lemma UserShipping(s: State, c: UserCall, req: Request)
    requires SnapOk(s, c) && RatesOk(s.db.rates) && QuoteOk(s, s.db.sessions[c.sid])
    requires UserStmt(s.db, c, req).Some? && UserStmt(s.db, c, req).value.SetShipping?
    requires Hits(s, c.sid, UserStmt(s.db, c, req).value)
    requires
      var st := UserStmt(s.db, c, req).value;
      c.snap.quote.address.Some? && (st.shipMethod, c.snap.quote.address.value.country, st.fee) in s.quotes
    ensures Justified(s, c.sid, UserStmt(s.db, c, req).value)
  {
    var q := c.snap.quote;
    assert c.snap == s.db.sessions[c.sid];
    PriceShippingExact(req.answer, RateFor(s.db.rates, q.address.value.country), q.subtotal);
  }

  lemma UserJustified(s: State, c: UserCall, req: Request)
    requires SnapOk(s, c) && RatesOk(s.db.rates) && QuoteOk(s, s.db.sessions[c.sid])
    requires UserStmt(s.db, c, req).Some? && Hits(s, c.sid, UserStmt(s.db, c, req).value)
    requires
      var st := UserStmt(s.db, c, req).value;
      st.SetShipping? ==>
        c.snap.quote.address.Some? && (st.shipMethod, c.snap.quote.address.value.country, st.fee) in s.quotes
    ensures Justified(s, c.sid, UserStmt(s.db, c, req).value)
  {
    if UserStmt(s.db, c, req).value.SetShipping? { UserShipping(s, c, req); }
  }

  // ---- Execution steps ----

  lemma ComponentsFine(s: State, q: Quote, subtotal: int)
    requires QuoteFine(s, q) && q.shipMethod.Some? && RatesOk(s.db.rates) && Int64(subtotal)
    requires Components(s.db, q, subtotal).Some?
    ensures
      var tax := Components(s.db, q, subtotal).value.0;
      tax >= 0 && TaxIs(s.db.rates, q.address.value.country, subtotal + q.fee, tax)
  {
    var rate := RateFor(s.db.rates, q.address.value.country);
    PriceShippingExact(Quoted(q.fee), rate, subtotal);
    assert PriceShipping(Quoted(q.fee), rate, subtotal).Success?;
  }

  lemma RefreshSameLines(items: seq<Item>, got: Catalog.Reads)
    requires Catalog.Revalidation(items, got).Drift?
    ensures
      var v := Catalog.Revalidation(items, got);
      SameLines(items, v.items) && v.subtotal == Wrap(Sum(v.items))
  {
  }

  lemma VerdictOk(s: State, e: Actor, input: Input)
    requires AtPc(s, e) && s.execs[e].pc.Revalidating? && ExecQuoteOk(s, s.execs[e]) && RatesOk(s.db.rates)
    ensures ExecQuoteOk(s, StepRevalidate(s, e, s.execs[e], input).execs[e])
  {
    var q := s.execs[e].sess.quote;
    var v := Catalog.Revalidation(q.items, input.got);
    if v.Drift? {
      RefreshSameLines(q.items, input.got);
      DriftVerdictOk(s, e, v, input.lookups);
    } else {
      OtherVerdictOk(s, e, v, input.lookups);
    }
  }

  lemma DriftVerdictOk(s: State, e: Actor, v: Catalog.Verdict, lookups: bool)
    requires AtPc(s, e) && s.execs[e].pc.Revalidating? && ExecQuoteOk(s, s.execs[e]) && RatesOk(s.db.rates)
    requires v.Drift? && SameLines(s.execs[e].sess.quote.items, v.items) && v.subtotal == Wrap(Sum(v.items))
    ensures ExecQuoteOk(s, StepVerdict(s, e, s.execs[e], v, lookups).execs[e])
  {
    var q := s.execs[e].sess.quote;
    if Components(s.db, q, v.subtotal).Some? { ComponentsFine(s, q, v.subtotal); }
    DriftOk(s, e, v, lookups);
  }

  lemma DriftOk(s: State, e: Actor, v: Catalog.Verdict, lookups: bool)
    requires AtPc(s, e) && s.execs[e].pc.Revalidating? && ExecQuoteOk(s, s.execs[e])
    requires v.Drift? && SameLines(s.execs[e].sess.quote.items, v.items) && v.subtotal == Wrap(Sum(v.items))
    requires
      var q := s.execs[e].sess.quote;
      Components(s.db, q, v.subtotal).Some? ==>
        var tax := Components(s.db, q, v.subtotal).value.0;
        tax >= 0 && TaxIs(s.db.rates, q.address.value.country, v.subtotal + q.fee, tax)
    ensures ExecQuoteOk(s, StepVerdict(s, e, s.execs[e], v, lookups).execs[e])
  {
  }

  lemma OtherVerdictOk(s: State, e: Actor, v: Catalog.Verdict, lookups: bool)
    requires AtPc(s, e) && s.execs[e].pc.Revalidating? && ExecQuoteOk(s, s.execs[e]) && !v.Drift?
    ensures ExecQuoteOk(s, StepVerdict(s, e, s.execs[e], v, lookups).execs[e])
  {
  }

  lemma RereadOk(s: State, e: Actor, ack: Ack)
    requires AtPc(s, e) && s.execs[e].pc.Rereading?
    requires s.execs[e].sid in s.db.sessions ==> QuoteOk(s, s.db.sessions[s.execs[e].sid])
    ensures ExecQuoteOk(s, StepReread(s, e, s.execs[e], ack).execs[e])
  {
  }

  // ---- Every event, every run ----

  lemma ExecJustified(s: State, e: Actor, input: Input)
    requires CoreInv(s) && e in s.execs && ExecQuoteOk(s, s.execs[e]) && RowStmt(s, Step(e, input)).Some?
    requires Hits(s, RowStmt(s, Step(e, input)).value.0, RowStmt(s, Step(e, input)).value.1)
    ensures
      var (sid, st) := RowStmt(s, Step(e, input)).value;
      sid in s.db.sessions && Justified(s, sid, st)
  {
    assert ExecOk(s, e);
  }

  /** The row an event writes is coherent again. */
  lemma WrittenRowOk(s: State, ev: Event, sid: SessionId)
    requires CoreInv(s) && RowInv(s) && sid in s.db.sessions
    requires RowStmt(s, ev).Some? && RowStmt(s, ev).value.0 == sid && Hits(s, sid, RowStmt(s, ev).value.1)
    ensures
      var sq := s.(quotes := Next(s, ev).quotes, db := s.db.(tick := s.db.tick + 1));
      QuoteOk(sq, NewRow(s.db, sid, RowStmt(s, ev).value.1))
  {
    var st := RowStmt(s, ev).value.1;
    assert QuoteOk(s, s.db.sessions[sid]);
    match ev {
      case Step(e, input) => StepWritten(s, e, input);
      case UserWrite(call, req, ack) => CallWritten(s, call, req, ack);
      case _ =>
        NewRowOk(s, sid, st);
    }
  }

  lemma CallWritten(s: State, call: nat, req: Request, ack: Ack)
    requires RowInv(s) && call in s.pending && RowStmt(s, UserWrite(call, req, ack)).Some?
    requires s.pending[call].sid in s.db.sessions
    requires Hits(s, s.pending[call].sid, RowStmt(s, UserWrite(call, req, ack)).value.1)
    ensures
      var st := RowStmt(s, UserWrite(call, req, ack)).value.1;
      QuoteOk(s.(quotes := Next(s, UserWrite(call, req, ack)).quotes, db := s.db.(tick := s.db.tick + 1)),
        NewRow(s.db, s.pending[call].sid, st))
  {
    var sq := s.(quotes := Next(s, UserWrite(call, req, ack)).quotes);
    assert SnapOk(s, s.pending[call]);
    UserWritten(s, sq, s.pending[call], req);
  }

  lemma StepWritten(s: State, e: Actor, input: Input)
    requires CoreInv(s) && RowInv(s) && RowStmt(s, Step(e, input)).Some?
    requires Hits(s, RowStmt(s, Step(e, input)).value.0, RowStmt(s, Step(e, input)).value.1)
    ensures
      var (sid, st) := RowStmt(s, Step(e, input)).value;
      && sid in s.db.sessions && Next(s, Step(e, input)).quotes == s.quotes
      && QuoteOk(s.(db := s.db.(tick := s.db.tick + 1)), NewRow(s.db, sid, st))
  {
    var (sid, st) := RowStmt(s, Step(e, input)).value;
    assert ExecQuoteOk(s, s.execs[e]);
    ExecJustified(s, e, input);
    assert QuoteOk(s, s.db.sessions[sid]);
    NewRowOk(s, sid, st);
    StepFramed(s, e, input);
  }

  lemma UserWritten(s: State, sq: State, c: UserCall, req: Request)
    requires SnapOk(s, c) && RatesOk(s.db.rates) && QuoteOk(s, s.db.sessions[c.sid])
    requires UserStmt(s.db, c, req).Some? && Hits(s, c.sid, UserStmt(s.db, c, req).value)
    requires
      var st := UserStmt(s.db, c, req).value;
      sq == s.(quotes := if st.SetShipping? then
        s.quotes + {(st.shipMethod, c.snap.quote.address.value.country, st.fee)} else s.quotes)
    ensures QuoteOk(sq.(db := s.db.(tick := s.db.tick + 1)), NewRow(s.db, c.sid, UserStmt(s.db, c, req).value))
  {
    QuoteFineLater(s, sq, s.db.sessions[c.sid].quote);
    UserJustified(sq, c, req);
    NewRowOk(sq, c.sid, UserStmt(s.db, c, req).value);
  }

  lemma LaterStep(s: State, ev: Event)
    ensures Later(s, Next(s, ev))
    ensures ev.Step? ==> Next(s, ev).quotes == s.quotes
  {
    if ev.Step? && ev.e in s.execs { StepFramed(s, ev.e, ev.input); }
  }

  /** Every applied write takes the next version. */
  lemma HitTicks(s: State, ev: Event)
    requires RowStmt(s, ev).Some? && Hits(s, RowStmt(s, ev).value.0, RowStmt(s, ev).value.1)
    ensures Next(s, ev).db.tick == s.db.tick + 1
  {
    if ev.Step? && ev.e in s.execs { StepFramed(s, ev.e, ev.input); }
  }

  /** A pending call was pending before or has just read its row. */
  lemma PendingFrom(s: State, ev: Event, c: nat)
    requires c in Next(s, ev).pending
    ensures
      || (c in s.pending && Next(s, ev).pending[c] == s.pending[c])
      || (ev.UserRead? && ev.call == c && ev.sid in s.db.sessions && Next(s, ev) == s.(pending := Next(s, ev).pending)
          && Next(s, ev).pending[c] == UserCall(ev.sid, s.db.sessions[ev.sid], s.db.now))
  {
    if ev.Step? && ev.e in s.execs { StepFramed(s, ev.e, ev.input); }
  }

  lemma RowsStep(s: State, ev: Event, sid: SessionId)
    requires CoreInv(s) && RowInv(s) && sid in Next(s, ev).db.sessions
    ensures QuoteOk(Next(s, ev), Next(s, ev).db.sessions[sid])
    ensures sid in s.db.sessions ==> s.db.sessions[sid].version <= Next(s, ev).db.sessions[sid].version
    ensures sid in s.db.sessions && Next(s, ev).db.sessions[sid] != s.db.sessions[sid] ==>
      s.db.sessions[sid].version < Next(s, ev).db.sessions[sid].version
  {
    var s' := Next(s, ev);
    LaterStep(s, ev);
    if sid in s.db.sessions {
      assert QuoteOk(s, s.db.sessions[sid]);
      RowDelta(s, ev, sid);
      if s'.db.sessions[sid] != s.db.sessions[sid] {
        HitTicks(s, ev);
        WrittenRowOk(s, ev, sid);
        QuoteOkMoves(s.(quotes := s'.quotes, db := s.db.(tick := s.db.tick + 1)), s', s'.db.sessions[sid]);
      } else {
        QuoteOkMoves(s, s', s.db.sessions[sid]);
      }
    } else {
      NewcomerIs(s, ev, sid);
      NewcomerOk(s, ev);
    }
  }

  lemma QuoteOkMoves(s: State, s': State, r: Session)
    requires Later(s, s') && QuoteOk(s, r)
    ensures QuoteOk(s', r)
  {
  }

  lemma NewcomerOk(s: State, ev: Event)
    requires ev.Create? && Insertable(s.db, ev.sid, ev.user, ev.items)
    ensures QuoteOk(Next(s, ev), Next(s, ev).db.sessions[ev.sid])
  {
  }

  lemma PendingStep(s: State, ev: Event, c: nat)
    requires CoreInv(s) && RowInv(s) && c in Next(s, ev).pending
    ensures SnapOk(Next(s, ev), Next(s, ev).pending[c])
  {
    LaterStep(s, ev);
    PendingFrom(s, ev, c);
    if c in s.pending && Next(s, ev).pending[c] == s.pending[c] {
      var call := s.pending[c];
      assert SnapOk(s, call);
      RowDelta(s, ev, call.sid);
      RowsStep(s, ev, call.sid);
      QuoteFineLater(s, Next(s, ev), call.snap.quote);
    } else {
      assert QuoteOk(s, s.db.sessions[ev.sid]);
      QuoteFineLater(s, Next(s, ev), s.db.sessions[ev.sid].quote);
    }
  }

  lemma ExecsStep(s: State, ev: Event, e: Actor)
    requires CoreInv(s) && RowInv(s) && e in Next(s, ev).execs
    ensures ExecQuoteOk(Next(s, ev), Next(s, ev).execs[e])
  {
    var s' := Next(s, ev);
    LaterStep(s, ev);
    assert e in s.execs ==> ExecQuoteOk(s, s.execs[e]);
    if ev.Step? && ev.e == e && e in s.execs && Alive(s, s.execs[e]) {
      OwnExecStep(s, e, ev.input);
    } else {
      OtherExecSame(s, ev, e);
    }
    ExecQuoteLater(s, s', s'.execs[e]);
  }

  lemma OwnExecStep(s: State, e: Actor, input: Input)
    requires CoreInv(s) && RowInv(s) && AtPc(s, e) && ExecQuoteOk(s, s.execs[e])
    ensures e in StepOf(s, e, input).execs && ExecQuoteOk(s, StepOf(s, e, input).execs[e])
  {
    StepFramed(s, e, input);
    if s.execs[e].pc.Revalidating? {
      VerdictOk(s, e, input);
    } else if s.execs[e].pc.Rereading? {
      RereadOk(s, e, input.ack);
    }
  }

  lemma RowInvStep(s: State, ev: Event)
    requires CoreInv(s) && RowInv(s)
    ensures RowInv(Next(s, ev))
  {
    var s' := Next(s, ev);
    LaterStep(s, ev);
    forall sid | sid in s'.db.sessions ensures QuoteOk(s', s'.db.sessions[sid]) { RowsStep(s, ev, sid); }
    forall c | c in s'.pending ensures SnapOk(s', s'.pending[c]) { PendingStep(s, ev, c); }
    forall e | e in s'.execs ensures ExecQuoteOk(s', s'.execs[e]) { ExecsStep(s, ev, e); }
  }

  lemma {:induction false} RowRun(s0: State, evs: seq<Event>)
    requires Init(s0)
    ensures RowInv(Run(s0, evs))
  {
    if evs != [] {
      var before := evs[..|evs| - 1];
      CoreRun(s0, before);
      RowRun(s0, before);
      RowInvStep(Run(s0, before), evs[|evs| - 1]);
    }
  }

  /**
   * A quoted fee for the current country, the true floored tax on the current subtotal and fee, and no sum out of
   * int64.
   */
  predicate Coherent(s: State, q: Quote) {
    && q.address.Some? && q.shipMethod.Some?
    && (q.shipMethod.value, q.address.value.country, q.fee) in s.quotes
    && TaxIs(s.db.rates, q.address.value.country, q.subtotal + q.fee, q.tax)
    && 0 <= q.fee && 0 <= q.tax && Int64(q.subtotal + q.fee + q.tax)
  }

  /**
   * Quote coherence under every interleaving: a row with a shipping method holds a fee that was quoted for its
   * current country, and the true floored tax on its current subtotal and fee.
   */
  lemma {:induction false} QuotesStayCoherent(s0: State, evs: seq<Event>, sid: SessionId)
    requires Init(s0) && sid in Run(s0, evs).db.sessions && Run(s0, evs).db.sessions[sid].quote.shipMethod.Some?
    ensures Coherent(Run(s0, evs), Run(s0, evs).db.sessions[sid].quote)
  {
    RowAt(s0, evs, sid);
    CoherentFits(Run(s0, evs), Run(s0, evs).db.sessions[sid].quote);
  }

  lemma RowAt(s0: State, evs: seq<Event>, sid: SessionId)
    requires Init(s0) && sid in Run(s0, evs).db.sessions
    ensures QuoteOk(Run(s0, evs), Run(s0, evs).db.sessions[sid]) && RatesOk(Run(s0, evs).db.rates)
  {
    RowRun(s0, evs);
  }

  lemma CoherentFits(s: State, q: Quote)
    requires QuoteFine(s, q) && q.shipMethod.Some? && RatesOk(s.db.rates)
    ensures Coherent(s, q)
  {
    var base, bps := q.subtotal + q.fee, RateFor(s.db.rates, q.address.value.country).value;
    assert 0 <= bps <= 10_000;
    FlatTaxExact(base, bps);
    Monotone(base, bps, 10_000);
  }

  /** The stored total is always the exact sum of its stored parts. */
  lemma {:induction false} TotalsAlwaysCompose(s0: State, evs: seq<Event>, sid: SessionId)
    requires Init(s0) && sid in Run(s0, evs).db.sessions
    ensures
      var q := Run(s0, evs).db.sessions[sid].quote;
      q.total == q.subtotal + q.fee + q.tax - q.discount
  {
    RowRun(s0, evs);
    assert QuoteOk(Run(s0, evs), Run(s0, evs).db.sessions[sid]);
  }

  /** With distinct products the subtotal is the int64 sum of the lines; within the order bounds, the exact sum. */
  lemma {:induction false} SubtotalIsSum(s0: State, evs: seq<Event>, sid: SessionId)
    requires Init(s0) && sid in Run(s0, evs).db.sessions && DistinctProducts(Run(s0, evs).db.sessions[sid].quote.items)
    ensures
      var q := Run(s0, evs).db.sessions[sid].quote;
      && q.subtotal == Wrap(Sum(q.items))
      && (OrderBounds(q) ==> q.subtotal == Sum(q.items))
  {
    RowRun(s0, evs);
    var q := Run(s0, evs).db.sessions[sid].quote;
    assert QuoteOk(Run(s0, evs), Run(s0, evs).db.sessions[sid]);
    if OrderBounds(q) { BoundedSum(q.items); }
  }

  /** Every ready, confirming or completed row has an address, a shipping method and a valid payment token. */
  lemma {:induction false} ReadyRowsAreComplete(s0: State, evs: seq<Event>, sid: SessionId)
    requires Init(s0) && sid in Run(s0, evs).db.sessions && ReadyOrLater(Run(s0, evs).db.sessions[sid].status)
    ensures
      var q := Run(s0, evs).db.sessions[sid].quote;
      q.address.Some? && q.shipMethod.Some? && q.token.Some? && ValidPaymentToken(q.token.value)
  {
    RowRun(s0, evs);
    assert QuoteOk(Run(s0, evs), Run(s0, evs).db.sessions[sid]);
  }
}
