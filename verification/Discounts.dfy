/**
 * The redemption ledger inside the protocol, and the discount clamp: exactly what each landing write does to it under
 * every interleaving, and that it always holds when user calls run serially.
 */
module Discounts {
  import opened Base
  import opened Domain
  import opened Money
  import opened Ledger
  import opened Store
  import opened Protocol
  import opened Safety
  import opened Theorems
  import opened Quotes
  import Catalog

  // ---- The ledger over whole runs of the protocol ----

  /** Only a redeeming step of a live execution touches the ledger, and then as one atomic redemption. */
  function LedgerAfter(s: State, ev: Event): PromoLedger {
    if ev.Step? && ev.e in s.execs && Counts(s, s.execs[ev.e], ev.input)
    then Redeems(s, s.execs[ev.e], ev.input).ledger
    else s.db.ledger
  }

  predicate Counts(s: State, x: Execution, input: Input) {
    && Alive(s, x) && x.pc.Redeeming? && x.sess.quote.promo.Some? && (input.ack == Good || input.ack == Lost)
    && Redeems(s, x, input).Redeemed?
  }

  lemma StepLedger(s: State, e: Actor, input: Input)
    requires e in s.execs
    ensures StepOf(s, e, input).db.ledger == LedgerAfter(s, Step(e, input))
  {
    if !s.execs[e].pc.Redeeming? { StepFramed(s, e, input); }
  }

  lemma LedgerDelta(s: State, ev: Event)
    ensures Next(s, ev).db.ledger == LedgerAfter(s, ev)
  {
    match ev
    case Step(e, input) => if e in s.execs { StepLedger(s, e, input); }
    case _ =>
  }

  lemma LedgerAfterOk(s: State, ev: Event)
    requires LedgerOk(s.db.ledger)
    ensures LedgerOk(LedgerAfter(s, ev))
  {
    if ev.Step? && ev.e in s.execs && Counts(s, s.execs[ev.e], ev.input) {
      var x := s.execs[ev.e];
      RedeemKeepsLedger(s.db.ledger, x.sess.quote.promo.value, x.user, x.sid, JudgedAt(s, x.started, ev.input.judged));
    }
  }

  /** In every reachable state each code's count is its committed redemptions and no cap is passed. */
  lemma {:induction false} LedgerRun(s0: State, evs: seq<Event>)
    requires Init(s0)
    ensures LedgerOk(Run(s0, evs).db.ledger)
  {
    if evs != [] {
      var before := evs[..|evs| - 1];
      LedgerRun(s0, before);
      LedgerAfterOk(Run(s0, before), evs[|evs| - 1]);
      LedgerDelta(Run(s0, before), evs[|evs| - 1]);
    }
  }

  // ---- The clamp ----

  /** A non-negative subtotal is never discounted below zero or past what is payable. */
  predicate Clamped(subtotal: int, fee: int, tax: int, discount: int) {
    subtotal >= 0 ==> 0 <= discount <= subtotal + fee + tax
  }

  predicate QuoteClamped(q: Quote) { Clamped(q.subtotal, q.fee, q.tax, q.discount) }

  function Payable(q: Quote): int { q.subtotal + q.fee + q.tax }

  /** A discount derived from the very components it is stored beside is clamped to them. */
  lemma DerivedClamped(l: PromoLedger, promo: Option<string>, subtotal: int, fee: int, tax: int)
    requires LedgerOk(l) && Int64(subtotal + fee) && Int64(subtotal + fee + tax) && fee >= 0 && tax >= 0
    requires SessionDiscount(l, promo, subtotal, fee, tax).Success?
    ensures Clamped(subtotal, fee, tax, SessionDiscount(l, promo, subtotal, fee, tax).value)
  {
    if promo.Some? && promo.value in l.codes {
      DiscountClamped(l.codes[promo.value], subtotal, fee, tax);
    }
  }

  /** What the code would take off this subtotal if nothing clamped it. */
  function Worth(p: Promo, subtotal: int): int {
    match p.kind
    case Fixed => p.value
    case Percent => subtotal * p.value / 100
  }

  /**
   * When a discount computed from one reading of a row fits whatever the row has by the time it is stored: the code is
   * gone, or its worth fits what is payable now, or the row did not get cheaper since.
   */
  predicate StaleFits(l: PromoLedger, promo: Option<string>, subtotal: int, payable: int, subtotal': int,
      payable': int) {
    || promo.None? || promo.value !in l.codes || subtotal' < 0
    || (0 <= payable && (Worth(l.codes[promo.value], subtotal) <= payable' || payable <= payable'))
  }

  lemma StaleDiscount(l: PromoLedger, promo: Option<string>, subtotal: int, fee: int, tax: int, subtotal': int,
      fee': int, tax': int)
    requires LedgerOk(l) && 0 <= fee && 0 <= tax && Int64(subtotal + fee) && Int64(subtotal + fee + tax)
    requires SessionDiscount(l, promo, subtotal, fee, tax).Success? && 0 <= fee' && 0 <= tax'
    ensures Clamped(subtotal', fee', tax', SessionDiscount(l, promo, subtotal, fee, tax).value) <==>
      StaleFits(l, promo, subtotal, subtotal + fee + tax, subtotal', subtotal' + fee' + tax')
  {
    if promo.Some? && promo.value in l.codes {
      DiscountClamped(l.codes[promo.value], subtotal, fee, tax);
    }
  }

  // ---- What each write does to the clamp ----

  /** A coherent quote's own sums are int64 sums. */
  lemma PayableFits(s: State, q: Quote)
    requires QuoteFine(s, q) && RatesOk(s.db.rates)
    ensures 0 <= q.fee && 0 <= q.tax && Int64(q.subtotal) && Int64(q.subtotal + q.fee) && Int64(Payable(q))
  {
    if q.shipMethod.Some? { CoherentFits(s, q); }
  }

  /** SetPromo and SetAddress land a discount computed from the call's snapshot on whatever the row has become. */
  predicate DiscountFits(s: State, c: UserCall, st: Stmt)
    requires c.sid in s.db.sessions
  {
    var q, q' := c.snap.quote, s.db.sessions[c.sid].quote;
    match st
    case SetPromo(_, code, _) => StaleFits(s.db.ledger, code, q.subtotal, Payable(q), q'.subtotal, Payable(q'))
    case SetAddress(_, _, _) => StaleFits(s.db.ledger, q.promo, q.subtotal, q.subtotal, q'.subtotal, q'.subtotal)
    case _ => true
  }

  lemma UserWrites(s: State, c: UserCall, req: Request)
    requires LedgerOk(s.db.ledger) && RatesOk(s.db.rates) && SnapOk(s, c) && QuoteOk(s, s.db.sessions[c.sid])
    requires UserStmt(s.db, c, req).Some? && Hits(s, c.sid, UserStmt(s.db, c, req).value)
    ensures
      var st := UserStmt(s.db, c, req).value;
      var q' := NewRow(s.db, c.sid, st).quote;
      if st.SetPromo? || st.SetAddress? then QuoteClamped(q') <==> DiscountFits(s, c, st)
      else QuoteClamped(s.db.sessions[c.sid].quote) ==> QuoteClamped(q')
  {
    var q := c.snap.quote;
    PayableFits(s, q);
    var r := s.db.sessions[c.sid].quote;
    PayableFits(s, r);
    match UserStmt(s.db, c, req).value {
      case SetAddress(_, _, _) => StaleDiscount(s.db.ledger, q.promo, q.subtotal, 0, 0, r.subtotal, 0, 0);
      case SetShipping(_, _, _, fee, tax, _) => ShippingClamped(s, c, req);
      case SetPromo(_, code, _) =>
        if code.Some? { StaleDiscount(s.db.ledger, code, q.subtotal, q.fee, q.tax, r.subtotal, r.fee, r.tax); }
      case _ =>
    }
  }

  /** The shipping write is fenced to the row it was priced on. */
  lemma ShippingClamped(s: State, c: UserCall, req: Request)
    requires LedgerOk(s.db.ledger) && RatesOk(s.db.rates) && SnapOk(s, c) && Int64(c.snap.quote.subtotal)
    requires UserStmt(s.db, c, req).Some? && UserStmt(s.db, c, req).value.SetShipping?
    requires Hits(s, c.sid, UserStmt(s.db, c, req).value)
    ensures QuoteClamped(NewRow(s.db, c.sid, UserStmt(s.db, c, req).value).quote)
  {
    var q := c.snap.quote;
    var st := UserStmt(s.db, c, req).value;
    PriceShippingExact(req.answer, RateFor(s.db.rates, q.address.value.country), q.subtotal);
    DerivedClamped(s.db.ledger, q.promo, q.subtotal, st.fee, st.tax);
  }

  /** A pending requote is clamped if the quote it was computed from was. */
  predicate ExecKeeps(x: Execution) {
    x.pc.Requoting? && QuoteClamped(x.sess.quote)
    && Int64(x.pc.subtotal + x.sess.quote.fee) && Int64(x.pc.subtotal + x.sess.quote.fee + x.pc.tax) ==>
      Clamped(x.pc.subtotal, x.sess.quote.fee, x.pc.tax, x.pc.discount)
  }

  lemma ExecWrites(s: State, e: Actor, input: Input)
    requires e in s.execs && ExecOk(s, e) && ExecKeeps(s.execs[e]) && ExecQuoteOk(s, s.execs[e])
    requires RowStmt(s, Step(e, input)).Some?
    requires
      var (sid, st) := RowStmt(s, Step(e, input)).value;
      Hits(s, sid, st) && QuoteClamped(s.db.sessions[sid].quote)
    ensures
      var (sid, st) := RowStmt(s, Step(e, input)).value;
      QuoteClamped(NewRow(s.db, sid, st).quote)
  {
  }

  // ---- Executions ----

  lemma VerdictKeeps(s: State, e: Actor, v: Catalog.Verdict, lookups: bool)
    requires AtPc(s, e) && s.execs[e].pc.Revalidating? && ExecQuoteOk(s, s.execs[e])
    requires RatesOk(s.db.rates) && LedgerOk(s.db.ledger)
    requires v.Drift? ==> Int64(v.subtotal)
    ensures ExecKeeps(StepVerdict(s, e, s.execs[e], v, lookups).execs[e])
  {
    var q := s.execs[e].sess.quote;
    if v.Drift? && Components(s.db, q, v.subtotal).Some? {
      ComponentsFine(s, q, v.subtotal);
      var tax := Components(s.db, q, v.subtotal).value.0;
      if Int64(v.subtotal + q.fee) && Int64(v.subtotal + q.fee + tax) {
        DerivedClamped(s.db.ledger, q.promo, v.subtotal, q.fee, tax);
      }
    }
  }

  lemma RevalidateKeeps(s: State, e: Actor, input: Input)
    requires AtPc(s, e) && s.execs[e].pc.Revalidating? && ExecQuoteOk(s, s.execs[e])
    requires RatesOk(s.db.rates) && LedgerOk(s.db.ledger)
    ensures ExecKeeps(StepRevalidate(s, e, s.execs[e], input).execs[e])
  {
    var items := s.execs[e].sess.quote.items;
    var v := Catalog.Revalidation(items, input.got);
    if v.Drift? { RefreshSameLines(items, input.got); }
    VerdictKeeps(s, e, v, input.lookups);
  }

  lemma OtherwiseKeeps(s: State, e: Actor, input: Input)
    requires e in s.execs && !s.execs[e].pc.Revalidating? && !s.execs[e].pc.Rereading? && ExecKeeps(s.execs[e])
    ensures e in StepOf(s, e, input).execs && ExecKeeps(StepOf(s, e, input).execs[e])
  {
    StepFramed(s, e, input);
    CarriesKeeps(s.execs[e], StepOf(s, e, input).execs[e]);
  }

  lemma RereadKeeps(s: State, e: Actor, ack: Ack)
    requires AtPc(s, e)
    ensures ExecKeeps(StepReread(s, e, s.execs[e], ack).execs[e])
  {
  }

  lemma OwnKeeps(s: State, e: Actor, input: Input)
    requires AtPc(s, e) && ExecKeeps(s.execs[e]) && ExecQuoteOk(s, s.execs[e]) && RatesOk(s.db.rates)
    requires LedgerOk(s.db.ledger)
    ensures e in StepOf(s, e, input).execs && ExecKeeps(StepOf(s, e, input).execs[e])
  {
    if s.execs[e].pc.Revalidating? {
      RevalidateKeeps(s, e, input);
    } else if s.execs[e].pc.Rereading? {
      RereadKeeps(s, e, input.ack);
    } else {
      OtherwiseKeeps(s, e, input);
    }
  }

  lemma CarriesKeeps(x: Execution, x': Execution)
    requires Carries(x, x') && ExecKeeps(x)
    ensures ExecKeeps(x')
  {
  }

  lemma KeepStep(s: State, ev: Event, e: Actor)
    requires RowInv(s) && LedgerOk(s.db.ledger) && e in Next(s, ev).execs
    requires e in s.execs ==> ExecKeeps(s.execs[e])
    ensures ExecKeeps(Next(s, ev).execs[e])
  {
    if ev.Step? && ev.e == e && AtPc(s, e) {
      assert ExecQuoteOk(s, s.execs[e]);
      OwnKeeps(s, e, ev.input);
    } else {
      OtherExecSame(s, ev, e);
    }
  }

  lemma {:induction false} KeepRun(s0: State, evs: seq<Event>)
    requires Init(s0)
    ensures forall e :: e in Run(s0, evs).execs ==> ExecKeeps(Run(s0, evs).execs[e])
  {
    if evs != [] {
      var before := evs[..|evs| - 1];
      KeepRun(s0, before);
      RowRun(s0, before);
      LedgerRun(s0, before);
      forall e | e in Run(s0, evs).execs ensures ExecKeeps(Run(s0, evs).execs[e]) {
        KeepStep(Run(s0, before), evs[|evs| - 1], e);
      }
    }
  }

  // ---- Every event of every run ----

  /** The event is a user write of a discount that finds its row. */
  predicate LandsDiscount(s: State, ev: Event, sid: SessionId) {
    && ev.UserWrite? && ev.call in s.pending && s.pending[ev.call].sid == sid && (ev.ack == Good || ev.ack == Lost)
    && UserStmt(s.db, s.pending[ev.call], ev.req).Some?
    && var st := UserStmt(s.db, s.pending[ev.call], ev.req).value;
       (st.SetPromo? || st.SetAddress?) && Hits(s, sid, st)
  }

  /**
   * In every run, whatever interleaves: after a landing SetPromo or SetAddress the row's discount is clamped if and
   * only if the discount computed from the call's snapshot fits the row as it now is; every other event keeps the
   * clamp.
   */
  lemma {:induction false} ClampMovesExactly(s0: State, evs: seq<Event>, ev: Event, sid: SessionId)
    requires Init(s0) && sid in Run(s0, evs).db.sessions
    ensures
      var s := Run(s0, evs);
      var s' := Next(s, ev);
      && sid in s'.db.sessions
      && (if LandsDiscount(s, ev, sid)
          then QuoteClamped(s'.db.sessions[sid].quote) <==>
                 DiscountFits(s, s.pending[ev.call], UserStmt(s.db, s.pending[ev.call], ev.req).value)
          else QuoteClamped(s.db.sessions[sid].quote) ==> QuoteClamped(s'.db.sessions[sid].quote))
  {
    CoreRun(s0, evs);
    RowRun(s0, evs);
    LedgerRun(s0, evs);
    KeepRun(s0, evs);
    ClampMoves(Run(s0, evs), ev, sid);
  }

  lemma ClampMoves(s: State, ev: Event, sid: SessionId)
    requires CoreInv(s) && RowInv(s) && LedgerOk(s.db.ledger) && sid in s.db.sessions
    requires forall e :: e in s.execs ==> ExecKeeps(s.execs[e])
    ensures
      var s' := Next(s, ev);
      && sid in s'.db.sessions
      && (if LandsDiscount(s, ev, sid)
          then QuoteClamped(s'.db.sessions[sid].quote) <==>
                 DiscountFits(s, s.pending[ev.call], UserStmt(s.db, s.pending[ev.call], ev.req).value)
          else QuoteClamped(s.db.sessions[sid].quote) ==> QuoteClamped(s'.db.sessions[sid].quote))
  {
    RowDelta(s, ev, sid);
    if LandsDiscount(s, ev, sid) {
      assert SnapOk(s, s.pending[ev.call]) && QuoteOk(s, s.db.sessions[sid]);
      UserWrites(s, s.pending[ev.call], ev.req);
      DiscountLands(s, ev, sid);
    } else if Next(s, ev).db.sessions[sid] != s.db.sessions[sid] {
      OtherWrites(s, ev, sid);
    }
  }

  lemma DiscountLands(s: State, ev: Event, sid: SessionId)
    requires LandsDiscount(s, ev, sid)
    ensures
      var st := UserStmt(s.db, s.pending[ev.call], ev.req).value;
      sid in Next(s, ev).db.sessions && Next(s, ev).db.sessions[sid] == NewRow(s.db, sid, st)
  {
    WriteIsPut(s, sid, UserStmt(s.db, s.pending[ev.call], ev.req).value);
  }

  lemma OtherWrites(s: State, ev: Event, sid: SessionId)
    requires CoreInv(s) && RowInv(s) && LedgerOk(s.db.ledger) && sid in s.db.sessions && !LandsDiscount(s, ev, sid)
    requires forall e :: e in s.execs ==> ExecKeeps(s.execs[e])
    requires RowStmt(s, ev).Some? && RowStmt(s, ev).value.0 == sid && Hits(s, sid, RowStmt(s, ev).value.1)
    ensures QuoteClamped(s.db.sessions[sid].quote) ==> QuoteClamped(NewRow(s.db, sid, RowStmt(s, ev).value.1).quote)
  {
    match ev {
      case Step(e, input) =>
        StepGuards(s, e);
        if QuoteClamped(s.db.sessions[sid].quote) { ExecWrites(s, e, input); }
      case UserWrite(call, req, ack) => UserOther(s, call, req, sid);
      case TouchRow(_, _) | FireTimer(_) | FireParked(_) => TimerOther(s, ev, sid);
    }
  }

  lemma TimerOther(s: State, ev: Event, sid: SessionId)
    requires (ev.TouchRow? || ev.FireTimer? || ev.FireParked?) && sid in s.db.sessions
    ensures NewRow(s.db, sid, RowStmt(s, ev).value.1).quote == s.db.sessions[sid].quote
  {
  }

  lemma StepGuards(s: State, e: Actor)
    requires CoreInv(s) && RowInv(s) && e in s.execs
    ensures ExecQuoteOk(s, s.execs[e]) && ExecOk(s, e)
  {
  }

  lemma UserOther(s: State, call: nat, req: Request, sid: SessionId)
    requires RowInv(s) && LedgerOk(s.db.ledger) && call in s.pending && s.pending[call].sid == sid
    requires sid in s.db.sessions
    requires
      var st := UserStmt(s.db, s.pending[call], req);
      st.Some? && !st.value.SetPromo? && !st.value.SetAddress? && Hits(s, sid, st.value)
    ensures
      var st := UserStmt(s.db, s.pending[call], req).value;
      QuoteClamped(s.db.sessions[sid].quote) ==> QuoteClamped(NewRow(s.db, sid, st).quote)
  {
    assert SnapOk(s, s.pending[call]) && QuoteOk(s, s.db.sessions[sid]);
    UserWrites(s, s.pending[call], req);
  }

  // ---- Serial runs ----

  /** No other write of the row came between the call's read and its write. */
  predicate Undisturbed(s: State, ev: Event) {
    ev.UserWrite? && ev.call in s.pending && s.pending[ev.call].sid in s.db.sessions ==>
      s.db.sessions[s.pending[ev.call].sid].version == s.pending[ev.call].snap.version
  }

  ghost predicate SerialRun(s0: State, evs: seq<Event>) {
    evs == [] || (SerialRun(s0, evs[..|evs| - 1]) && Undisturbed(Run(s0, evs[..|evs| - 1]), evs[|evs| - 1]))
  }

  ghost predicate AllClamped(s: State) { forall sid :: sid in s.db.sessions ==> QuoteClamped(s.db.sessions[sid].quote) }

  lemma SerialStep(s0: State, evs: seq<Event>, ev: Event, sid: SessionId)
    requires Init(s0) && AllClamped(Run(s0, evs)) && Undisturbed(Run(s0, evs), ev)
    requires sid in Next(Run(s0, evs), ev).db.sessions
    ensures QuoteClamped(Next(Run(s0, evs), ev).db.sessions[sid].quote)
  {
    var s := Run(s0, evs);
    if sid in s.db.sessions {
      ClampMovesExactly(s0, evs, ev, sid);
      RowAt(s0, evs, sid);
      if LandsDiscount(s, ev, sid) {
        RowRun(s0, evs);
        assert SnapOk(s, s.pending[ev.call]);
      }
    } else {
      NewcomerIs(s, ev, sid);
      assert FreshQuote(ev.items).discount == 0;
    }
  }

  lemma {:induction false} ClampRun(s0: State, evs: seq<Event>)
    requires Init(s0) && SerialRun(s0, evs)
    ensures AllClamped(Run(s0, evs))
  {
    if evs != [] {
      var before := evs[..|evs| - 1];
      ClampRun(s0, before);
      forall sid | sid in Run(s0, evs).db.sessions ensures QuoteClamped(Run(s0, evs).db.sessions[sid].quote) {
        SerialStep(s0, before, evs[|evs| - 1], sid);
      }
    }
  }

  /**
   * When user calls run serially, nobody is ever owed money: with a non-negative subtotal the stored discount lies
   * between zero and everything payable, and the stored total is not negative.
   */
  lemma {:induction false} SerialTotalsNonNegative(s0: State, evs: seq<Event>, sid: SessionId)
    requires Init(s0) && SerialRun(s0, evs) && sid in Run(s0, evs).db.sessions
    requires Run(s0, evs).db.sessions[sid].quote.subtotal >= 0
    ensures
      var q := Run(s0, evs).db.sessions[sid].quote;
      0 <= q.discount <= q.subtotal + q.fee + q.tax && q.total >= 0
  {
    ClampRun(s0, evs);
    TotalsAlwaysCompose(s0, evs, sid);
  }
}
