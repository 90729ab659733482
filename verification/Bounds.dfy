/**
 * The order-side bounds after they were checked: exactly which events take a row out of them, that a CreateOrder call
 * keeps within them unless one did, and that serial calls never do by themselves.
 */
module Bounds {
  import opened Base
  import opened Domain
  import opened Money
  import opened Ledger
  import opened Store
  import opened Protocol
  import opened Safety
  import opened Theorems
  import opened Quotes
  import opened Discounts
  import opened Subtotals
  import Catalog

  // ---- The parts of the bounds that can move ----

  predicate PricesFit(items: seq<Item>) { forall i :: 0 <= i < |items| ==> 0 <= items[i].unitPrice <= MAX_UNIT_PRICE }

  predicate DiscountFine(q: Quote) { 0 <= q.discount <= Payable(q) }

  /** Nothing but prices and flags differs. */
  predicate Relined(items: seq<Item>, items': seq<Item>) {
    && |items'| == |items|
    && forall i :: 0 <= i < |items| ==>
         items'[i] == items[i].(unitPrice := items'[i].unitPrice, priceChanged := items'[i].priceChanged)
  }

  lemma {:induction false} RepriceRelines(rows: seq<Item>, items: seq<Item>)
    ensures Relined(rows, RepriceAll(rows, items))
  {
    if items != [] { RepriceRelines(rows, items[..|items| - 1]); }
  }

  /** The bounds of a relined quote come down to its prices and its discount. */
  lemma BoundsParts(q: Quote, q': Quote)
    requires OrderBounds(q) && Relined(q.items, q'.items) && (q'.token.Some? ==> ValidPaymentToken(q'.token.value))
    requires Int64(q'.subtotal + q'.fee) && Int64(Payable(q'))
    ensures OrderBounds(q') <==> PricesFit(q'.items) && DiscountFine(q')
  {
    if PricesFit(q'.items) {
      forall i | 0 <= i < |q'.items| ensures LineBounds(q'.items[i]) { assert LineBounds(q.items[i]); }
    }
    if OrderBounds(q') {
      forall i | 0 <= i < |q'.items| ensures 0 <= q'.items[i].unitPrice <= MAX_UNIT_PRICE {
        assert LineBounds(q'.items[i]);
      }
    }
  }

  lemma BoundedIsFine(s: State, q: Quote)
    requires QuoteFine(s, q) && RatesOk(s.db.rates) && OrderBounds(q)
    ensures DiscountFine(q) && PricesFit(q.items) && Int64(q.subtotal + q.fee) && Int64(Payable(q))
  {
    PayableFits(s, q);
    forall i | 0 <= i < |q.items| ensures 0 <= q.items[i].unitPrice <= MAX_UNIT_PRICE { assert LineBounds(q.items[i]); }
  }

  // ---- The events that take a row out of the bounds ----

  /** A discount lands that does not fit what the row has become. */
  predicate Overdiscounts(s: State, ev: Event, sid: SessionId) {
    && LandsDiscount(s, ev, sid) && sid in s.db.sessions
    && var st, q := UserStmt(s.db, s.pending[ev.call], ev.req).value, s.db.sessions[sid].quote;
       !(0 <= st.discount <= if st.SetAddress? then q.subtotal else Payable(q))
  }

  /** A requote lands that stores a price order-service does not take. */
  predicate Overprices(s: State, ev: Event, sid: SessionId) {
    && LandsRequote(s, ev, sid) && sid in s.db.sessions
    && !PricesFit(RepriceAll(s.db.sessions[sid].quote.items, RowStmt(s, ev).value.1.items))
  }

  // ---- What each write does to the bounds ----

  lemma DiscountWrite(s: State, sid: SessionId, st: Stmt)
    requires sid in s.db.sessions && Hits(s, sid, st) && QuoteFine(s, s.db.sessions[sid].quote)
    requires OrderBounds(s.db.sessions[sid].quote) && RatesOk(s.db.rates) && (st.SetPromo? || st.SetAddress?)
    ensures
      var q := s.db.sessions[sid].quote;
      OrderBounds(NewRow(s.db, sid, st).quote) <==>
        0 <= st.discount <= if st.SetAddress? then q.subtotal else Payable(q)
  {
    BoundedIsFine(s, s.db.sessions[sid].quote);
    BoundsParts(s.db.sessions[sid].quote, NewRow(s.db, sid, st).quote);
  }

  /** A discount derived from the very components it is stored beside fits them, if anything is payable at all. */
  lemma DerivedFits(l: PromoLedger, promo: Option<string>, subtotal: int, fee: int, tax: int)
    requires LedgerOk(l) && Int64(subtotal + fee) && Int64(subtotal + fee + tax) && 0 <= subtotal + fee + tax
    requires SessionDiscount(l, promo, subtotal, fee, tax).Success?
    ensures 0 <= SessionDiscount(l, promo, subtotal, fee, tax).value <= subtotal + fee + tax
  {
    if promo.Some? && promo.value in l.codes { DiscountClamped(l.codes[promo.value], subtotal, fee, tax); }
  }

  lemma ShippingWrite(s: State, c: UserCall, req: Request)
    requires LedgerOk(s.db.ledger) && RatesOk(s.db.rates) && SnapOk(s, c)
    requires UserStmt(s.db, c, req).Some? && UserStmt(s.db, c, req).value.SetShipping?
    requires Hits(s, c.sid, UserStmt(s.db, c, req).value) && OrderBounds(s.db.sessions[c.sid].quote)
    ensures OrderBounds(NewRow(s.db, c.sid, UserStmt(s.db, c, req).value).quote)
  {
    var q, st := c.snap.quote, UserStmt(s.db, c, req).value;
    assert s.db.sessions[c.sid].quote == q;
    BoundedIsFine(s, q);
    PriceShippingExact(req.answer, RateFor(s.db.rates, q.address.value.country), q.subtotal);
    DerivedFits(s.db.ledger, q.promo, q.subtotal, st.fee, st.tax);
    BoundsParts(q, NewRow(s.db, c.sid, st).quote);
  }

  /** A pending requote's discount fits if the quote it was computed from was fine. */
  predicate ExecFits(x: Execution) {
    x.pc.Requoting? && DiscountFine(x.sess.quote)
    && Int64(x.pc.subtotal + x.sess.quote.fee) && Int64(x.pc.subtotal + x.sess.quote.fee + x.pc.tax) ==>
      0 <= x.pc.discount <= x.pc.subtotal + x.sess.quote.fee + x.pc.tax
  }

  lemma RequoteWrite(s: State, sid: SessionId, st: Stmt, x: Execution)
    requires sid in s.db.sessions && Hits(s, sid, st) && QuoteFine(s, s.db.sessions[sid].quote)
    requires OrderBounds(s.db.sessions[sid].quote) && RatesOk(s.db.rates)
    requires x.pc.Requoting? && ExecFits(x) && x.sess.quote == s.db.sessions[sid].quote
    requires st == RequoteItems(x.claim, x.pc.items, x.pc.subtotal, x.pc.tax, x.pc.discount)
    ensures OrderBounds(NewRow(s.db, sid, st).quote) <==>
      PricesFit(RepriceAll(s.db.sessions[sid].quote.items, st.items))
  {
    var q := s.db.sessions[sid].quote;
    BoundedIsFine(s, q);
    RepriceRelines(q.items, st.items);
    BoundsParts(q, NewRow(s.db, sid, st).quote);
  }

  lemma OtherWrite(s: State, sid: SessionId, st: Stmt)
    requires sid in s.db.sessions && Hits(s, sid, st) && QuoteFine(s, s.db.sessions[sid].quote)
    requires OrderBounds(s.db.sessions[sid].quote) && RatesOk(s.db.rates)
    requires !st.SetPromo? && !st.SetAddress? && !st.SetShipping? && !st.RequoteItems?
    requires st.SetPaymentToken? ==> ValidPaymentToken(st.token)
    ensures OrderBounds(NewRow(s.db, sid, st).quote)
  {
    BoundedIsFine(s, s.db.sessions[sid].quote);
    BoundsParts(s.db.sessions[sid].quote, NewRow(s.db, sid, st).quote);
  }

  // ---- Pending requotes ----

  lemma VerdictFits(s: State, e: Actor, v: Catalog.Verdict, lookups: bool)
    requires AtPc(s, e) && s.execs[e].pc.Revalidating? && ExecQuoteOk(s, s.execs[e])
    requires RatesOk(s.db.rates) && LedgerOk(s.db.ledger) && (v.Drift? ==> Int64(v.subtotal))
    ensures ExecFits(StepVerdict(s, e, s.execs[e], v, lookups).execs[e])
  {
    var q := s.execs[e].sess.quote;
    if v.Drift? && Components(s.db, q, v.subtotal).Some? {
      ComponentsFine(s, q, v.subtotal);
      var tax := Components(s.db, q, v.subtotal).value.0;
      if Int64(v.subtotal + q.fee) && Int64(v.subtotal + q.fee + tax) {
        DerivedFits(s.db.ledger, q.promo, v.subtotal, q.fee, tax);
      }
    }
  }

  lemma RevalidateFits(s: State, e: Actor, input: Input)
    requires AtPc(s, e) && s.execs[e].pc.Revalidating? && ExecQuoteOk(s, s.execs[e])
    requires RatesOk(s.db.rates) && LedgerOk(s.db.ledger)
    ensures ExecFits(StepRevalidate(s, e, s.execs[e], input).execs[e])
  {
    var items := s.execs[e].sess.quote.items;
    var v := Catalog.Revalidation(items, input.got);
    if v.Drift? { RefreshSameLines(items, input.got); }
    VerdictFits(s, e, v, input.lookups);
  }

  lemma CarriesFits(x: Execution, x': Execution)
    requires Carries(x, x') && ExecFits(x)
    ensures ExecFits(x')
  {
  }

  lemma OwnFits(s: State, e: Actor, input: Input)
    requires AtPc(s, e) && ExecFits(s.execs[e]) && ExecQuoteOk(s, s.execs[e]) && RatesOk(s.db.rates)
    requires LedgerOk(s.db.ledger)
    ensures e in StepOf(s, e, input).execs && ExecFits(StepOf(s, e, input).execs[e])
  {
    StepFramed(s, e, input);
    if s.execs[e].pc.Revalidating? {
      RevalidateFits(s, e, input);
    } else if s.execs[e].pc.Rereading? {
      RereadShape(s, e, input.ack);
    } else {
      CarriesFits(s.execs[e], StepOf(s, e, input).execs[e]);
    }
  }

  lemma FitStep(s: State, ev: Event, e: Actor)
    requires RowInv(s) && LedgerOk(s.db.ledger) && e in Next(s, ev).execs
    requires e in s.execs ==> ExecFits(s.execs[e])
    ensures ExecFits(Next(s, ev).execs[e])
  {
    if ev.Step? && ev.e == e && AtPc(s, e) {
      assert ExecQuoteOk(s, s.execs[e]);
      OwnFits(s, e, ev.input);
    } else {
      OtherExecSame(s, ev, e);
    }
  }

  lemma {:induction false} FitRun(s0: State, evs: seq<Event>)
    requires Init(s0)
    ensures forall e :: e in Run(s0, evs).execs ==> ExecFits(Run(s0, evs).execs[e])
  {
    if evs != [] {
      var before := evs[..|evs| - 1];
      FitRun(s0, before);
      RowRun(s0, before);
      LedgerRun(s0, before);
      forall e | e in Run(s0, evs).execs ensures ExecFits(Run(s0, evs).execs[e]) {
        FitStep(Run(s0, before), evs[|evs| - 1], e);
      }
    }
  }

  // ---- Every event of every run ----

  /** What every reachable state knows about rows, calls and pending requotes. */
  ghost predicate Sound(s: State) {
    CoreInv(s) && RowInv(s) && LedgerOk(s.db.ledger) && forall e :: e in s.execs ==> ExecFits(s.execs[e])
  }

  lemma {:induction false} SoundRun(s0: State, evs: seq<Event>)
    requires Init(s0)
    ensures Sound(Run(s0, evs))
  {
    CoreRun(s0, evs);
    RowRun(s0, evs);
    LedgerRun(s0, evs);
    FitRun(s0, evs);
  }

  /**
   * In every run, an event takes a row out of the order-side bounds if and only if it lands a discount that does not
   * fit what the row has become, or a requote with a price order-service does not take.
   */
  lemma {:induction false} BoundsMoveExactly(s0: State, evs: seq<Event>, ev: Event, sid: SessionId)
    requires Init(s0) && sid in Run(s0, evs).db.sessions && OrderBounds(Run(s0, evs).db.sessions[sid].quote)
    ensures
      var s := Run(s0, evs);
      var s' := Next(s, ev);
      && sid in s'.db.sessions
      && (OrderBounds(s'.db.sessions[sid].quote) <==> !Overdiscounts(s, ev, sid) && !Overprices(s, ev, sid))
  {
    SoundRun(s0, evs);
    BoundsMove(Run(s0, evs), ev, sid);
  }

  lemma BoundsMove(s: State, ev: Event, sid: SessionId)
    requires Sound(s) && sid in s.db.sessions && OrderBounds(s.db.sessions[sid].quote)
    ensures
      var s' := Next(s, ev);
      && sid in s'.db.sessions
      && (OrderBounds(s'.db.sessions[sid].quote) <==> !Overdiscounts(s, ev, sid) && !Overprices(s, ev, sid))
  {
    if LandsRequote(s, ev, sid) {
      RequoteMoves(s, ev, sid);
    } else if LandsDiscount(s, ev, sid) {
      DiscountMoves(s, ev, sid);
    } else {
      QuietMoves(s, ev, sid);
    }
  }

  lemma DiscountMoves(s: State, ev: Event, sid: SessionId)
    requires RowInv(s) && sid in s.db.sessions && OrderBounds(s.db.sessions[sid].quote) && LandsDiscount(s, ev, sid)
    ensures sid in Next(s, ev).db.sessions
    ensures OrderBounds(Next(s, ev).db.sessions[sid].quote) <==> !Overdiscounts(s, ev, sid)
  {
    assert QuoteOk(s, s.db.sessions[sid]);
    DiscountLands(s, ev, sid);
    DiscountWrite(s, sid, UserStmt(s.db, s.pending[ev.call], ev.req).value);
  }

  lemma QuietMoves(s: State, ev: Event, sid: SessionId)
    requires Sound(s) && sid in s.db.sessions && OrderBounds(s.db.sessions[sid].quote)
    requires !LandsRequote(s, ev, sid) && !LandsDiscount(s, ev, sid)
    ensures sid in Next(s, ev).db.sessions && OrderBounds(Next(s, ev).db.sessions[sid].quote)
  {
    RowDelta(s, ev, sid);
    if Next(s, ev).db.sessions[sid] != s.db.sessions[sid] { OtherMoves(s, ev, sid, RowStmt(s, ev).value.1); }
  }

  lemma RequoteMoves(s: State, ev: Event, sid: SessionId)
    requires Sound(s) && sid in s.db.sessions && OrderBounds(s.db.sessions[sid].quote) && LandsRequote(s, ev, sid)
    ensures sid in Next(s, ev).db.sessions && !LandsDiscount(s, ev, sid)
    ensures OrderBounds(Next(s, ev).db.sessions[sid].quote) <==> !Overprices(s, ev, sid)
  {
    RequoteIsStep(s, ev);
    assert QuoteOk(s, s.db.sessions[sid]) && ExecOk(s, ev.e);
    RequoteReread(s, ev);
    RequoteWrite(s, sid, RowStmt(s, ev).value.1, s.execs[ev.e]);
    OnlyWriters(s, ev);
    WriteIsPut(s, sid, RowStmt(s, ev).value.1);
  }

  lemma RequoteReread(s: State, ev: Event)
    requires ev.Step? && AtPc(s, ev.e) && ExecOk(s, ev.e) && s.execs[ev.e].pc.Requoting? && RowStmt(s, ev).Some?
    requires Hits(s, s.execs[ev.e].sid, RowStmt(s, ev).value.1)
    ensures s.execs[ev.e].sid in s.db.sessions && s.db.sessions[s.execs[ev.e].sid].quote == s.execs[ev.e].sess.quote
  {
    NoABAAt(s, ev.e, ev.input);
  }

  lemma OtherMoves(s: State, ev: Event, sid: SessionId, st: Stmt)
    requires Sound(s) && sid in s.db.sessions && OrderBounds(s.db.sessions[sid].quote)
    requires RowStmt(s, ev) == Some((sid, st)) && Hits(s, sid, st) && !st.RequoteItems? && !LandsDiscount(s, ev, sid)
    ensures OrderBounds(NewRow(s.db, sid, st).quote)
  {
    assert QuoteOk(s, s.db.sessions[sid]);
    if ev.UserWrite? {
      CallMoves(s, ev.call, ev.req, sid);
    } else {
      NoUserStmt(s, ev);
      OtherWrite(s, sid, st);
    }
  }

  lemma NoUserStmt(s: State, ev: Event)
    requires !ev.UserWrite? && RowStmt(s, ev).Some?
    ensures
      var st := RowStmt(s, ev).value.1;
      !st.SetPromo? && !st.SetAddress? && !st.SetShipping? && !st.SetPaymentToken?
  {
  }

  lemma CallMoves(s: State, call: nat, req: Request, sid: SessionId)
    requires RowInv(s) && LedgerOk(s.db.ledger) && call in s.pending && s.pending[call].sid == sid
    requires sid in s.db.sessions
    requires OrderBounds(s.db.sessions[sid].quote) && UserStmt(s.db, s.pending[call], req).Some?
    requires
      var st := UserStmt(s.db, s.pending[call], req).value;
      Hits(s, sid, st) && !st.SetPromo? && !st.SetAddress?
    ensures OrderBounds(NewRow(s.db, sid, UserStmt(s.db, s.pending[call], req).value).quote)
  {
    var c := s.pending[call];
    var st := UserStmt(s.db, c, req).value;
    assert SnapOk(s, c) && QuoteOk(s, s.db.sessions[sid]);
    if st.SetShipping? {
      ShippingWrite(s, c, req);
    } else {
      UserStmtBystander(s.db, c, req);
      TokenIsValid(s.db, c, req);
      OtherWrite(s, sid, st);
    }
  }

  lemma TokenIsValid(db: Db, c: UserCall, req: Request)
    requires UserStmt(db, c, req).Some?
    ensures
      var st := UserStmt(db, c, req).value;
      st.SetPaymentToken? ==> ValidPaymentToken(st.token)
  {
  }

  // ---- CreateOrder stays within the bounds ----

  /** None of these events takes the row out of the bounds. */
  ghost predicate NeverUnbound(s0: State, evs: seq<Event>, sid: SessionId) {
    evs == []
    || (var before, ev := evs[..|evs| - 1], evs[|evs| - 1];
        NeverUnbound(s0, before, sid) && !Overdiscounts(Run(s0, before), ev, sid)
          && !Overprices(Run(s0, before), ev, sid))
  }

  /** The confirm has read the row and checked the bounds. */
  predicate Seen(pc: Pc) { !pc.Reading? && !pc.Lapsing? && !pc.Done? }

  predicate Vetted(s: State, e: Actor, sid: SessionId) {
    e in s.execs && s.execs[e].sid == sid && Seen(s.execs[e].pc) ==>
      && sid in s.db.sessions && OrderBounds(s.db.sessions[sid].quote)
      && (Gated(s.execs[e].pc) ==> OrderBounds(s.execs[e].sess.quote))
  }

  lemma ReadChecks(s: State, e: Actor, ack: Ack)
    requires e in s.execs
    ensures
      var x, x' := s.execs[e], StepRead(s, e, s.execs[e], ack).execs[e];
      x'.pc.Claiming? && !x.pc.Claiming? ==> x.sid in s.db.sessions && OrderBounds(s.db.sessions[x.sid].quote)
  {
  }

  lemma ReadVets(s: State, e: Actor, ack: Ack)
    requires AtPc(s, e) && s.execs[e].pc.Reading?
    ensures
      var x, s' := s.execs[e], StepRead(s, e, s.execs[e], ack);
      && s'.db == s.db && e in s'.execs && s'.execs[e].sid == x.sid && !Gated(s'.execs[e].pc)
      && (Seen(s'.execs[e].pc) ==> x.sid in s.db.sessions && OrderBounds(s.db.sessions[x.sid].quote))
  {
    ReadShape(s, e, ack);
    ReadChecks(s, e, ack);
  }

  /** A gated step keeps the snapshot, or has just re-read the row. */
  predicate Rereads(s: State, e: Actor, x': Execution) {
    && e in s.execs
    && var x := s.execs[e];
       && x'.sid == x.sid && (Seen(x'.pc) ==> Seen(x.pc))
       && (Gated(x'.pc) ==>
            || (Gated(x.pc) && x'.sess == x.sess)
            || (x.sid in s.db.sessions && x'.sess == s.db.sessions[x.sid]))
  }

  lemma CarriesRereads(s: State, e: Actor, x': Execution)
    requires e in s.execs && Seen(s.execs[e].pc) && Carries(s.execs[e], x')
    ensures Rereads(s, e, x')
  {
  }

  lemma VerdictRereads(s: State, e: Actor, input: Input)
    requires AtPc(s, e) && s.execs[e].pc.Revalidating?
    ensures Rereads(s, e, StepRevalidate(s, e, s.execs[e], input).execs[e])
  {
    RevalidateShape(s, e, Catalog.Revalidation(s.execs[e].sess.quote.items, input.got), input.lookups);
  }

  lemma RereadRereads(s: State, e: Actor, ack: Ack)
    requires AtPc(s, e) && s.execs[e].pc.Rereading?
    ensures Rereads(s, e, StepReread(s, e, s.execs[e], ack).execs[e])
  {
    RereadShape(s, e, ack);
  }

  lemma StepRereads(s: State, e: Actor, input: Input)
    requires AtPc(s, e) && Seen(s.execs[e].pc)
    ensures e in StepOf(s, e, input).execs && Rereads(s, e, StepOf(s, e, input).execs[e])
  {
    StepFramed(s, e, input);
    if s.execs[e].pc.Revalidating? {
      VerdictRereads(s, e, input);
    } else if s.execs[e].pc.Rereading? {
      RereadRereads(s, e, input.ack);
    } else {
      CarriesRereads(s, e, StepOf(s, e, input).execs[e]);
    }
  }

  lemma LapseEnds(s: State, e: Actor, ack: Ack)
    requires e in s.execs && s.execs[e].pc.Lapsing?
    ensures e in StepLapse(s, e, s.execs[e], ack).execs && StepLapse(s, e, s.execs[e], ack).execs[e].pc.Done?
  {
  }

  lemma OwnVets(s: State, e: Actor, input: Input, sid: SessionId)
    requires Sound(s) && AtPc(s, e) && Vetted(s, e, sid)
    requires !Overdiscounts(s, Step(e, input), sid) && !Overprices(s, Step(e, input), sid)
    ensures Vetted(Next(s, Step(e, input)), e, sid)
  {
    if s.execs[e].pc.Reading? {
      ReadVets(s, e, input.ack);
    } else if s.execs[e].pc.Lapsing? {
      LapseEnds(s, e, input.ack);
    } else {
      StepRereads(s, e, input);
      if s.execs[e].sid == sid { BoundsMove(s, Step(e, input), sid); }
    }
  }

  lemma OtherVets(s: State, ev: Event, e: Actor, sid: SessionId)
    requires Sound(s) && Vetted(s, e, sid) && !(ev.Step? && ev.e == e && AtPc(s, e))
    requires !Overdiscounts(s, ev, sid) && !Overprices(s, ev, sid)
    ensures Vetted(Next(s, ev), e, sid)
  {
    if e !in s.execs {
      if e in Next(s, ev).execs { NewcomerReads(s, ev, e); }
    } else {
      SameOrDone(s, ev, e);
      if s.execs[e].sid == sid && Seen(s.execs[e].pc) { BoundsMove(s, ev, sid); }
    }
  }

  lemma SameOrDone(s: State, ev: Event, e: Actor)
    requires e in s.execs && !(ev.Step? && ev.e == e && AtPc(s, e))
    ensures e in Next(s, ev).execs && (Next(s, ev).execs[e] == s.execs[e] || Next(s, ev).execs[e].pc.Done?)
  {
    if !Concerns(ev, e) { OtherKeeps(s, ev, e); }
  }

  lemma {:induction false} VettedRun(s0: State, evs: seq<Event>, more: seq<Event>, e: Actor, sid: SessionId)
    requires Init(s0) && e !in Run(s0, evs).execs && NeverUnbound(Run(s0, evs), more, sid)
    ensures Vetted(Run(s0, evs + more), e, sid)
  {
    if more == [] {
      assert evs + more == evs;
    } else {
      var before, ev := more[..|more| - 1], more[|more| - 1];
      VettedRun(s0, evs, before, e, sid);
      RunConcat(s0, evs, before);
      VettedNext(s0, evs + before, ev, e, sid);
      RunAppend(s0, evs + before, ev);
      assert evs + more == evs + before + [ev];
    }
  }

  lemma VettedNext(s0: State, evs: seq<Event>, ev: Event, e: Actor, sid: SessionId)
    requires Init(s0) && Vetted(Run(s0, evs), e, sid)
    requires !Overdiscounts(Run(s0, evs), ev, sid) && !Overprices(Run(s0, evs), ev, sid)
    ensures Vetted(Next(Run(s0, evs), ev), e, sid)
  {
    SoundRun(s0, evs);
    if ev.Step? && ev.e == e && AtPc(Run(s0, evs), e) {
      OwnVets(Run(s0, evs), e, ev.input, sid);
    } else {
      OtherVets(Run(s0, evs), ev, e, sid);
    }
  }

  /**
   * Unless an event since its start took its row out of the bounds, a confirm past its re-read, up to the marker and
   * the CreateOrder call, holds a quote within the bounds, on first drives and re-drives.
   */
  lemma {:induction false} AttemptsAreBounded(s0: State, evs: seq<Event>, more: seq<Event>, e: Actor)
    requires Init(s0) && e !in Run(s0, evs).execs
    requires e in Run(s0, evs + more).execs && Gated(Run(s0, evs + more).execs[e].pc)
    requires NeverUnbound(Run(s0, evs), more, Run(s0, evs + more).execs[e].sid)
    ensures OrderBounds(Run(s0, evs + more).execs[e].sess.quote)
  {
    VettedRun(s0, evs, more, e, Run(s0, evs + more).execs[e].sid);
  }

  // ---- Serial runs ----

  ghost predicate NeverOverpriced(s0: State, evs: seq<Event>, sid: SessionId) {
    evs == [] || (NeverOverpriced(s0, evs[..|evs| - 1], sid)
      && !Overprices(Run(s0, evs[..|evs| - 1]), evs[|evs| - 1], sid))
  }

  /** A discount that lands on the revision it was computed from fits, on any row that has a non-negative subtotal. */
  lemma SerialFits(s: State, ev: Event, sid: SessionId)
    requires Sound(s) && Undisturbed(s, ev) && sid in s.db.sessions && 0 <= s.db.sessions[sid].quote.subtotal
    ensures !Overdiscounts(s, ev, sid)
  {
    if LandsDiscount(s, ev, sid) {
      var c, q := s.pending[ev.call], s.db.sessions[sid].quote;
      assert SnapOk(s, c) && QuoteOk(s, s.db.sessions[sid]);
      PayableFits(s, q);
      LandedDiscount(s, c, ev.req);
    }
  }

  lemma LandedDiscount(s: State, c: UserCall, req: Request)
    requires LedgerOk(s.db.ledger) && UserStmt(s.db, c, req).Some?
    requires UserStmt(s.db, c, req).value.SetPromo? || UserStmt(s.db, c, req).value.SetAddress?
    requires
      var q := c.snap.quote;
      0 <= q.subtotal && 0 <= q.fee && 0 <= q.tax && Int64(q.subtotal) && Int64(q.subtotal + q.fee) && Int64(Payable(q))
    ensures
      var st, q := UserStmt(s.db, c, req).value, c.snap.quote;
      0 <= st.discount <= if st.SetAddress? then q.subtotal else Payable(q)
  {
    var q := c.snap.quote;
    match UserStmt(s.db, c, req).value {
      case SetAddress(_, _, _) => DerivedFits(s.db.ledger, q.promo, q.subtotal, 0, 0);
      case SetPromo(_, code, _) => if code.Some? { DerivedFits(s.db.ledger, code, q.subtotal, q.fee, q.tax); }
    }
  }

  /**
   * When calls land on the revisions they read, the cart priced each product once and, since the confirm started, no
   * requote stores a price order-service does not take, every CreateOrder call is within the order-side bounds.
   */
  lemma {:induction false} SerialAttemptsAreBounded(s0: State, evs: seq<Event>, more: seq<Event>, e: Actor)
    requires Init(s0) && SerialRun(s0, evs + more) && e !in Run(s0, evs).execs
    requires e in Run(s0, evs + more).execs && Gated(Run(s0, evs + more).execs[e].pc)
    requires
      var sid := Run(s0, evs + more).execs[e].sid;
      EvenCart(evs + more, sid) && NeverOverpriced(Run(s0, evs), more, sid)
    ensures OrderBounds(Run(s0, evs + more).execs[e].sess.quote)
  {
    SerialVetted(s0, evs, more, e, Run(s0, evs + more).execs[e].sid);
  }

  lemma {:induction false} SerialVetted(s0: State, evs: seq<Event>, more: seq<Event>, e: Actor, sid: SessionId)
    requires Init(s0) && SerialRun(s0, evs + more) && e !in Run(s0, evs).execs
    requires EvenCart(evs + more, sid) && NeverOverpriced(Run(s0, evs), more, sid)
    ensures Vetted(Run(s0, evs + more), e, sid)
  {
    if more == [] {
      assert evs + more == evs;
    } else {
      var before, ev := more[..|more| - 1], more[|more| - 1];
      assert (evs + more)[..|evs + more| - 1] == evs + before;
      EvenCartPrefix(evs + more, sid);
      SerialVetted(s0, evs, before, e, sid);
      RunConcat(s0, evs, before);
      SerialVettedNext(s0, evs + before, ev, e, sid);
      RunAppend(s0, evs + before, ev);
      assert evs + more == evs + before + [ev];
    }
  }

  lemma SerialVettedNext(s0: State, evs: seq<Event>, ev: Event, e: Actor, sid: SessionId)
    requires Init(s0) && Vetted(Run(s0, evs), e, sid) && Undisturbed(Run(s0, evs), ev) && EvenCart(evs, sid)
    requires !Overprices(Run(s0, evs), ev, sid)
    ensures Vetted(Next(Run(s0, evs), ev), e, sid)
  {
    var s := Run(s0, evs);
    if sid in s.db.sessions && OrderBounds(s.db.sessions[sid].quote) {
      EvenCartSums(s0, evs, sid);
      BoundedSum(s.db.sessions[sid].quote.items);
      SoundRun(s0, evs);
      SerialFits(s, ev, sid);
      VettedNext(s0, evs, ev, e, sid);
    } else {
      UnseenStays(s0, evs, ev, e, sid);
    }
  }

  /** A confirm that has not yet read a bounded row gets past its read only by reading one. */
  lemma UnseenStays(s0: State, evs: seq<Event>, ev: Event, e: Actor, sid: SessionId)
    requires Init(s0) && Vetted(Run(s0, evs), e, sid)
    requires !(sid in Run(s0, evs).db.sessions && OrderBounds(Run(s0, evs).db.sessions[sid].quote))
    ensures Vetted(Next(Run(s0, evs), ev), e, sid)
  {
    var s := Run(s0, evs);
    if ev.Step? && ev.e == e && AtPc(s, e) {
      if s.execs[e].pc.Reading? {
        ReadVets(s, e, ev.input.ack);
      } else if s.execs[e].pc.Lapsing? {
        LapseEnds(s, e, ev.input.ack);
      } else {
        StepRereads(s, e, ev.input);
      }
    } else if e in s.execs {
      SameOrDone(s, ev, e);
    } else if e in Next(s, ev).execs {
      NewcomerReads(s, ev, e);
    }
  }
}
