/**
 * Codes and what they take off: exactly which writes leave a row with a discount and no code for it, when a confirm
 * counts a use, and that in serial clean runs nothing is ordered at a discount nobody redeemed.
 */
module Codes {
  import opened Base
  import opened Domain
  import opened Money
  import opened Ledger
  import opened Store
  import opened Protocol
  import opened Safety
  import opened Theorems
  import opened Quotes
  import opened Discounts
  import opened Rows
  import opened Steps
  import Catalog
  import Clean

  // ---- Counting a use ----

  /** A use nobody had before the event is counted by a redeeming confirm of that session, for the code it carries. */
  lemma NewUse(s: State, ev: Event, u: Use)
    requires u !in s.db.ledger.uses && u in Next(s, ev).db.ledger.uses
    ensures ev.Step? && Acts(s, ev.e) && s.execs[ev.e].pc.Redeeming? && s.execs[ev.e].sess.quote.promo == Some(u.0)
    ensures s.execs[ev.e].sid == u.1 && (ev.input.ack == Good || ev.input.ack == Lost)
    ensures
      var x, l := s.execs[ev.e], s.db.ledger;
      Redeem(l, u.0, x.user, x.sid, JudgedAt(s, x.started, ev.input.judged)) == Redeemed(Next(s, ev).db.ledger)
  {
    LedgerDelta(s, ev);
    var x := s.execs[ev.e];
    RedeemKeepsCodes(s.db.ledger, x.sess.quote.promo.value, x.user, x.sid, JudgedAt(s, x.started, ev.input.judged));
  }

  /**
   * In every run a use is counted only while the code lasts: by a confirm started no later than the code's deadline,
   * with a redemption left of the code and of the user's share; it adds that use and one to the count, nothing else.
   */
  lemma {:induction false} UseCounted(s0: State, evs: seq<Event>, ev: Event, u: Use, mine: set<Use>)
    requires Init(s0)
    requires
      var s := Run(s0, evs);
      u !in s.db.ledger.uses && u in Next(s, ev).db.ledger.uses && u.1 in s.db.sessions
    requires
      var s := Run(s0, evs);
      forall v :: v in mine <==>
        v in s.db.ledger.uses && v.0 == u.0 && s.db.ledger.uses[v] == s.db.sessions[u.1].user
    ensures
      var s := Run(s0, evs);
      var l, l' := s.db.ledger, Next(s, ev).db.ledger;
      && ev.Step? && ev.e in s.execs && u.0 in l.codes
      && (l.codes[u.0].expiresAt.Some? ==> s.execs[ev.e].started <= l.codes[u.0].expiresAt.value)
      && (l.codes[u.0].maxRedemptions.Some? ==> l.codes[u.0].redeemedCount < l.codes[u.0].maxRedemptions.value)
      && (l.codes[u.0].perUserLimit.Some? ==> |mine| < l.codes[u.0].perUserLimit.value)
      && l'.uses == l.uses[u := s.db.sessions[u.1].user]
      && l'.codes == l.codes[u.0 := l.codes[u.0].(redeemedCount := l.codes[u.0].redeemedCount + 1)]
  {
    var s := Run(s0, evs);
    CoreRun(s0, evs);
    NewUse(s, ev, u);
    var x := s.execs[ev.e];
    Owned(s, ev.e);
    RedeemIs(s.db.ledger, u.0, x.user, x.sid, JudgedAt(s, x.started, ev.input.judged), mine);
  }

  lemma Owned(s: State, e: Actor)
    requires CoreInv(s) && e in s.execs && s.execs[e].pc.Redeeming?
    ensures s.execs[e].started <= s.db.now
    ensures s.execs[e].sid in s.db.sessions && s.db.sessions[s.execs[e].sid].user == s.execs[e].user
  {
    assert ExecOk(s, e);
  }

  /** A confirm that redeems a code that is in date and not spent gets it counted and goes on to its marker. */
  lemma {:induction false} RedemptionCounts(s: State, e: Actor, input: Input, code: string, mine: set<Use>)
    requires Acts(s, e) && s.execs[e].pc.Redeeming? && s.execs[e].sess.quote.promo == Some(code) && input.ack == Good
    requires code in s.db.ledger.codes && (code, s.execs[e].sid) !in s.db.ledger.uses
    requires forall v :: v in mine <==>
      v in s.db.ledger.uses && v.0 == code && s.db.ledger.uses[v] == s.execs[e].user
    requires
      var p := s.db.ledger.codes[code];
      && (p.expiresAt.Some? ==> s.db.now <= p.expiresAt.value)
      && (p.maxRedemptions.Some? ==> p.redeemedCount < p.maxRedemptions.value)
      && (p.perUserLimit.Some? ==> |mine| < p.perUserLimit.value)
    ensures
      var s' := Next(s, Step(e, input));
      (code, s.execs[e].sid) in s'.db.ledger.uses && s'.execs == s.execs[e := s.execs[e].(pc := Marking)]
  {
    var x := s.execs[e];
    RedeemIs(s.db.ledger, code, x.user, x.sid, JudgedAt(s, x.started, input.judged), mine);
  }

  // ---- Discounts without a code ----

  /** The row holds a discount and no code that it would be for. */
  predicate Stray(q: Quote) { q.promo.None? && q.discount != 0 }

  /**
   * A landing PUT address decided on a snapshot that held a code the row has since lost, and the code was worth
   * something.
   */
  predicate LandsStray(s: State, ev: Event, sid: SessionId) {
    && ev.UserWrite? && ev.req.PutAddress? && (ev.ack == Good || ev.ack == Lost)
    && ev.call in s.pending && s.pending[ev.call].sid == sid && !FoundLapsed(s.pending[ev.call])
    && var c := s.pending[ev.call];
       var d := Protocol.SessionDiscount(s.db.ledger, c.snap.quote.promo, c.snap.quote.subtotal, 0, 0);
    && c.snap.status in {Open, AddressSet, ShippingSet, Ready} && c.snap.quote.promo.Some?
    && d.Success? && d.value != 0
    && sid in s.db.sessions && s.db.sessions[sid].status == c.snap.status && s.db.sessions[sid].quote.promo.None?
    && Int64(s.db.sessions[sid].quote.subtotal - d.value)
  }

  /** A pending requote of a quote without a code takes nothing off, or what the quote took off already. */
  predicate ExecBare(x: Execution) {
    x.pc.Requoting? && x.sess.quote.promo.None? ==> x.pc.discount == 0 || x.pc.discount == x.sess.quote.discount
  }

  lemma VerdictBare(s: State, e: Actor, v: Catalog.Verdict, lookups: bool)
    requires AtPc(s, e) && s.execs[e].pc.Revalidating?
    ensures e in StepVerdict(s, e, s.execs[e], v, lookups).execs
    ensures ExecBare(StepVerdict(s, e, s.execs[e], v, lookups).execs[e])
  {
  }

  lemma OwnBare(s: State, e: Actor, input: Input)
    requires AtPc(s, e) && ExecBare(s.execs[e])
    ensures e in StepOf(s, e, input).execs && ExecBare(StepOf(s, e, input).execs[e])
  {
    var x := s.execs[e];
    if x.pc.Revalidating? {
      VerdictBare(s, e, Catalog.Revalidation(x.sess.quote.items, input.got), input.lookups);
    } else if !x.pc.Rereading? {
      StepFramed(s, e, input);
      CarriesBare(x, StepOf(s, e, input).execs[e]);
    } else {
      RereadBare(s, e, input.ack);
    }
  }

  lemma CarriesBare(x: Execution, x': Execution)
    requires Carries(x, x') && ExecBare(x)
    ensures ExecBare(x')
  {
  }

  lemma RereadBare(s: State, e: Actor, ack: Ack)
    requires AtPc(s, e)
    ensures e in StepReread(s, e, s.execs[e], ack).execs && ExecBare(StepReread(s, e, s.execs[e], ack).execs[e])
  {
  }

  lemma BareStep(s: State, ev: Event, e: Actor)
    requires e in Next(s, ev).execs && (e in s.execs ==> ExecBare(s.execs[e]))
    ensures ExecBare(Next(s, ev).execs[e])
  {
    if ev.Step? && ev.e == e && AtPc(s, e) { OwnBare(s, e, ev.input); } else { OtherExecSame(s, ev, e); }
  }

  lemma {:induction false} BareRun(s0: State, evs: seq<Event>, e: Actor)
    requires Init(s0) && e in Run(s0, evs).execs
    ensures ExecBare(Run(s0, evs).execs[e])
  {
    var before := evs[..|evs| - 1];
    if e in Run(s0, before).execs { BareRun(s0, before, e); }
    BareStep(Run(s0, before), evs[|evs| - 1], e);
  }

  // ---- Each write ----

  /** What a user's statement makes of the code and the discount. */
  lemma UserStray(s: State, c: UserCall, req: Request, st: Stmt)
    requires UserStmt(s.db, c, req) == Some(st) && SnapOk(s, c) && Hits(s, c.sid, st)
    ensures
      var q, q' := s.db.sessions[c.sid].quote, NewRow(s.db, c.sid, st).quote;
      && (st.SetAddress? ==> q'.promo == q.promo && q'.discount == st.discount)
      && (st.SetShipping? || st.SetPromo? ==> !Stray(q'))
      && (!st.SetAddress? && !st.SetShipping? && !st.SetPromo? ==>
           q'.promo == q.promo && q'.discount == q.discount)
  {
  }

  lemma ExecStray(s: State, e: Actor, input: Input)
    requires e in s.execs && ExecOk(s, e) && ExecBare(s.execs[e]) && RowStmt(s, Step(e, input)).Some?
    requires
      var (sid, st) := RowStmt(s, Step(e, input)).value;
      Hits(s, sid, st)
    ensures
      var (sid, st) := RowStmt(s, Step(e, input)).value;
      var q, q' := s.db.sessions[sid].quote, NewRow(s.db, sid, st).quote;
      Stray(q') ==> Stray(q) && q'.discount == q.discount
  {
  }

  /** A call lands a stray discount exactly under the stated condition. */
  lemma CallStray(s: State, call: nat, req: Request, ack: Ack, sid: SessionId)
    requires call in s.pending && s.pending[call].sid == sid && SnapOk(s, s.pending[call])
    requires sid in s.db.sessions && sid in Next(s, UserWrite(call, req, ack)).db.sessions
    ensures
      var q, q' := s.db.sessions[sid].quote, Next(s, UserWrite(call, req, ack)).db.sessions[sid].quote;
      Stray(q') <==>
        || LandsStray(s, UserWrite(call, req, ack), sid)
        || (Stray(q) && q'.promo == q.promo && q'.discount == q.discount)
  {
    var c := s.pending[call];
    CallDecides(s, call, req, ack);
    var db' := Next(s, UserWrite(call, req, ack)).db;
    if req.PutAddress? && !FoundLapsed(c) {
      PutAddressLands(s.db, db', c, req.addr, ack);
    } else {
      OtherStray(s, db', c, req, ack);
    }
  }

  lemma OtherStray(s: State, db': Db, c: UserCall, req: Request, ack: Ack)
    requires Took(s.db, db', c, UserStmt(s.db, c, req), ack) && SnapOk(s, c) && (req.PutAddress? ==> FoundLapsed(c))
    ensures
      && c.sid in db'.sessions
      && var q, q' := s.db.sessions[c.sid].quote, db'.sessions[c.sid].quote;
      Stray(q') ==> Stray(q) && q'.promo == q.promo && q'.discount == q.discount
  {
    var st := UserStmt(s.db, c, req);
    if st.Some? && (ack == Good || ack == Lost) {
      WriteIsPut(s, c.sid, st.value);
      if Hits(s, c.sid, st.value) { UserStray(s, c, req, st.value); }
    }
  }

  lemma StrayMoves(s: State, ev: Event, sid: SessionId)
    requires CoreInv(s) && RowInv(s) && sid in s.db.sessions && sid in Next(s, ev).db.sessions
    requires forall e :: e in s.execs ==> ExecBare(s.execs[e])
    ensures
      var q, q' := s.db.sessions[sid].quote, Next(s, ev).db.sessions[sid].quote;
      Stray(q') <==> LandsStray(s, ev, sid) || (Stray(q) && q'.promo == q.promo && q'.discount == q.discount)
  {
    RowDelta(s, ev, sid);
    if ev.UserWrite? && ev.call in s.pending && s.pending[ev.call].sid == sid {
      assert SnapOk(s, s.pending[ev.call]);
      CallStray(s, ev.call, ev.req, ev.ack, sid);
    } else if Next(s, ev).db.sessions[sid] != s.db.sessions[sid] {
      if ev.Step? {
        assert ExecOk(s, ev.e);
        ExecStray(s, ev.e, ev.input);
      } else {
        TimerOther(s, ev, sid);
      }
    }
  }

  /**
   * In every run, whatever interleaves: a row is left with a discount and no code exactly by a PUT address whose
   * snapshot held a code the row has lost since, or by an event that leaves both as they were.
   */
  lemma {:induction false} StrayMovesExactly(s0: State, evs: seq<Event>, ev: Event, sid: SessionId)
    requires Init(s0) && sid in Run(s0, evs).db.sessions
    ensures
      var s := Run(s0, evs);
      var s' := Next(s, ev);
      && sid in s'.db.sessions
      && var q, q' := s.db.sessions[sid].quote, s'.db.sessions[sid].quote;
      (q'.promo.None? && q'.discount != 0 <==>
        || LandsStray(s, ev, sid)
        || (q.promo.None? && q.discount != 0 && q'.promo == q.promo && q'.discount == q.discount))
  {
    var s := Run(s0, evs);
    CoreRun(s0, evs);
    RowRun(s0, evs);
    forall e | e in s.execs ensures ExecBare(s.execs[e]) { BareRun(s0, evs, e); }
    RowDelta(s, ev, sid);
    StrayMoves(s, ev, sid);
  }

  // ---- Serial runs ----

  lemma {:induction false} SerialNeverStray(s0: State, evs: seq<Event>, sid: SessionId)
    requires Init(s0) && SerialRun(s0, evs) && sid in Run(s0, evs).db.sessions
    ensures Run(s0, evs).db.sessions[sid].quote.promo.None? ==> Run(s0, evs).db.sessions[sid].quote.discount == 0
  {
    var before, ev := evs[..|evs| - 1], evs[|evs| - 1];
    var s := Run(s0, before);
    if sid in s.db.sessions {
      SerialNeverStray(s0, before, sid);
      StrayMovesExactly(s0, before, ev, sid);
      RowRun(s0, before);
      if ev.UserWrite? && ev.call in s.pending { assert SnapOk(s, s.pending[ev.call]); }
    } else {
      NewcomerIs(s, ev, sid);
      CreateLands(s, sid, ev.user, ev.items, ev.expiresAt);
    }
  }

  /** What a confirm read past the gate was a row of the run. */
  lemma ReadRow(s: State, ev: Event, e: Actor)
    requires e in Next(s, ev).execs && Gated(Next(s, ev).execs[e].pc)
    ensures e in s.execs
    ensures
      var x, x' := s.execs[e], Next(s, ev).execs[e];
      || (Gated(x.pc) && x'.sess == x.sess)
      || (x.pc.Rereading? && x.sid in s.db.sessions && x'.sess == s.db.sessions[x.sid])
  {
    if ev.Step? && ev.e == e && AtPc(s, e) {
      if s.execs[e].pc.Rereading? {
        RereadShape(s, e, ev.input.ack);
      } else if s.execs[e].pc.Revalidating? {
        RevalidateShape(s, e, Catalog.Revalidation(s.execs[e].sess.quote.items, ev.input.got), ev.input.lookups);
      } else {
        StepFramed(s, e, ev.input);
      }
    } else {
      OtherExecSame(s, ev, e);
    }
  }

  lemma {:induction false} SerialReadsCoded(s0: State, evs: seq<Event>, e: Actor)
    requires Init(s0) && SerialRun(s0, evs) && e in Run(s0, evs).execs && Gated(Run(s0, evs).execs[e].pc)
    ensures !Stray(Run(s0, evs).execs[e].sess.quote)
  {
    var before := evs[..|evs| - 1];
    var s := Run(s0, before);
    ReadRow(s, evs[|evs| - 1], e);
    if Gated(s.execs[e].pc) { SerialReadsCoded(s0, before, e); }
    if s.execs[e].sid in s.db.sessions { SerialNeverStray(s0, before, s.execs[e].sid); }
  }

  /**
   * When user calls run serially and nobody writes a confirming session, no order is placed at a discount nobody
   * redeemed: a CreateOrder call that takes something off carries a code, and its use is counted for the session.
   */
  lemma {:induction false} DiscountsAreRedeemed(s0: State, evs: seq<Event>, e: Actor)
    requires Init(s0) && SerialRun(s0, evs) && Clean.CleanRun(s0, evs)
    requires Acts(Run(s0, evs), e) && Run(s0, evs).execs[e].pc.Ordering?
    requires Run(s0, evs).execs[e].sess.quote.discount != 0
    ensures
      var s := Run(s0, evs);
      var x := s.execs[e];
      x.sess.quote.promo.Some? && (x.sess.quote.promo.value, x.sid) in s.db.ledger.uses
  {
    SerialReadsCoded(s0, evs, e);
    Clean.RedeemedBeforeOrdering(s0, evs, e);
  }
}
