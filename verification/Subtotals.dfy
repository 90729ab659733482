/** Baskets with a repeated product: exactly when the stored subtotal is the sum of the stored lines. */
module Subtotals {
  import opened Base
  import opened Domain
  import opened Money
  import opened Store
  import opened Protocol
  import opened Safety
  import opened Theorems
  import opened Quotes
  import Catalog

  // ---- What a requote by product id does to the sum ----

  /** Every line of a product carries the same price. */
  predicate OnePrice(items: seq<Item>) {
    forall i, j :: 0 <= i < j < |items| && items[i].productId == items[j].productId ==>
      items[i].unitPrice == items[j].unitPrice
  }

  /** The subtotal is the int64 sum of the lines. */
  predicate Sums(q: Quote) { q.subtotal == Wrap(Sum(q.items)) }

  /** The price of a product's last line, if it has one. */
  function LastPrice(items: seq<Item>, id: string): Option<int> {
    if items == [] then None
    else if items[|items| - 1].productId == id then Some(items[|items| - 1].unitPrice)
    else LastPrice(items[..|items| - 1], id)
  }

  /** The sum with every line at the price of its product's last line. */
  function LastPriceSum(items: seq<Item>, all: seq<Item>): int {
    if items == [] then 0
    else
      var it := items[|items| - 1];
      LastPriceSum(items[..|items| - 1], all)
      + (match LastPrice(all, it.productId) case None => it.unitPrice case Some(p) => p) * it.quantity
  }

  lemma {:induction false} RepricedAt(rows: seq<Item>, items: seq<Item>, i: nat)
    requires i < |rows|
    ensures
      var row, out := rows[i], RepriceAll(rows, items)[i];
      && out.productId == row.productId && out.quantity == row.quantity
      && out.unitPrice == match LastPrice(items, row.productId) case None => row.unitPrice case Some(p) => p
  {
    if items != [] { RepricedAt(rows, items[..|items| - 1], i); }
  }

  lemma SumSnoc(items: seq<Item>, n: nat)
    requires n < |items|
    ensures Sum(items[..n + 1]) == Sum(items[..n]) + items[n].unitPrice * items[n].quantity
  {
    assert items[..n + 1][..n] == items[..n];
  }

  lemma LastPriceSnoc(items: seq<Item>, all: seq<Item>, n: nat)
    requires n < |items| && LastPrice(all, items[n].productId).Some?
    ensures LastPriceSum(items[..n + 1], all) ==
      LastPriceSum(items[..n], all) + LastPrice(all, items[n].productId).value * items[n].quantity
  {
    assert items[..n + 1][..n] == items[..n];
  }

  /** The rows a requote leaves behind sum as if every line had the price of its product's last line. */
  lemma {:induction false} RepricedSum(rows: seq<Item>, items: seq<Item>, n: nat)
    requires SameLines(rows, items) && n <= |rows|
    ensures Sum(RepriceAll(rows, items)[..n]) == LastPriceSum(items[..n], items)
  {
    if n > 0 {
      var out := RepriceAll(rows, items);
      RepricedSum(rows, items, n - 1);
      RepricedAt(rows, items, n - 1);
      HasLastPrice(items, n - 1);
      assert RepriceLine(rows[n - 1], items[n - 1]) == items[n - 1];
      SumSnoc(out, n - 1);
      LastPriceSnoc(items, items, n - 1);
    }
  }

  lemma {:induction false} HasLastPrice(items: seq<Item>, i: nat)
    requires i < |items|
    ensures LastPrice(items, items[i].productId).Some?
  {
    if i < |items| - 1 && items[|items| - 1].productId != items[i].productId {
      HasLastPrice(items[..|items| - 1], i);
    }
  }

  lemma {:induction false} OnePriceIsLast(items: seq<Item>, i: nat)
    requires OnePrice(items) && i < |items|
    ensures LastPrice(items, items[i].productId) == Some(items[i].unitPrice)
  {
    if i < |items| - 1 && items[|items| - 1].productId != items[i].productId {
      OnePriceIsLast(items[..|items| - 1], i);
    }
  }

  lemma {:induction false} OnePriceSum(items: seq<Item>, n: nat)
    requires OnePrice(items) && n <= |items|
    ensures LastPriceSum(items[..n], items) == Sum(items[..n])
  {
    if n > 0 {
      OnePriceSum(items, n - 1);
      OnePriceIsLast(items, n - 1);
      assert items[..n][..n - 1] == items[..n - 1];
    }
  }

  /** The requoted row sums exactly when the new subtotal counts every line at its product's last price. */
  lemma RequoteSums(q: Quote, items: seq<Item>, subtotal: int)
    requires SameLines(q.items, items)
    ensures Sums(q.(items := RepriceAll(q.items, items), subtotal := subtotal)) <==>
      subtotal == Wrap(LastPriceSum(items, items))
    ensures OnePrice(items) ==>
      LastPriceSum(items, items) == Sum(items) && OnePrice(RepriceAll(q.items, items))
  {
    var out := RepriceAll(q.items, items);
    RepricedSum(q.items, items, |items|);
    assert out[..|items|] == out && items[..|items|] == items;
    if OnePrice(items) {
      OnePriceSum(items, |items|);
      forall i, j | 0 <= i < j < |out| && out[i].productId == out[j].productId
        ensures out[i].unitPrice == out[j].unitPrice {
        RepricedAt(q.items, items, i);
        RepricedAt(q.items, items, j);
        assert RepriceLine(q.items[i], items[i]) == items[i];
        HasLastPrice(items, i);
      }
    }
  }

  // ---- Every event of every run ----

  /** The event is a requote that reaches the row. */
  predicate LandsRequote(s: State, ev: Event, sid: SessionId) {
    && RowStmt(s, ev).Some? && RowStmt(s, ev).value.0 == sid && RowStmt(s, ev).value.1.RequoteItems?
    && Hits(s, sid, RowStmt(s, ev).value.1)
  }

  /**
   * In every run, a landing requote leaves a row whose subtotal is the sum of its lines if and only if the subtotal it
   * stores counts every line at the price of its product's last line; any other event leaves the sum as it was.
   */
  lemma {:induction false} SubtotalMovesExactly(s0: State, evs: seq<Event>, ev: Event, sid: SessionId)
    requires Init(s0) && sid in Run(s0, evs).db.sessions
    ensures
      var s := Run(s0, evs);
      var s' := Next(s, ev);
      && sid in s'.db.sessions
      && (Sums(s'.db.sessions[sid].quote) <==>
            if LandsRequote(s, ev, sid) then
              var st := RowStmt(s, ev).value.1;
              st.subtotal == Wrap(LastPriceSum(st.items, st.items))
            else Sums(s.db.sessions[sid].quote))
  {
    CoreRun(s0, evs);
    RowRun(s0, evs);
    SumMoves(Run(s0, evs), ev, sid);
  }

  lemma SumMoves(s: State, ev: Event, sid: SessionId)
    requires CoreInv(s) && RowInv(s) && sid in s.db.sessions
    ensures
      var s' := Next(s, ev);
      && sid in s'.db.sessions
      && (Sums(s'.db.sessions[sid].quote) <==>
            if LandsRequote(s, ev, sid) then
              var st := RowStmt(s, ev).value.1;
              st.subtotal == Wrap(LastPriceSum(st.items, st.items))
            else Sums(s.db.sessions[sid].quote))
  {
    if LandsRequote(s, ev, sid) {
      var st := RowStmt(s, ev).value.1;
      RequoteRow(s, ev, sid);
      RequoteLines(s, ev, sid);
      RequoteSums(s.db.sessions[sid].quote, st.items, st.subtotal);
    } else {
      QuietRow(s, ev, sid);
    }
  }

  lemma RequoteRow(s: State, ev: Event, sid: SessionId)
    requires sid in s.db.sessions && LandsRequote(s, ev, sid)
    ensures sid in Next(s, ev).db.sessions
    ensures
      var st := RowStmt(s, ev).value.1;
      var q, q' := s.db.sessions[sid].quote, Next(s, ev).db.sessions[sid].quote;
      q'.items == RepriceAll(q.items, st.items) && q'.subtotal == st.subtotal
  {
    OnlyWriters(s, ev);
    WriteIsPut(s, sid, RowStmt(s, ev).value.1);
  }

  lemma QuietRow(s: State, ev: Event, sid: SessionId)
    requires sid in s.db.sessions && !LandsRequote(s, ev, sid)
    ensures sid in Next(s, ev).db.sessions
    ensures
      var q, q' := s.db.sessions[sid].quote, Next(s, ev).db.sessions[sid].quote;
      q'.items == q.items && q'.subtotal == q.subtotal
  {
    RowDelta(s, ev, sid);
    if Next(s, ev).db.sessions[sid] != s.db.sessions[sid] { LinesKept(s, sid, RowStmt(s, ev).value.1); }
  }

  /** The lines a landing requote stores are the row's lines, repriced. */
  lemma RequoteLines(s: State, ev: Event, sid: SessionId)
    requires CoreInv(s) && RowInv(s) && sid in s.db.sessions && LandsRequote(s, ev, sid)
    ensures SameLines(s.db.sessions[sid].quote.items, RowStmt(s, ev).value.1.items)
  {
    RequoteIsStep(s, ev);
    assert ExecQuoteOk(s, s.execs[ev.e]);
    ExecJustified(s, ev.e, ev.input);
  }

  lemma RequoteIsStep(s: State, ev: Event)
    requires RowStmt(s, ev).Some? && RowStmt(s, ev).value.1.RequoteItems?
    ensures ev.Step? && AtPc(s, ev.e) && s.execs[ev.e].pc.Requoting?
    ensures
      var x, st := s.execs[ev.e], RowStmt(s, ev).value.1;
      RowStmt(s, ev).value.0 == x.sid && st == RequoteItems(x.claim, x.pc.items, x.pc.subtotal, x.pc.tax, x.pc.discount)
  {
    if ev.UserWrite? && ev.call in s.pending { UserStmtBystander(s.db, s.pending[ev.call], ev.req); }
  }

  lemma LinesKept(s: State, sid: SessionId, st: Stmt)
    requires sid in s.db.sessions && !st.RequoteItems?
    ensures
      var q, q' := s.db.sessions[sid].quote, NewRow(s.db, sid, st).quote;
      q'.items == q.items && q'.subtotal == q.subtotal
  {
  }

  // ---- Carts that price each product once ----

  /** The session, if created in this run, was created from lines that price each product once. */
  predicate EvenCart(evs: seq<Event>, sid: SessionId) {
    forall i :: 0 <= i < |evs| && evs[i].Create? && evs[i].sid == sid ==> OnePrice(evs[i].items)
  }

  predicate Even(q: Quote) { OnePrice(q.items) && Sums(q) }

  /** What a pending requote is about to store. */
  predicate EvenExec(x: Execution, sid: SessionId) {
    x.sid == sid ==>
      && (Gated(x.pc) ==> Even(x.sess.quote))
      && (x.pc.Requoting? ==> OnePrice(x.pc.items) && x.pc.subtotal == Wrap(Sum(x.pc.items)))
  }

  ghost predicate EvenInv(s: State, sid: SessionId) {
    && (sid in s.db.sessions ==> Even(s.db.sessions[sid].quote))
    && forall e :: e in s.execs ==> EvenExec(s.execs[e], sid)
  }

  /** Re-validation gives every line of a product the same answer. */
  lemma RefreshKeepsOnePrice(items: seq<Item>, got: Catalog.Reads)
    requires OnePrice(items) && Catalog.Revalidation(items, got).Drift?
    ensures OnePrice(Catalog.Revalidation(items, got).items)
  {
  }

  lemma VerdictEven(s: State, e: Actor, v: Catalog.Verdict, lookups: bool, sid: SessionId)
    requires AtPc(s, e) && EvenExec(s.execs[e], sid) && s.execs[e].pc.Revalidating?
    requires s.execs[e].sid == sid && v.Drift? ==> OnePrice(v.items) && v.subtotal == Wrap(Sum(v.items))
    ensures EvenExec(StepVerdict(s, e, s.execs[e], v, lookups).execs[e], sid)
  {
  }

  lemma CheckEven(s: State, e: Actor, input: Input, sid: SessionId)
    requires AtPc(s, e) && s.execs[e].pc.Revalidating? && EvenExec(s.execs[e], sid)
    ensures EvenExec(StepRevalidate(s, e, s.execs[e], input).execs[e], sid)
  {
    var items := s.execs[e].sess.quote.items;
    var v := Catalog.Revalidation(items, input.got);
    if v.Drift? && s.execs[e].sid == sid {
      RefreshSameLines(items, input.got);
      RefreshKeepsOnePrice(items, input.got);
    }
    VerdictEven(s, e, v, input.lookups, sid);
  }

  lemma RereadEven(s: State, e: Actor, ack: Ack, sid: SessionId)
    requires AtPc(s, e) && s.execs[e].pc.Rereading? && (sid in s.db.sessions ==> Even(s.db.sessions[sid].quote))
    ensures EvenExec(StepReread(s, e, s.execs[e], ack).execs[e], sid)
  {
    RereadShape(s, e, ack);
  }

  lemma CarriesEven(x: Execution, x': Execution, sid: SessionId)
    requires Carries(x, x') && EvenExec(x, sid)
    ensures EvenExec(x', sid)
  {
  }

  lemma OwnEven(s: State, e: Actor, input: Input, sid: SessionId)
    requires AtPc(s, e) && EvenExec(s.execs[e], sid) && (sid in s.db.sessions ==> Even(s.db.sessions[sid].quote))
    ensures e in StepOf(s, e, input).execs && EvenExec(StepOf(s, e, input).execs[e], sid)
  {
    StepFramed(s, e, input);
    if s.execs[e].pc.Revalidating? {
      CheckEven(s, e, input, sid);
    } else if s.execs[e].pc.Rereading? {
      RereadEven(s, e, input.ack, sid);
    } else {
      CarriesEven(s.execs[e], StepOf(s, e, input).execs[e], sid);
    }
  }

  lemma RowEven(s: State, ev: Event, sid: SessionId)
    requires CoreInv(s) && RowInv(s) && EvenInv(s, sid) && sid in Next(s, ev).db.sessions
    requires ev.Create? && ev.sid == sid ==> OnePrice(ev.items)
    ensures Even(Next(s, ev).db.sessions[sid].quote)
  {
    if sid !in s.db.sessions {
      NewcomerIs(s, ev, sid);
    } else if LandsRequote(s, ev, sid) {
      RequoteRow(s, ev, sid);
      RequoteLines(s, ev, sid);
      RequoteIsStep(s, ev);
      var st := RowStmt(s, ev).value.1;
      assert EvenExec(s.execs[ev.e], sid);
      RequoteSums(s.db.sessions[sid].quote, st.items, st.subtotal);
    } else {
      QuietRow(s, ev, sid);
    }
  }

  lemma EvenStep(s: State, ev: Event, sid: SessionId)
    requires CoreInv(s) && RowInv(s) && EvenInv(s, sid)
    requires ev.Create? && ev.sid == sid ==> OnePrice(ev.items)
    ensures EvenInv(Next(s, ev), sid)
  {
    var s' := Next(s, ev);
    if sid in s'.db.sessions { RowEven(s, ev, sid); }
    forall e | e in s'.execs ensures EvenExec(s'.execs[e], sid) {
      if ev.Step? && ev.e == e && AtPc(s, e) {
        OwnEven(s, e, ev.input, sid);
      } else {
        OtherExecSame(s, ev, e);
      }
    }
  }

  lemma EvenCartPrefix(evs: seq<Event>, sid: SessionId)
    requires evs != [] && EvenCart(evs, sid)
    ensures EvenCart(evs[..|evs| - 1], sid)
    ensures evs[|evs| - 1].Create? && evs[|evs| - 1].sid == sid ==> OnePrice(evs[|evs| - 1].items)
  {
    var before := evs[..|evs| - 1];
    forall i | 0 <= i < |before| && before[i].Create? && before[i].sid == sid ensures OnePrice(before[i].items) {
      assert before[i] == evs[i];
    }
  }

  lemma {:induction false} EvenRun(s0: State, evs: seq<Event>, sid: SessionId)
    requires Init(s0) && EvenCart(evs, sid)
    ensures EvenInv(Run(s0, evs), sid)
  {
    if evs != [] {
      var before := evs[..|evs| - 1];
      EvenCartPrefix(evs, sid);
      EvenRun(s0, before, sid);
      CoreRun(s0, before);
      RowRun(s0, before);
      EvenStep(Run(s0, before), evs[|evs| - 1], sid);
    }
  }

  /**
   * A session created from a cart that prices each product once keeps one price per product, and its subtotal is the
   * int64 sum of its lines, whatever is requoted; within the order bounds, the exact sum.
   */
  lemma {:induction false} EvenCartSums(s0: State, evs: seq<Event>, sid: SessionId)
    requires Init(s0) && EvenCart(evs, sid) && sid in Run(s0, evs).db.sessions
    ensures
      var q := Run(s0, evs).db.sessions[sid].quote;
      && OnePrice(q.items) && q.subtotal == Wrap(Sum(q.items))
      && (OrderBounds(q) ==> q.subtotal == Sum(q.items))
  {
    EvenRun(s0, evs, sid);
    var q := Run(s0, evs).db.sessions[sid].quote;
    if OrderBounds(q) { BoundedSum(q.items); }
  }
}
