/**
 * A run in which the order-side bounds are checked, then broken by a stale discount, and the attempt is authorized all
 * the same; and why no later confirm under the same key gets such a session out again.
 */
module Poison {
  import opened Base
  import opened Domain
  import opened Money
  import opened Ledger
  import opened Store
  import opened Protocol
  import opened Safety
  import opened Theorems
  import opened Clean
  import opened Progress
  import opened Witnesses
  import F = FirstDrive

  const FREE := PutShipping("post", Quoted(0))

  const CHEAP := READY.(status := ShippingSet, version := 5, quote := READY.quote.(fee := 0, total := 100))

  const BARE := CHEAP.(status := Ready, version := 6)

  const POISONED := BARE.(version := 7, quote := BARE.quote.(promo := Some("P"), discount := 150, total := -50))

  const STALE := DRIVE.(row := POISONED)

  /** A promo call reads the row; shipping gets cheaper and the row ready again. */
  function Preparing(): seq<Event> { [UserRead(1, USER, SID)] + Edit(FREE) + Edit(PutPayment(TOKEN)) }

  /** The confirm checks the bounds, and then the promo call's write lands. */
  function Slipping(): seq<Event> { [Start(7, USER, SID, "k"), Step(7, FINE), UserWrite(1, ApplyPromo("P"), Good)] }

  /** A call nobody interleaves with, beside calls that are still waiting. */
  lemma DeskEditsBeside(t: State, row: Session, req: Request, st: Stmt)
    requires Desk(t.(pending := map[]), row) && row.user == USER && 0 !in t.pending
    requires UserStmt(t.db, UserCall(SID, row, t.db.now), req) == Some(st) && Matches(t.db, row, st) && Fits(row, st)
    ensures
      var u := Run(t, Edit(req));
      Desk(u.(pending := map[]), Assigned(row, st).(version := row.version + 1)) && u.pending == t.pending
  {
    Edits(t, row, req, st);
    DeskPuts(t.(pending := map[]), row, NewRow(t.db, SID, st), Run(t, Edit(req)).quotes);
  }

  lemma FreeStmt(db: Db)
    requires db.now == 0 && db.rates == map[DEFAULT_REGION := 0] && db.ledger == CODES
    ensures UserStmt(db, UserCall(SID, READY, 0), FREE) == Some(SetShipping(Ready, 4, "post", 0, 0, 0))
  {
  }

  lemma CheapRow()
    ensures Assigned(READY, SetShipping(Ready, 4, "post", 0, 0, 0)).(version := 5) == CHEAP
    ensures Assigned(CHEAP, SetPaymentToken(ShippingSet, TOKEN)).(version := 6) == BARE
  {
  }

  lemma GetsCheap(t: State)
    requires Desk(t.(pending := map[]), READY) && 0 !in t.pending
    ensures var u := Run(t, Edit(FREE)); Desk(u.(pending := map[]), CHEAP) && u.pending == t.pending
  {
    FreeStmt(t.db);
    CheapRow();
    DeskEditsBeside(t, READY, FREE, SetShipping(Ready, 4, "post", 0, 0, 0));
  }

  lemma GetsReady(t: State)
    requires Desk(t.(pending := map[]), CHEAP) && 0 !in t.pending
    ensures var u := Run(t, Edit(PutPayment(TOKEN))); Desk(u.(pending := map[]), BARE) && u.pending == t.pending
  {
    TokensValid();
    CheapRow();
    DeskEditsBeside(t, CHEAP, PutPayment(TOKEN), SetPaymentToken(ShippingSet, TOKEN));
  }

  lemma CallReads(t: State)
    requires Desk(t, READY)
    ensures
      var u := Run(t, [UserRead(1, USER, SID)]);
      u == t.(pending := map[1 := UserCall(SID, READY, 0)]) && u.(pending := map[]) == t
  {
    RunAppend(t, [], UserRead(1, USER, SID));
  }

  lemma Prepares(t: State)
    requires Desk(t, READY)
    ensures
      var u := Run(t, Preparing());
      Desk(u.(pending := map[]), BARE) && u.pending == map[1 := UserCall(SID, READY, 0)]
  {
    var a, b, c := [UserRead(1, USER, SID)], Edit(FREE), Edit(PutPayment(TOKEN));
    RunConcat(t, a + b, c);
    RunConcat(t, a, b);
    CallReads(t);
    GetsCheap(Run(t, a));
    GetsReady(Run(Run(t, a), b));
  }

  lemma BareFits()
    ensures OrderBounds(BARE.quote) && !OrderBounds(POISONED.quote)
  {
    TokensValid();
    assert Digits("1") == Some(1) by { assert "1"[..0] == []; }
    assert LineBounds(LINE);
  }

  /** The bounds are checked. */
  lemma Checks(t: State)
    requires Desk(t.(pending := map[]), BARE)
    ensures
      var start := Start(7, USER, SID, "k");
      var u := Next(Next(t, start), Step(7, FINE));
      && u.db == t.db && u.pending == t.pending && 7 in u.execs && Desk(u.(pending := map[], execs := map[]), BARE)
      && u.execs[7] == Execution(USER, SID, "k", 0, CONFIRM_DEADLINE, Claiming, BARE, 0, false, 0)
  {
    BareFits();
    ReadsRow(Next(t, Start(7, USER, SID, "k")), 7, FINE);
  }

  /** The promo's discount, computed when shipping still cost 50, lands behind the check. */
  lemma Slips(t: State)
    requires Desk(t.(pending := map[]), BARE) && t.pending == map[1 := UserCall(SID, READY, 0)]
    ensures
      var u := Run(t, Slipping());
      F.EarlyStage(u, STALE, 1) && u.db.ledger == CODES && u.db.now == 0 && u.db.nextClaim !in u.db.claims
  {
    var start, write := Start(7, USER, SID, "k"), UserWrite(1, ApplyPromo("P"), Good);
    Run3(t, start, Step(7, FINE), write);
    Checks(t);
    var t2 := Next(Next(t, start), Step(7, FINE));
    Lands(t2, 1, ApplyPromo("P"), SetPromo(Ready, Some("P"), 150));
    SlippedAt(t2, Next(t2, write));
  }

  lemma SlippedAt(t: State, u: State)
    requires Desk(t.(pending := map[], execs := map[]), BARE) && 7 in t.execs
    requires t.execs[7] == Execution(USER, SID, "k", 0, CONFIRM_DEADLINE, Claiming, BARE, 0, false, 0)
    requires
      u == PutRow(t, SID, NewRow(t.db, SID, SetPromo(Ready, Some("P"), 150))).(pending := u.pending, quotes := u.quotes)
    ensures F.EarlyStage(u, STALE, 1) && u.db.ledger == CODES && u.db.now == 0 && u.db.nextClaim !in u.db.claims
  {
    assert NewRow(t.db, SID, SetPromo(Ready, Some("P"), 150)) == POISONED;
  }

  lemma Run3(s: State, a: Event, b: Event, c: Event)
    ensures Run(s, [a, b, c]) == Next(Next(Next(s, a), b), c)
  {
    RunAppend(s, [], a);
    RunAppend(s, [a], b);
    RunAppend(s, [a, b], c);
    assert [] + [a] == [a] && [a] + [b] == [a, b] && [a, b] + [c] == [a, b, c];
  }

  lemma StaleIsFair(t: State, d: Drive)
    requires t.db.now == 0 && t.db.ledger == CODES && d == STALE.(k := d.k)
    ensures F.Fair(t, d, FINE)
  {
    CatalogClears();
  }

  lemma LedgerWaits(t: State)
    requires 7 in t.execs && !t.execs[7].pc.Redeeming?
    ensures var u := Next(t, Step(7, FINE)); u.db.ledger == t.db.ledger && u.db.now == t.db.now
  {
    StepFramed(t, 7, FINE);
  }

  /** One more step on the way to the redemption. */
  lemma Steps(t: State, d: Drive, n: nat)
    requires 2 <= n <= 4 && F.EarlyStage(t, d, n) && d == STALE.(k := d.k) && t.db.ledger == CODES && t.db.now == 0
    ensures
      var u := Next(t, Step(7, FINE));
      F.EarlyStage(u, d, n + 1) && u.db.ledger == CODES && u.db.now == 0
  {
    StaleIsFair(t, d);
    F.EarlyOwn(t, d, n, FINE);
    LedgerWaits(t);
  }

  /** Claim, enter, re-read, re-validate, redeem, mark: nobody looks at the bounds again. */
  lemma Slides(t: State) returns (k: ClaimId)
    requires F.EarlyStage(t, STALE, 1) && t.db.ledger == CODES && t.db.now == 0 && t.db.nextClaim !in t.db.claims
    ensures F.LateStage(Run(t, Unaided(6)), STALE.(k := k), 1)
  {
    StaleIsFair(t, STALE);
    F.Claims(t, STALE, FINE);
    LedgerWaits(t);
    var t1 := Next(t, Step(7, FINE));
    var d := F.Owning(t1, STALE);
    k := d.k;
    Steps(t1, d, 2);
    var t2 := Next(t1, Step(7, FINE));
    Steps(t2, d, 3);
    var t3 := Next(t2, Step(7, FINE));
    Steps(t3, d, 4);
    var t4 := Next(t3, Step(7, FINE));
    StaleIsFair(t4, d);
    F.DueOwn(t4, d, FINE);
    F.Marks(Next(t4, Step(7, FINE)), d, FINE);
    UnaidedSix(t);
  }

  lemma UnaidedSix(t: State)
    ensures
      var t3 := Next(Next(Next(t, Step(7, FINE)), Step(7, FINE)), Step(7, FINE));
      Run(t, Unaided(6)) == Next(Next(Next(t3, Step(7, FINE)), Step(7, FINE)), Step(7, FINE))
  {
    UnaidedAppend(t, 0);
    UnaidedAppend(t, 1);
    UnaidedAppend(t, 2);
    UnaidedAppend(t, 3);
    UnaidedAppend(t, 4);
    UnaidedAppend(t, 5);
  }

  lemma UnaidedAppend(t: State, n: nat)
    ensures Run(t, Unaided(n + 1)) == Next(Run(t, Unaided(n)), Step(7, FINE))
  {
    RunAppend(t, Unaided(n), Step(7, FINE));
  }

  /** The claim carries the marker, the row is bound to it, and what it is about to order is out of bounds. */
  predicate Doomed(s: State, k: ClaimId) {
    && k in s.db.claims && s.db.claims[k].subject.Some? && s.db.claims[k].response.None? && Tied(s, SID, k)
    && s.db.sessions[SID].status == Confirming && !OrderBounds(s.db.sessions[SID].quote)
    && 7 in s.execs && s.execs[7].pc.Ordering? && s.execs[7].sess == s.db.sessions[SID]
  }

  /**
   * The guard's promise is broken by a discount that lands between the bounds check and the entry gate: the attempt
   * marker is set and the CreateOrder call is made with a discount above everything payable.
   */
  lemma {:induction false} PoisonedAttempt()
    ensures Init(START) && exists k :: Doomed(Run(START, Paying() + Preparing() + Slipping() + Unaided(6)), k)
  {
    StartIsInit();
    Pays();
    var t := Run(START, Paying());
    Prepares(t);
    var t1 := Run(t, Preparing());
    Slips(t1);
    var t2 := Run(t1, Slipping());
    var k := Slides(t2);
    RunConcat(START, Paying(), Preparing());
    RunConcat(START, Paying() + Preparing(), Slipping());
    RunConcat(START, Paying() + Preparing() + Slipping(), Unaided(6));
    BareFits();
    DoomedAt(Run(t2, Unaided(6)), k);
  }

  lemma DoomedAt(s: State, k: ClaimId)
    requires F.LateStage(s, STALE.(k := k), 1) && !OrderBounds(POISONED.quote)
    ensures Doomed(s, k)
  {
  }

  // ---- Nothing heals it ----

  /** In clean runs the quote of an attempted session is the one it had when attempted. */
  lemma {:induction false} SealedForever(s0: State, evs: seq<Event>, later: seq<Event>, sid: SessionId, k: ClaimId)
    requires Init(s0) && CleanRun(s0, evs + later) && Committed(Run(s0, evs), sid, k) && Sealed(Run(s0, evs), sid)
    ensures Committed(Run(s0, evs + later), sid, k) && Sealed(Run(s0, evs + later), sid)
    ensures Run(s0, evs + later).db.sessions[sid].quote == Run(s0, evs).db.sessions[sid].quote
  {
    if later == [] {
      assert evs + later == evs;
    } else {
      var before, ev := later[..|later| - 1], later[|later| - 1];
      assert (evs + later)[..|evs + later| - 1] == evs + before;
      SealedForever(s0, evs, before, sid, k);
      SealedNext(s0, evs + before, ev, sid, k);
      assert evs + later == evs + before + [ev];
    }
  }

  lemma SealedNext(s0: State, evs: seq<Event>, ev: Event, sid: SessionId, k: ClaimId)
    requires Init(s0) && !BreaksSeal(Run(s0, evs), ev) && Committed(Run(s0, evs), sid, k) && Sealed(Run(s0, evs), sid)
    ensures Committed(Run(s0, evs + [ev]), sid, k) && Sealed(Run(s0, evs + [ev]), sid)
    ensures Run(s0, evs + [ev]).db.sessions[sid].quote == Run(s0, evs).db.sessions[sid].quote
  {
    CoreRun(s0, evs);
    SealedStays(Run(s0, evs), ev, sid, k);
    CommittedNext(s0, evs, ev, sid, k);
    RunAppend(s0, evs, ev);
  }

  lemma AttemptedIsSealed(s0: State, evs: seq<Event>, k: ClaimId)
    requires Init(s0) && CleanRun(s0, evs) && k in Run(s0, evs).db.claims && Run(s0, evs).db.claims[k].subject.Some?
    ensures
      var s := Run(s0, evs);
      Committed(s, s.db.claims[k].hash, k) && Sealed(s, s.db.claims[k].hash)
  {
    CleanRunInv(s0, evs);
    CoreRun(s0, evs);
    assert ClaimOk(Run(s0, evs), k);
  }

  lemma {:induction false} CleanPrefix(s0: State, evs: seq<Event>, later: seq<Event>)
    requires CleanRun(s0, evs + later)
    ensures CleanRun(s0, evs)
  {
    if later == [] {
      assert evs + later == evs;
    } else {
      assert (evs + later)[..|evs + later| - 1] == evs + later[..|later| - 1];
      CleanPrefix(s0, evs, later[..|later| - 1]);
    }
  }

  /**
   * In clean runs, a session attempted with a quote out of the order-side bounds refuses every later confirm under its
   * key, however much happens in between: the check that was passed once now stands in the way of every re-drive.
   */
  lemma {:induction false} PoisonIsForever(s0: State, evs: seq<Event>, later: seq<Event>, more: seq<Event>, e: Actor,
      k: ClaimId)
    requires Init(s0) && CleanRun(s0, evs + later) && e !in Run(s0, evs + later).execs
    requires
      var s := Run(s0, evs);
      && k in s.db.claims && s.db.claims[k].subject.Some?
      && (s.db.claims[k].hash in s.db.sessions ==> !OrderBounds(s.db.sessions[s.db.claims[k].hash].quote))
    requires k in Run(s0, evs + later).db.claims && Run(s0, evs + later).db.claims[k].response.None?
    requires
      var s := Run(s0, evs + later);
      var c := s.db.claims[k];
      c.hash in s.db.sessions ==>
        var d := Drive(e, c.user, c.hash, c.key, k, s.db.sessions[c.hash], s.db.now);
        Tended(Next(s, Start(e, c.user, c.hash, c.key)), more, d) && OwnSteps(more, e) >= 8
    ensures
      var s := Run(s0, evs + later);
      var c := s.db.claims[k];
      && c.hash in s.db.sessions
      && RefusedAt(Run(s0, evs + later + [Start(e, c.user, c.hash, c.key)] + more),
           Drive(e, c.user, c.hash, c.key, k, s.db.sessions[c.hash], s.db.now))
  {
    CleanPrefix(s0, evs, later);
    AttemptedIsSealed(s0, evs, k);
    SealedForever(s0, evs, later, Run(s0, evs).db.claims[k].hash, k);
    RedriveFinishes(s0, evs + later, more, e, k);
  }
}
