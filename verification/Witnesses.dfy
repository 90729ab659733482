/**
 * Concrete runs that show where the guarantees stop: the discount clamp under interleaved calls, the seal of an
 * attempted session under a PUT on its confirming row, and the true latest write of a confirm.
 */
module Witnesses {
  import opened Base
  import opened Domain
  import opened Money
  import opened Ledger
  import opened Store
  import opened Protocol
  import opened Safety
  import opened Theorems
  import opened Clean
  import opened Discounts
  import opened Progress
  import F = FirstDrive
  import Catalog

  const SID: SessionId := "s"
  const USER: UserId := "u"
  const LINE := Item("1", 1, 1, 100, 100, false)
  const CODES := PromoLedger(map["P" := Promo(Fixed, 200, None, None, 0, None)], map[])
  const START := State(
    Db(map[], map[], 0, CODES, map[DEFAULT_REGION := 0], 0, 0), 80_000, map[], 1, map[], map[], map[], {}, {})

  lemma StartIsInit()
    ensures Init(START)
  {
    assert UsesOf(CODES, "P") == {};
    forall user ensures UserUses(CODES, "P", user) == {} { }
  }

  /** One session on the desk and nothing else going on. */
  ghost predicate Desk(t: State, row: Session) {
    && t.db.sessions == map[SID := row] && t.db.tick == row.version && t.db.claims == map[] && t.db.nextClaim == 0
    && t.db.ledger == CODES && t.db.rates == map[DEFAULT_REGION := 0] && t.db.now == 0 && t.takeover == 80_000
    && t.orders == map[] && t.nextOrder == 1 && t.execs == map[] && t.pending == map[] && t.issued == map[]
      && t.attempts == {}
  }

  function Opening(): seq<Event> { [Create(SID, USER, [LINE], 1_000_000)] }

  const OPENED := Session(USER, Open, Quote([LINE], None, None, 0, 0, None, 0, 100, 100, None), None, None, 1_000_000,
    None, 1)

  lemma Opens()
    ensures Desk(Run(START, Opening()), OPENED)
  {
    RunAppend(START, [], Create(SID, USER, [LINE], 1_000_000));
    assert Sum([LINE]) == 100 by {
      assert [LINE][..0] == [];
    }
  }

  function Edit(req: Request): seq<Event> { [UserRead(0, USER, SID), UserWrite(0, req, Good)] }

  lemma Run2(s: State, a: Event, b: Event)
    ensures Run(s, [a, b]) == Next(Next(s, a), b)
  {
    RunAppend(s, [], a);
    RunAppend(s, [a], b);
    assert [] + [a] == [a] && [a] + [b] == [a, b];
  }

  /** The write half of a user call that gets through. */
  lemma Lands(t: State, call: nat, req: Request, st: Stmt)
    requires call in t.pending && UserStmt(t.db, t.pending[call], req) == Some(st) && Hits(t, t.pending[call].sid, st)
    ensures
      var u := Next(t, UserWrite(call, req, Good));
      var sid := t.pending[call].sid;
      u == PutRow(t, sid, NewRow(t.db, sid, st)).(pending := t.pending - {call}, quotes := u.quotes)
  {
    WriteIsPut(t.(pending := t.pending - {call}), t.pending[call].sid, st);
  }

  /** A call nobody interleaves with. */
  lemma Edits(t: State, row: Session, req: Request, st: Stmt)
    requires SID in t.db.sessions && t.db.sessions[SID] == row && row.user == USER && 0 !in t.pending
    requires UserStmt(t.db, UserCall(SID, row, t.db.now), req) == Some(st) && Matches(t.db, row, st) && Fits(row, st)
    ensures
      var u := Run(t, Edit(req));
      u == PutRow(t, SID, NewRow(t.db, SID, st)).(quotes := u.quotes)
  {
    Run2(t, UserRead(0, USER, SID), UserWrite(0, req, Good));
    var t1 := Next(t, UserRead(0, USER, SID));
    assert t1 == t.(pending := t.pending[0 := UserCall(SID, row, t.db.now)]);
    assert t1.pending - {0} == t.pending;
    Lands(t1, 0, req, st);
  }

  /** The desk after a write. */
  lemma DeskPuts(t: State, row: Session, row': Session, quotes: set<(string, string, int)>)
    requires Desk(t, row) && row'.version == row.version + 1
    ensures Desk(PutRow(t, SID, row').(quotes := quotes), row')
  {
    assert t.db.sessions[SID := row'] == map[SID := row'];
  }

  lemma DeskEdits(t: State, row: Session, req: Request, st: Stmt)
    requires Desk(t, row) && row.user == USER && UserStmt(t.db, UserCall(SID, row, t.db.now), req) == Some(st)
    requires Matches(t.db, row, st) && Fits(row, st)
    ensures Desk(Run(t, Edit(req)), Assigned(row, st).(version := row.version + 1))
  {
    Edits(t, row, req, st);
    DeskPuts(t, row, NewRow(t.db, SID, st), Run(t, Edit(req)).quotes);
  }

  const HOME := Address("US", "")
  const SHIP50 := PutShipping("post", Quoted(50))

  function Shopping(): seq<Event> { Opening() + Edit(PutAddress(HOME)) + Edit(SHIP50) }

  const SHIPPED := OPENED.(status := ShippingSet, version := 3,
    quote := OPENED.quote.(address := Some(HOME), shipMethod := Some("post"), fee := 50, total := 150))

  const ADDRESSED := OPENED.(status := AddressSet, version := 2, quote := OPENED.quote.(address := Some(HOME)))

  lemma AddressStmt(db: Db)
    requires db.now == 0
    ensures UserStmt(db, UserCall(SID, OPENED, db.now), PutAddress(HOME)) == Some(SetAddress(Open, HOME, 0))
  {
  }

  lemma Addresses(t: State)
    requires Desk(t, OPENED)
    ensures Desk(Run(t, Edit(PutAddress(HOME))), ADDRESSED)
  {
    AddressStmt(t.db);
    assert Assigned(OPENED, SetAddress(Open, HOME, 0)).(version := OPENED.version + 1) == ADDRESSED;
    DeskEdits(t, OPENED, PutAddress(HOME), SetAddress(Open, HOME, 0));
  }

  lemma ShipStmt(db: Db)
    requires db.now == 0 && db.rates == map[DEFAULT_REGION := 0]
    ensures UserStmt(db, UserCall(SID, ADDRESSED, db.now), SHIP50) == Some(SetShipping(AddressSet, 2, "post", 50, 0, 0))
  {
  }

  lemma Ships(t: State)
    requires Desk(t, ADDRESSED)
    ensures Desk(Run(t, Edit(SHIP50)), SHIPPED)
  {
    ShipStmt(t.db);
    assert Assigned(ADDRESSED, SetShipping(AddressSet, 2, "post", 50, 0, 0)).(version := ADDRESSED.version + 1) ==
      SHIPPED;
    DeskEdits(t, ADDRESSED, SHIP50, SetShipping(AddressSet, 2, "post", 50, 0, 0));
  }

  lemma Shops()
    ensures Desk(Run(START, Shopping()), SHIPPED)
  {
    Opens();
    RunConcat(START, Opening(), Edit(PutAddress(HOME)));
    Addresses(Run(START, Opening()));
    RunConcat(START, Opening() + Edit(PutAddress(HOME)), Edit(SHIP50));
    Ships(Run(START, Opening() + Edit(PutAddress(HOME))));
  }

  // ---- The discount clamp is not an interleaved property ----

  /** A promo call reads the row, a cheaper shipping choice lands, and the promo's write lands after it. */
  function Crossing(): seq<Event> {
    [UserRead(1, USER, SID)] + Edit(PutShipping("post", Quoted(0))) + [UserWrite(1, ApplyPromo("P"), Good)]
  }

  /** The stored discount exceeds everything payable: the total goes negative although the subtotal is positive. */
  lemma {:induction false} InterleavedTotalCanBeNegative()
    ensures
      var t := Run(START, Shopping() + Crossing());
      && Init(START) && SID in t.db.sessions
      && var q := t.db.sessions[SID].quote;
         q.subtotal > 0 && q.discount > q.subtotal + q.fee + q.tax && q.total < 0
  {
    StartIsInit();
    Shops();
    var t := Run(START, Shopping());
    RunConcat(START, Shopping(), Crossing());
    var a, b := [UserRead(1, USER, SID)], Edit(PutShipping("post", Quoted(0)));
    RunConcat(t, a + b, [UserWrite(1, ApplyPromo("P"), Good)]);
    RunConcat(t, a, b);
    Crosses(t);
  }

  const CHEAPER := SHIPPED.(version := 4, quote := SHIPPED.quote.(fee := 0, total := 100))

  lemma Crosses(t: State)
    requires Desk(t, SHIPPED)
    ensures
      var u := Run(Run(Run(t, [UserRead(1, USER, SID)]), Edit(PutShipping("post", Quoted(0)))),
        [UserWrite(1, ApplyPromo("P"), Good)]);
      SID in u.db.sessions
        && u.db.sessions[SID].quote == SHIPPED.quote.(fee := 0, promo := Some("P"), discount := 150, total := -50)
  {
    RunAppend(t, [], UserRead(1, USER, SID));
    var t1 := Run(t, [UserRead(1, USER, SID)]);
    assert t1 == t.(pending := map[1 := UserCall(SID, SHIPPED, 0)]);
    Cheapens(t1);
    var t2 := Run(t1, Edit(PutShipping("post", Quoted(0))));
    RunAppend(t2, [], UserWrite(1, ApplyPromo("P"), Good));
    Discounts150(t2);
  }

  lemma CheaperStmt(db: Db)
    requires db.ledger == CODES && db.rates == map[DEFAULT_REGION := 0] && db.now == 0
    ensures UserStmt(db, UserCall(SID, SHIPPED, 0), PutShipping("post", Quoted(0))) ==
      Some(SetShipping(ShippingSet, 3, "post", 0, 0, 0))
  {
  }

  lemma CheaperRow(db: Db)
    requires db.sessions == map[SID := SHIPPED] && db.tick == 3
    ensures NewRow(db, SID, SetShipping(ShippingSet, 3, "post", 0, 0, 0)) == CHEAPER
  {
  }

  lemma Cheapens(t: State)
    requires t.db.sessions == map[SID := SHIPPED] && 0 !in t.pending
    requires t.db.ledger == CODES && t.db.rates == map[DEFAULT_REGION := 0] && t.db.now == 0 && t.db.tick == 3
    ensures
      var u := Run(t, Edit(PutShipping("post", Quoted(0))));
      u.db.sessions == map[SID := CHEAPER] && u.pending == t.pending && u.db.ledger == CODES && u.db.now == 0
  {
    CheaperStmt(t.db);
    CheaperRow(t.db);
    Edits(t, SHIPPED, PutShipping("post", Quoted(0)), SetShipping(ShippingSet, 3, "post", 0, 0, 0));
    assert t.db.sessions[SID := CHEAPER] == map[SID := CHEAPER];
  }

  lemma Discounts150(t: State)
    requires t.db.sessions == map[SID := CHEAPER] && t.pending == map[1 := UserCall(SID, SHIPPED, 0)]
    requires t.db.ledger == CODES && t.db.now == 0
    ensures
      var u := Next(t, UserWrite(1, ApplyPromo("P"), Good));
      SID in u.db.sessions
        && u.db.sessions[SID].quote == CHEAPER.quote.(promo := Some("P"), discount := 150, total := -50)
  {
    Lands(t, 1, ApplyPromo("P"), SetPromo(ShippingSet, Some("P"), 150));
  }

  // ---- A discount without a code is an interleaved property too ----

  const CODED := OPENED.(version := 2, quote := OPENED.quote.(promo := Some("P"), discount := 100, total := 0))
  const BARE := OPENED.(version := 3)

  /** An address call reads the row with its code, the code is removed, and the address lands after that. */
  function Straying(): seq<Event> {
    Edit(ApplyPromo("P")) + [UserRead(1, USER, SID)] + Edit(RemovePromo) + [UserWrite(1, PutAddress(HOME), Good)]
  }

  /** The row ends up with everything taken off and no code, so that a confirm would order it for nothing. */
  lemma {:induction false} StrayDiscountIsReached()
    ensures
      var t := Run(START, Opening() + Straying());
      && Init(START) && SID in t.db.sessions
      && var q := t.db.sessions[SID].quote;
         q.promo.None? && q.discount == q.subtotal == 100 && q.total == 0
  {
    StartIsInit();
    Opens();
    var t := Run(START, Opening());
    RunConcat(START, Opening(), Straying());
    var a, b, c := Edit(ApplyPromo("P")), [UserRead(1, USER, SID)], Edit(RemovePromo);
    RunConcat(t, a + b + c, [UserWrite(1, PutAddress(HOME), Good)]);
    RunConcat(t, a + b, c);
    RunConcat(t, a, b);
    Applies(t);
    Strays(Run(t, a));
  }

  lemma Applies(t: State)
    requires Desk(t, OPENED)
    ensures Desk(Run(t, Edit(ApplyPromo("P"))), CODED)
  {
    assert Assigned(OPENED, SetPromo(Open, Some("P"), 100)).(version := OPENED.version + 1) == CODED;
    DeskEdits(t, OPENED, ApplyPromo("P"), SetPromo(Open, Some("P"), 100));
  }

  lemma Strays(t: State)
    requires Desk(t, CODED)
    ensures
      var u := Run(Run(Run(t, [UserRead(1, USER, SID)]), Edit(RemovePromo)), [UserWrite(1, PutAddress(HOME), Good)]);
      SID in u.db.sessions
        && u.db.sessions[SID].quote == BARE.quote.(address := Some(HOME), discount := 100, total := 0)
  {
    RunAppend(t, [], UserRead(1, USER, SID));
    var t1 := Run(t, [UserRead(1, USER, SID)]);
    assert t1 == t.(pending := map[1 := UserCall(SID, CODED, 0)]);
    Bares(t1);
    var t2 := Run(t1, Edit(RemovePromo));
    RunAppend(t2, [], UserWrite(1, PutAddress(HOME), Good));
    Readdresses(t2);
  }

  lemma Bares(t: State)
    requires t.db.sessions == map[SID := CODED] && 0 !in t.pending && t.db.now == 0 && t.db.tick == 2
    requires t.db.ledger == CODES
    ensures
      var u := Run(t, Edit(RemovePromo));
      u.db.sessions == map[SID := BARE] && u.pending == t.pending && u.db.ledger == CODES
  {
    BareStmt(t.db);
    BareRow(t.db);
    Rewrites(t, CODED, RemovePromo, SetPromo(Open, None, 0), BARE);
  }

  lemma Rewrites(t: State, row: Session, req: Request, st: Stmt, row': Session)
    requires t.db.sessions == map[SID := row] && row.user == USER && 0 !in t.pending
    requires UserStmt(t.db, UserCall(SID, row, t.db.now), req) == Some(st) && Matches(t.db, row, st) && Fits(row, st)
    requires NewRow(t.db, SID, st) == row'
    ensures
      var u := Run(t, Edit(req));
      u.db.sessions == map[SID := row'] && u.pending == t.pending && u.db.ledger == t.db.ledger
  {
    Edits(t, row, req, st);
    PutsRow(t, Run(t, Edit(req)), row, row');
  }

  lemma PutsRow(t: State, u: State, row: Session, row': Session)
    requires t.db.sessions == map[SID := row] && u == PutRow(t, SID, row').(quotes := u.quotes)
    ensures u.db.sessions == map[SID := row'] && u.pending == t.pending && u.db.ledger == t.db.ledger
  {
    assert t.db.sessions[SID := row'] == map[SID := row'];
  }

  lemma BareStmt(db: Db)
    requires db.now == 0
    ensures UserStmt(db, UserCall(SID, CODED, 0), RemovePromo) == Some(SetPromo(Open, None, 0))
    ensures Matches(db, CODED, SetPromo(Open, None, 0)) && Fits(CODED, SetPromo(Open, None, 0))
  {
  }

  lemma BareRow(db: Db)
    requires db.sessions == map[SID := CODED] && db.tick == 2
    ensures NewRow(db, SID, SetPromo(Open, None, 0)) == BARE
  {
  }

  lemma Readdresses(t: State)
    requires t.db.sessions == map[SID := BARE] && t.pending == map[1 := UserCall(SID, CODED, 0)]
    requires t.db.ledger == CODES
    ensures
      var u := Next(t, UserWrite(1, PutAddress(HOME), Good));
      SID in u.db.sessions
        && u.db.sessions[SID].quote == BARE.quote.(address := Some(HOME), discount := 100, total := 0)
  {
    Lands(t, 1, PutAddress(HOME), SetAddress(Open, HOME, 100));
  }

  // ---- An attempted session can be cancelled, its order differing from its row ----

  const TOKEN := "tok_a"
  const OTHER := "tok_b"

  lemma TokensValid()
    ensures ValidPaymentToken(TOKEN) && ValidPaymentToken(OTHER)
  {
    FewDigits(TOKEN);
    FewDigits(OTHER);
  }

  lemma {:induction false} FewDigits(s: string)
    ensures DigitCount(s) <= |s|
  {
    if s != [] { FewDigits(s[1..]); }
  }

  function Paying(): seq<Event> { Shopping() + Edit(PutPayment(TOKEN)) }

  const READY := SHIPPED.(status := Ready, version := 4, quote := SHIPPED.quote.(token := Some(TOKEN)))

  lemma Pays()
    ensures Desk(Run(START, Paying()), READY)
  {
    Shops();
    TokensValid();
    DeskEdits(Run(START, Shopping()), SHIPPED, PutPayment(TOKEN), SetPaymentToken(ShippingSet, TOKEN));
    RunConcat(START, Shopping(), Edit(PutPayment(TOKEN)));
  }

  const DRIVE := Drive(7, USER, SID, "k", 0, READY, 0)
  const CATALOG := Catalog.Reads(Success([Catalog.PriceInfo("1", 100, "", true)]),
    Success(Catalog.Availability(true, [], [])))
  const FINE := Input(Good, CATALOG, true, 0)

  lemma ReadyIsFresh(t: State)
    requires Desk(t, READY)
    ensures F.Fresh(t, DRIVE)
  {
    TokensValid();
    assert Digits("1") == Some(1) by { assert "1"[..0] == []; }
    assert LineBounds(LINE);
  }

  lemma CatalogClears()
    ensures Catalog.Revalidation([LINE], CATALOG) == Catalog.Clean
  {
    var prices, avail := CATALOG.prices.value, CATALOG.avail.value;
    Catalog.CleanIffCleared([LINE], prices, avail);
    Catalog.DistinctCovers([LINE]);
    assert Catalog.LastPrice(prices, "1") == Some(100);
  }

  /** n acknowledged steps with nobody else acting. */
  function Unaided(n: nat): seq<Event> { if n == 0 then [] else Unaided(n - 1) + [Step(7, FINE)] }

  function Driving(n: nat): seq<Event> { [Start(7, USER, SID, "k")] + Unaided(n) }

  lemma StepKeeps(s: State)
    requires 7 in s.execs
    ensures var t := Next(s, Step(7, FINE)); 7 in t.execs && t.pending == s.pending && t.db.now == s.db.now
  {
    StepFramed(s, 7, FINE);
  }

  lemma FineIsFair(t: State)
    requires t.db.now == 0
    ensures F.Fair(t, DRIVE, FINE)
  {
    CatalogClears();
  }

  lemma FavouredOnce(s: State, evs: seq<Event>)
    requires F.Favoured(s, evs, DRIVE) && F.Fair(Run(s, evs), DRIVE, FINE)
    ensures F.Favoured(s, evs + [Step(7, FINE)], DRIVE) && OwnSteps(evs + [Step(7, FINE)], 7) == OwnSteps(evs, 7) + 1
  {
    assert (evs + [Step(7, FINE)])[..|evs|] == evs;
  }

  lemma {:induction false} UnaidedIsFavoured(s: State, n: nat)
    requires 7 in s.execs && s.db.now == 0
    ensures
      var t := Run(s, Unaided(n));
      7 in t.execs && t.pending == s.pending && t.db.now == 0 && F.Favoured(s, Unaided(n), DRIVE)
        && OwnSteps(Unaided(n), 7) == n
  {
    if n > 0 {
      UnaidedIsFavoured(s, n - 1);
      UnaidedOnce(s, Unaided(n - 1));
    }
  }

  lemma UnaidedOnce(s: State, evs: seq<Event>)
    requires 7 in Run(s, evs).execs && Run(s, evs).db.now == 0 && F.Favoured(s, evs, DRIVE)
    ensures
      var t := Run(s, evs + [Step(7, FINE)]);
      && 7 in t.execs && t.pending == Run(s, evs).pending && t.db.now == 0
      && F.Favoured(s, evs + [Step(7, FINE)], DRIVE) && OwnSteps(evs + [Step(7, FINE)], 7) == OwnSteps(evs, 7) + 1
  {
    RunAppend(s, evs, Step(7, FINE));
    StepKeeps(Run(s, evs));
    FineIsFair(Run(s, evs));
    FavouredOnce(s, evs);
  }

  lemma Drives(t: State, n: nat)
    requires Desk(t, READY) && CoreInv(t)
    ensures var g := Run(t, Driving(n)); F.FirstStage(g, DRIVE, n) && g.pending == map[] && g.db.now == 0
  {
    ReadyIsFresh(t);
    var start := Start(7, USER, SID, "k");
    RunAppend(t, [], start);
    assert [] + [start] == [start];
    RunConcat(t, [start], Unaided(n));
    UnaidedIsFavoured(Next(t, start), n);
    F.FreshBegins(t, DRIVE);
    CoreStep(t, start);
    F.IdsStayFresh(Next(t, start), Unaided(n));
    F.FirstCourse(Next(t, start), Unaided(n), DRIVE);
  }

  /** The confirm has placed its order and dies. */
  function Ordering(): seq<Event> { Driving(7) + [Crash(7)] }

  const KEY := OrderKey(USER, SID, "k")

  predicate Ordered(t: State, k: ClaimId, row: Session) {
    && SID in t.db.sessions && t.db.sessions[SID] == row && 0 !in t.pending && t.db.now == 0
    && k in t.db.claims && t.db.claims[k].hash == SID && t.db.claims[k].subject.Some?
    && KEY in t.orders && t.orders[KEY].payload == PayloadOf(READY.quote)
  }

  lemma Places(t: State) returns (k: ClaimId, row: Session)
    requires Desk(t, READY) && CoreInv(t)
    ensures Ordered(Run(t, Ordering()), k, row)
    ensures row == READY.(status := Confirming, confirmKey := Some(k), version := row.version)
  {
    Drives(t, 7);
    var g := Run(t, Driving(7));
    k, row := F.Owning(g, DRIVE).k, g.db.sessions[SID];
    RunAppend(t, Driving(7), Crash(7));
  }

  function Meddling(): seq<Event> { Edit(PutPayment(OTHER)) + Edit(Cancel) }

  lemma Repays(t: State, k: ClaimId, row: Session)
    requires Ordered(t, k, row) && row.status == Confirming && row.user == USER
    ensures Ordered(Run(t, Edit(PutPayment(OTHER))), k,
      row.(status := Ready, quote := row.quote.(token := Some(OTHER)), version := t.db.tick + 1))
  {
    TokensValid();
    Edits(t, row, PutPayment(OTHER), SetPaymentToken(Confirming, OTHER));
  }

  lemma Cancels(t: State, k: ClaimId, row: Session)
    requires Ordered(t, k, row) && row.status == Ready && row.user == USER && row.expiresAt > 0
    ensures Ordered(Run(t, Edit(Cancel)), k, row.(status := Cancelled, version := t.db.tick + 1))
  {
    Edits(t, row, Cancel, UpdateStatus(Ready, Cancelled));
  }

  /**
   * A user pays again and cancels while the attempted confirm is down: the session ends cancelled although its
   * order exists, and the order was created from a payment token the row no longer shows. This run is not clean.
   */
  lemma {:induction false} AttemptedSessionCancelled()
    ensures
      var evs := Paying() + Ordering() + Meddling();
      var s := Run(START, evs);
      && Init(START) && (exists k :: k in s.db.claims && s.db.claims[k].subject.Some? && s.db.claims[k].hash == SID)
      && SID in s.db.sessions && s.db.sessions[SID].status == Cancelled
      && KEY in s.orders && s.orders[KEY].payload != PayloadOf(s.db.sessions[SID].quote)
      && !CleanRun(START, evs)
  {
    StartIsInit();
    Pays();
    CoreRun(START, Paying());
    var t := Run(START, Paying());
    var k, row := Places(t);
    RunConcat(START, Paying(), Ordering());
    var u := Run(t, Ordering());
    RunConcat(START, Paying() + Ordering(), Meddling());
    RunConcat(u, Edit(PutPayment(OTHER)), Edit(Cancel));
    Repays(u, k, row);
    Cancels(Run(u, Edit(PutPayment(OTHER))), k, Run(u, Edit(PutPayment(OTHER))).db.sessions[SID]);
    var evs := Paying() + Ordering() + Meddling();
    if CleanRun(START, evs) { AttemptedStaysAttempted(START, evs, k); }
  }

  // ---- The latest write ----

  const DOWN := Input(Good, Catalog.Reads(Failure(()), Failure(())), true, 0)

  /** Re-validation fails at the last moment, then the abort and the release each use their whole budget. */
  function Lingering(e: Actor): seq<Event> {
    [Pass(CONFIRM_DEADLINE), Step(e, DOWN), Pass(RELEASE_TIMEOUT), Step(e, DOWN), Pass(RELEASE_TIMEOUT)]
  }

  lemma Run5(s: State, a: Event, b: Event, c: Event, d: Event, e: Event)
    ensures Run(s, [a, b, c, d, e]) == Next(Next(Next(Next(Next(s, a), b), c), d), e)
  {
    Run2(s, a, b);
    RunAppend(s, [a, b], c);
    RunAppend(s, [a, b] + [c], d);
    RunAppend(s, [a, b] + [c] + [d], e);
    assert [a, b] + [c] + [d] + [e] == [a, b, c, d, e];
  }

  lemma Waits(g: State, d: Drive, row: Session)
    requires F.Opened(g, d, row, false) && F.Stands(g, d, Revalidating, row) && BoundConfirming(row, d.k)
    requires g.db.now == d.at
    ensures
      var g2 := Next(Next(g, Pass(CONFIRM_DEADLINE)), Step(d.e, DOWN));
      var u := Next(Next(Next(g2, Pass(RELEASE_TIMEOUT)), Step(d.e, DOWN)), Pass(RELEASE_TIMEOUT));
      d.e in u.execs && u.db.now == u.execs[d.e].started + LAST_WRITE && Next(u, Step(d.e, DOWN)).db != u.db
  {
    Times(g, d, row);
    var g2 := Next(Next(g, Pass(CONFIRM_DEADLINE)), Step(d.e, DOWN));
    Aborts(g2, d, row);
    var u := Next(Next(Next(g2, Pass(RELEASE_TIMEOUT)), Step(d.e, DOWN)), Pass(RELEASE_TIMEOUT));
    assert Next(u, Step(d.e, DOWN)).db.claims[d.k].lock == Free;
  }

  lemma Times(g: State, d: Drive, row: Session)
    requires F.Opened(g, d, row, false) && F.Stands(g, d, Revalidating, row) && g.db.now == d.at
    ensures
      var u := Next(Next(g, Pass(CONFIRM_DEADLINE)), Step(d.e, DOWN));
      && F.Opened(u, d, row, false) && d.e in u.execs
      && var x := u.execs[d.e];
         x == g.execs[d.e].(pc := Aborting, limit := u.db.now + RELEASE_TIMEOUT)
           && u.db.now == x.started + CONFIRM_DEADLINE
  {
  }

  /** The abort at its own deadline. */
  lemma AbortsAt(g1: State, d: Drive, row: Session)
    requires F.Opened(g1, d, row, false) && AtPc(g1, d.e) && BoundConfirming(row, d.k)
    requires g1.execs[d.e].pc.Aborting? && g1.execs[d.e].claim == d.k && g1.execs[d.e].sid == d.sid
    ensures
      var u := Next(g1, Step(d.e, DOWN));
      && u.db.claims == g1.db.claims && d.e in u.execs && u.db.now == g1.db.now
      && u.execs[d.e] == g1.execs[d.e].(pc := Releasing(UpstreamDown), limit := g1.db.now + RELEASE_TIMEOUT)
  {
    WriteFrame(g1, d.sid, AbortConfirm(d.k));
  }

  lemma Aborts(g: State, d: Drive, row: Session)
    requires F.Opened(g, d, row, false) && d.e in g.execs && BoundConfirming(row, d.k)
    requires
      var x := g.execs[d.e];
      && x.pc.Aborting? && x.limit == g.db.now + RELEASE_TIMEOUT && x.claim == d.k && x.sid == d.sid
      && g.db.now == x.started + CONFIRM_DEADLINE
    ensures
      var u := Next(Next(Next(g, Pass(RELEASE_TIMEOUT)), Step(d.e, DOWN)), Pass(RELEASE_TIMEOUT));
      && d.k in u.db.claims && u.db.claims[d.k].lock.Held? && d.e in u.execs
      && var x := u.execs[d.e];
         x == g.execs[d.e].(pc := Releasing(UpstreamDown), limit := u.db.now) && u.db.now == x.started + LAST_WRITE
  {
    var g1 := Next(g, Pass(RELEASE_TIMEOUT));
    assert g1 == g.(db := g.db.(now := g.db.now + RELEASE_TIMEOUT));
    AbortsAt(g1, d, row);
  }

  lemma Lingers(t: State)
    requires Desk(t, READY) && CoreInv(t)
    ensures
      var u := Run(t, Driving(4) + Lingering(7));
      && 7 in u.execs && u.db.now == u.execs[7].started + LAST_WRITE && Next(u, Step(7, DOWN)).db != u.db
  {
    Drives(t, 4);
    RunConcat(t, Driving(4), Lingering(7));
    var g := Run(t, Driving(4));
    Run5(g, Pass(CONFIRM_DEADLINE), Step(7, DOWN), Pass(RELEASE_TIMEOUT), Step(7, DOWN), Pass(RELEASE_TIMEOUT));
    Waits(g, F.Owning(g, DRIVE), g.db.sessions[SID]);
  }

  /** The bound on writes is reached: a confirm writes 21 s after its start, later than the declared 18 s. */
  lemma {:induction false} LatestWriteAttained()
    ensures
      var evs := Paying() + (Driving(4) + Lingering(7));
      var s := Run(START, evs);
      Init(START) && 7 in s.execs && s.db.now == s.execs[7].started + 21_000 && Next(s, Step(7, DOWN)).db != s.db
  {
    StartIsInit();
    Pays();
    CoreRun(START, Paying());
    Lingers(Run(START, Paying()));
    RunConcat(START, Paying(), Driving(4) + Lingering(7));
  }
}
