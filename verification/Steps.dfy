/**
 * What one step of a confirm makes of the claim and of the session row, in terms of the tables it finds: which claim
 * it takes or gives up, what it records there, and when its conditional writes land and with what.
 */
module Steps {
  import opened Base
  import opened Domain
  import opened Money
  import opened Ledger
  import opened Store
  import opened Protocol
  import opened Safety
  import opened Theorems
  import opened Rows
  import opened Subtotals
  import Catalog

  /** The execution can still act: it has not answered and the context it runs under has not expired. */
  predicate Acts(s: State, e: Actor) {
    e in s.execs && !s.execs[e].pc.Done? && s.db.now <= s.execs[e].limit
  }

  /** One that cannot changes nothing any more. */
  lemma DeadDoNothing(s: State, e: Actor, input: Input)
    requires !Acts(s, e)
    ensures Next(s, Step(e, input)) == s
  {
  }

  // ---- The claim ----

  /** A key the user never used is claimed with a row of its own, locked by the execution from now on. */
  lemma {:induction false} NewKeyIsClaimed(s: State, e: Actor, input: Input)
    requires Acts(s, e) && s.execs[e].pc.Claiming?
    requires forall k :: k in s.db.claims && s.db.claims[k].user == s.execs[e].user ==>
      s.db.claims[k].key != s.execs[e].key
    requires s.db.nextClaim !in s.db.claims
    ensures
      var x, s', k := s.execs[e], Next(s, Step(e, input)), s.db.nextClaim;
      && s'.db == (if input.ack != Good && input.ack != Lost then s.db else s.db.(nextClaim := k + 1,
           claims := s.db.claims[k := Claim(x.user, x.key, x.sid, Held(s.db.now, e), None, None, s.db.now)]))
      && s'.execs == s.execs[e := if input.ack == Good then x.(pc := Entering, claim := k, marked := false)
           else x.(pc := Done(Refused(Unavailable)))]
  {
    Unused(s.db.claims, s.execs[e].user, s.execs[e].key);
  }

  lemma Unused(claims: map<ClaimId, Claim>, user: UserId, key: string)
    requires forall k :: k in claims && claims[k].user == user ==> claims[k].key != key
    ensures FindClaim(claims, user, key).None?
  {
  }

  /**
   * A key used before is a conflict if it was used for another session, replays the answer if it has one, is refused
   * while its lock is held and no older than the takeover window, and is taken over otherwise.
   */
  lemma {:induction false} KnownKeyIsAnswered(s: State, e: Actor, input: Input, k: ClaimId)
    requires Acts(s, e) && s.execs[e].pc.Claiming? && UniqueNames(s.db.claims) && k in s.db.claims
    requires s.db.claims[k].user == s.execs[e].user && s.db.claims[k].key == s.execs[e].key && input.ack == Good
    ensures
      var x, s', c := s.execs[e], Next(s, Step(e, input)), s.db.claims[k];
      if c.hash != x.sid then
        s'.db == s.db && s'.execs == s.execs[e := x.(pc := Done(Refused(KeyConflict)))]
      else if c.response.Some? then
        s'.db == s.db && s'.execs == s.execs[e := x.(pc := Done(Confirmed(c.response.value)))]
      else if c.lock.Held? && s.db.now <= c.lock.at + s.takeover then
        s'.db == s.db && s'.execs == s.execs[e := x.(pc := Done(Refused(InFlight)))]
      else
        && s'.db == s.db.(claims := s.db.claims[k := c.(lock := Held(s.db.now, e))])
        && s'.execs == s.execs[e := x.(pc := Entering, claim := k, marked := c.subject.Some?)]
  {
    Used(s.db.claims, s.execs[e].user, s.execs[e].key, k);
  }

  lemma Used(claims: map<ClaimId, Claim>, user: UserId, key: string, k: ClaimId)
    requires UniqueNames(claims) && k in claims && claims[k].user == user && claims[k].key == key
    ensures FindClaim(claims, user, key) == Some(k)
  {
    assert Named(claims[k], user, key);
  }

  /** A claim whose answer is lost locks the key all the same, under the same conditions. */
  lemma {:induction false} LostClaimLocks(s: State, e: Actor, input: Input, k: ClaimId)
    requires Acts(s, e) && s.execs[e].pc.Claiming? && UniqueNames(s.db.claims) && k in s.db.claims
    requires s.db.claims[k].user == s.execs[e].user && s.db.claims[k].key == s.execs[e].key && input.ack != Good
    ensures
      var x, s', c := s.execs[e], Next(s, Step(e, input)), s.db.claims[k];
      && s'.execs == s.execs[e := x.(pc := Done(Refused(Unavailable)))]
      && s'.db ==
        if input.ack == Lost && c.hash == x.sid && c.response.None?
          && (c.lock.Held? ==> c.lock.at + s.takeover < s.db.now)
        then s.db.(claims := s.db.claims[k := c.(lock := Held(s.db.now, e))])
        else s.db
  {
    Used(s.db.claims, s.execs[e].user, s.execs[e].key, k);
  }

  /** The marker is set before CreateOrder is called, and replaced by the order's id afterwards. */
  lemma {:induction false} MarkerRecords(s: State, e: Actor, input: Input)
    requires Acts(s, e) && (s.execs[e].pc.Marking? || s.execs[e].pc.Noting?)
    ensures
      var x, db' := s.execs[e], Next(s, Step(e, input)).db;
      if (input.ack == Good || input.ack == Lost) && x.claim in s.db.claims
      then db' == s.db.(claims := s.db.claims[x.claim := s.db.claims[x.claim].(
        subject := Some(if x.pc.Marking? then 0 else x.orderId))])
      else db' == s.db
  {
  }

  /** Finishing records the answer, and releasing frees the lock. */
  lemma {:induction false} AnswerRecords(s: State, e: Actor, input: Input)
    requires Acts(s, e) && (s.execs[e].pc.Finishing? || s.execs[e].pc.Recovering? || s.execs[e].pc.Releasing?)
    ensures
      var x, db' := s.execs[e], Next(s, Step(e, input)).db;
      if (input.ack == Good || input.ack == Lost) && x.claim in s.db.claims
      then db' == s.db.(claims := s.db.claims[x.claim :=
        if x.pc.Releasing? then s.db.claims[x.claim].(lock := Free)
        else s.db.claims[x.claim].(response := Some(x.sess))])
      else db' == s.db
  {
  }

  /** Reaping deletes the answered claims that are older than the retention, and changes no other. */
  lemma {:induction false} ReapDrops(s: State, ttl: Time, k: ClaimId)
    ensures
      var s' := Next(s, Reap(ttl));
      && (k in s'.db.claims <==>
           k in s.db.claims && (s.db.claims[k].response.None? || s.db.now <= s.db.claims[k].createdAt + ttl))
      && (k in s'.db.claims ==> s'.db.claims[k] == s.db.claims[k])
      && s'.db.(claims := s.db.claims) == s.db
  {
  }

  // ---- The row ----

  /** The row is confirming under the claim of the execution. */
  predicate Holds(s: State, e: Actor)
    requires e in s.execs
  {
    var x := s.execs[e];
    && x.sid in s.db.sessions && s.db.sessions[x.sid].status == Confirming
    && s.db.sessions[x.sid].confirmKey == Some(x.claim)
  }

  /** Entering binds a ready row that is free or bound to this claim already. */
  lemma {:induction false} EntryBinds(s: State, e: Actor, input: Input)
    requires Acts(s, e) && s.execs[e].pc.Entering?
    ensures
      var x, db' := s.execs[e], Next(s, Step(e, input)).db;
      if (input.ack == Good || input.ack == Lost) && x.sess.status == Ready
        && x.sid in s.db.sessions && s.db.sessions[x.sid].status == Ready
        && (s.db.sessions[x.sid].confirmKey.None? || s.db.sessions[x.sid].confirmKey == Some(x.claim))
      then RowBecomes(s.db, db', x.sid, s.db.sessions[x.sid].(status := Confirming, confirmKey := Some(x.claim)))
      else db' == s.db
  {
  }

  /** A confirm that found its session past the deadline expires it, unless it moved on to another confirm or ended. */
  lemma {:induction false} LapseExpires(s: State, e: Actor, input: Input)
    requires Acts(s, e) && s.execs[e].pc.Lapsing?
    ensures
      var x, db' := s.execs[e], Next(s, Step(e, input)).db;
      if input.ack != Failed && x.sid in s.db.sessions
        && s.db.sessions[x.sid].status in {Open, AddressSet, ShippingSet, Ready}
      then RowBecomes(s.db, db', x.sid, s.db.sessions[x.sid].(status := Expired, expiredReason := Some(ByLazy)))
      else db' == s.db
  {
  }

  /** Completing writes the order's id on the bound row, which stays bound. */
  lemma {:induction false} CompletionLands(s: State, e: Actor, input: Input)
    requires Acts(s, e) && s.execs[e].pc.Completing?
    ensures
      var x, db' := s.execs[e], Next(s, Step(e, input)).db;
      if (input.ack == Good || input.ack == Lost) && Holds(s, e)
      then RowBecomes(s.db, db', x.sid, s.db.sessions[x.sid].(status := Completed, orderId := Some(x.orderId)))
      else db' == s.db
  {
    CompleteMoves(s, e, s.execs[e], input.ack);
    WriteIsPut(s, s.execs[e].sid, CompleteSession(s.execs[e].claim, s.execs[e].orderId));
  }

  /** Aborting frees the bound row for another try, unless its claim is marked or answered. */
  lemma {:induction false} AbortLands(s: State, e: Actor, input: Input)
    requires Acts(s, e) && s.execs[e].pc.Aborting?
    ensures
      var x, db' := s.execs[e], Next(s, Step(e, input)).db;
      if (input.ack == Good || input.ack == Lost) && Holds(s, e)
        && (x.claim in s.db.claims ==> s.db.claims[x.claim].subject.None? && s.db.claims[x.claim].response.None?)
      then RowBecomes(s.db, db', x.sid, s.db.sessions[x.sid].(status := Ready, confirmKey := None))
      else db' == s.db
  {
  }

  /** Stripping takes the code and all of its discount off the bound row and sends it back to be shipped and paid. */
  lemma {:induction false} StripLands(s: State, e: Actor, input: Input)
    requires Acts(s, e) && s.execs[e].pc.Stripping?
    ensures
      var x, db' := s.execs[e], Next(s, Step(e, input)).db;
      if (input.ack == Good || input.ack == Lost) && Holds(s, e) && SumsFit(s.db.sessions[x.sid].quote, 0)
      then
        var r := s.db.sessions[x.sid];
        RowBecomes(s.db, db', x.sid, r.(status := ShippingSet, confirmKey := None, quote := r.quote.(promo := None,
          discount := 0, total := r.quote.subtotal + r.quote.fee + r.quote.tax)))
      else db' == s.db
  {
  }

  /**
   * A requote rewrites the money of the bound row and sends it back to be shipped and paid. Each line takes the price
   * of the last requoted line of its product, so with distinct products the requoted lines are the new lines.
   */
  lemma {:induction false} RequoteLands(s: State, e: Actor, input: Input)
    requires Acts(s, e) && s.execs[e].pc.Requoting?
    ensures
      var x, db' := s.execs[e], Next(s, Step(e, input)).db;
      if (input.ack == Good || input.ack == Lost) && Holds(s, e)
        && SumsFit(s.db.sessions[x.sid].quote.(subtotal := x.pc.subtotal, tax := x.pc.tax), x.pc.discount)
      then
        var q := s.db.sessions[x.sid].quote;
        && x.sid in db'.sessions
        && Requoted(q.items, x.pc.items, db'.sessions[x.sid].quote.items)
        && RowBecomes(s.db, db', x.sid, s.db.sessions[x.sid].(status := ShippingSet, confirmKey := None,
          quote := q.(items := db'.sessions[x.sid].quote.items, subtotal := x.pc.subtotal, tax := x.pc.tax,
            discount := x.pc.discount, total := x.pc.subtotal + q.fee + x.pc.tax - x.pc.discount)))
      else db' == s.db
  {
    if s.execs[e].sid in s.db.sessions { RequotedRows(s.db.sessions[s.execs[e].sid].quote.items, s.execs[e].pc.items); }
    RequoteIs(s, e, input);
  }

  predicate Requoted(rows: seq<Item>, items: seq<Item>, out: seq<Item>) {
    && |out| == |rows|
    && (forall i :: 0 <= i < |rows| ==>
         && out[i].productId == rows[i].productId && out[i].quantity == rows[i].quantity
         && out[i].unitPrice == match LastPrice(items, rows[i].productId)
              case None => rows[i].unitPrice
              case Some(price) => price)
    && (SameLines(rows, items) && DistinctProducts(rows) ==> out == items)
  }

  lemma RequotedRows(rows: seq<Item>, items: seq<Item>)
    ensures Requoted(rows, items, RepriceAll(rows, items))
  {
    forall i | 0 <= i < |rows|
      ensures RepriceAll(rows, items)[i].productId == rows[i].productId
      ensures RepriceAll(rows, items)[i].quantity == rows[i].quantity
      ensures RepriceAll(rows, items)[i].unitPrice == match LastPrice(items, rows[i].productId)
                                                      case None => rows[i].unitPrice
                                                      case Some(price) => price
    {
      RepricedAt(rows, items, i);
    }
    if SameLines(rows, items) && DistinctProducts(rows) { RepriceDistinct(rows, items); }
  }

  lemma RequoteIs(s: State, e: Actor, input: Input)
    requires Acts(s, e) && s.execs[e].pc.Requoting?
    ensures
      var x := s.execs[e];
      var st := Stmt.RequoteItems(x.claim, x.pc.items, x.pc.subtotal, x.pc.tax, x.pc.discount);
      Next(s, Step(e, input)).db == if input.ack == Good || input.ack == Lost then Exec(s.db, x.sid, st) else s.db
  {
    var x := s.execs[e];
    DropCases(s, e, x, RequoteItems(x.claim, x.pc.items, x.pc.subtotal, x.pc.tax, x.pc.discount), x.pc.why, input.ack);
  }

  // ---- Starting, deciding and ordering ----

  /** A confirm has fifteen seconds from its start; a takeover window is accepted above four times eighteen seconds. */
  lemma StartsWithDeadline(s: State, e: Actor, user: UserId, sid: SessionId, key: string)
    requires e !in s.execs
    ensures
      var s' := Next(s, Start(e, user, sid, key));
      && e in s'.execs && s'.execs[e].pc == Reading && s'.execs[e].limit == s.db.now + 15_000
      && s'.execs[e].started == s.db.now && s'.execs[e].user == user && s'.execs[e].sid == sid
      && s'.execs[e].key == key && s' == s.(execs := s.execs[e := s'.execs[e]])
    ensures TakeoverAccepted(s.takeover) <==> s.takeover > 4 * (15_000 + 3_000)
  {
  }

  /**
   * After re-validation: a clean basket goes on to its redemption, or to its marker if it has no code; an unknown SKU
   * sends the session back with its quote as it is, a drift with the new lines, subtotal, tax and discount; anything
   * else aborts in a new context of three seconds.
   */
  lemma {:induction false} VerdictDecides(s: State, e: Actor, input: Input, v: Catalog.Verdict)
    requires Acts(s, e) && s.execs[e].pc.Revalidating?
    requires v == Catalog.Revalidation(s.execs[e].sess.quote.items, input.got)
    ensures
      var x, s' := s.execs[e], StepVerdict(s, e, s.execs[e], v, input.lookups);
      var q := x.sess.quote;
      && s'.db == s.db && e in s'.execs
      && if v.Clean? then s'.execs[e] == x.(pc := if q.promo.Some? then Redeeming else Marking)
         else if v.Untracked? then
           s'.execs[e] == x.(pc := Requoting(q.items, q.subtotal, q.tax, q.discount, AvailabilityUnknown))
         else if v.Drift? && input.lookups && Components(s.db, q, v.subtotal).Some? then
           var (tax, d) := Components(s.db, q, v.subtotal).value;
           s'.execs[e] == x.(pc := Requoting(v.items, v.subtotal, tax, d,
             if v.short then StockUnavailable else PriceChanged))
         else s'.execs[e] == x.(pc := Aborting, limit := s.db.now + 3_000)
  {
  }

  /** The step takes the verdict of the two answers it got. */
  lemma VerdictIsStep(s: State, e: Actor, input: Input)
    requires Acts(s, e) && s.execs[e].pc.Revalidating?
    ensures
      var v := Catalog.Revalidation(s.execs[e].sess.quote.items, input.got);
      Next(s, Step(e, input)) == StepVerdict(s, e, s.execs[e], v, input.lookups)
  {
  }

  /** CreateOrder on a key already ordered under changes nothing; a new key orders the lines and money of the read. */
  lemma {:induction false} OrderPlaces(s: State, e: Actor, input: Input)
    requires Acts(s, e) && s.execs[e].pc.Ordering?
    ensures
      var x, s' := s.execs[e], Next(s, Step(e, input));
      var key, q := OrderKey(x.user, x.sid, x.key), x.sess.quote;
      && s'.db == s.db && s'.attempts == s.attempts + {Attempt(x.user, x.sid, x.key, x.claim)}
      && s'.orders == (if key in s.orders || (input.ack != Good && input.ack != Lost) then s.orders
           else s.orders[key := Order(s.nextOrder, Payload(q.items, q.token, q.fee, q.tax, q.discount), x.claim)])
      && (input.ack == Good ==> key in s'.orders && s'.execs == s.execs[e := x.(pc := Noting,
           orderId := s'.orders[key].id)])
  {
    if input.ack == Good { PlacedIs(s, e, s.execs[e]); }
  }

  lemma PlacedIs(s: State, e: Actor, x: Execution)
    requires e in s.execs && s.execs[e] == x
    ensures OrderKey(x.user, x.sid, x.key) in Place(s, x).orders && Place(s, x).execs == s.execs
  {
  }
}
