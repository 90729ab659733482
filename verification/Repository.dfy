/** The Postgres repository as an object: one method per SQL statement, each updating the tables in place. */
module Repository {
  import opened Base
  import opened Domain
  import opened Money
  import opened Ledger
  import opened Store
  import Protocol

  datatype PromoError = NoError | ErrPromoNotFound | ErrPromoExpired | ErrPromoExhausted

  class SessionRepository {
    var sessions: map<SessionId, Session>
    var claims: map<ClaimId, Claim>
    var nextClaim: ClaimId
    var codes: map<string, Promo>
    var uses: map<Use, UserId>
    var rates: map<string, int>
    var tick: nat
    var now: Time

    /** The tables as one value. */
    function View(): Db
      reads this
    {
      Db(sessions, claims, nextClaim, PromoLedger(codes, uses), rates, tick, now)
    }

    constructor (db: Db)
      ensures View() == db
    {
      sessions, claims, nextClaim := db.sessions, db.claims, db.nextClaim;
      codes, uses, rates, tick, now := db.ledger.codes, db.ledger.uses, db.rates, db.tick, db.now;
    }

    /** Whatever everybody else committed meanwhile. */
    method Load(db: Db)
      modifies this
      ensures View() == db
    {
      sessions, claims, nextClaim := db.sessions, db.claims, db.nextClaim;
      codes, uses, rates, tick, now := db.ledger.codes, db.ledger.uses, db.rates, db.tick, db.now;
    }

    /** SET ..., updated_at = now(). */
    method Put(id: SessionId, r: Session)
      modifies this
      ensures View() ==
        old(View()).(sessions := old(sessions)[id := r.(version := old(tick) + 1)], tick := old(tick) + 1)
    {
      tick := tick + 1;
      sessions := sessions[id := r.(version := tick)];
    }

    /** The unique index on active users and the quantity CHECK guard the INSERT. */
    method CreateSession(id: SessionId, user: UserId, items: seq<Item>, subtotal: int, at: Time) returns (ok: bool)
      modifies this
      ensures ok <==> Protocol.Insertable(old(View()), id, user, items)
      ensures View() == Protocol.InsertRow(old(View()), id, user, items, Protocol.QuoteOf(items, subtotal), at)
    {
      if id in sessions { return false; }
      for i := 0 to |items|
        invariant forall j :: 0 <= j < i ==> items[j].quantity > 0
        invariant View() == old(View())
      {
        if items[i].quantity <= 0 { return false; }
      }
      if exists other :: other in sessions && Protocol.ActiveFor(sessions[other], user) { return false; }
      ok := true;
      Put(id, Session(user, Open, Protocol.QuoteOf(items, subtotal), None, None, at, None, 0));
    }

    method UpdateStatus(id: SessionId, from: Status, to: Status) returns (out: Outcome)
      modifies this
      ensures out == OutcomeOf(old(View()), id, Stmt.UpdateStatus(from, to))
      ensures View() == Exec(old(View()), id, Stmt.UpdateStatus(from, to))
    {
      if id !in sessions || sessions[id].status != from { return NoRow; }
      Put(id, sessions[id].(status := to));
      out := Applied;
    }

    method SetAddress(id: SessionId, from: Status, addr: Address, discount: int) returns (out: Outcome)
      modifies this
      ensures out == OutcomeOf(old(View()), id, Stmt.SetAddress(from, addr, discount))
      ensures View() == Exec(old(View()), id, Stmt.SetAddress(from, addr, discount))
    {
      if id !in sessions || sessions[id].status != from { return NoRow; }
      var r := sessions[id];
      var total := r.quote.subtotal - discount;
      if !Int64(total) { return DbError; }
      Put(id, r.(status := AddressSet, quote := r.quote.(
        address := Some(addr), shipMethod := None, fee := 0, tax := 0, discount := discount, total := total)));
      out := Applied;
    }

    method SetShipping(id: SessionId, from: Status, asOf: nat, shipMethod: string, fee: int, tax: int, discount: int)
      returns (out: Outcome)
      modifies this
      ensures out == OutcomeOf(old(View()), id, Stmt.SetShipping(from, asOf, shipMethod, fee, tax, discount))
      ensures View() == Exec(old(View()), id, Stmt.SetShipping(from, asOf, shipMethod, fee, tax, discount))
    {
      if id !in sessions || sessions[id].status != from || sessions[id].version != asOf { return NoRow; }
      var r := sessions[id];
      var total := r.quote.subtotal + fee;
      if !Int64(total) { return DbError; }
      total := total + tax;
      if !Int64(total) { return DbError; }
      total := total - discount;
      if !Int64(total) { return DbError; }
      Put(id, r.(status := ShippingSet, quote := r.quote.(
        shipMethod := Some(shipMethod), fee := fee, tax := tax, discount := discount, total := total)));
      out := Applied;
    }

    method SetPaymentToken(id: SessionId, from: Status, token: string) returns (out: Outcome)
      modifies this
      ensures out == OutcomeOf(old(View()), id, Stmt.SetPaymentToken(from, token))
      ensures View() == Exec(old(View()), id, Stmt.SetPaymentToken(from, token))
    {
      if id !in sessions || sessions[id].status != from { return NoRow; }
      Put(id, sessions[id].(status := Ready, quote := sessions[id].quote.(token := Some(token))));
      out := Applied;
    }

    method SetPromo(id: SessionId, from: Status, code: Option<string>, discount: int) returns (out: Outcome)
      modifies this
      ensures out == OutcomeOf(old(View()), id, Stmt.SetPromo(from, code, discount))
      ensures View() == Exec(old(View()), id, Stmt.SetPromo(from, code, discount))
    {
      if id !in sessions || sessions[id].status != from { return NoRow; }
      var r := sessions[id];
      var payable := r.quote.subtotal + r.quote.fee;
      if !Int64(payable) { return DbError; }
      payable := payable + r.quote.tax;
      if !Int64(payable) || !Int64(payable - discount) { return DbError; }
      Put(id, r.(quote := r.quote.(promo := code, discount := discount, total := payable - discount)));
      out := Applied;
    }

    method Touch(id: SessionId, at: Time) returns (out: Outcome)
      modifies this
      ensures out == OutcomeOf(old(View()), id, Stmt.Touch(at))
      ensures View() == Exec(old(View()), id, Stmt.Touch(at))
    {
      if id !in sessions || sessions[id].status in {Completed, Cancelled, Expired} { return NoRow; }
      Put(id, sessions[id].(expiresAt := at));
      out := Applied;
    }

    method MarkExpired(id: SessionId) returns (out: Outcome)
      modifies this
      ensures out == OutcomeOf(old(View()), id, Stmt.MarkExpired)
      ensures View() == Exec(old(View()), id, Stmt.MarkExpired)
    {
      if id !in sessions || sessions[id].status in {Completed, Cancelled, Expired, Confirming} { return NoRow; }
      Put(id, sessions[id].(status := Expired, expiredReason := Some(ByLazy)));
      out := Applied;
    }

    /** ready -> confirming and the session-to-claim binding in one conditional write. */
    method BeginConfirm(id: SessionId, key: ClaimId) returns (out: Outcome)
      modifies this
      ensures out == OutcomeOf(old(View()), id, Stmt.BeginConfirm(key))
      ensures View() == Exec(old(View()), id, Stmt.BeginConfirm(key))
    {
      if id !in sessions || sessions[id].status != Ready { return NoRow; }
      if sessions[id].confirmKey.Some? && sessions[id].confirmKey.value != key { return NoRow; }
      Put(id, sessions[id].(status := Confirming, confirmKey := Some(key)));
      out := Applied;
    }

    /** Refuses a claim that carries a marker or a cached answer. */
    method AbortConfirm(id: SessionId, key: ClaimId) returns (out: Outcome)
      modifies this
      ensures out == OutcomeOf(old(View()), id, Stmt.AbortConfirm(key))
      ensures View() == Exec(old(View()), id, Stmt.AbortConfirm(key))
    {
      if id !in sessions || sessions[id].status != Confirming || sessions[id].confirmKey != Some(key) { return NoRow; }
      if key in claims && (claims[key].subject.Some? || claims[key].response.Some?) { return NoRow; }
      Put(id, sessions[id].(status := Ready, confirmKey := None));
      out := Applied;
    }

    /** The row update, then one UPDATE per item by product id, all in one transaction. */
    method RequoteItems(id: SessionId, key: ClaimId, items: seq<Item>, subtotal: int, tax: int, discount: int)
      returns (out: Outcome)
      modifies this
      ensures out == OutcomeOf(old(View()), id, Stmt.RequoteItems(key, items, subtotal, tax, discount))
      ensures View() == Exec(old(View()), id, Stmt.RequoteItems(key, items, subtotal, tax, discount))
    {
      if id !in sessions || sessions[id].status != Confirming || sessions[id].confirmKey != Some(key) { return NoRow; }
      var r := sessions[id];
      var total := subtotal + r.quote.fee;
      if !Int64(total) { return DbError; }
      total := total + tax;
      if !Int64(total) || !Int64(total - discount) { return DbError; }
      var rows := r.quote.items;
      for n := 0 to |items|
        invariant View() == old(View())
        invariant rows == RepriceAll(r.quote.items, items[..n])
      {
        assert items[..n + 1][..n] == items[..n];
        rows := UpdateItemRows(rows, items[n]);
      }
      assert items[..|items|] == items;
      Put(id, r.(status := ShippingSet, confirmKey := None, quote := r.quote.(
        items := rows, subtotal := subtotal, tax := tax, discount := discount, total := total - discount)));
      out := Applied;
    }

    /** UPDATE checkout_session_items ... WHERE product_id: every row of the product. */
    static method UpdateItemRows(rows: seq<Item>, it: Item) returns (out: seq<Item>)
      ensures out == Reprice(rows, it)
    {
      out := rows;
      for i := 0 to |rows|
        invariant |out| == |rows|
        invariant forall j :: 0 <= j < i ==> out[j] == RepriceLine(rows[j], it)
        invariant forall j :: i <= j < |rows| ==> out[j] == rows[j]
      {
        if rows[i].productId == it.productId {
          out := out[i := rows[i].(unitPrice := it.unitPrice, priceChanged := it.priceChanged)];
        }
      }
    }

    method StripPromo(id: SessionId, key: ClaimId) returns (out: Outcome)
      modifies this
      ensures out == OutcomeOf(old(View()), id, Stmt.StripPromo(key))
      ensures View() == Exec(old(View()), id, Stmt.StripPromo(key))
    {
      if id !in sessions || sessions[id].status != Confirming || sessions[id].confirmKey != Some(key) { return NoRow; }
      var r := sessions[id];
      var payable := r.quote.subtotal + r.quote.fee;
      if !Int64(payable) || !Int64(payable + r.quote.tax) { return DbError; }
      Put(id, r.(status := ShippingSet, confirmKey := None,
        quote := r.quote.(promo := None, discount := 0, total := payable + r.quote.tax)));
      out := Applied;
    }

    /** A completed row stays bound, so that a later confirm under the same claim can recognise its own work. */
    method CompleteSession(id: SessionId, key: ClaimId, orderId: OrderId) returns (out: Outcome)
      modifies this
      ensures out == OutcomeOf(old(View()), id, Stmt.CompleteSession(key, orderId))
      ensures View() == Exec(old(View()), id, Stmt.CompleteSession(key, orderId))
    {
      if id !in sessions || sessions[id].status != Confirming || sessions[id].confirmKey != Some(key) { return NoRow; }
      Put(id, sessions[id].(status := Completed, orderId := Some(orderId)));
      out := Applied;
    }

    // ---- ExpireDue, statement by statement ----

    /** The timer's write: only a lapsed deadline expires a row. */
    method ExpireTimer(id: SessionId) returns (out: Outcome)
      modifies this
      ensures out == OutcomeOf(old(View()), id, Stmt.ExpireTimer)
      ensures View() == Exec(old(View()), id, Stmt.ExpireTimer)
    {
      if id !in sessions || sessions[id].status in {Completed, Cancelled, Expired, Confirming}
        || sessions[id].expiresAt > now {
        return NoRow;
      }
      Put(id, sessions[id].(status := Expired, expiredReason := Some(ByTimer)));
      out := Applied;
    }

    /** The parked-confirm recovery joins the row to its claim. */
    method ExpireParked(id: SessionId, takeover: Time) returns (out: Outcome)
      modifies this
      ensures out == OutcomeOf(old(View()), id, Stmt.ExpireParked(takeover))
      ensures View() == Exec(old(View()), id, Stmt.ExpireParked(takeover))
    {
      if id !in sessions || sessions[id].status != Confirming || sessions[id].expiresAt > now { return NoRow; }
      if sessions[id].confirmKey.None? || sessions[id].confirmKey.value !in claims { return NoRow; }
      var ik := claims[sessions[id].confirmKey.value];
      if ik.subject.Some? || ik.response.Some? || (ik.lock.Held? && ik.lock.at >= now - takeover) { return NoRow; }
      Put(id, sessions[id].(status := Expired, expiredReason := Some(ByTimer), confirmKey := None));
      out := Applied;
    }

    // ---- promo_codes and promo_redemptions ----

    /** One transaction: lock the code, insert first, then check, then count; any refusal rolls the insert back. */
    method RedeemPromo(code: string, user: UserId, id: SessionId, judged: Time) returns (err: PromoError)
      modifies this
      ensures View() == old(View()).(ledger := View().ledger)
      ensures match Redeem(old(View()).ledger, code, user, id, judged)
        case Redeemed(l) => err == NoError && View().ledger == l
        case NotFound => err == ErrPromoNotFound && View() == old(View())
        case PromoExpired => err == ErrPromoExpired && View() == old(View())
        case PromoExhausted => err == ErrPromoExhausted && View() == old(View())
      ensures err == ErrPromoExpired <==>
        code in old(codes) && (code, id) !in old(uses)
        && old(codes)[code].expiresAt.Some? && old(codes)[code].expiresAt.value < judged
      ensures err == ErrPromoExhausted ==>
        var p := old(codes)[code];
        || (p.maxRedemptions.Some? && p.redeemedCount >= p.maxRedemptions.value)
        || (p.perUserLimit.Some? && |UserUses(old(View()).ledger, code, user)| >= p.perUserLimit.value)
      ensures err == NoError ==> uses.Keys == old(uses).Keys + {(code, id)}
    {
      if code !in codes { return ErrPromoNotFound; }
      var promo, before := codes[code], uses;
      if (code, id) in uses { return NoError; }
      uses := uses[(code, id) := user];
      if promo.expiresAt.Some? && promo.expiresAt.value < judged {
        uses := before;
        return ErrPromoExpired;
      }
      if promo.maxRedemptions.Some? && promo.redeemedCount >= promo.maxRedemptions.value {
        uses := before;
        return ErrPromoExhausted;
      }
      if promo.perUserLimit.Some? {
        var mine := |set u | u in uses && u.0 == code && uses[u] == user|;
        assert mine == |UserUses(old(View()).ledger, code, user)| + 1 by {
          RecordUserUses(old(View()).ledger, code, user, id, code, user);
          assert (set u | u in uses && u.0 == code && uses[u] == user) ==
            UserUses(Record(old(View()).ledger, code, user, id), code, user);
        }
        if mine > promo.perUserLimit.value {
          uses := before;
          return ErrPromoExhausted;
        }
      }
      codes := codes[code := promo.(redeemedCount := promo.redeemedCount + 1)];
      err := NoError;
    }

    // ---- idempotency_keys ----

    /** BIGSERIAL never hands out an id twice. */
    method Claim(user: UserId, key: string, hash: SessionId, takeover: Time, owner: Actor) returns (answer: ClaimAnswer)
      requires nextClaim !in claims
      modifies this
      ensures answer == ClaimAnswerOf(old(View()), takeover, user, key, hash)
      ensures View() == ClaimDb(old(View()), takeover, user, key, hash, owner)
    {
      var found := FindClaim(claims, user, key);
      if found.None? {
        answer := Proceed(nextClaim, None);
        claims := claims[nextClaim := Store.Claim(user, key, hash, Held(now, owner), None, None, now)];
        nextClaim := nextClaim + 1;
        return;
      }
      var k := found.value;
      if claims[k].hash != hash { return Conflict; }
      if claims[k].response.Some? { return Replay(claims[k].response.value); }
      if claims[k].lock.Held? && claims[k].lock.at >= now - takeover { return LockedOut; }
      answer := Proceed(k, claims[k].subject);
      claims := claims[k := claims[k].(lock := Held(now, owner))];
    }

    method Checkpoint(k: ClaimId, subject: nat)
      modifies this
      ensures View() == CheckpointDb(old(View()), k, subject)
    {
      if k in claims { claims := claims[k := claims[k].(subject := Some(subject))]; }
    }

    method Release(k: ClaimId)
      modifies this
      ensures View() == ReleaseDb(old(View()), k)
    {
      if k in claims { claims := claims[k := claims[k].(lock := Free)]; }
    }

    method Finish(k: ClaimId, body: Session)
      modifies this
      ensures View() == FinishDb(old(View()), k, body)
    {
      if k in claims { claims := claims[k := claims[k].(response := Some(body))]; }
    }

    /** DELETE FROM idempotency_keys: finished rows past their retention, and no others. */
    method ReapFinished(ttl: Time) returns (reaped: nat)
      modifies this
      ensures View() == ReapDb(old(View()), ttl)
      ensures reaped == |old(claims).Keys - claims.Keys|
    {
      var due := set k | k in claims && claims[k].response.Some? && claims[k].createdAt < now - ttl;
      ghost var all := claims;
      claims := claims - due;
      reaped := |due|;
      assert all.Keys - claims.Keys == due;
    }
  }
}
