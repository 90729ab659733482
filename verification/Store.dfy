/** The checkout database: its tables and what every SQL statement of the repository does to them. */
module Store {
  import opened Base
  import opened Domain
  import opened Money
  import opened Ledger

  type Actor = nat // a confirm execution

  /** locked_at. `owner` is a history value: no statement reads it. A released lock reads as stale. */
  datatype Lock = Free | Held(at: Time, owner: Actor)

  /** An idempotency_keys row; the request hash is the session id, the response body a session value. */
  datatype Claim = Claim(
    user: UserId, key: string, hash: SessionId, lock: Lock, subject: Option<nat>,
    response: Option<Session>, createdAt: Time)

  datatype Db = Db(
    sessions: map<SessionId, Session>, claims: map<ClaimId, Claim>, nextClaim: ClaimId,
    ledger: PromoLedger, rates: map<string, int>, tick: nat, now: Time)

  predicate Stale(lock: Lock, takeover: Time, now: Time) {
    lock.Free? || lock.at < now - takeover
  }

  // ---- UPDATE checkout_sessions ----

  /** One constructor per conditional UPDATE of a session row. */
  datatype Stmt =
    | UpdateStatus(from: Status, to: Status)
    | SetAddress(from: Status, addr: Address, discount: int)
    | SetShipping(from: Status, asOf: nat, shipMethod: string, fee: int, tax: int, discount: int)
    | SetPaymentToken(from: Status, token: string)
    | SetPromo(from: Status, code: Option<string>, discount: int)
    | Touch(expiresAt: Time)
    | MarkExpired
    | ExpireTimer
    | ExpireParked(takeover: Time)
    | BeginConfirm(key: ClaimId)
    | AbortConfirm(key: ClaimId)
    | RequoteItems(key: ClaimId, items: seq<Item>, subtotal: int, tax: int, discount: int)
    | StripPromo(key: ClaimId)
    | CompleteSession(key: ClaimId, orderId: OrderId)

  predicate BoundConfirming(r: Session, k: ClaimId) {
    r.status == Confirming && r.confirmKey == Some(k)
  }

  /** The claim carries no attempt marker and no cached answer (or does not exist). */
  predicate Unattempted(db: Db, k: ClaimId) {
    k in db.claims ==> db.claims[k].subject.None? && db.claims[k].response.None?
  }

  /** The claim proves its confirm dead before any order: present, unattempted, lock stale. */
  predicate ProvablyDead(db: Db, k: ClaimId, takeover: Time) {
    k in db.claims && Unattempted(db, k) && Stale(db.claims[k].lock, takeover, db.now)
  }

  /** The WHERE clause. */
  predicate Matches(db: Db, r: Session, st: Stmt) {
    match st
    case UpdateStatus(from, _) => r.status == from
    case SetAddress(from, _, _) => r.status == from
    case SetShipping(from, asOf, _, _, _, _) => r.status == from && r.version == asOf
    case SetPaymentToken(from, _) => r.status == from
    case SetPromo(from, _, _) => r.status == from
    case Touch(_) => !Terminal(r.status)
    case MarkExpired => !Terminal(r.status) && r.status != Confirming
    case ExpireTimer => !Terminal(r.status) && r.status != Confirming && r.expiresAt <= db.now
    case ExpireParked(takeover) =>
      r.status == Confirming && r.expiresAt <= db.now && r.confirmKey.Some?
        && ProvablyDead(db, r.confirmKey.value, takeover)
    case BeginConfirm(k) => r.status == Ready && (r.confirmKey.None? || r.confirmKey == Some(k))
    case AbortConfirm(k) => BoundConfirming(r, k) && Unattempted(db, k)
    case RequoteItems(k, _, _, _, _) => BoundConfirming(r, k)
    case StripPromo(k) => BoundConfirming(r, k)
    case CompleteSession(k, _) => BoundConfirming(r, k)
  }

  function RepriceLine(row: Item, it: Item): Item {
    if row.productId == it.productId then row.(unitPrice := it.unitPrice, priceChanged := it.priceChanged) else row
  }

  /** UPDATE ... WHERE product_id: every row of the product takes the price, in statement order. */
  function Reprice(rows: seq<Item>, it: Item): (out: seq<Item>)
    ensures |out| == |rows|
    ensures forall i :: 0 <= i < |rows| ==> out[i] == RepriceLine(rows[i], it)
  {
    seq(|rows|, i requires 0 <= i < |rows| => RepriceLine(rows[i], it))
  }

  function RepriceAll(rows: seq<Item>, items: seq<Item>): (out: seq<Item>)
    ensures |out| == |rows|
  {
    if items == [] then rows else Reprice(RepriceAll(rows, items[..|items| - 1]), items[|items| - 1])
  }

  /** The SET clause, before updated_at. */
  function Assigned(r: Session, st: Stmt): Session {
    var q := r.quote;
    match st
    case UpdateStatus(_, to) => r.(status := to)
    case SetAddress(_, addr, d) =>
      r.(status := AddressSet, quote := q.(address := Some(addr), shipMethod := None, fee := 0, tax := 0,
        discount := d, total := q.subtotal - d))
    case SetShipping(_, _, m, fee, tax, d) =>
      r.(status := ShippingSet, quote := q.(shipMethod := Some(m), fee := fee, tax := tax, discount := d,
        total := q.subtotal + fee + tax - d))
    case SetPaymentToken(_, token) => r.(status := Ready, quote := q.(token := Some(token)))
    case SetPromo(_, code, d) =>
      r.(quote := q.(promo := code, discount := d, total := q.subtotal + q.fee + q.tax - d))
    case Touch(at) => r.(expiresAt := at)
    case MarkExpired => r.(status := Expired, expiredReason := Some(ByLazy))
    case ExpireTimer => r.(status := Expired, expiredReason := Some(ByTimer))
    case ExpireParked(_) => r.(status := Expired, expiredReason := Some(ByTimer), confirmKey := None)
    case BeginConfirm(k) => r.(status := Confirming, confirmKey := Some(k))
    case AbortConfirm(_) => r.(status := Ready, confirmKey := None)
    case RequoteItems(_, items, subtotal, tax, d) =>
      r.(status := ShippingSet, confirmKey := None,
         quote := q.(items := RepriceAll(q.items, items), subtotal := subtotal, tax := tax, discount := d,
           total := subtotal + q.fee + tax - d))
    case StripPromo(_) =>
      r.(status := ShippingSet, confirmKey := None,
         quote := q.(promo := None, discount := 0, total := q.subtotal + q.fee + q.tax))
    case CompleteSession(_, orderId) => r.(status := Completed, orderId := Some(orderId))
  }

  /** BIGINT sums are checked by the database: an overflowing one fails the statement. */
  predicate Fits(r: Session, st: Stmt) {
    var q := r.quote;
    match st
    case SetAddress(_, _, d) => Int64(q.subtotal - d)
    case SetShipping(_, _, _, fee, tax, d) =>
      Int64(q.subtotal + fee) && Int64(q.subtotal + fee + tax) && Int64(q.subtotal + fee + tax - d)
    case SetPromo(_, _, d) =>
      Int64(q.subtotal + q.fee) && Int64(q.subtotal + q.fee + q.tax) && Int64(q.subtotal + q.fee + q.tax - d)
    case RequoteItems(_, _, subtotal, tax, d) =>
      Int64(subtotal + q.fee) && Int64(subtotal + q.fee + tax) && Int64(subtotal + q.fee + tax - d)
    case StripPromo(_) => Int64(q.subtotal + q.fee) && Int64(q.subtotal + q.fee + q.tax)
    case _ => true
  }

  datatype Outcome = Applied | NoRow | DbError

  function OutcomeOf(db: Db, sid: SessionId, st: Stmt): Outcome {
    if sid !in db.sessions || !Matches(db, db.sessions[sid], st) then NoRow
    else if !Fits(db.sessions[sid], st) then DbError
    else Applied
  }

  /** The database after the statement; every applied write stamps a fresh version. */
  function Exec(db: Db, sid: SessionId, st: Stmt): Db {
    if OutcomeOf(db, sid, st) != Applied then db
    else db.(sessions := db.sessions[sid := Assigned(db.sessions[sid], st).(version := db.tick + 1)],
      tick := db.tick + 1)
  }

  /** `items` are `rows` with prices and flags rewritten in place. */
  predicate SameLines(rows: seq<Item>, items: seq<Item>) {
    |items| == |rows| && forall i :: 0 <= i < |rows| ==> RepriceLine(rows[i], items[i]) == items[i]
  }

  lemma {:induction false} RepriceAt(rows: seq<Item>, items: seq<Item>, n: nat, i: nat)
    requires SameLines(rows, items) && DistinctProducts(rows) && n <= |rows| && i < |rows|
    ensures RepriceAll(rows, items[..n])[i] == if i < n then items[i] else rows[i]
  {
    if n > 0 {
      RepriceAt(rows, items, n - 1, i);
      assert items[..n][..n - 1] == items[..n - 1];
      assert RepriceLine(rows[n - 1], items[n - 1]) == items[n - 1];
      assert RepriceLine(rows[i], items[i]) == items[i];
    }
  }

  /** Requoting by product id is requoting line by line when no product repeats. */
  lemma {:induction false} RepriceDistinct(rows: seq<Item>, items: seq<Item>)
    requires SameLines(rows, items) && DistinctProducts(rows)
    ensures RepriceAll(rows, items) == items
  {
    assert items[..|items|] == items;
    forall i | 0 <= i < |rows| ensures RepriceAll(rows, items)[i] == items[i] {
      RepriceAt(rows, items, |items|, i);
    }
  }

  // ---- idempotency_keys ----

  predicate Named(c: Claim, user: UserId, key: string) { c.user == user && c.key == key }

  ghost predicate UniqueNames(claims: map<ClaimId, Claim>) {
    forall a, b :: a in claims && b in claims && Named(claims[a], claims[b].user, claims[b].key) ==> a == b
  }

  /** The first row of the name; the UNIQUE (user_id, idem_key) index makes it the only one. */
  predicate FirstNamed(claims: map<ClaimId, Claim>, user: UserId, key: string, k: ClaimId) {
    k in claims && Named(claims[k], user, key) && forall j :: j in claims && Named(claims[j], user, key) ==> k <= j
  }

  lemma {:induction false} FirstExists(claims: map<ClaimId, Claim>, user: UserId, key: string, k: ClaimId)
    requires k in claims && Named(claims[k], user, key)
    ensures exists j :: FirstNamed(claims, user, key, j)
  {
    if j :| j in claims && Named(claims[j], user, key) && j < k {
      FirstExists(claims, user, key, j);
    } else {
      assert FirstNamed(claims, user, key, k);
    }
  }

  /** The row the index finds. */
  function FindClaim(claims: map<ClaimId, Claim>, user: UserId, key: string): (r: Option<ClaimId>)
    ensures r.Some? ==> r.value in claims && Named(claims[r.value], user, key)
    ensures r.None? ==> forall k :: k in claims ==> !Named(claims[k], user, key)
  {
    var named := set k | k in claims && Named(claims[k], user, key);
    assert forall k :: k in claims && Named(claims[k], user, key) ==> k in named;
    if named == {} then None
    else
      ghost var any :| any in named;
      FirstExists(claims, user, key, any);
      Some(var k :| k in named && FirstNamed(claims, user, key, k); k)
  }

  datatype ClaimAnswer = Conflict | LockedOut | Replay(body: Session) | Proceed(id: ClaimId, subject: Option<nat>)

  /** Claim: conflict, replay, refusal, or a (re)taken lock; a new name is inserted locked. */
  function ClaimAnswerOf(db: Db, takeover: Time, user: UserId, key: string, hash: SessionId): ClaimAnswer {
    match FindClaim(db.claims, user, key)
    case None => Proceed(db.nextClaim, None)
    case Some(k) =>
      var c := db.claims[k];
      if c.hash != hash then Conflict
      else if c.response.Some? then Replay(c.response.value)
      else if !Stale(c.lock, takeover, db.now) then LockedOut
      else Proceed(k, c.subject)
  }

  function ClaimDb(db: Db, takeover: Time, user: UserId, key: string, hash: SessionId, owner: Actor): Db {
    match ClaimAnswerOf(db, takeover, user, key, hash)
    case Proceed(k, _) =>
      if k in db.claims then db.(claims := db.claims[k := db.claims[k].(lock := Held(db.now, owner))])
      else db.(claims := db.claims[k := Claim(user, key, hash, Held(db.now, owner), None, None, db.now)],
        nextClaim := k + 1)
    case _ => db
  }

  function CheckpointDb(db: Db, k: ClaimId, subject: nat): Db {
    if k in db.claims then db.(claims := db.claims[k := db.claims[k].(subject := Some(subject))]) else db
  }

  function ReleaseDb(db: Db, k: ClaimId): Db {
    if k in db.claims then db.(claims := db.claims[k := db.claims[k].(lock := Free)]) else db
  }

  function FinishDb(db: Db, k: ClaimId, body: Session): Db {
    if k in db.claims then db.(claims := db.claims[k := db.claims[k].(response := Some(body))]) else db
  }

  /** The reaper deletes finished rows older than the retention window, and no others. */
  function ReapDb(db: Db, ttl: Time): Db {
    db.(claims := map k | k in db.claims
      && !(db.claims[k].response.Some? && db.claims[k].createdAt < db.now - ttl) :: db.claims[k])
  }

  // ---- tax_rules ----

  const DEFAULT_REGION := "DEFAULT"

  /** The exact region wins over the DEFAULT row. Regions are upper-case already. */
  function RateFor(rates: map<string, int>, region: string): Option<int> {
    if region in rates then Some(rates[region])
    else if DEFAULT_REGION in rates then Some(rates[DEFAULT_REGION])
    else None
  }

  predicate RatesOk(rates: map<string, int>) { forall r :: r in rates ==> 0 <= rates[r] <= 10_000 }
}
