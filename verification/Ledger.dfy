/** The promo redemption ledger and what one redemption does to it, as a single atomic act. */
module Ledger {
  import opened Base
  import opened Domain
  import opened Money

  type Use = (string, SessionId) // UNIQUE (code, session_id)

  /** promo_codes and the committed rows of promo_redemptions. */
  datatype PromoLedger = PromoLedger(codes: map<string, Promo>, uses: map<Use, UserId>)

  function UsesOf(l: PromoLedger, code: string): set<Use> { set u | u in l.uses && u.0 == code }

  function UserUses(l: PromoLedger, code: string, user: UserId): set<Use> {
    set u | u in l.uses && u.0 == code && l.uses[u] == user
  }

  /** A cap is respected once anything was redeemed under it. */
  predicate Within(count: int, cap: Option<int>) { cap.None? || count <= cap.value || count == 0 }

  ghost predicate LedgerOk(l: PromoLedger) {
    && (forall u :: u in l.uses ==> u.0 in l.codes)
    && (forall c :: c in l.codes ==>
         && PromoSchema(l.codes[c])
         && l.codes[c].redeemedCount == |UsesOf(l, c)|
         && Within(l.codes[c].redeemedCount, l.codes[c].maxRedemptions))
    && (forall c, user :: c in l.codes ==> Within(|UserUses(l, c, user)|, l.codes[c].perUserLimit))
  }

  datatype Redemption = Redeemed(ledger: PromoLedger) | NotFound | PromoExpired | PromoExhausted

  function Record(l: PromoLedger, code: string, user: UserId, sid: SessionId): PromoLedger
    requires code in l.codes
  {
    var p := l.codes[code];
    PromoLedger(l.codes[code := p.(redeemedCount := p.redeemedCount + 1)], l.uses[(code, sid) := user])
  }

  predicate PastExpiry(p: Promo, now: Time) { p.expiresAt.Some? && p.expiresAt.value < now }

  predicate CodeSpent(p: Promo) { p.maxRedemptions.Some? && p.redeemedCount >= p.maxRedemptions.value }

  /** Counts the row the redemption itself is about to add. */
  predicate UserSpent(l: PromoLedger, code: string, user: UserId)
    requires code in l.codes
  {
    l.codes[code].perUserLimit.Some? && |UserUses(l, code, user)| + 1 > l.codes[code].perUserLimit.value
  }

  function Redeem(l: PromoLedger, code: string, user: UserId, sid: SessionId, now: Time): Redemption {
    if code !in l.codes then NotFound
    else if (code, sid) in l.uses then Redeemed(l)
    else if PastExpiry(l.codes[code], now) then PromoExpired
    else if CodeSpent(l.codes[code]) || UserSpent(l, code, user) then PromoExhausted
    else Redeemed(Record(l, code, user, sid))
  }

  /**
   * A first redemption is refused as expired exactly when the code's deadline lies before the instant of judgement, as
   * exhausted exactly when the code or the user has no use left, and otherwise adds one use and one count.
   */
  lemma {:induction false} RedeemIs(l: PromoLedger, code: string, user: UserId, sid: SessionId, now: Time,
      mine: set<Use>)
    requires forall u :: u in mine <==> u in l.uses && u.0 == code && l.uses[u] == user
    ensures
      var r := Redeem(l, code, user, sid, now);
      && (r == NotFound <==> code !in l.codes)
      && (code in l.codes && (code, sid) in l.uses ==> r == Redeemed(l))
      && (code in l.codes && (code, sid) !in l.uses ==>
           var p := l.codes[code];
           if p.expiresAt.Some? && p.expiresAt.value < now then r == PromoExpired
           else if (p.maxRedemptions.Some? && p.redeemedCount >= p.maxRedemptions.value)
             || (p.perUserLimit.Some? && |mine| >= p.perUserLimit.value) then r == PromoExhausted
           else r == Redeemed(PromoLedger(l.codes[code := p.(redeemedCount := p.redeemedCount + 1)],
               l.uses[(code, sid) := user])))
  {
    assert mine == UserUses(l, code, user);
  }

  lemma RedeemKeepsCodes(l: PromoLedger, code: string, user: UserId, sid: SessionId, now: Time)
    ensures Redeem(l, code, user, sid, now).Redeemed? ==>
      var l' := Redeem(l, code, user, sid, now).ledger;
      l'.codes.Keys == l.codes.Keys && l.uses.Keys + {(code, sid)} == l'.uses.Keys
  {
  }

  lemma RecordUses(l: PromoLedger, code: string, user: UserId, sid: SessionId, c: string)
    requires code in l.codes && (code, sid) !in l.uses
    ensures |UsesOf(Record(l, code, user, sid), c)| == |UsesOf(l, c)| + (if c == code then 1 else 0)
  {
    var l' := Record(l, code, user, sid);
    assert UsesOf(l', c) == if c == code then UsesOf(l, c) + {(code, sid)} else UsesOf(l, c);
  }

  lemma RecordMine(l: PromoLedger, code: string, user: UserId, sid: SessionId)
    requires code in l.codes && (code, sid) !in l.uses
    ensures |UserUses(Record(l, code, user, sid), code, user)| == |UserUses(l, code, user)| + 1
  {
    var before := UserUses(l, code, user);
    assert (code, sid) !in before;
    assert UserUses(Record(l, code, user, sid), code, user) == before + {(code, sid)};
  }

  lemma RecordUserUses(l: PromoLedger, code: string, user: UserId, sid: SessionId, c: string, who: UserId)
    requires code in l.codes && (code, sid) !in l.uses
    ensures |UserUses(Record(l, code, user, sid), c, who)| ==
      |UserUses(l, c, who)| + (if c == code && who == user then 1 else 0)
  {
    if c == code && who == user {
      RecordMine(l, code, user, sid);
    } else {
      assert UserUses(Record(l, code, user, sid), c, who) == UserUses(l, c, who);
    }
  }

  /** The count is the number of committed redemptions and no cap is ever passed. */
  lemma {:induction false} RedeemKeepsLedger(l: PromoLedger, code: string, user: UserId, sid: SessionId, now: Time)
    requires LedgerOk(l)
    ensures Redeem(l, code, user, sid, now).Redeemed? ==>
      var l' := Redeem(l, code, user, sid, now).ledger;
      LedgerOk(l') && l'.uses.Keys == l.uses.Keys + {(code, sid)} && forall u :: u in l.uses ==>
        u in l'.uses && l'.uses[u] == l.uses[u]
  {
    var r := Redeem(l, code, user, sid, now);
    if r.Redeemed? && (code, sid) !in l.uses {
      var l' := Record(l, code, user, sid);
      forall c | c in l'.codes
        ensures PromoSchema(l'.codes[c]) && l'.codes[c].redeemedCount == |UsesOf(l', c)|
        ensures Within(l'.codes[c].redeemedCount, l'.codes[c].maxRedemptions)
      {
        RecordUses(l, code, user, sid, c);
      }
      forall c, who | c in l'.codes ensures Within(|UserUses(l', c, who)|, l'.codes[c].perUserLimit) {
        RecordUserUses(l, code, user, sid, c, who);
        assert Within(|UserUses(l, c, who)|, l.codes[c].perUserLimit);
      }
    }
  }

  /** A session that redeemed once redeems again without a second count, whatever expired or ran out since. */
  lemma {:induction false} RedeemAgain(l: PromoLedger, code: string, user: UserId, sid: SessionId, now: Time,
      user': UserId, later: Time)
    requires LedgerOk(l) && Redeem(l, code, user, sid, now).Redeemed?
    ensures var l' := Redeem(l, code, user, sid, now).ledger;
      Redeem(l', code, user', sid, later) == Redeemed(l')
  {
    RedeemKeepsLedger(l, code, user, sid, now);
  }
}
