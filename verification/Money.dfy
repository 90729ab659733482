/** Quote arithmetic on int64 minor units: shipping, flat tax, discounts, and the order-side bounds. */
module Money {
  import opened Base
  import opened Domain

  datatype Failed = Upstream | InvalidQuote | PromoInvalid

  /** base times bps / 10000, refusing a base whose product could wrap. */
  function FlatTax(base: int, bps: int): Option<int> {
    if base < 0 || base > MAX64 / 10_001 then None else Some(Quot(Wrap(base * bps), 10_000))
  }

  lemma {:induction false} FlatTaxExact(base: int, bps: int)
    requires 0 <= bps <= 10_000
    ensures FlatTax(base, bps).Some? <==> 0 <= base <= MAX64 / 10_001
    ensures FlatTax(base, bps).Some? ==>
      var tax := FlatTax(base, bps).value;
      0 <= tax <= base && tax * 10_000 <= base * bps < (tax + 1) * 10_000
  {
    if 0 <= base <= MAX64 / 10_001 {
      assert 0 <= base * bps <= base * 10_000 by {
        Monotone(base, 0, bps);
        Monotone(base, bps, 10_000);
      }
    }
  }

  lemma Monotone(a: int, x: int, y: int)
    requires 0 <= a && x <= y
    ensures a * x <= a * y
  {
  }

  /** What shipping's GetQuote answered. */
  datatype QuoteAnswer = Quoted(fee: I64) | UnknownMethod | QuoteDown

  /** The quoted fee, and its tax on a base added in Go int64 arithmetic. */
  function PriceShipping(answer: QuoteAnswer, rate: Option<int>, subtotal: int): Result<(int, int), Failed> {
    match answer
    case UnknownMethod => Failure(InvalidQuote)
    case QuoteDown => Failure(Upstream)
    case Quoted(fee) =>
      if fee < 0 || rate.None? then Failure(Upstream)
      else
        match FlatTax(Wrap(subtotal + fee), rate.value)
        case None => Failure(Upstream)
        case Some(tax) => Success((fee, tax))
  }

  /** An accepted quote is exact: no sum wrapped, the tax is the true floor, and the payable amount fits. */
  lemma {:induction false} PriceShippingExact(answer: QuoteAnswer, rate: Option<int>, subtotal: int)
    requires Int64(subtotal)
    requires rate.Some? ==> 0 <= rate.value <= 10_000
    ensures PriceShipping(answer, rate, subtotal).Success? <==>
      answer.Quoted? && rate.Some? && answer.fee >= 0 && 0 <= subtotal + answer.fee <= MAX64 / 10_001
    ensures PriceShipping(answer, rate, subtotal).Failure? ==>
      PriceShipping(answer, rate, subtotal).error == if answer.UnknownMethod? then InvalidQuote else Upstream
    ensures PriceShipping(answer, rate, subtotal).Success? ==>
      var (fee, tax) := PriceShipping(answer, rate, subtotal).value;
      && fee == answer.fee && 0 <= tax <= subtotal + fee
      && tax == (subtotal + fee) * rate.value / 10_000
      && Int64(subtotal + fee) && Int64(subtotal + fee + tax)
  {
    if answer.Quoted? && rate.Some? && answer.fee >= 0 {
      FlatTaxExact(Wrap(subtotal + answer.fee), rate.value);
      if subtotal + answer.fee > MAX64 {
        WrapShift(subtotal + answer.fee - SPAN64, 1);
        assert Wrap(subtotal + answer.fee) == subtotal + answer.fee - SPAN64 < 0;
      }
    }
  }

  datatype PromoKind = Percent | Fixed

  /** A promo_codes row. A missing limit means unlimited. */
  datatype Promo = Promo(
    kind: PromoKind, value: int, expiresAt: Option<Time>, maxRedemptions: Option<int>,
    redeemedCount: int, perUserLimit: Option<int>)

  /** The schema's CHECK constraints on a code. */
  predicate PromoSchema(p: Promo) {
    p.value > 0 && Int64(p.value) && (p.kind.Percent? ==> p.value <= 100) && p.redeemedCount >= 0
  }

  /** A code's worth on these components, cut to what is left to pay. */
  function DiscountFor(p: Promo, subtotal: int, fee: int, tax: int): Result<int, Failed> {
    var ceiling := Wrap(Wrap(subtotal + fee) + tax);
    match p.kind
    case Fixed => Success(if p.value > ceiling then ceiling else p.value)
    case Percent =>
      if p.value < 1 || p.value > 100 then Failure(PromoInvalid)
      else
        match FlatTax(subtotal, p.value * 100)
        case None => Failure(Upstream)
        case Some(d) => Success(if d > ceiling then ceiling else d)
  }

  /**
   * A code takes off its worth or everything payable, whichever is less, so a discount is negative exactly when the
   * payable amount is. It fails exactly for a percentage of a subtotal that is negative or too large to multiply.
   */
  lemma {:induction false} DiscountClamped(p: Promo, subtotal: int, fee: int, tax: int)
    requires PromoSchema(p) && Int64(subtotal + fee) && Int64(subtotal + fee + tax)
    ensures DiscountFor(p, subtotal, fee, tax).Success? <==> p.kind.Fixed? || 0 <= subtotal <= MAX64 / 10_001
    ensures DiscountFor(p, subtotal, fee, tax).Success? ==>
      var d := DiscountFor(p, subtotal, fee, tax).value;
      var worth := if p.kind.Fixed? then p.value else subtotal * p.value / 100;
      && d == (if worth <= subtotal + fee + tax then worth else subtotal + fee + tax)
      && (0 <= d <==> 0 <= subtotal + fee + tax)
  {
    if p.kind.Percent? && 0 <= subtotal <= MAX64 / 10_001 {
      FlatTaxExact(subtotal, p.value * 100);
      var d := FlatTax(subtotal, p.value * 100).value;
      PercentIsBps(subtotal, p.value, d);
    }
  }

  lemma PercentIsBps(subtotal: int, value: int, d: int)
    requires 0 <= subtotal && 1 <= value <= 100
    requires d * 10_000 <= subtotal * (value * 100) < (d + 1) * 10_000
    ensures d == subtotal * value / 100
  {
    assert subtotal * (value * 100) == (subtotal * value) * 100;
  }

  // ---- The order-side bounds enforced before any claim ----

  const MAX_ORDER_ITEMS := 200
  const MAX_QUANTITY := 10_000
  const MAX_NAME_RUNES := 255
  const MAX_UNIT_PRICE := 1_000_000_000_000

  function Digits(s: string): Option<nat> {
    if s == [] then Some(0)
    else if !('0' <= s[|s| - 1] <= '9') then None
    else
      match Digits(s[..|s| - 1])
      case None => None
      case Some(n) => Some(10 * n + (s[|s| - 1] as int - '0' as int))
  }

  /** A decimal string Go's ParseInt reads as a positive 32-bit number. */
  predicate IsInt32Id(s: string) {
    var body := if s != [] && s[0] == '+' then s[1..] else s;
    body != [] && Digits(body).Some? && 0 < Digits(body).value <= MAX32
  }

  /** The decimal numeral of a positive number, without leading zeros. */
  function Numeral(n: nat): (s: string)
    ensures (n == 0 <==> s == []) && (s != [] ==> '0' <= s[0] <= '9')
  {
    if n == 0 then [] else Numeral(n / 10) + [('0' as int + n % 10) as char]
  }

  /** Reading a numeral back gives its number, so the ids that pass are those of the positive 32-bit numbers. */
  lemma {:induction false} NumeralIsInt32Id(n: nat)
    ensures Digits(Numeral(n)) == Some(n)
    ensures IsInt32Id(Numeral(n)) <==> 1 <= n <= 0x7fff_ffff
    ensures IsInt32Id("+" + Numeral(n)) <==> 1 <= n <= 0x7fff_ffff
  {
    assert ("+" + Numeral(n))[1..] == Numeral(n);
    if n > 0 {
      NumeralIsInt32Id(n / 10);
      assert Numeral(n)[..|Numeral(n)| - 1] == Numeral(n / 10);
    }
  }

  /** Nothing but digits, after one optional sign, reads as a number at all. */
  lemma {:induction false} OnlyDigitsCount(s: string)
    ensures Digits(s).Some? <==> forall i :: 0 <= i < |s| ==> '0' <= s[i] <= '9'
    ensures (forall i :: 0 <= i < |s| ==> s[i] == '0') ==> Digits(s) == Some(0) && !IsInt32Id(s)
  {
    if s != [] {
      OnlyDigitsCount(s[..|s| - 1]);
      assert forall i :: 0 <= i < |s| - 1 ==> s[..|s| - 1][i] == s[i];
    }
  }

  predicate TokenChar(c: char) {
    'A' <= c <= 'Z' || 'a' <= c <= 'z' || c == '_' || '0' <= c <= '9'
  }

  function DigitCount(s: string): nat {
    if s == [] then 0 else (if '0' <= s[0] <= '9' then 1 else 0) + DigitCount(s[1..])
  }

  /** A short opaque tok_ reference with too few digits to hide a card number. */
  predicate ValidPaymentToken(s: string) {
    4 <= |s| <= 64 && s[..4] == "tok_" && (forall c :: c in s ==> TokenChar(c)) && DigitCount(s) < 12
  }

  lemma {:induction false} DigitsConcat(a: string, b: string)
    ensures DigitCount(a + b) == DigitCount(a) + DigitCount(b)
  {
    if a == [] {
      assert a + b == b;
    } else {
      DigitsConcat(a[1..], b);
      assert (a + b)[1..] == a[1..] + b;
    }
  }

  lemma {:induction false} DigitPlaces(s: string, places: set<int>)
    requires forall i :: i in places <==> 0 <= i < |s| && '0' <= s[i] <= '9'
    ensures DigitCount(s) == |places|
  {
    if s == [] {
      assert forall i :: i !in places;
      assert places == {};
    } else {
      var n := |s| - 1;
      DigitPlaces(s[..n], places - {n});
      DigitsConcat(s[..n], [s[n]]);
      assert s == s[..n] + [s[n]];
      assert n in places ==> places == places - {n} + {n};
    }
  }

  /** What passes as a payment token: nothing with twelve digits in it, wherever they stand. */
  lemma {:induction false} PaymentTokenIs(s: string, places: set<int>)
    requires forall i :: i in places <==> 0 <= i < |s| && '0' <= s[i] <= '9'
    ensures ValidPaymentToken(s) <==>
      && |s| <= 64 && "tok_" <= s && |places| <= 11
      && forall i :: 0 <= i < |s| ==>
           'a' <= s[i] <= 'z' || 'A' <= s[i] <= 'Z' || '0' <= s[i] <= '9' || s[i] == '_'
  {
    DigitPlaces(s, places);
    if |s| >= 4 && s[..4] == "tok_" { assert s == "tok_" + s[4..]; }
    if "tok_" <= s { assert s[..4] == "tok_"; }
    assert forall i :: 0 <= i < |s| ==> s[i] in s;
  }

  predicate LineBounds(it: Item) {
    && IsInt32Id(it.productId) && 1 <= it.quantity <= MAX_QUANTITY
    && it.nameRunes <= MAX_NAME_RUNES && 0 <= it.unitPrice <= MAX_UNIT_PRICE
  }

  predicate OrderBounds(q: Quote) {
    && 0 < |q.items| <= MAX_ORDER_ITEMS
    && (forall i :: 0 <= i < |q.items| ==> LineBounds(q.items[i]))
    && (q.token.Some? ==> ValidPaymentToken(q.token.value))
    && 0 <= q.discount <= Wrap(Wrap(q.subtotal + q.fee) + q.tax)
  }

  method ValidateOrderBounds(q: Quote) returns (ok: bool)
    ensures ok <==> OrderBounds(q)
    ensures ok <==>
      && 1 <= |q.items| <= 200 && (q.token.Some? ==> ValidPaymentToken(q.token.value))
      && 0 <= q.discount <= Wrap(Wrap(q.subtotal + q.fee) + q.tax)
      && forall i :: 0 <= i < |q.items| ==>
           && IsInt32Id(q.items[i].productId) && 1 <= q.items[i].quantity <= 10_000
           && q.items[i].nameRunes <= 255 && 0 <= q.items[i].unitPrice <= 1_000_000_000_000
  {
    if |q.items| == 0 || |q.items| > MAX_ORDER_ITEMS {
      return false;
    }
    for i := 0 to |q.items|
      invariant forall j :: 0 <= j < i ==> LineBounds(q.items[j])
    {
      var it := q.items[i];
      if !IsInt32Id(it.productId) { return false; }
      if it.quantity < 1 || it.quantity > MAX_QUANTITY { return false; }
      if it.nameRunes > MAX_NAME_RUNES { return false; }
      if it.unitPrice < 0 || it.unitPrice > MAX_UNIT_PRICE { return false; }
    }
    if q.token.Some? && !ValidPaymentToken(q.token.value) {
      return false;
    }
    ok := 0 <= q.discount <= Wrap(Wrap(q.subtotal + q.fee) + q.tax);
  }

  /** Within the bounds no product, no partial sum and no taxed subtotal can leave int64. */
  lemma {:induction false} BoundedSum(items: seq<Item>)
    requires forall i :: 0 <= i < |items| ==> LineBounds(items[i])
    ensures 0 <= Sum(items) <= |items| * MAX_QUANTITY * MAX_UNIT_PRICE
    ensures |items| <= MAX_ORDER_ITEMS ==> Wrap(Sum(items)) == Sum(items)
  {
    if items != [] {
      var it := items[|items| - 1];
      BoundedSum(items[..|items| - 1]);
      Monotone(it.unitPrice, 0, it.quantity);
      Monotone(it.unitPrice, it.quantity, MAX_QUANTITY);
      Monotone(MAX_QUANTITY, it.unitPrice, MAX_UNIT_PRICE);
    }
  }
}
