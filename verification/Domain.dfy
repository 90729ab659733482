/** The checkout session aggregate and its state machine vocabulary. */
module Domain {
  import opened Base

  type SessionId = string
  type UserId = string
  type Time = int // milliseconds on the one clock everybody reads
  type ClaimId = nat
  type OrderId = nat // order ids start at 1

  datatype Status = Open | AddressSet | ShippingSet | Ready | Confirming | Completed | Cancelled | Expired

  predicate Terminal(s: Status) { s == Completed || s == Cancelled || s == Expired }

  /** The checkout FSM: terminal states have no outgoing edge. */
  predicate CanTransition(from: Status, to: Status) {
    match from
    case Open => to in {AddressSet, Cancelled, Expired}
    case AddressSet => to in {AddressSet, ShippingSet, Cancelled, Expired}
    case ShippingSet => to in {AddressSet, ShippingSet, Ready, Cancelled, Expired}
    case Ready => to in {AddressSet, ShippingSet, Ready, Confirming, Cancelled, Expired}
    case Confirming => to in {Completed, ShippingSet, Ready}
    case _ => false
  }

  /** The same table read backwards: where each state can be entered from. */
  lemma {:induction false} EnteredFrom(from: Status, to: Status)
    ensures CanTransition(from, to) <==>
      || (to == AddressSet && from in {Open, AddressSet, ShippingSet, Ready})
      || (to == ShippingSet && from in {AddressSet, ShippingSet, Ready, Confirming})
      || (to == Ready && from in {ShippingSet, Ready, Confirming})
      || (to == Confirming && from == Ready)
      || (to == Completed && from == Confirming)
      || (to in {Cancelled, Expired} && from in {Open, AddressSet, ShippingSet, Ready})
  {
  }

  datatype ExpiredReason = ByTimer | ByLazy

  /** The destination; only the country takes part in pricing. */
  datatype Address = Address(country: string, lines: string)

  /** One snapshotted cart line. The name is carried as its length in runes. */
  datatype Item =
      Item(productId: string, nameRunes: nat, quantity: int, unitPrice: int, cartPrice: int, priceChanged: bool)

  /** Everything on the row that prices the basket or says how it is paid. */
  datatype Quote = Quote(
    items: seq<Item>, address: Option<Address>, shipMethod: Option<string>,
    fee: int, tax: int, promo: Option<string>, discount: int, subtotal: int, total: int,
    token: Option<string>)

  /** A checkout_sessions row; `version` is updated_at, one value per write. */
  datatype Session = Session(
    user: UserId, status: Status, quote: Quote, orderId: Option<OrderId>, confirmKey: Option<ClaimId>,
    expiresAt: Time, expiredReason: Option<ExpiredReason>, version: nat)

  /** The exact (unwrapped) sum of price times quantity. */
  function Sum(items: seq<Item>): int {
    if items == [] then 0 else Sum(items[..|items| - 1]) + items[|items| - 1].unitPrice * items[|items| - 1].quantity
  }

  /** The sum of one line is its price times its quantity, and sums of carts put end to end add up. */
  lemma {:induction false} SumConcat(a: seq<Item>, b: seq<Item>)
    ensures Sum(a + b) == Sum(a) + Sum(b)
    ensures |a| == 1 ==> Sum(a) == a[0].unitPrice * a[0].quantity
  {
    if |a| == 1 { assert Sum(a[..0]) == 0; }
    if b == [] {
      assert a + b == a;
    } else {
      SumConcat(a, b[..|b| - 1]);
      assert (a + b)[..|a + b| - 1] == a + b[..|b| - 1];
    }
  }

  predicate DistinctProducts(items: seq<Item>) {
    forall i, j :: 0 <= i < j < |items| ==> items[i].productId != items[j].productId
  }
}
