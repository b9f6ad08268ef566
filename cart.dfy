/**
 * The cart drawer: the checkout total over the cart lines and the guard
 * that decides whether checkout is offered.
 */
module Cart {
  import opened Wrappers
  import Inventory
  import Pricing

  /** A product in the cart with the price it had when it was added, frozen from then on. */
  datatype CartItem = CartItem(product: Inventory.Product, currentPriceAtAddition: real)

  /** A completed purchase; its creation is not part of this model. */
  datatype Transaction = Transaction(id: string, date: int, items: seq<CartItem>, total: real)

  /** The checkout total: the frozen prices of the lines, summed. */
  function Total(items: seq<CartItem>): (t: real)
    ensures items == [] ==> t == 0.0
    ensures (forall i :: 0 <= i < |items| ==> items[i].currentPriceAtAddition >= 0.0) ==> t >= 0.0
  {
    if items == [] then 0.0 else items[0].currentPriceAtAddition + Total(items[1..])
  }

  /** The price shown on each line of the drawer. */
  function LinePrices(items: seq<CartItem>): seq<real> {
    seq(|items|, i requires 0 <= i < |items| => items[i].currentPriceAtAddition)
  }

  function Sum(xs: seq<real>): real {
    if xs == [] then 0.0 else xs[0] + Sum(xs[1..])
  }

  /** The total is the sum of the prices the lines display. */
  lemma {:induction false} TotalIsSumOfLinePrices(items: seq<CartItem>)
    ensures Total(items) == Sum(LinePrices(items))
  {
    if items != [] {
      TotalIsSumOfLinePrices(items[1..]);
      assert LinePrices(items)[1..] == LinePrices(items[1..]);
    }
  }

  /** The total of two carts put together is the sum of their totals. */
  lemma {:induction false} TotalConcat(a: seq<CartItem>, b: seq<CartItem>)
    ensures Total(a + b) == Total(a) + Total(b)
  {
    if a != [] {
      assert (a + b)[1..] == a[1..] + b;
      TotalConcat(a[1..], b);
    } else {
      assert a + b == b;
    }
  }

  /**
   * Only the frozen prices count: carts whose lines carry the same snapshots
   * have the same total, whatever their products' original prices or dates.
   */
  lemma {:induction false} TotalOnlySnapshots(a: seq<CartItem>, b: seq<CartItem>)
    requires |a| == |b|
    requires forall i :: 0 <= i < |a| ==> a[i].currentPriceAtAddition == b[i].currentPriceAtAddition
    ensures Total(a) == Total(b)
  {
    if a != [] {
      TotalOnlySnapshots(a[1..], b[1..]);
    }
  }

  /** Lines priced at the decay floor or above make a total of at least one floor price per line. */
  lemma {:induction false} TotalAtLeastFloorPerLine(items: seq<CartItem>)
    requires forall i :: 0 <= i < |items| ==> items[i].currentPriceAtAddition >= Pricing.MinPrice
    ensures Total(items) >= |items| as real * Pricing.MinPrice
  {
    if items != [] {
      TotalAtLeastFloorPerLine(items[1..]);
    }
  }

  /**
   * The amount the drawer hands to checkout: nothing when it is closed or the
   * cart is empty, otherwise the total.
   */
  function CheckoutOffer(isOpen: bool, items: seq<CartItem>): (r: Option<real>)
    ensures r.Some? <==> isOpen && |items| > 0
    ensures r.Some? ==> r.value == Total(items)
  {
    if !isOpen then None
    else if |items| > 0 then Some(Total(items))
    else None
  }

  /** A checkout, whenever offered, passes an amount of at least one floor price. */
  lemma CheckoutAtLeastFloor(isOpen: bool, items: seq<CartItem>)
    requires forall i :: 0 <= i < |items| ==> items[i].currentPriceAtAddition >= Pricing.MinPrice
    ensures CheckoutOffer(isOpen, items).Some? ==> CheckoutOffer(isOpen, items).value >= Pricing.MinPrice
  {
    TotalAtLeastFloorPerLine(items);
  }
}
