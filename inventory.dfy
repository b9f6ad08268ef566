/**
 * The seller's inventory: the product record, the three operations that
 * replace the product list, and the statistics derived from it.
 */
module Inventory {
  import opened Wrappers
  import Pricing

  datatype Status = Active | Sold

  /**
   * An item taken into inventory. `createdAt` and `soldAt` are timestamps in
   * milliseconds; `soldPrice` and `soldAt` are absent until the item is sold.
   */
  datatype Product = Product(
    id: string,
    name: string,
    description: string,
    originalPrice: real,
    category: string,
    imageUrl: string,
    createdAt: int,
    sellerName: string,
    status: Status,
    soldPrice: Option<real>,
    soldAt: Option<int>)

  /** A record keeps its sale fields exactly when it is sold. */
  predicate WellFormed(p: Product) {
    && (p.status == Sold <==> p.soldPrice.Some?)
    && (p.status == Sold <==> p.soldAt.Some?)
  }

  predicate AllWellFormed(products: seq<Product>) {
    forall i :: 0 <= i < |products| ==> WellFormed(products[i])
  }

  // ---------------------------------------------------------------------
  // The new lists built by the operations

  /** The list after adding a product: it goes first, forced active. */
  function Added(products: seq<Product>, newProduct: Product): (r: seq<Product>)
    ensures |r| == |products| + 1
    ensures r[0].status == Active && r[0].(status := newProduct.status) == newProduct
    ensures forall i :: 0 <= i < |products| ==> r[i + 1] == products[i]
  {
    [newProduct.(status := Active)] + products
  }

  /** The list after removing every product with the given id, the others kept in order. */
  function WithoutId(products: seq<Product>, id: string): (r: seq<Product>)
    ensures |r| <= |products|
    ensures forall p :: p in r <==> p in products && p.id != id
  {
    if products == [] then []
    else if products[0].id != id then [products[0]] + WithoutId(products[1..], id)
    else WithoutId(products[1..], id)
  }

  /** A product as it becomes when sold at `price` at time `at`. */
  function SoldAs(p: Product, price: real, at: int): (r: Product)
    ensures r.status == Sold && r.soldPrice == Some(price) && r.soldAt == Some(at)
    ensures WellFormed(r)
    ensures r.(status := p.status, soldPrice := p.soldPrice, soldAt := p.soldAt) == p
  {
    p.(status := Sold, soldPrice := Some(price), soldAt := Some(at))
  }

  /** The list after marking every product with the given id sold, at `price` and time `at`. */
  function MarkedSold(products: seq<Product>, id: string, price: real, at: int): (r: seq<Product>)
    ensures |r| == |products|
    ensures forall i :: 0 <= i < |products| && products[i].id != id ==> r[i] == products[i]
    ensures forall i :: 0 <= i < |products| && products[i].id == id ==>
      r[i].status == Sold && r[i].soldPrice == Some(price) && r[i].soldAt == Some(at) &&
      r[i].(status := products[i].status, soldPrice := products[i].soldPrice, soldAt := products[i].soldAt) == products[i]
  {
    if products == [] then []
    else
      var head := if products[0].id == id then SoldAs(products[0], price, at) else products[0];
      [head] + MarkedSold(products[1..], id, price, at)
  }

  // ---------------------------------------------------------------------
  // Derived statistics

  /** The products with the given status, in list order. */
  function WithStatus(products: seq<Product>, s: Status): (r: seq<Product>)
    ensures |r| <= |products|
    ensures forall p :: p in r <==> p in products && p.status == s
  {
    if products == [] then []
    else if products[0].status == s then [products[0]] + WithStatus(products[1..], s)
    else WithStatus(products[1..], s)
  }

  /** The products still for sale, in list order. */
  function ActiveProducts(products: seq<Product>): (r: seq<Product>)
    ensures forall p :: p in r <==> p in products && p.status == Active
  {
    WithStatus(products, Active)
  }

  /** The products already sold, in list order. */
  function SoldProducts(products: seq<Product>): (r: seq<Product>)
    ensures forall p :: p in r <==> p in products && p.status == Sold
  {
    WithStatus(products, Sold)
  }

  /** A product's contribution to revenue: its sale price, or 0 when it has none. */
  function SoldPriceOrZero(p: Product): real {
    p.soldPrice.GetOr(0.0)
  }

  /** The sum of the sale prices of a list, a missing one counted as 0. */
  function SumSoldPrices(products: seq<Product>): (r: real)
    ensures products == [] ==> r == 0.0
    ensures (forall i :: 0 <= i < |products| ==> SoldPriceOrZero(products[i]) >= 0.0) ==> r >= 0.0
  {
    if products == [] then 0.0 else SoldPriceOrZero(products[0]) + SumSoldPrices(products[1..])
  }

  /** Total revenue: the sum of the sale prices of the sold products. */
  function TotalRevenue(products: seq<Product>): (r: real)
    ensures SoldProducts(products) == [] ==> r == 0.0
    ensures (forall p :: p in products && p.status == Sold ==> SoldPriceOrZero(p) >= 0.0) ==> r >= 0.0
  {
    SumSoldPrices(SoldProducts(products))
  }

  /** How many products carry the given id. */
  function IdCount(products: seq<Product>, id: string): nat {
    if products == [] then 0
    else (if products[0].id == id then 1 else 0) + IdCount(products[1..], id)
  }

  // ---------------------------------------------------------------------
  // Lemmas about the lists

  lemma {:induction false} WithStatusConcat(a: seq<Product>, b: seq<Product>, s: Status)
    ensures WithStatus(a + b, s) == WithStatus(a, s) + WithStatus(b, s)
  {
    if a != [] {
      assert (a + b)[1..] == a[1..] + b;
      WithStatusConcat(a[1..], b, s);
    } else {
      assert a + b == b;
    }
  }

  lemma {:induction false} SumSoldPricesConcat(a: seq<Product>, b: seq<Product>)
    ensures SumSoldPrices(a + b) == SumSoldPrices(a) + SumSoldPrices(b)
  {
    if a != [] {
      assert (a + b)[1..] == a[1..] + b;
      SumSoldPricesConcat(a[1..], b);
    } else {
      assert a + b == b;
    }
  }

  /** Revenue over a list split in two is the sum of the revenues of the parts. */
  lemma TotalRevenueConcat(a: seq<Product>, b: seq<Product>)
    ensures TotalRevenue(a + b) == TotalRevenue(a) + TotalRevenue(b)
  {
    WithStatusConcat(a, b, Sold);
    SumSoldPricesConcat(SoldProducts(a), SoldProducts(b));
  }

  /**
   * Active and sold products partition the list: together they hold every
   * product exactly as often as the list does.
   */
  lemma {:induction false} ActiveSoldPartition(products: seq<Product>)
    ensures multiset(ActiveProducts(products)) + multiset(SoldProducts(products)) == multiset(products)
    ensures |ActiveProducts(products)| + |SoldProducts(products)| == |products|
  {
    if products != [] {
      ActiveSoldPartition(products[1..]);
      assert products == [products[0]] + products[1..];
    }
  }

  /** Removal keeps the others in order: it distributes over concatenation. */
  lemma {:induction false} WithoutIdConcat(a: seq<Product>, b: seq<Product>, id: string)
    ensures WithoutId(a + b, id) == WithoutId(a, id) + WithoutId(b, id)
  {
    if a != [] {
      assert (a + b)[1..] == a[1..] + b;
      WithoutIdConcat(a[1..], b, id);
    } else {
      assert a + b == b;
    }
  }

  /** Removing an id that no product carries leaves the list as it was. */
  lemma {:induction false} WithoutAbsentId(products: seq<Product>, id: string)
    requires forall p :: p in products ==> p.id != id
    ensures WithoutId(products, id) == products
  {
    if products != [] {
      WithoutAbsentId(products[1..], id);
    }
  }

  /** Removal drops exactly the products carrying the id. */
  lemma {:induction false} WithoutIdLength(products: seq<Product>, id: string)
    ensures |WithoutId(products, id)| == |products| - IdCount(products, id)
  {
    if products != [] {
      WithoutIdLength(products[1..], id);
    }
  }

  /** Removing the same id twice is removing it once. */
  lemma RemoveIdempotent(products: seq<Product>, id: string)
    ensures WithoutId(WithoutId(products, id), id) == WithoutId(products, id)
  {
    WithoutAbsentId(WithoutId(products, id), id);
  }

  /** Marking an id that no product carries leaves the list as it was. */
  lemma {:induction false} MarkAbsentId(products: seq<Product>, id: string, price: real, at: int)
    requires IdCount(products, id) == 0
    ensures MarkedSold(products, id, price, at) == products
  {
    if products != [] {
      MarkAbsentId(products[1..], id, price, at);
    }
  }

  /** The status filter on a list with a known first product. */
  lemma WithStatusCons(p: Product, rest: seq<Product>, s: Status)
    ensures WithStatus([p] + rest, s) == (if p.status == s then [p] else []) + WithStatus(rest, s)
  {
    assert ([p] + rest)[1..] == rest;
  }

  /** Selling an active product: the per-status lists and revenue of a one-product list. */
  lemma SellOne(p: Product, price: real, at: int)
    requires p.status == Active
    ensures ActiveProducts([SoldAs(p, price, at)]) == [] && ActiveProducts([p]) == [p]
    ensures SoldProducts([SoldAs(p, price, at)]) == [SoldAs(p, price, at)] && SoldProducts([p]) == []
    ensures TotalRevenue([SoldAs(p, price, at)]) == price && TotalRevenue([p]) == 0.0
  {
    WithStatusCons(p, [], Active);
    WithStatusCons(p, [], Sold);
    WithStatusCons(SoldAs(p, price, at), [], Active);
    WithStatusCons(SoldAs(p, price, at), [], Sold);
    assert SumSoldPrices([SoldAs(p, price, at)]) == price + SumSoldPrices([]);
  }

  /**
   * Selling the one active product with a given id moves it from the active
   * products to the sold ones and adds its price to the revenue.
   */
  lemma {:induction false} MarkAsSoldEffects(products: seq<Product>, id: string, price: real, at: int)
    requires IdCount(products, id) == 1
    requires forall p :: p in products && p.id == id ==> p.status == Active
    ensures var after := MarkedSold(products, id, price, at);
      && |ActiveProducts(after)| == |ActiveProducts(products)| - 1
      && |SoldProducts(after)| == |SoldProducts(products)| + 1
      && TotalRevenue(after) == TotalRevenue(products) + price
  {
    var head, rest := products[0], products[1..];
    var after := MarkedSold(products, id, price, at);
    var restAfter := MarkedSold(rest, id, price, at);
    assert products == [head] + rest;
    assert after == [after[0]] + restAfter;
    WithStatusConcat([head], rest, Active);
    WithStatusConcat([head], rest, Sold);
    WithStatusConcat([after[0]], restAfter, Active);
    WithStatusConcat([after[0]], restAfter, Sold);
    TotalRevenueConcat([head], rest);
    TotalRevenueConcat([after[0]], restAfter);
    if head.id == id {
      MarkAbsentId(rest, id, price, at);
      SellOne(head, price, at);
    } else {
      MarkAsSoldEffects(rest, id, price, at);
    }
  }

  /** Adding a product makes one more active product and leaves the sales untouched. */
  lemma AddProductEffects(products: seq<Product>, newProduct: Product)
    ensures var after := Added(products, newProduct);
      && |ActiveProducts(after)| == |ActiveProducts(products)| + 1
      && SoldProducts(after) == SoldProducts(products)
      && TotalRevenue(after) == TotalRevenue(products)
  {
    var after := Added(products, newProduct);
    assert after[1..] == products;
  }

  /** Removing an id that only active products carry leaves the sales and revenue untouched. */
  lemma {:induction false} RemoveActiveKeepsSales(products: seq<Product>, id: string)
    requires forall p :: p in products && p.id == id ==> p.status == Active
    ensures SoldProducts(WithoutId(products, id)) == SoldProducts(products)
    ensures TotalRevenue(WithoutId(products, id)) == TotalRevenue(products)
  {
    if products != [] {
      RemoveActiveKeepsSales(products[1..], id);
    }
  }

  /**
   * Selling at the item's decayed price raises revenue by at least the floor
   * price. The card prices the item at its last refresh, `pricedAt`, which
   * may be earlier than the sale time `now` stamped on the record.
   */
  lemma SaleAtCurrentPrice(products: seq<Product>, product: Product, pricedAt: int, now: int)
    requires IdCount(products, product.id) == 1
    requires forall p :: p in products && p.id == product.id ==> p.status == Active
    ensures var price := Pricing.CurrentPrice(product.originalPrice, product.createdAt, pricedAt);
      TotalRevenue(MarkedSold(products, product.id, price, now)) >= TotalRevenue(products) + Pricing.MinPrice
  {
    var price := Pricing.CurrentPrice(product.originalPrice, product.createdAt, pricedAt);
    MarkAsSoldEffects(products, product.id, price, now);
  }

  /** Selling keeps every record well formed. */
  lemma MarkedSoldWellFormed(products: seq<Product>, id: string, price: real, at: int)
    requires AllWellFormed(products)
    ensures AllWellFormed(MarkedSold(products, id, price, at))
  {
  }

  /** Adding a product that carries no sale fields keeps every record well formed. */
  lemma AddedWellFormed(products: seq<Product>, newProduct: Product)
    requires AllWellFormed(products)
    requires newProduct.soldPrice.None? && newProduct.soldAt.None?
    ensures AllWellFormed(Added(products, newProduct))
  {
  }

  /** Removal keeps every record well formed. */
  lemma WithoutIdWellFormed(products: seq<Product>, id: string)
    requires AllWellFormed(products)
    ensures AllWellFormed(WithoutId(products, id))
  {
    var r := WithoutId(products, id);
    forall i | 0 <= i < |r| ensures WellFormed(r[i]) {
      assert r[i] in products;
    }
  }

  // ---------------------------------------------------------------------
  // The state cell holding the list

  /** The seller's product list, replaced whole by each operation. */
  class Store {
    var products: seq<Product>

    constructor ()
      ensures products == []
    {
      products := [];
    }

    method AddProduct(newProduct: Product)
      modifies this
      ensures products == Added(old(products), newProduct)
      ensures |ActiveProducts(products)| == |ActiveProducts(old(products))| + 1
      ensures SoldProducts(products) == SoldProducts(old(products))
      ensures TotalRevenue(products) == TotalRevenue(old(products))
    {
      AddProductEffects(products, newProduct);
      products := Added(products, newProduct);
    }

    method RemoveProduct(id: string)
      modifies this
      ensures products == WithoutId(old(products), id)
      ensures forall p :: p in products <==> p in old(products) && p.id != id
    {
      products := WithoutId(products, id);
    }

    /** Marks every product sharing `product`'s id sold at `price`; `now` is the clock reading. */
    method MarkAsSold(product: Product, price: real, now: int)
      modifies this
      ensures products == MarkedSold(old(products), product.id, price, now)
      ensures IdCount(old(products), product.id) == 1 &&
              (forall p :: p in old(products) && p.id == product.id ==> p.status == Active) ==>
                && |ActiveProducts(products)| == |ActiveProducts(old(products))| - 1
                && |SoldProducts(products)| == |SoldProducts(old(products))| + 1
                && TotalRevenue(products) == TotalRevenue(old(products)) + price
    {
      ghost var before := products;
      products := MarkedSold(products, product.id, price, now);
      if IdCount(before, product.id) == 1 &&
         (forall p :: p in before && p.id == product.id ==> p.status == Active) {
        MarkAsSoldEffects(before, product.id, price, now);
      }
    }
  }
}
