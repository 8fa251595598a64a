/**
 * getMostExpensiveProduct: a left-to-right reduction that keeps the dearest
 * product seen so far, replacing it only on a strictly higher price.
 */
module MostExpensive {
  import opened Wrappers

  /** A product; `price` is a JavaScript number, modelled as a real. */
  datatype Product = Product(name: string, price: real)

  /** One step of the reduction: the accumulator gives way only to a strictly dearer product. */
  function Dearer(max: Product, product: Product): (r: Product)
    ensures r == max || r == product
    ensures r.price >= max.price && r.price >= product.price
    ensures r == product <==> product.price > max.price || product == max
  {
    if product.price > max.price then product else max
  }

  /**
   * `reduce` without an initial value, over the rest of the list: `max` is the
   * accumulator (first the list's head), `rest` the products not yet visited.
   * The result is the accumulator or one of them, and no product is dearer.
   */
  function ReduceByPrice(max: Product, rest: seq<Product>): (r: Product)
    ensures r == max || r in rest
    ensures r.price >= max.price
    ensures forall p :: p in rest ==> p.price <= r.price
    decreases |rest|
  {
    if rest == [] then max
    else ReduceByPrice(Dearer(max, rest[0]), rest[1..])
  }

  /**
   * `null` for an empty list; otherwise a product of the list whose price is
   * at least that of every product in it.
   */
  function GetMostExpensiveProduct(products: seq<Product>): (r: Option<Product>)
    ensures r.None? <==> products == []
    ensures r.Some? ==> r.value in products
    ensures r.Some? ==> forall p :: p in products ==> p.price <= r.value.price
  {
    if |products| == 0 then None
    else
      assert products == [products[0]] + products[1..];
      Some(ReduceByPrice(products[0], products[1..]))
  }

  /** Position `k` holds a product of maximal price and every earlier product is strictly cheaper. */
  predicate IsFirstMax(products: seq<Product>, k: int) {
    0 <= k < |products| &&
    (forall j :: 0 <= j < |products| ==> products[j].price <= products[k].price) &&
    (forall j :: 0 <= j < k ==> products[j].price < products[k].price)
  }

  /** The reduction ends on the first maximal product of the accumulator followed by the rest. */
  lemma {:induction false} ReduceFindsFirstMax(max: Product, rest: seq<Product>, k: nat)
    requires IsFirstMax([max] + rest, k)
    ensures ReduceByPrice(max, rest) == ([max] + rest)[k]
    decreases |rest|
  {
    var s := [max] + rest;
    if rest == [] {
    } else if k == 0 {
      assert rest[0] == s[1];
      assert Dearer(max, rest[0]) == max;
      var s' := [max] + rest[1..];
      forall j | 0 <= j < |s'| ensures s'[j].price <= s'[0].price {
        if j > 0 { assert s'[j] == s[j + 1]; }
      }
      ReduceFindsFirstMax(max, rest[1..], 0);
    } else if rest[0].price > max.price {
      assert rest == s[1..];
      forall j | 0 <= j < |rest| ensures rest[j].price <= rest[k - 1].price {
        assert rest[j] == s[j + 1];
      }
      forall j | 0 <= j < k - 1 ensures rest[j].price < rest[k - 1].price {
        assert rest[j] == s[j + 1];
      }
      ReduceFindsFirstMax(rest[0], rest[1..], k - 1);
      assert [rest[0]] + rest[1..] == rest;
    } else {
      assert s[0] == max && s[1] == rest[0];
      assert s[0].price < s[k].price;
      var s' := [max] + rest[1..];
      assert s'[k - 1] == s[k];
      forall j | 0 <= j < |s'| ensures s'[j].price <= s'[k - 1].price {
        if j > 0 { assert s'[j] == s[j + 1]; }
      }
      forall j | 0 <= j < k - 1 ensures s'[j].price < s'[k - 1].price {
        if j > 0 { assert s'[j] == s[j + 1]; }
      }
      ReduceFindsFirstMax(max, rest[1..], k - 1);
    }
  }

  /** Ties go to the earliest product: the result is the first product of maximal price. */
  lemma MostExpensiveIsFirstMax(products: seq<Product>, k: nat)
    requires IsFirstMax(products, k)
    ensures GetMostExpensiveProduct(products) == Some(products[k])
  {
    assert products == [products[0]] + products[1..];
    ReduceFindsFirstMax(products[0], products[1..], k);
  }

  /** Every non-empty list has a first product of maximal price. */
  lemma {:induction false} FirstMaxExists(products: seq<Product>)
    requires products != []
    ensures exists k :: IsFirstMax(products, k)
  {
    var n := |products| - 1;
    if n == 0 {
      assert IsFirstMax(products, 0);
    } else {
      var init := products[..n];
      FirstMaxExists(init);
      var k :| IsFirstMax(init, k);
      assert forall j :: 0 <= j < n ==> products[j] == init[j];
      if products[n].price > products[k].price {
        assert IsFirstMax(products, n);
      } else {
        assert IsFirstMax(products, k);
      }
    }
  }

  /** Example: of prices 10, 30 and 30, the first product priced 30 is returned. */
  lemma FirstOfTiedProductsWins()
    ensures GetMostExpensiveProduct([Product("a", 10.0), Product("b", 30.0), Product("c", 30.0)])
         == Some(Product("b", 30.0))
  {
    var products := [Product("a", 10.0), Product("b", 30.0), Product("c", 30.0)];
    assert IsFirstMax(products, 1);
    MostExpensiveIsFirstMax(products, 1);
  }
}
