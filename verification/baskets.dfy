/**
 * Basket folds shared by both stores: the id list, the price sum and the
 * by-id filter used by `remove`.
 */
module Baskets {
  import opened Wrappers
  import opened Products

  /** What one line adds to a running sum: JavaScript `a + null` is `a`. */
  function PriceValue(p: Option<int>): int
  {
    match p
    case Some(v) => v
    case None => 0
  }

  /**
   * `basket.reduce((a, c) => a + c.price, 0)`, folded from the left. A
   * basket of non-negative prices has a non-negative total, and `null`
   * prices add nothing, so a basket of only those totals 0.
   */
  function SumPrices(basket: seq<Product>): (r: int)
    ensures (forall i :: 0 <= i < |basket| ==> PriceValue(basket[i].price) >= 0) ==> r >= 0
    ensures (forall i :: 0 <= i < |basket| ==> basket[i].price == None) ==> r == 0
  {
    if basket == [] then 0
    else SumPrices(basket[..|basket| - 1]) + PriceValue(basket[|basket| - 1].price)
  }

  /** `basket.map(item => item.id)`: one id per line, and exactly the ids the lines carry. */
  function Ids(basket: seq<Product>): (ids: seq<string>)
    ensures |ids| == |basket|
    ensures forall id :: id in ids <==> HasId(basket, id)
  {
    var ids := seq(|basket|, i requires 0 <= i < |basket| => basket[i].id);
    assert forall id :: id in ids ==> HasId(basket, id) by {
      forall id | id in ids ensures HasId(basket, id) {
        var k :| 0 <= k < |ids| && ids[k] == id;
        assert basket[k].id == id;
      }
    }
    assert forall id :: HasId(basket, id) ==> id in ids by {
      forall id | HasId(basket, id) ensures id in ids {
        var k :| 0 <= k < |basket| && basket[k].id == id;
        assert ids[k] == id;
      }
    }
    ids
  }

  /** True when some line carries `id`. */
  predicate HasId(basket: seq<Product>, id: string)
  {
    exists i :: 0 <= i < |basket| && basket[i].id == id
  }

  /**
   * `basket.filter(item => item.id !== id)`: exactly the lines whose id
   * differs, so no line with `id` survives.
   */
  function Without(basket: seq<Product>, id: string): (r: seq<Product>)
    ensures forall i :: 0 <= i < |r| ==> r[i] in basket && r[i].id != id
    ensures forall i :: 0 <= i < |basket| && basket[i].id != id ==> basket[i] in r
    ensures !HasId(r, id)
    ensures |r| <= |basket|
  {
    if basket == [] then []
    else (if basket[0].id == id then [] else [basket[0]]) + Without(basket[1..], id)
  }

  /** The filter works line by line, so it keeps the survivors in their order. */
  lemma {:induction false} WithoutConcat(a: seq<Product>, b: seq<Product>, id: string)
    ensures Without(a + b, id) == Without(a, id) + Without(b, id)
  {
    if a == [] {
      assert a + b == b;
    } else {
      assert (a + b)[0] == a[0];
      assert (a + b)[1..] == a[1..] + b;
      WithoutConcat(a[1..], b, id);
    }
  }

  /** Filtering out an id no line carries changes nothing. */
  lemma {:induction false} WithoutAbsent(basket: seq<Product>, id: string)
    requires !HasId(basket, id)
    ensures Without(basket, id) == basket
  {
    if basket != [] {
      assert basket[0].id != id;
      assert !HasId(basket[1..], id) by {
        forall i | 0 <= i < |basket[1..]| ensures basket[1..][i].id != id {
          assert basket[1..][i] == basket[i + 1];
        }
      }
      WithoutAbsent(basket[1..], id);
    }
  }

  /** Filtering out an id some line carries makes the basket strictly shorter. */
  lemma {:induction false} WithoutPresent(basket: seq<Product>, id: string)
    requires HasId(basket, id)
    ensures |Without(basket, id)| < |basket|
  {
    if basket[0].id != id {
      var i :| 0 <= i < |basket| && basket[i].id == id;
      assert basket[1..][i - 1] == basket[i];
      WithoutPresent(basket[1..], id);
    }
  }

  /** The price sum splits over concatenation. */
  lemma {:induction false} SumPricesConcat(a: seq<Product>, b: seq<Product>)
    ensures SumPrices(a + b) == SumPrices(a) + SumPrices(b)
  {
    if b == [] {
      assert a + b == a;
    } else {
      var last := |b| - 1;
      assert (a + b)[..|a + b| - 1] == a + b[..last];
      SumPricesConcat(a, b[..last]);
    }
  }

  /**
   * Round trip: appending `p` and then filtering out `p.id` gives back the
   * same basket, hence the same count and total, when no line had `p.id`.
   */
  lemma AddRemoveRoundTrip(basket: seq<Product>, p: Product)
    requires !HasId(basket, p.id)
    ensures Without(basket + [p], p.id) == basket
    ensures |Without(basket + [p], p.id)| == |basket|
    ensures SumPrices(Without(basket + [p], p.id)) == SumPrices(basket)
  {
    WithoutConcat(basket, [p], p.id);
    WithoutAbsent(basket, p.id);
  }

  /**
   * Without that premise the round trip fails: `add` does not deduplicate,
   * and the filter then also drops the earlier line, so the count ends below
   * where it started.
   */
  lemma AddRemoveWithDuplicate(basket: seq<Product>, p: Product)
    requires HasId(basket, p.id)
    ensures Without(basket + [p], p.id) == Without(basket, p.id)
    ensures |Without(basket + [p], p.id)| < |basket|
  {
    WithoutConcat(basket, [p], p.id);
    WithoutPresent(basket, p.id);
  }
}
