/** The mock product search: a case-insensitive substring filter of the
    product names over a fixed list of five products. */
module ProductSearch {
  import opened Text

  datatype MockProduct = MockProduct(id: string, name: string, price: real, image: string)

  const MockProducts: seq<MockProduct> := [
    MockProduct("1", ToothbrushName, 3.99, ToothbrushImage),
    MockProduct("2", BagName, 6.50, BagImage),
    MockProduct("3", SoapName, 4.25, SoapImage),
    MockProduct("4", LightName, 12.99, LightImage),
    MockProduct("5", CaseName, 9.75, CaseImage)
  ]

  const ToothbrushName := "Eco Bamboo Toothbrush"
  const ToothbrushImage := "/products/toothbrush.jpg"
  const BagName := "Reusable Grocery Bag"
  const BagImage := "/products/grocerybag.jpg"
  const SoapName := "Organic Coconut Soap"
  const SoapImage := "/products/coconutsoap.jpg"
  const LightName := "Solar-Powered LED Light"
  const LightImage := "/products/solarlight.jpg"
  const CaseName := "Biodegradable Phone Case"
  const CaseImage := "/products/phonecase.jpg"

  /** `p.name.toLowerCase().includes(query.toLowerCase())`. */
  predicate Matches(p: MockProduct, query: string) {
    Contains(ToLower(p.name), ToLower(query))
  }

  /** The `filter` of the products that match. */
  function Filter(ps: seq<MockProduct>, query: string): (r: seq<MockProduct>)
    ensures forall x :: x in r <==> x in ps && Matches(x, query)
    ensures |r| <= |ps|
  {
    if ps == [] then []
    else if Matches(ps[0], query) then [ps[0]] + Filter(ps[1..], query)
    else Filter(ps[1..], query)
  }

  /** `searchProducts`: every product it returns matches the query, every
      matching product is returned, and there are at most five. */
  function SearchProducts(query: string): (r: seq<MockProduct>)
    ensures forall x :: x in r ==> Matches(x, query)
    ensures forall x :: x in MockProducts && Matches(x, query) ==> x in r
    ensures |r| <= 5
  {
    Filter(MockProducts, query)
  }

  /** The filter keeps the list's order: it distributes over concatenation. */
  lemma {:induction false} FilterDistributes(a: seq<MockProduct>, b: seq<MockProduct>, query: string)
    ensures Filter(a + b, query) == Filter(a, query) + Filter(b, query)
  {
    if a == [] {
      assert a + b == b;
    } else {
      assert (a + b)[1..] == a[1..] + b;
      FilterDistributes(a[1..], b, query);
      if Matches(a[0], query) {
        assert Filter(a + b, query) == [a[0]] + Filter(a[1..] + b, query);
      }
    }
  }

  /** When every product matches, the filter returns the whole list. */
  lemma {:induction false} FilterAll(ps: seq<MockProduct>, query: string)
    requires forall k :: 0 <= k < |ps| ==> Matches(ps[k], query)
    ensures Filter(ps, query) == ps
  {
    if ps != [] {
      assert forall k :: 0 <= k < |ps| - 1 ==> ps[1..][k] == ps[k + 1];
      FilterAll(ps[1..], query);
    }
  }

  /** The empty query returns all five products, in order. */
  lemma EmptyQueryReturnsAll()
    ensures SearchProducts("") == MockProducts
  {
    forall k | 0 <= k < |MockProducts|
      ensures Matches(MockProducts[k], "")
    {
      ContainsEmpty(ToLower(MockProducts[k].name));
    }
    FilterAll(MockProducts, "");
  }

  /** Two queries that differ only in the case of ASCII letters. */
  predicate SameButCase(a: string, b: string) {
    |a| == |b| && forall i :: 0 <= i < |a| ==> LowerChar(a[i]) == LowerChar(b[i])
  }

  /** Changing the case of letters in the query does not change the result. */
  lemma CaseInsensitive(a: string, b: string)
    requires SameButCase(a, b)
    ensures SearchProducts(a) == SearchProducts(b)
  {
    assert ToLower(a) == ToLower(b);
    FilterSameLowered(MockProducts, a, b);
  }

  lemma {:induction false} FilterSameLowered(ps: seq<MockProduct>, a: string, b: string)
    requires ToLower(a) == ToLower(b)
    ensures Filter(ps, a) == Filter(ps, b)
  {
    if ps != [] {
      FilterSameLowered(ps[1..], a, b);
    }
  }

  /** Lower-casing is idempotent, so a lower-cased query finds the same. */
  lemma LoweredQuery(query: string)
    ensures SameButCase(ToLower(query), query)
    ensures SearchProducts(ToLower(query)) == SearchProducts(query)
  {
    CaseInsensitive(ToLower(query), query);
  }
}
