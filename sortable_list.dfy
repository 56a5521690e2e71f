/** The product listing: the categories and products it fetches (capped at
    ten and twenty), the category filter buttons, the client-side sort of a
    copy of the products by rating (highest first) or by price (lowest first),
    and the image each card shows. The GraphQL requests are given by their
    outcomes. */
module SortableList {
  import opened Wrappers
  import opened Text

  /** A product as the listing's query returns it; `rating` and `finalPrice`
      are JavaScript numbers, taken as exact reals. */
  datatype ListedProduct = ListedProduct(
    id: string,
    title: string,
    category: string,
    description: string,
    images: Option<string>,
    rating: real,
    finalPrice: real)

  datatype SortKey = ByRating | ByPrice

  /** The comparator of the sort is `Key(a) - Key(b)`: `b.rating - a.rating`
      for rating, `a.final_price - b.final_price` for price. */
  function Key(p: ListedProduct, order: SortKey): real {
    if order == ByRating then -p.rating else p.finalPrice
  }

  /** No pair of products is out of the comparator's order. */
  predicate SortedBy(s: seq<ListedProduct>, order: SortKey) {
    forall i, j :: 0 <= i < j < |s| ==> Key(s[i], order) <= Key(s[j], order)
  }

  /** Sorted by rating means ratings never increase; by price, prices
      never decrease. */
  lemma SortedMeaning(s: seq<ListedProduct>, order: SortKey, i: nat, j: nat)
    requires SortedBy(s, order) && i < j < |s|
    ensures order == ByRating ==> s[i].rating >= s[j].rating
    ensures order == ByPrice ==> s[i].finalPrice <= s[j].finalPrice
  {
    assert Key(s[i], order) <= Key(s[j], order);
  }

  /** The segment `a[0..hi]` is in order, except possibly for position `skip`. */
  ghost predicate SortedExcept(s: seq<ListedProduct>, hi: int, skip: int, order: SortKey)
    requires hi < |s|
  {
    forall p, q :: 0 <= p < q <= hi && p != skip && q != skip ==> Key(s[p], order) <= Key(s[q], order)
  }

  /** The prefix `s[0..n]` is in order. */
  ghost predicate SortedPrefix(s: seq<ListedProduct>, n: int, order: SortKey)
    requires n <= |s|
  {
    forall p, q :: 0 <= p < q < n ==> Key(s[p], order) <= Key(s[q], order)
  }

  /** What the insertion of `s[i]` keeps while `s[j]` moves left past the
      larger keys before it. */
  ghost predicate Inserting(s: seq<ListedProduct>, i: int, j: int, order: SortKey)
    requires 0 <= j <= i < |s|
  {
    SortedExcept(s, i, j, order) && forall q :: j < q <= i ==> Key(s[j], order) < Key(s[q], order)
  }

  /** Swapping `s[j]` with a larger predecessor moves the insertion one step left. */
  lemma SwapStep(s: seq<ListedProduct>, i: int, j: int, order: SortKey)
    requires 0 < j <= i < |s| && Inserting(s, i, j, order)
    requires Key(s[j - 1], order) > Key(s[j], order)
    ensures Inserting(s[j - 1 := s[j]][j := s[j - 1]], i, j - 1, order)
    ensures multiset(s[j - 1 := s[j]][j := s[j - 1]]) == multiset(s)
  {
  }

  /** The insertion is done once the predecessor is no larger. */
  lemma InsertDone(s: seq<ListedProduct>, i: int, j: int, order: SortKey)
    requires 0 <= j <= i < |s| && Inserting(s, i, j, order)
    requires j == 0 || Key(s[j - 1], order) <= Key(s[j], order)
    ensures SortedPrefix(s, i + 1, order)
  {
  }

  /** One pass of the insertion sort: `a[i]` moves left into the sorted prefix. */
  method Insert(a: array<ListedProduct>, i: int, order: SortKey)
    requires 0 < i < a.Length && SortedPrefix(a[..], i, order)
    modifies a
    ensures SortedPrefix(a[..], i + 1, order)
    ensures multiset(a[..]) == multiset(old(a[..]))
  {
    var j := i;
    while j > 0 && Key(a[j - 1], order) > Key(a[j], order)
      invariant 0 <= j <= i
      invariant Inserting(a[..], i, j, order)
      invariant multiset(a[..]) == multiset(old(a[..]))
    {
      SwapStep(a[..], i, j, order);
      a[j - 1], a[j] := a[j], a[j - 1];
      j := j - 1;
    }
    InsertDone(a[..], i, j, order);
  }

  /** The in-place sort (an insertion sort; the engine's algorithm is not
      specified, only its result). */
  method SortInPlace(a: array<ListedProduct>, order: SortKey)
    modifies a
    ensures SortedBy(a[..], order)
    ensures multiset(a[..]) == multiset(old(a[..]))
  {
    var i := 1;
    while i < a.Length
      invariant a.Length == 0 || 1 <= i <= a.Length
      invariant i <= a.Length ==> SortedPrefix(a[..], i, order)
      invariant multiset(a[..]) == multiset(old(a[..]))
    {
      Insert(a, i, order);
      i := i + 1;
    }
  }

  /** `sortedProducts`: a sorted copy; the products themselves, a value
      here, are left as they are. */
  method SortedProducts(products: seq<ListedProduct>, order: SortKey) returns (sorted: seq<ListedProduct>)
    ensures SortedBy(sorted, order)
    ensures multiset(sorted) == multiset(products)
  {
    var a := new ListedProduct[|products|](k requires 0 <= k < |products| => products[k]);
    assert a[..] == products;
    SortInPlace(a, order);
    sorted := a[..];
  }

  /** `handleCategoryClick`: clicking the selected category clears the
      filter, and clicking any other selects it. */
  function CategoryClicked(selected: Option<string>, category: string): (r: Option<string>)
    ensures r == Some(category) <==> selected != Some(category)
    ensures r != Some(category) ==> r == None
  {
    if selected == Some(category) then None else Some(category)
  }

  /** Clicking the same category twice from no filter leaves no filter, and
      from another category's filter ends with no filter either. */
  lemma {:induction false} ClickTwice(selected: Option<string>, category: string)
    ensures CategoryClicked(CategoryClicked(selected, category), category) ==
      (if selected == Some(category) then Some(category) else None)
  {
    var once := CategoryClicked(selected, category);
    assert once == Some(category) <==> selected != Some(category);
  }

  const MaxCategories: nat := 10
  const MaxProducts: nat := 20

  const FallbackCategories: seq<string> :=
    ["Tops", "Dresses", "Electronics", "Beauty", "Home", "Sports", "Books", "Shoes", "Accessories", "Toys"]

  /** The categories shown: the first ten fetched, or the ten fallback names
      when the request fails. */
  function ShownCategories<E>(fetched: Result<seq<string>, E>): (r: seq<string>)
    ensures |r| <= MaxCategories
    ensures fetched.Success? ==> |r| == Min(MaxCategories, |fetched.value|) && r <= fetched.value
    ensures fetched.Failure? ==> r == FallbackCategories
  {
    match fetched
    case Success(cs) => cs[..Min(MaxCategories, |cs|)]
    case Failure(_) => FallbackCategories
  }

  function Min(a: nat, b: nat): nat {
    if a <= b then a else b
  }

  /** The products kept from a successful fetch: the first twenty. */
  function CappedProducts(fetched: seq<ListedProduct>): (r: seq<ListedProduct>)
    ensures |r| == Min(MaxProducts, |fetched|) && r <= fetched
  {
    fetched[..Min(MaxProducts, |fetched|)]
  }

  const Placeholder := "/placeholder.png"

  /** `firstImage`: the text before the first comma of `images`, the whole
      string when it has no comma, and the placeholder when there is no
      string or it is empty (JavaScript treats both as false). */
  function FirstImage(images: Option<string>): (r: string)
    ensures images.None? || images.value == "" ==> r == Placeholder
    ensures images.Some? && images.value != "" ==>
      ',' !in r && r <= images.value &&
      (|r| < |images.value| ==> images.value[|r|] == ',') &&
      (',' !in images.value ==> r == images.value)
  {
    if images.Some? && images.value != "" then
      SplitFirst(images.value, ',');
      Split(images.value, ',')[0]
    else Placeholder
  }

  const LoadErrorText := "Failed to load products. Please try again."

  /** What the listing shows. */
  datatype Listing = Listing(
    products: seq<ListedProduct>,
    categories: seq<string>,
    selected: Option<string>,
    sortBy: SortKey,
    loading: bool,
    error: Option<string>)

  /** The completion of the product request: the first twenty products, or
      the error text with the previous products kept. */
  function ProductsFetched<E>(l: Listing, fetched: Result<seq<ListedProduct>, E>): Listing {
    match fetched
    case Success(ps) => l.(products := CappedProducts(ps), error := None, loading := false)
    case Failure(_) => l.(error := Some(LoadErrorText), loading := false)
  }

  /** After a product request the listing is no longer loading and shows
      either at most twenty products or the error text. */
  lemma ProductsFetchedEffect<E>(l: Listing, fetched: Result<seq<ListedProduct>, E>)
    ensures var r := ProductsFetched(l, fetched);
      !r.loading && r.selected == l.selected &&
      (fetched.Success? ==> r.error == None && |r.products| <= MaxProducts && r.products <= fetched.value) &&
      (fetched.Failure? ==> r.error == Some(LoadErrorText) && r.products == l.products)
  {
  }

  /** The listing component. `sortBy` starts at rating and no control of the
      page changes it. */
  class ProductListing {
    var products: seq<ListedProduct>
    var categories: seq<string>
    var selected: Option<string>
    var sortBy: SortKey
    var loading: bool
    var error: Option<string>

    function State(): Listing
      reads this
    {
      Listing(products, categories, selected, sortBy, loading, error)
    }

    constructor ()
      ensures State() == Listing([], [], None, ByRating, false, None)
    {
      products := [];
      categories := [];
      selected := None;
      sortBy := ByRating;
      loading := false;
      error := None;
    }

    /** The categories effect on mount. */
    method FetchCategories<E>(fetched: Result<seq<string>, E>)
      modifies this
      ensures State() == old(State()).(categories := ShownCategories(fetched))
    {
      match fetched {
        case Success(cs) => categories := cs[..Min(MaxCategories, |cs|)];
        case Failure(_) => categories := FallbackCategories;
      }
    }

    /** The products effect, run on mount and whenever the filter changes. */
    method FetchProducts<E>(fetched: Result<seq<ListedProduct>, E>)
      modifies this
      ensures State() == ProductsFetched(old(State()), fetched)
    {
      loading := true;
      error := None;
      match fetched {
        case Success(ps) => products := ps[..Min(MaxProducts, |ps|)];
        case Failure(_) => error := Some(LoadErrorText);
      }
      loading := false;
    }

    method HandleCategoryClick(category: string)
      modifies this
      ensures State() == old(State()).(selected := CategoryClicked(old(selected), category))
    {
      selected := if selected == Some(category) then None else Some(category);
    }

    method HandleClearFilter()
      modifies this
      ensures State() == old(State()).(selected := None)
    {
      selected := None;
    }

    /** The cards in the order they are shown. */
    method Sorted() returns (sorted: seq<ListedProduct>)
      ensures SortedBy(sorted, sortBy) && multiset(sorted) == multiset(products)
    {
      sorted := SortedProducts(products, sortBy);
    }
  }
}
