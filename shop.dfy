/** The shop page (src/components/Shop.tsx): a fixed catalogue filtered by
    category and price range, sorted by the chosen order, and a wishlist of
    product ids. Prices are in cents; the price range is in whole dollars,
    as the slider gives it. */
module Shop {
  import opened Common

  datatype Product = Product(id: int, name: string, category: string, price: int, rating: int)

  /** The six products the page lists. */
  const Catalogue: seq<Product> := [
    Product(1, "Men Aviator Sunglasses", "SOCKS, SUNGLASSES", 5000, 4),
    Product(2, "Light Blue Solid Low Rise Skinny Fit Jeans", "JEANS", 8900, 2),
    Product(3, "Unisex Tan Solid Cabin Trolley Bag", "TROLLEY BAG", 27800, 3),
    Product(4, "Wireless Bluetooth Headphones", "ACCESSORIES", 12000, 5),
    Product(5, "Leather Crossbody Bag", "BAGS & BACKPACKS", 8500, 4),
    Product(6, "Smart Fitness Watch", "WATCHES", 19900, 5)
  ]

  /** `priceRange`, in dollars. */
  datatype PriceRange = PriceRange(low: int, high: int)

  const MaxPrice := 500
  const InitialRange := PriceRange(0, MaxPrice)

  /** The filter callback: the category test (no selection, or the
      lower-cased category contains the lower-cased selection) and the price
      test, both inclusive. */
  predicate Matches(selectedCategory: string, range: PriceRange, p: Product) {
    && (selectedCategory == "" || Contains(Lower(p.category), Lower(selectedCategory)))
    && range.low * 100 <= p.price <= range.high * 100
  }

  /** The four options of the sort select. */
  datatype SortOrder = Default | PriceLow | PriceHigh | Rating

  /** The comparator's `switch (sortBy)`: any value other than the three
      named ones falls to `default`. */
  function ParseSortOrder(sortBy: string): (order: SortOrder)
    ensures order == PriceLow <==> sortBy == "price-low"
    ensures order == PriceHigh <==> sortBy == "price-high"
    ensures order == Rating <==> sortBy == "rating"
  {
    if sortBy == "price-low" then PriceLow
    else if sortBy == "price-high" then PriceHigh
    else if sortBy == "rating" then Rating
    else Default
  }

  /** Each comparator is `Key(a) - Key(b)` for this key. */
  function Key(order: SortOrder, p: Product): int {
    match order
    case Default => 0
    case PriceLow => p.price
    case PriceHigh => -p.price
    case Rating => -p.rating
  }

  predicate SortedBy(order: SortOrder, s: seq<Product>) {
    forall i, j :: 0 <= i < j < |s| ==> Key(order, s[i]) <= Key(order, s[j])
  }

  /** Places `x` before the first element whose key is not smaller, so an
      element inserted later than its equals stays ahead of them. */
  function Insert(order: SortOrder, x: Product, s: seq<Product>): seq<Product> {
    if s == [] then [x]
    else if Key(order, x) <= Key(order, s[0]) then [x] + s
    else [s[0]] + Insert(order, x, s[1..])
  }

  /** `Array.prototype.sort` with the comparator: a stable sort by key. */
  function SortBy(order: SortOrder, s: seq<Product>): seq<Product> {
    if s == [] then [] else Insert(order, s[0], SortBy(order, s[1..]))
  }

  lemma {:induction false} InsertPermutes(order: SortOrder, x: Product, s: seq<Product>)
    ensures multiset(Insert(order, x, s)) == multiset(s) + multiset{x}
  {
    if s != [] && Key(order, x) > Key(order, s[0]) {
      InsertPermutes(order, x, s[1..]);
      assert s == [s[0]] + s[1..];
    }
  }

  lemma {:induction false} InsertSorted(order: SortOrder, x: Product, s: seq<Product>)
    requires SortedBy(order, s)
    ensures SortedBy(order, Insert(order, x, s))
  {
    if s != [] && Key(order, x) > Key(order, s[0]) {
      var rest := Insert(order, x, s[1..]);
      InsertSorted(order, x, s[1..]);
      InsertPermutes(order, x, s[1..]);
      forall k | 0 <= k < |rest|
        ensures Key(order, s[0]) <= Key(order, rest[k])
      {
        assert rest[k] in multiset(rest);
        if rest[k] != x {
          assert rest[k] in multiset(s[1..]);
          var j :| 0 <= j < |s[1..]| && s[1..][j] == rest[k];
          assert s[j + 1] == rest[k];
        }
      }
      ConsSorted(order, s[0], rest);
    }
  }

  lemma ConsSorted(order: SortOrder, y: Product, rest: seq<Product>)
    requires SortedBy(order, rest)
    requires forall k :: 0 <= k < |rest| ==> Key(order, y) <= Key(order, rest[k])
    ensures SortedBy(order, [y] + rest)
  {
    var t := [y] + rest;
    forall i, j | 0 <= i < j < |t|
      ensures Key(order, t[i]) <= Key(order, t[j])
    {
      assert t[j] == rest[j - 1];
      if i > 0 {
        assert t[i] == rest[i - 1];
      }
    }
  }

  /** The sort returns its input ordered by key, with nothing added or lost. */
  lemma {:induction false} SortByCorrect(order: SortOrder, s: seq<Product>)
    ensures SortedBy(order, SortBy(order, s))
    ensures multiset(SortBy(order, s)) == multiset(s)
  {
    if s != [] {
      SortByCorrect(order, s[1..]);
      InsertSorted(order, s[0], SortBy(order, s[1..]));
      InsertPermutes(order, s[0], SortBy(order, s[1..]));
      assert s == [s[0]] + s[1..];
    }
  }

  /** The default comparator returns 0 for every pair, and a stable sort
      then leaves the list as it was. */
  lemma {:induction false} DefaultSortKeepsOrder(s: seq<Product>)
    ensures SortBy(Default, s) == s
  {
    if s != [] {
      DefaultSortKeepsOrder(s[1..]);
    }
  }

  lemma PermutationKeepsNoDuplicates(a: seq<Product>, b: seq<Product>)
    requires multiset(a) == multiset(b) && NoDuplicates(a)
    ensures NoDuplicates(b)
  {
    if !NoDuplicates(b) {
      var i, j :| 0 <= i < j < |b| && b[i] == b[j];
      assert multiset(b[..i] + b[i + 1..])[b[i]] >= 1 by {
        assert b[j] in b[..i] + b[i + 1..] by {
          assert (b[..i] + b[i + 1..])[j - 1] == b[j];
        }
      }
      assert b == b[..i] + [b[i]] + b[i + 1..];
      assert multiset(b)[b[i]] >= 2;
      MultiplicityAtMostOne(a, b[i]);
    }
  }

  lemma {:induction false} MultiplicityAtMostOne(a: seq<Product>, x: Product)
    requires NoDuplicates(a)
    ensures multiset(a)[x] <= 1
  {
    if a != [] {
      assert a == [a[0]] + a[1..];
      MultiplicityAtMostOne(a[1..], x);
      if a[0] == x {
        assert x !in a[1..];
      }
    }
  }

  /** The filter callback as the function value handed to `filter`. */
  function Selection(selectedCategory: string, range: PriceRange): Product -> bool {
    p => Matches(selectedCategory, range, p)
  }

  /** `filteredProducts`: exactly the products of `products` that match,
      ordered by the chosen key, each as often as in `products` (so never
      twice when the catalogue lists it once). */
  function FilteredProducts(products: seq<Product>, selectedCategory: string, range: PriceRange, order: SortOrder)
    : (r: seq<Product>)
    ensures forall i :: 0 <= i < |r| ==> r[i] in products && Matches(selectedCategory, range, r[i])
    ensures forall i :: 0 <= i < |products| && Matches(selectedCategory, range, products[i]) ==> products[i] in r
    ensures multiset(r) == multiset(Filter(products, Selection(selectedCategory, range)))
    ensures NoDuplicates(products) ==> NoDuplicates(r)
    ensures SortedBy(order, r)
    ensures order == PriceLow ==> forall i, j :: 0 <= i < j < |r| ==> r[i].price <= r[j].price
    ensures order == PriceHigh ==> forall i, j :: 0 <= i < j < |r| ==> r[i].price >= r[j].price
    ensures order == Rating ==> forall i, j :: 0 <= i < j < |r| ==> r[i].rating >= r[j].rating
    ensures order == Default ==> r == Filter(products, Selection(selectedCategory, range))
  {
    FilterNoDuplicatesIf(products, Selection(selectedCategory, range));
    SortedSelectionFacts(products, Filter(products, Selection(selectedCategory, range)), Selection(selectedCategory, range), order);
    SortBy(order, Filter(products, Selection(selectedCategory, range)))
  }

  lemma SortedSelectionFacts(products: seq<Product>, kept: seq<Product>, sel: Product -> bool, order: SortOrder)
    requires forall i :: 0 <= i < |kept| ==> kept[i] in products && sel(kept[i])
    requires NoDuplicates(products) ==> NoDuplicates(kept)
    ensures SortedBy(order, SortBy(order, kept)) && multiset(SortBy(order, kept)) == multiset(kept)
    ensures forall x :: x in SortBy(order, kept) <==> x in kept
    ensures forall i :: 0 <= i < |SortBy(order, kept)| ==> SortBy(order, kept)[i] in products && sel(SortBy(order, kept)[i])
    ensures NoDuplicates(products) ==> NoDuplicates(SortBy(order, kept))
    ensures order == Default ==> SortBy(order, kept) == kept
  {
    SortByCorrect(order, kept);
    DefaultSortKeepsOrder(kept);
    var r := SortBy(order, kept);
    forall x
      ensures x in r <==> x in kept
    {
      assert x in r <==> x in multiset(r);
      assert x in kept <==> x in multiset(kept);
    }
    forall i | 0 <= i < |r|
      ensures r[i] in products && sel(r[i])
    {
      assert r[i] in kept;
    }
    if NoDuplicates(products) {
      PermutationKeepsNoDuplicates(kept, r);
    }
  }

  lemma FilterNoDuplicatesIf(products: seq<Product>, p: Product -> bool)
    ensures NoDuplicates(products) ==> NoDuplicates(Filter(products, p))
  {
    if NoDuplicates(products) {
      FilterNoDuplicates(products, p);
    }
  }

  /** Product ids run 1 to 6, so the catalogue lists no product twice. */
  lemma CatalogueHasNoDuplicates()
    ensures forall i :: 0 <= i < |Catalogue| ==> Catalogue[i].id == i + 1
    ensures NoDuplicates(Catalogue)
  {
    var ids := seq(|Catalogue|, i requires 0 <= i < |Catalogue| => Catalogue[i].id);
    assert ids == [1, 2, 3, 4, 5, 6];
  }

  /** Every catalogue price lies within the initial $0-$500 range, so the
      first view shows all six products in catalogue order. */
  lemma InitialViewShowsCatalogue()
    ensures FilteredProducts(Catalogue, "", InitialRange, Default) == Catalogue
  {
    var prices := seq(|Catalogue|, i requires 0 <= i < |Catalogue| => Catalogue[i].price);
    assert prices == [5000, 8900, 27800, 12000, 8500, 19900];
    assert forall i :: 0 <= i < |Catalogue| ==> Selection("", InitialRange)(Catalogue[i]) by {
      forall i | 0 <= i < |Catalogue|
        ensures Selection("", InitialRange)(Catalogue[i])
      {
        assert Catalogue[i].price == prices[i];
      }
    }
    FilterKeepsAll(Catalogue, Selection("", InitialRange));
  }

  /** `toggleWishlist(id)`: remove every occurrence when present, append
      otherwise. */
  function Toggle(wishlist: seq<int>, id: int): seq<int> {
    if id in wishlist then Filter(wishlist, x => x != id) else wishlist + [id]
  }

  /** Toggling flips the membership of `id` and of nothing else. */
  lemma ToggleFlipsMembership(wishlist: seq<int>, id: int)
    ensures id in Toggle(wishlist, id) <==> id !in wishlist
    ensures forall x :: x != id ==> (x in Toggle(wishlist, id) <==> x in wishlist)
  {
    if id in wishlist {
      var r := Filter(wishlist, x => x != id);
      assert forall x :: x != id && x in wishlist ==> x in r by {
        forall x | x != id && x in wishlist
          ensures x in r
        {
          var i :| 0 <= i < |wishlist| && wishlist[i] == x;
        }
      }
    }
  }

  /** The wishlist never holds an id twice. */
  lemma ToggleKeepsNoDuplicates(wishlist: seq<int>, id: int)
    requires NoDuplicates(wishlist)
    ensures NoDuplicates(Toggle(wishlist, id))
  {
    if id in wishlist {
      FilterNoDuplicates(wishlist, x => x != id);
    }
  }

  /** Toggling an absent id twice restores the list; toggling a present id
      twice moves it to the end. */
  lemma ToggleTwice(wishlist: seq<int>, id: int)
    ensures id !in wishlist ==> Toggle(Toggle(wishlist, id), id) == wishlist
    ensures id in wishlist ==> Toggle(Toggle(wishlist, id), id) == Filter(wishlist, x => x != id) + [id]
  {
    if id !in wishlist {
      FilterConcat(wishlist, [id], x => x != id);
      FilterKeepsAll(wishlist, x => x != id);
      assert Filter([id], x => x != id) == [];
    } else {
      ToggleFlipsMembership(wishlist, id);
    }
  }

  /** The `EcommerceShop` component's filter, sort and wishlist state. */
  class ShopPage {
    var selectedCategory: string
    var priceRange: PriceRange
    var sortBy: string
    var wishlist: seq<int>

    /** The slider only ever moves the upper bound, and the wishlist holds
        no id twice. */
    ghost predicate Valid()
      reads this
    {
      priceRange.low == 0 && NoDuplicates(wishlist)
    }

    constructor ()
      ensures Valid()
      ensures selectedCategory == "" && priceRange == InitialRange && sortBy == "default" && wishlist == []
    {
      selectedCategory, priceRange, sortBy, wishlist := "", InitialRange, "default", [];
    }

    /** The products shown, whose length is the "Showing N Products" count. */
    function Shown(): (r: seq<Product>)
      reads this
      ensures forall i :: 0 <= i < |r| ==> r[i] in Catalogue && Matches(selectedCategory, priceRange, r[i])
      ensures NoDuplicates(r)
    {
      CatalogueHasNoDuplicates();
      FilteredProducts(Catalogue, selectedCategory, priceRange, ParseSortOrder(sortBy))
    }

    /** A click on a sidebar category. */
    method SelectCategory(name: string)
      requires Valid()
      modifies this
      ensures Valid()
      ensures selectedCategory == name
      ensures priceRange == old(priceRange) && sortBy == old(sortBy) && wishlist == old(wishlist)
    {
      selectedCategory := name;
    }

    /** The range input: `setPriceRange([0, parseInt(value)])`. */
    method SetPriceFromSlider(value: int)
      requires Valid()
      modifies this
      ensures Valid()
      ensures priceRange == PriceRange(0, value)
      ensures selectedCategory == old(selectedCategory) && sortBy == old(sortBy) && wishlist == old(wishlist)
    {
      priceRange := PriceRange(0, value);
    }

    /** The sort select. */
    method SetSortBy(value: string)
      requires Valid()
      modifies this
      ensures Valid()
      ensures sortBy == value
      ensures selectedCategory == old(selectedCategory) && priceRange == old(priceRange) && wishlist == old(wishlist)
    {
      sortBy := value;
    }

    method ToggleWishlist(id: int)
      requires Valid()
      modifies this
      ensures Valid()
      ensures wishlist == Toggle(old(wishlist), id)
      ensures selectedCategory == old(selectedCategory) && priceRange == old(priceRange) && sortBy == old(sortBy)
    {
      ToggleKeepsNoDuplicates(wishlist, id);
      wishlist := Toggle(wishlist, id);
    }
  }
}
