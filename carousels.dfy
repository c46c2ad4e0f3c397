/** The two carousels of src/components/HotDealsCarousel.tsx: the hot-deals
    carousel steps one product at a time and wraps around both ways; the
    featured-products carousel shows four products at a time and wraps to
    the start or the tail of the list. The one-step index arithmetic is
    shared with the home page's hero slider. */
module Carousels {
  import opened Common

  /** `(i + 1) % n`. With `0 <= i` the operand is not negative, so the
      remainder is JavaScript's too. */
  function NextIndex(i: int, n: int): (r: int)
    requires n > 0 && 0 <= i
    ensures 0 <= r < n
    ensures i + 1 < n ==> r == i + 1
    ensures i + 1 == n ==> r == 0
  {
    (i + 1) % n
  }

  /** `(i - 1 + n) % n`; `0 <= i` keeps the operand non-negative. */
  function PrevIndex(i: int, n: int): (r: int)
    requires n > 0 && 0 <= i
    ensures 0 <= r < n
    ensures 0 < i <= n ==> r == i - 1
    ensures i == 0 ==> r == n - 1
  {
    (i - 1 + n) % n
  }

  /** Previous undoes next and next undoes previous, at every position. */
  lemma PrevNextInverse(i: int, n: int)
    requires 0 <= i < n
    ensures PrevIndex(NextIndex(i, n), n) == i
    ensures NextIndex(PrevIndex(i, n), n) == i
  {
  }

  /** Stepping forward `k` times from `i`. */
  function Advance(i: int, n: int, k: nat): (r: int)
    requires 0 <= i < n
    ensures 0 <= r < n
  {
    if k == 0 then i else NextIndex(Advance(i, n, k - 1), n)
  }

  /** Division with remainder is unique. */
  lemma ModUnique(a: int, n: int, q: int, r: int)
    requires n > 0 && a == q * n + r && 0 <= r < n
    ensures a % n == r
  {
    var d := a / n - q;
    assert d * n == r - a % n;
    MultipleBounds(d, n);
  }

  lemma MultipleBounds(d: int, n: int)
    requires n > 0
    ensures d >= 1 ==> d * n >= n
    ensures d <= -1 ==> d * n <= -n
  {
  }

  /** One more step on the remainder is one more step on the dividend. */
  lemma ModStep(a: int, n: int)
    requires n > 0
    ensures (a % n + 1) % n == (a + 1) % n
  {
    var q, p := a / n, a % n;
    assert a == q * n + p;
    if p + 1 < n {
      ModUnique(a + 1, n, q, p + 1);
      ModUnique(p + 1, n, 0, p + 1);
    } else {
      assert a + 1 == (q + 1) * n;
      ModUnique(a + 1, n, q + 1, 0);
      ModUnique(p + 1, n, 1, 0);
    }
  }

  /** `k` steps forward land on `(i + k) % n`, so `n` steps come back to the
      start. */
  lemma {:induction false} AdvanceIsModular(i: int, n: int, k: nat)
    requires 0 <= i < n
    ensures Advance(i, n, k) == (i + k) % n
  {
    if k == 0 {
      ModUnique(i, n, 0, i);
    } else {
      AdvanceIsModular(i, n, k - 1);
      ModStep(i + k - 1, n);
    }
  }

  lemma FullCycleReturns(i: int, n: int)
    requires 0 <= i < n
    ensures Advance(i, n, n) == i
  {
    AdvanceIsModular(i, n, n);
    ModUnique(i + n, n, 1, i);
  }

  /** The `HotDealsCarousel` component over a non-empty product list. */
  class HotDeals<T> {
    const products: seq<T>
    var currentIndex: int

    ghost predicate Valid()
      reads this
    {
      0 <= currentIndex < |products|
    }

    /** `products[currentIndex]` is read on every render, so an empty list
        cannot be shown. */
    constructor (products: seq<T>)
      requires |products| > 0
      ensures Valid() && this.products == products && currentIndex == 0
    {
      this.products := products;
      currentIndex := 0;
    }

    function CurrentProduct(): T
      reads this
      requires Valid()
    {
      products[currentIndex]
    }

    method NextProduct()
      requires Valid()
      modifies this
      ensures Valid() && currentIndex == NextIndex(old(currentIndex), |products|)
    {
      currentIndex := (currentIndex + 1) % |products|;
    }

    method PrevProduct()
      requires Valid()
      modifies this
      ensures Valid() && currentIndex == PrevIndex(old(currentIndex), |products|)
    {
      currentIndex := (currentIndex - 1 + |products|) % |products|;
    }

    /** A click on the dot of product `index`. */
    method SelectIndicator(index: int)
      requires Valid() && 0 <= index < |products|
      modifies this
      ensures Valid() && currentIndex == index
    {
      currentIndex := index;
    }
  }

  const ItemsPerPage := 4

  /** `nextProducts`: wrap to the start when the next page would begin at or
      past the end, otherwise advance a page. */
  function NextPageStart(i: int, len: nat): (r: int)
    ensures 0 <= i ==> 0 <= r
    ensures r == 0 || r < len
    ensures i + ItemsPerPage < len ==> r == i + ItemsPerPage
    ensures i + ItemsPerPage >= len ==> r == 0
  {
    if i + ItemsPerPage >= len then 0 else i + ItemsPerPage
  }

  /** `prevProducts`: from the start, jump to the last four products (all of
      them when there are fewer); elsewhere go back a page, not below 0. */
  function PrevPageStart(i: int, len: nat): (r: int)
    ensures 0 <= r
    ensures i == 0 ==> r == if len > ItemsPerPage then len - ItemsPerPage else 0
    ensures i != 0 ==> r == if i > ItemsPerPage then i - ItemsPerPage else 0
    ensures 0 <= i && (i < len || i == 0) ==> r == 0 || r < len
  {
    if i == 0 then Max(0, len - ItemsPerPage) else Max(0, i - ItemsPerPage)
  }

  function Max(a: int, b: int): int {
    if a < b then b else a
  }

  /** Inside the list, going back a page undoes going forward one, as long
      as the index sits on a page boundary. */
  lemma PrevUndoesNext(i: int, len: nat)
    requires 0 <= i && i % ItemsPerPage == 0 && i + ItemsPerPage < len
    ensures PrevPageStart(NextPageStart(i, len), len) == i
  {
  }

  /** `products.slice(i, i + 4)`: at most four products, those from `i` on
      in list order. */
  function VisibleProducts<T>(products: seq<T>, i: int): (r: seq<T>)
    requires 0 <= i
    ensures |r| <= ItemsPerPage
    ensures i <= |products| ==> r == products[i..if i + ItemsPerPage <= |products| then i + ItemsPerPage else |products|]
    ensures i < |products| ==> |r| > 0
  {
    SliceWindow(products, i, ItemsPerPage);
    Slice(products, i, i + ItemsPerPage)
  }

  /** `Math.ceil(len / 4)`: the fewest pages of four that hold `len`
      products. */
  function IndicatorCount(len: nat): (r: nat)
    ensures ItemsPerPage * r >= len
    ensures r > 0 ==> ItemsPerPage * (r - 1) < len
  {
    (len + ItemsPerPage - 1) / ItemsPerPage
  }

  /** `Math.floor(i / 4)`: the page that holds index `i`. */
  function ActiveIndicator(i: nat): (r: nat)
    ensures ItemsPerPage * r <= i < ItemsPerPage * (r + 1)
  {
    i / ItemsPerPage
  }

  /** Clicking indicator `k` shows a non-empty page whose indicator is `k`,
      and every index inside the list lights one of the indicators. */
  lemma IndicatorsMatchPages(k: nat, i: nat, len: nat)
    ensures k < IndicatorCount(len) ==> ItemsPerPage * k < len && ActiveIndicator(ItemsPerPage * k) == k
    ensures i < len ==> ActiveIndicator(i) < IndicatorCount(len)
  {
  }

  /** Going back from the start does not land on a page boundary: with ten
      products it shows products 6 to 9 and lights the second of three
      indicators, whereas going forward reaches the last page at index 8. */
  lemma PrevFromStartIsUnaligned()
    ensures PrevPageStart(0, 10) == 6 && ActiveIndicator(6) == 1 && IndicatorCount(10) == 3
    ensures NextPageStart(NextPageStart(0, 10), 10) == 8 && ActiveIndicator(8) == 2
  {
  }

  /** The `FeaturedProductsCarousel` component. */
  class FeaturedCarousel<T> {
    const products: seq<T>
    var currentIndex: int

    /** The index is never negative and, unless it is 0, lies inside the
        list, so the visible page is never empty for a non-empty list. */
    ghost predicate Valid()
      reads this
    {
      0 <= currentIndex && (currentIndex == 0 || currentIndex < |products|)
    }

    constructor (products: seq<T>)
      ensures Valid() && this.products == products && currentIndex == 0
    {
      this.products := products;
      currentIndex := 0;
    }

    function Visible(): (r: seq<T>)
      reads this
      requires Valid()
      ensures |r| <= ItemsPerPage
      ensures |products| > 0 ==> |r| > 0
    {
      VisibleProducts(products, currentIndex)
    }

    method NextProducts()
      requires Valid()
      modifies this
      ensures Valid() && currentIndex == NextPageStart(old(currentIndex), |products|)
    {
      if currentIndex + ItemsPerPage >= |products| {
        currentIndex := 0;
      } else {
        currentIndex := currentIndex + ItemsPerPage;
      }
    }

    method PrevProducts()
      requires Valid()
      modifies this
      ensures Valid() && currentIndex == PrevPageStart(old(currentIndex), |products|)
    {
      if currentIndex == 0 {
        currentIndex := Max(0, |products| - ItemsPerPage);
      } else {
        currentIndex := Max(0, currentIndex - ItemsPerPage);
      }
    }

    /** A click on indicator `k`, one of the `IndicatorCount` rendered. */
    method SelectIndicator(k: nat)
      requires Valid() && k < IndicatorCount(|products|)
      modifies this
      ensures Valid() && currentIndex == ItemsPerPage * k
      ensures ActiveIndicator(currentIndex) == k
    {
      IndicatorsMatchPages(k, 0, |products|);
      currentIndex := ItemsPerPage * k;
    }
  }
}
