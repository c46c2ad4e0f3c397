/** The best-selling strip (src/components/bestSellingProducts.tsx): four
    products at a time from a fixed list, with next and previous buttons
    that move only while there is a page to move to, and a badge per
    product. */
module BestSelling {
  import opened Common
  import opened Carousels

  /** The fields of a listed product that decide its badge. */
  datatype Product = Product(id: int, name: string, discount: Option<string>, badge: Option<string>)

  /** The six products of the strip. */
  const BestSellers: seq<Product> := [
    Product(1, "Apple Watch Series 5", Some("17% OFF"), None),
    Product(2, "Microsoft Xbox One Wireless Controller", Some("44% OFF"), None),
    Product(3, "JBL On-Ear Headphones", None, Some("FEATURED")),
    Product(4, "Samsung Virtual Reality Headset", None, None),
    Product(5, "Apple Watch Series 5 Black Milanese Loop", None, None),
    Product(6, "Samsung Gear 360 Camera", Some("40% OFF"), None)
  ]

  /** `(discount || badge) && <span>{discount || badge}</span>`: a badge is
      shown when either is a non-empty string, and the discount wins. */
  function BadgeText(p: Product): (r: Option<string>)
    ensures r.Some? <==> Truthy(p.discount) || Truthy(p.badge)
    ensures Truthy(p.discount) ==> r == p.discount
    ensures !Truthy(p.discount) && Truthy(p.badge) ==> r == p.badge
    ensures r.Some? ==> r.value != ""
  {
    if Truthy(p.discount) then p.discount
    else if Truthy(p.badge) then p.badge
    else None
  }

  /** The list's badges: three discounts, one "FEATURED", two without. */
  lemma BestSellerBadges()
    ensures BadgeText(BestSellers[0]) == Some("17% OFF")
    ensures BadgeText(BestSellers[1]) == Some("44% OFF")
    ensures BadgeText(BestSellers[2]) == Some("FEATURED")
    ensures BadgeText(BestSellers[3]) == None && BadgeText(BestSellers[4]) == None
    ensures BadgeText(BestSellers[5]) == Some("40% OFF")
  {
  }

  /** The right arrow, and the guard of `next`. */
  predicate HasNextPage(startIndex: int, len: nat) {
    startIndex + ItemsPerPage < len
  }

  /** The guard of `prev`. */
  predicate HasPrevPage(startIndex: int) {
    startIndex - ItemsPerPage >= 0
  }

  /** The left arrow. */
  predicate ShowLeftArrow(startIndex: int) {
    startIndex > 0
  }

  /** On a page boundary the left arrow is shown exactly when `prev` would
      move; the right arrow is the `next` guard itself. So a shown arrow
      always moves and a hidden one would not. */
  lemma ArrowsMatchGuards(startIndex: int)
    requires 0 <= startIndex && startIndex % ItemsPerPage == 0
    ensures ShowLeftArrow(startIndex) <==> HasPrevPage(startIndex)
  {
  }

  /** The `BestSellingProducts` component's paging state over `products`. */
  class Strip<T> {
    const products: seq<T>
    var startIndex: int

    /** From 0, steps of four keep the start a non-negative multiple of four
        inside the list (or 0 for an empty one). */
    ghost predicate Valid()
      reads this
    {
      0 <= startIndex && startIndex % ItemsPerPage == 0 && (startIndex < |products| || startIndex == 0)
    }

    constructor (products: seq<T>)
      ensures Valid() && this.products == products && startIndex == 0
    {
      this.products := products;
      startIndex := 0;
    }

    /** `visibleProducts`: at most four, starting at `startIndex`, and never
        empty for a non-empty list. */
    function Visible(): (r: seq<T>)
      reads this
      requires Valid()
      ensures |r| <= ItemsPerPage
      ensures |products| > 0 ==> |r| > 0 && r[0] == products[startIndex]
      ensures forall k :: 0 <= k < |r| ==> startIndex + k < |products| && r[k] == products[startIndex + k]
    {
      VisibleProducts(products, startIndex)
    }

    method Next()
      requires Valid()
      modifies this
      ensures Valid()
      ensures HasNextPage(old(startIndex), |products|) ==> startIndex == old(startIndex) + ItemsPerPage
      ensures !HasNextPage(old(startIndex), |products|) ==> startIndex == old(startIndex)
    {
      if startIndex + ItemsPerPage < |products| {
        startIndex := startIndex + ItemsPerPage;
      }
    }

    method Prev()
      requires Valid()
      modifies this
      ensures Valid()
      ensures HasPrevPage(old(startIndex)) ==> startIndex == old(startIndex) - ItemsPerPage
      ensures !HasPrevPage(old(startIndex)) ==> startIndex == old(startIndex)
    {
      if startIndex - ItemsPerPage >= 0 {
        startIndex := startIndex - ItemsPerPage;
      }
    }
  }

  /** With the six products there are two pages: `next` moves from 0 to 4,
      where two products remain and `next` no longer moves. */
  lemma TwoPagesOfBestSellers()
    ensures HasNextPage(0, |BestSellers|) && !HasNextPage(4, |BestSellers|)
    ensures |VisibleProducts(BestSellers, 4)| == 2
    ensures !HasPrevPage(0) && HasPrevPage(4)
  {
  }
}
