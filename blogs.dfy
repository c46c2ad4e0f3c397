/** The blog page (src/components/Blogs.tsx): twenty generated posts, the
    "recent", "popular" and "comments" sidebars derived from them, the
    in-place sort by views that reorders the shared post list, and the
    paginated listing with its page-number buttons. The random counts of
    each post are inputs. */
module Blogs {
  import opened Common

  /** The three random counts of a post: comments, views, read time. */
  datatype Draw = Draw(comments: int, views: int, readTime: int)

  datatype Blog = Blog(
    id: nat, title: string, date: string, author: string, comments: int, views: int,
    image: string, category: string, readTime: int)

  const PostCount := 20

  /** `blogImages`: the fifth entry is the first picture again. */
  const BlogImages: seq<string> := ["blog1.jpg", "blog2.jpg", "blog3.jpg", "blog4.jpg", "blog1.jpg"]

  const Categories: seq<string> := ["Technology", "Business", "Design", "Marketing", "E-commerce"]

  function DigitChar(d: nat): char
    requires d < 10
  {
    ('0' as int + d) as char
  }

  /** A natural number written in decimal without leading zeros, as a
      template literal writes it. */
  function DecimalString(n: nat): (r: string)
    ensures |r| > 0
    ensures forall k :: 0 <= k < |r| ==> '0' <= r[k] <= '9'
    ensures n < 10 ==> r == [DigitChar(n)]
    ensures n >= 10 ==> r[0] != '0'
  {
    if n < 10 then [DigitChar(n)] else DecimalString(n / 10) + [DigitChar(n % 10)]
  }

  /** The number a string of decimal digits spells, most significant digit
      first. */
  function DigitsValue(s: string): int {
    if s == [] then 0 else 10 * DigitsValue(s[..|s| - 1]) + (s[|s| - 1] as int - '0' as int)
  }

  /** The digits `DecimalString` writes spell exactly the number given. */
  lemma {:induction false} DecimalStringValue(n: nat)
    ensures DigitsValue(DecimalString(n)) == n
  {
    var r := DecimalString(n);
    if n < 10 {
      assert r[..|r| - 1] == [];
    } else {
      assert r[..|r| - 1] == DecimalString(n / 10);
      DecimalStringValue(n / 10);
    }
  }

  /** Post `i` of `Array.from({ length: 20 }, (_, i) => ...)`. */
  function MakeBlog(i: nat, d: Draw): Blog {
    Blog(
      i + 1,
      "Blog Post " + DecimalString(i + 1) + ": Latest Tech Trends",
      "2025-09-" + DecimalString(i % 30 + 1),
      "Author " + DecimalString(i % 5 + 1),
      d.comments, d.views,
      BlogImages[i % |BlogImages|],
      Categories[i % 5],
      d.readTime)
  }

  /** The generated list, one post per draw. */
  function GenerateBlogs(draws: seq<Draw>): (r: seq<Blog>)
    ensures |r| == |draws|
    ensures forall i :: 0 <= i < |r| ==> r[i] == MakeBlog(i, draws[i])
    ensures forall p, q :: 0 <= p < q < |r| ==> r[p].id < r[q].id
  {
    seq(|draws|, i requires 0 <= i < |draws| => MakeBlog(i, draws[i]))
  }

  /** Ids count up from 1; authors, categories and pictures cycle with
      period five; days are not zero-padded. */
  lemma GeneratedFields(i: nat, d: Draw)
    ensures MakeBlog(i, d).id == i + 1
    ensures MakeBlog(i, d).author == MakeBlog(i + 5, d).author
    ensures MakeBlog(i, d).category == MakeBlog(i + 5, d).category
    ensures MakeBlog(i, d).image == MakeBlog(i + 5, d).image
  {
  }

  /** The first post's title, unpadded days, and the fifth picture. */
  lemma GeneratedExamples(d: Draw)
    ensures MakeBlog(0, d).title == "Blog Post 1: Latest Tech Trends"
    ensures MakeBlog(0, d).date == "2025-09-1" && MakeBlog(9, d).date == "2025-09-10"
    ensures MakeBlog(7, d).author == "Author 3" && MakeBlog(4, d).image == MakeBlog(0, d).image
  {
    assert DecimalString(10) == "10";
  }

  /** `blogs.slice(-5)`, taken before the sort: the last five posts in
      generation order. */
  function RecentBlogs(blogs: seq<Blog>): (r: seq<Blog>)
    ensures |blogs| >= 5 ==> r == blogs[|blogs| - 5..]
    ensures |blogs| < 5 ==> r == blogs
  {
    SliceLast(blogs, 5);
    Slice(blogs, -5, |blogs|)
  }

  /** With the twenty generated posts the recent ones are posts 16 to 20. */
  lemma RecentAreTheLastFive(draws: seq<Draw>)
    requires |draws| == PostCount
    ensures |RecentBlogs(GenerateBlogs(draws))| == 5
    ensures forall k :: 0 <= k < 5 ==> RecentBlogs(GenerateBlogs(draws))[k].id == 16 + k
  {
  }

  /** The order `(a, b) => b.views - a.views` leaves in a stable sort over
      posts generated in id order: more views first, equal views by id. */
  predicate ViewOrdered(x: Blog, y: Blog) {
    x.views > y.views || (x.views == y.views && x.id < y.id)
  }

  predicate SortedByViews(s: seq<Blog>) {
    forall p, q :: 0 <= p < q < |s| ==> ViewOrdered(s[p], s[q])
  }

  /** `blogs.sort((a, b) => b.views - a.views)`, in place. A post moves in
      front of another only when it has strictly more views, so posts with
      equal views keep their order, which is id order. */
  method SortByViews(a: array<Blog>)
    requires forall p, q :: 0 <= p < q < a.Length ==> a[p].id < a[q].id
    modifies a
    ensures SortedByViews(a[..])
    ensures multiset(a[..]) == multiset(old(a[..]))
  {
    if a.Length == 0 {
      return;
    }
    var i := 1;
    while i < a.Length
      invariant 1 <= i <= a.Length
      invariant SortedByViews(a[..i])
      invariant multiset(a[..]) == multiset(old(a[..]))
      invariant a[i..] == old(a[..])[i..]
      invariant forall p :: 0 <= p < i ==> a[p].id <= old(a[..])[i - 1].id
    {
      ghost var before := a[..];
      InsertLast(a, i);
      assert a[i + 1..] == before[i..][1..] == old(a[..])[i..][1..];
      i := i + 1;
    }
    assert a[..] == a[..a.Length];
  }

  /** Sinks `a[i]` into the sorted prefix `a[..i]`, swapping it past posts
      with strictly fewer views. */
  method InsertLast(a: array<Blog>, i: int)
    requires 1 <= i < a.Length
    requires SortedByViews(a[..i])
    requires forall p :: 0 <= p < i ==> a[p].id < a[i].id
    modifies a
    ensures SortedByViews(a[..i + 1])
    ensures multiset(a[..]) == multiset(old(a[..]))
    ensures a[i + 1..] == old(a[i + 1..])
    ensures forall p :: 0 <= p <= i ==> a[p].id <= old(a[i]).id
  {
    ghost var x := a[i];
    var j := i;
    while j > 0 && a[j - 1].views < a[j].views
      invariant 0 <= j <= i
      invariant a[j] == x
      invariant multiset(a[..]) == multiset(old(a[..]))
      invariant a[i + 1..] == old(a[i + 1..])
      invariant forall p, q :: 0 <= p < q <= i && p != j && q != j ==> ViewOrdered(a[p], a[q])
      invariant forall q :: j < q <= i ==> ViewOrdered(a[j], a[q])
      invariant forall p :: 0 <= p <= i && p != j ==> a[p].id < x.id
    {
      SwapDown(a, j);
      j := j - 1;
    }
    forall p | 0 <= p < j
      ensures ViewOrdered(a[p], a[j])
    {
      assert ViewOrdered(a[j - 1], a[j]);
    }
  }

  /** Only one arrangement of a list of posts is sorted by views: every
      stable sort with the comparator, and this one, leave the same list. */
  lemma {:induction false} SortedByViewsUnique(s: seq<Blog>, t: seq<Blog>)
    requires SortedByViews(s) && SortedByViews(t) && multiset(s) == multiset(t)
    ensures s == t
  {
    if s != [] {
      SortedHeadsAgree(s, t);
      MultisetTails(s, t);
      SortedByViewsUnique(s[1..], t[1..]);
    }
  }

  lemma SortedHeadsAgree(s: seq<Blog>, t: seq<Blog>)
    requires SortedByViews(s) && SortedByViews(t) && multiset(s) == multiset(t) && s != []
    ensures t != [] && s[0] == t[0]
  {
    assert |t| == |multiset(t)| == |multiset(s)| == |s|;
    assert s[0] in multiset(t) && t[0] in multiset(s);
  }

  /** Exchanges `a[j - 1]` and `a[j]`. */
  method SwapDown(a: array<Blog>, j: int)
    requires 1 <= j < a.Length
    modifies a
    ensures a[j - 1] == old(a[j]) && a[j] == old(a[j - 1])
    ensures forall k :: 0 <= k < a.Length && k != j - 1 && k != j ==> a[k] == old(a[k])
    ensures multiset(a[..]) == multiset(old(a[..]))
  {
    a[j], a[j - 1] := a[j - 1], a[j];
  }

  /** An entry of the "comments" tab. */
  datatype Comment = Comment(blogId: nat, text: string, author: string)

  function CommentOf(b: Blog): Comment {
    Comment(b.id, "Great insights on " + b.category + "! Thanks for sharing...", "User" + DecimalString(b.id))
  }

  /** `commentsData`: one entry for each of the first five posts of the
      (already sorted) list. */
  function CommentsData(blogs: seq<Blog>): (r: seq<Comment>)
    ensures |r| == if |blogs| < 5 then |blogs| else 5
    ensures forall k :: 0 <= k < |r| ==> r[k].blogId == blogs[k].id && r[k].author == "User" + DecimalString(blogs[k].id)
  {
    var all := seq(|blogs|, k requires 0 <= k < |blogs| => CommentOf(blogs[k]));
    SliceWindow(all, 0, 5);
    Slice(all, 0, 5)
  }

  /** The module-level data: the posts are generated, `recentBlogs` is cut
      off, then the sort reorders the very list the page lists, and
      `popularBlogs` and `commentsData` read the sorted list. */
  method InitBlogData(draws: seq<Draw>) returns (blogs: array<Blog>, recent: seq<Blog>, popular: seq<Blog>, comments: seq<Comment>)
    ensures fresh(blogs)
    ensures multiset(blogs[..]) == multiset(GenerateBlogs(draws)) && SortedByViews(blogs[..])
    ensures recent == RecentBlogs(GenerateBlogs(draws))
    ensures popular == FirstFive(blogs[..]) && comments == CommentsData(blogs[..])
  {
    var generated := GenerateBlogs(draws);
    blogs := new Blog[|generated|](k requires 0 <= k < |generated| => generated[k]);
    assert blogs[..] == generated;
    recent := RecentBlogs(blogs[..]);
    SortByViews(blogs);
    popular := FirstFive(blogs[..]);
    comments := CommentsData(blogs[..]);
  }

  /** The most viewed post heads both the listing and the popular tab. */
  lemma PopularIsMostViewed(blogs: seq<Blog>, b: Blog)
    requires SortedByViews(blogs) && b in blogs
    ensures FirstFive(blogs)[0] == blogs[0] && blogs[0].views >= b.views
  {
  }

  const BlogsPerPage := 6

  /** `Math.ceil(blogs.length / 6)`. */
  function TotalPages(len: nat): (r: nat)
    ensures BlogsPerPage * r >= len
    ensures r > 0 ==> BlogsPerPage * (r - 1) < len
  {
    (len + BlogsPerPage - 1) / BlogsPerPage
  }

  /** `blogs.slice((page - 1) * 6, (page - 1) * 6 + 6)`. */
  function PageSlice(blogs: seq<Blog>, page: int): (r: seq<Blog>)
    requires page >= 1
    ensures |r| <= BlogsPerPage
    ensures forall k :: 0 <= k < |r| ==> (page - 1) * BlogsPerPage + k < |blogs| && r[k] == blogs[(page - 1) * BlogsPerPage + k]
    ensures (page - 1) * BlogsPerPage <= |blogs| ==> r == blogs[(page - 1) * BlogsPerPage..Min(page * BlogsPerPage, |blogs|)]
    ensures page <= TotalPages(|blogs|) ==> |r| > 0
    ensures page > TotalPages(|blogs|) ==> r == []
  {
    SliceWindow(blogs, (page - 1) * BlogsPerPage, BlogsPerPage);
    Slice(blogs, (page - 1) * BlogsPerPage, (page - 1) * BlogsPerPage + BlogsPerPage)
  }

  function Min(a: int, b: int): int {
    if a < b then a else b
  }

  function Max(a: int, b: int): int {
    if a < b then b else a
  }

  /** The page-number buttons as written: `min(totalPages, 5)` consecutive
      numbers from `max(1, currentPage - 2)`, with no clamp at the end. */
  function PageWindow(currentPage: int, totalPages: nat): (r: seq<int>)
    ensures |r| == Min(totalPages, 5)
    ensures forall k :: 0 <= k < |r| ==> r[k] == Max(1, currentPage - 2) + k
  {
    seq(Min(totalPages, 5), k => Max(1, currentPage - 2) + k)
  }

  /** With twenty posts there are four pages, yet on page 4 the buttons
      read 2 to 5; page 5 lists nothing and its "Next" is enabled because
      it is not page 4, so the listing can step past the end. */
  lemma WindowOverrunsLastPage(blogs: seq<Blog>)
    requires |blogs| == PostCount
    ensures TotalPages(|blogs|) == 4
    ensures PageWindow(4, 4) == [2, 3, 4, 5]
    ensures PageSlice(blogs, 5) == [] && 5 != TotalPages(|blogs|)
    ensures PageWindow(5, 4) == [3, 4, 5, 6]
  {
  }

  /** The buttons as evidently intended: the same number of consecutive
      pages, around the current one, but shifted back so that the last
      button is at most the last page. */
  function ClampedPageWindow(currentPage: int, totalPages: nat): (r: seq<int>)
    ensures |r| == Min(totalPages, 5)
    ensures forall k :: 0 <= k < |r| ==> r[k] == r[0] + k
    ensures 1 <= currentPage <= totalPages ==>
      (forall k :: 0 <= k < |r| ==> 1 <= r[k] <= totalPages) && currentPage in r
    ensures 1 <= currentPage && currentPage + 2 <= totalPages ==> r == PageWindow(currentPage, totalPages)
  {
    var count := Min(totalPages, 5);
    var start := Max(1, Min(currentPage - 2, totalPages - count + 1));
    var r := seq(count, k => start + k);
    assert 1 <= currentPage <= totalPages ==> r[currentPage - start] == currentPage;
    r
  }

  /** The listing of the blog page over the sorted posts. */
  class BlogPage {
    const blogs: seq<Blog>
    var currentPage: int

    /** The page is always one of the pages. */
    ghost predicate Valid()
      reads this
    {
      1 <= currentPage <= TotalPages(|blogs|)
    }

    constructor (blogs: seq<Blog>)
      requires |blogs| > 0
      ensures Valid() && this.blogs == blogs && currentPage == 1
    {
      this.blogs := blogs;
      currentPage := 1;
    }

    /** `currentBlogs`: never empty while the page is valid. */
    function CurrentBlogs(): (r: seq<Blog>)
      reads this
      requires Valid()
      ensures 0 < |r| <= BlogsPerPage
    {
      PageSlice(blogs, currentPage)
    }

    /** "Previous", enabled unless on page 1. */
    method Previous()
      requires Valid() && currentPage != 1
      modifies this
      ensures Valid() && currentPage == old(currentPage) - 1
    {
      currentPage := currentPage - 1;
    }

    /** "Next", enabled unless on the last page. */
    method Next()
      requires Valid() && currentPage != TotalPages(|blogs|)
      modifies this
      ensures Valid() && currentPage == old(currentPage) + 1
    {
      currentPage := currentPage + 1;
    }

    /** A page-number button of the clamped window. */
    method SelectPage(page: int)
      requires Valid() && page in ClampedPageWindow(currentPage, TotalPages(|blogs|))
      modifies this
      ensures Valid() && currentPage == page
    {
      currentPage := page;
    }
  }
}
