/** The wholesale catalog's pagination (components/Dashboard.tsx): a fixed
    page size, a `currentPage` state field, the window of the product list
    shown on that page, the "Showing X to Y of N" summary, and the Previous,
    Next and page-number buttons that move `currentPage`. */
module Catalog {

  /** One row of the catalog table. Prices are whole numbers in the sample. */
  datatype CatalogItem = CatalogItem(
    id: int, hsn: string, productName: string, brandName: string, pack: string,
    batchNo: string, mrp: int, rate: int, gst: int, finalPrice: int)

  /** The sample list the component renders. */
  const SampleProducts := [
    CatalogItem(1, "12345", "Product A", "Brand X", "10 units", "BAT123", 100, 80, 18, 90),
    CatalogItem(2, "67890", "Product B", "Brand Y", "5 units", "BAT456", 50, 40, 12, 45),
    CatalogItem(3, "11111", "Product C", "Brand Z", "20 units", "BAT789", 200, 160, 18, 180),
    CatalogItem(4, "22222", "Product D", "Brand A", "15 units", "BAT101", 75, 60, 12, 65),
    CatalogItem(5, "33333", "Product E", "Brand B", "8 units", "BAT202", 120, 95, 18, 110)
  ]

  /** `productsPerPage` */
  const ProductsPerPage := 10

  /** `indexOfLastProduct = currentPage * productsPerPage`: the end of a page
      falls on a multiple of the page size, at least one page in from page 1 on. */
  function IndexOfLast(page: int): (r: int)
    ensures r % ProductsPerPage == 0
    ensures 1 <= page ==> ProductsPerPage <= r
  {
    page * ProductsPerPage
  }

  /** `indexOfFirstProduct = indexOfLastProduct - productsPerPage`: a page
      spans one page size, and it starts where the page before it ends. */
  function IndexOfFirst(page: int): (r: int)
    ensures r + ProductsPerPage == IndexOfLast(page)
    ensures r == IndexOfLast(page - 1)
    ensures 1 <= page ==> 0 <= r
  {
    IndexOfLast(page) - ProductsPerPage
  }

  function Min(a: int, b: int): int {
    if a <= b then a else b
  }

  /** How `Array.prototype.slice` reads one of its bounds: a negative bound
      counts back from the end, and the result is clamped to `[0, n]`. */
  function SliceBound(i: int, n: nat): (k: nat)
    ensures k <= n
    ensures 0 <= i ==> k == Min(i, n)
    ensures i < 0 ==> k == if n + i < 0 then 0 else n + i
  {
    if i < 0 then (if n + i < 0 then 0 else n + i)
    else if i > n then n
    else i
  }

  /** `s.slice(begin, end)`: empty when the clamped end is not past the
      clamped beginning. */
  function JsSlice<T>(s: seq<T>, begin: int, end: int): (r: seq<T>)
    ensures |r| <= |s|
    ensures 0 <= begin <= end <= |s| ==> r == s[begin..end]
    ensures end <= begin && (0 <= end || begin < 0) ==> r == []
  {
    var b, e := SliceBound(begin, |s|), SliceBound(end, |s|);
    if b < e then s[b..e] else []
  }

  /** `currentProducts`: the products shown on a page. Whatever `currentPage`
      holds, at most one page's worth is shown. */
  function CurrentProducts<T>(s: seq<T>, page: int): (r: seq<T>)
    ensures |r| <= ProductsPerPage
    ensures 1 <= page ==> r == s[Min(IndexOfFirst(page), |s|)..Min(IndexOfLast(page), |s|)]
  {
    JsSlice(s, IndexOfFirst(page), IndexOfLast(page))
  }

  /** `totalPages = Math.ceil(n / productsPerPage)`: the fewest pages that
      hold n products. */
  function TotalPages(n: nat): (t: nat)
    ensures n <= t * ProductsPerPage
    ensures t == 0 || (t - 1) * ProductsPerPage < n
    ensures t == 0 <==> n == 0
  {
    (n + ProductsPerPage - 1) / ProductsPerPage
  }

  /** The list the component renders fits on one page: all five products
      are shown on page 1, Next is disabled there, and no run of clicks on
      the drawn buttons leaves page 1. */
  lemma SampleIsOnePage(clicks: seq<Click>)
    requires ButtonsDrawn(TotalPages(|SampleProducts|), clicks)
    ensures TotalPages(|SampleProducts|) == 1
    ensures CurrentProducts(SampleProducts, 1) == SampleProducts
    ensures Navigate(1, TotalPages(|SampleProducts|), clicks) == 1
  {
    NavigationStaysInRange(1, TotalPages(|SampleProducts|), clicks);
  }

  /** Every page from 1 to `totalPages` shows a non-empty run of consecutive
      products, starting at `indexOfFirstProduct`. */
  lemma PageInRange<T>(s: seq<T>, page: int)
    requires 1 <= page <= TotalPages(|s|)
    ensures IndexOfFirst(page) < |s|
    ensures CurrentProducts(s, page) == s[IndexOfFirst(page)..Min(IndexOfLast(page), |s|)]
    ensures CurrentProducts(s, page) != []
  {
  }

  /** The pages from `page` to `total`, in order, joined together. */
  function PagesFrom<T>(s: seq<T>, page: int, total: nat): seq<T>
    decreases total + 1 - page
  {
    if page > total then [] else CurrentProducts(s, page) + PagesFrom(s, page + 1, total)
  }

  /** Joining the pages from `page` on gives the list from that page's first
      index on (nothing once past the last page). */
  lemma {:induction false} PagesFromSuffix<T>(s: seq<T>, page: int)
    requires 1 <= page <= TotalPages(|s|) + 1
    ensures PagesFrom(s, page, TotalPages(|s|)) == s[Min(IndexOfFirst(page), |s|)..]
    decreases TotalPages(|s|) + 1 - page
  {
    if page <= TotalPages(|s|) {
      PageInRange(s, page);
      PagesFromSuffix(s, page + 1);
      assert Min(IndexOfFirst(page + 1), |s|) == Min(IndexOfLast(page), |s|);
    }
  }

  /** Pages 1 to `totalPages`, joined in order, reproduce the product list
      exactly: every product is on exactly one page, in its place. */
  lemma PagesPartition<T>(s: seq<T>)
    ensures PagesFrom(s, 1, TotalPages(|s|)) == s
  {
    PagesFromSuffix(s, 1);
  }

  /** The first number of the "Showing X to Y of N" summary: one past a
      multiple of the page size, and at least 1 from page 1 on. */
  function ShowingFrom(page: int): (x: int)
    ensures x % ProductsPerPage == 1
    ensures 1 <= page ==> 1 <= x
  {
    IndexOfFirst(page) + 1
  }

  /** The second number of the summary: the page's end, cut back to the
      number of products. */
  function ShowingTo(page: int, n: nat): (y: int)
    ensures y <= n && y <= IndexOfLast(page)
    ensures y == n || y == IndexOfLast(page)
  {
    Min(IndexOfLast(page), n)
  }

  /** On a page in range, the summary names exactly the positions (counted
      from 1) of the products shown. */
  lemma SummaryMatchesPage<T>(s: seq<T>, page: int)
    requires 1 <= page <= TotalPages(|s|)
    ensures 1 <= ShowingFrom(page) <= ShowingTo(page, |s|) <= |s|
    ensures CurrentProducts(s, page) == s[ShowingFrom(page) - 1..ShowingTo(page, |s|)]
    ensures ShowingTo(page, |s|) - ShowingFrom(page) + 1 == |CurrentProducts(s, page)|
  {
    PageInRange(s, page);
  }

  /** With no products the first page reads "Showing 1 to 0 of 0": the
      count the summary implies is still the (empty) page's length. */
  lemma EmptySummary<T>(s: seq<T>)
    requires s == []
    ensures ShowingFrom(1) == 1 && ShowingTo(1, |s|) == 0
    ensures ShowingTo(1, |s|) - ShowingFrom(1) + 1 == |CurrentProducts(s, 1)| == 0
  {
  }

  /** Previous: `Math.max(prev - 1, 1)`. */
  function PreviousPage(page: int): (r: int)
    ensures 1 <= r && page - 1 <= r
    ensures r == page - 1 || r == 1
  {
    if page - 1 >= 1 then page - 1 else 1
  }

  /** Next: `Math.min(prev + 1, totalPages)`. */
  function NextPage(page: int, total: nat): (r: int)
    ensures r <= total && r <= page + 1
    ensures r == page + 1 || r == total
  {
    if page + 1 <= total then page + 1 else total
  }

  /** A click on one of the pagination buttons; `PageButton(i)` is the button
      labelled i + 1. */
  datatype Click = Previous | Next | PageButton(index: nat)

  /** The page one click leads to. From a page in range, a click on a drawn
      button lands on a page in range. */
  function Press(page: int, total: nat, c: Click): (r: int)
    ensures 1 <= page <= total && (c.PageButton? ==> c.index < total) ==> 1 <= r <= total
  {
    match c
    case Previous => PreviousPage(page)
    case Next => NextPage(page, total)
    case PageButton(i) => i + 1
  }

  /** The page reached by a run of clicks. A page-number click decides the
      page whatever came before it. */
  function Navigate(page: int, total: nat, clicks: seq<Click>): (r: int)
    ensures clicks == [] ==> r == page
    ensures clicks != [] && clicks[|clicks| - 1].PageButton? ==> r == clicks[|clicks| - 1].index + 1
    decreases |clicks|
  {
    if clicks == [] then page else Navigate(Press(page, total, clicks[0]), total, clicks[1..])
  }

  /** The page-number buttons drawn are those for 1 to `totalPages`. */
  predicate ButtonsDrawn(total: nat, clicks: seq<Click>) {
    forall i :: 0 <= i < |clicks| && clicks[i].PageButton? ==> clicks[i].index < total
  }

  /** With at least one page, any run of clicks from a page in range ends on a
      page in range. */
  lemma {:induction false} NavigationStaysInRange(page: int, total: nat, clicks: seq<Click>)
    requires 1 <= page <= total
    requires ButtonsDrawn(total, clicks)
    ensures 1 <= Navigate(page, total, clicks) <= total
    decreases |clicks|
  {
    if clicks != [] {
      assert ButtonsDrawn(total, clicks[1..]) by {
        forall i | 0 <= i < |clicks[1..]| && clicks[1..][i].PageButton?
          ensures clicks[1..][i].index < total
        {
          assert clicks[1..][i] == clicks[i + 1];
        }
      }
      NavigationStaysInRange(Press(page, total, clicks[0]), total, clicks[1..]);
    }
  }

  /** Starting on page 1 of a non-empty list, the page stays in
      `[1, totalPages]` whatever is clicked. */
  lemma ReachablePagesInRange(n: nat, clicks: seq<Click>)
    requires n > 0
    requires ButtonsDrawn(TotalPages(n), clicks)
    ensures 1 <= Navigate(1, TotalPages(n), clicks) <= TotalPages(n)
  {
    NavigationStaysInRange(1, TotalPages(n), clicks);
  }

  /** With an empty list `totalPages` is 0, Next is not disabled on page 1
      (1 differs from 0), and clicking it sets the page to 0, below the range. */
  lemma EmptyListNextLeavesRange()
    ensures TotalPages(0) == 0 && 1 != TotalPages(0)
    ensures Navigate(1, TotalPages(0), [Next]) == 0
  {
  }

  /** The component's pagination state. */
  class CatalogPage {
    const products: seq<CatalogItem>
    var currentPage: int

    /** `useState(1)` */
    constructor (products: seq<CatalogItem>)
      ensures this.products == products && currentPage == 1
    {
      this.products := products;
      currentPage := 1;
    }

    function Pages(): nat {
      TotalPages(|products|)
    }

    predicate InRange()
      reads this
    {
      1 <= currentPage <= Pages()
    }

    /** The rows the table renders. */
    function Shown(): (r: seq<CatalogItem>)
      reads this
      ensures |r| <= ProductsPerPage
      ensures InRange() ==> r != [] && r == products[ShowingFrom(currentPage) - 1..ShowingTo(currentPage, |products|)]
    {
      var r := CurrentProducts(products, currentPage);
      if InRange() then SummaryMatchesPage(products, currentPage); r else r
    }

    /** Either Previous button. */
    method PreviousClicked()
      modifies this
      ensures currentPage == PreviousPage(old(currentPage))
      ensures old(InRange()) ==> InRange()
    {
      currentPage := PreviousPage(currentPage);
    }

    /** Either Next button. */
    method NextClicked()
      modifies this
      ensures currentPage == NextPage(old(currentPage), Pages())
      ensures old(InRange()) ==> InRange()
    {
      currentPage := NextPage(currentPage, Pages());
    }

    /** The page-number button for page `index + 1`; only pages 1 to
        `totalPages` have a button. */
    method PageButtonClicked(index: nat)
      requires index < Pages()
      modifies this
      ensures currentPage == index + 1 && InRange()
    {
      currentPage := index + 1;
    }
  }
}
