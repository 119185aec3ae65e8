/** The paging rule of the infinite product list: which `skip` offset the next page is
    requested with, given the pages loaded so far. */
module Pagination {
  import opened Wrappers
  import opened Catalog

  /** One page of a product query as the catalog answers it: the products on the page and
      the number of products the whole query matches. */
  datatype Page = Page(products: seq<Product>, total: int)

  /** The arguments one page is fetched with. */
  datatype PageRequest = PageRequest(skip: nat, limit: nat, search: Option<string>)

  /** The first page is requested at offset 0. */
  const InitialPageParam: nat := 0

  /** Every page asks for at most 20 products. */
  const PageLimit: nat := 20

  /** The request for the page whose parameter is `pageParam`. */
  function Request(pageParam: nat, search: Option<string>): (req: PageRequest)
    ensures req.skip == pageParam && req.limit == PageLimit && req.search == search
  {
    PageRequest(pageParam, PageLimit, search)
  }

  /** The number of products on all pages loaded so far (a left fold, as `reduce` computes it). */
  function TotalLoaded(pages: seq<Page>): nat {
    if |pages| == 0 then 0
    else TotalLoaded(pages[..|pages| - 1]) + |pages[|pages| - 1].products|
  }

  /** `getNextPageParam`: the offset just past the loaded products while fewer than the
      last page's total are loaded, and no next page otherwise. */
  function NextPageParam(lastPage: Page, allPages: seq<Page>): (r: Option<nat>)
    ensures r.Some? <==> TotalLoaded(allPages) < lastPage.total
    ensures r.Some? ==> r.value == TotalLoaded(allPages) && 0 <= r.value < lastPage.total
  {
    var totalLoaded := TotalLoaded(allPages);
    if totalLoaded < lastPage.total then Some(totalLoaded) else None
  }

  // ----- Paging through a catalog that answers requests consistently -----

  /** All loaded products, page after page. */
  function Flatten(pages: seq<Page>): seq<Product> {
    if |pages| == 0 then []
    else Flatten(pages[..|pages| - 1]) + pages[|pages| - 1].products
  }

  lemma {:induction false} FlattenLength(pages: seq<Page>)
    ensures |Flatten(pages)| == TotalLoaded(pages)
  {
    if |pages| > 0 {
      FlattenLength(pages[..|pages| - 1]);
    }
  }

  /** The next offset, when there is one, is the position just past every loaded product,
      and there is one exactly while the loaded products fall short of the last page's total. */
  lemma {:induction false} NextOffsetIsEndOfLoaded(lastPage: Page, allPages: seq<Page>)
    ensures NextPageParam(lastPage, allPages).Some? <==> |Flatten(allPages)| < lastPage.total
    ensures NextPageParam(lastPage, allPages).Some? ==>
      NextPageParam(lastPage, allPages).value == |Flatten(allPages)|
  {
    FlattenLength(allPages);
  }

  function Min(a: int, b: int): int { if a <= b then a else b }

  /** The page a catalog whose full answer to the query is `catalog` gives for `req`: the
      products from offset `skip`, at most `limit` of them, with the full count as total. */
  function Serve(catalog: seq<Product>, req: PageRequest): (page: Page)
    ensures |page.products| <= req.limit && page.total == |catalog|
    ensures req.skip < |catalog| && req.limit > 0 ==> |page.products| > 0
  {
    var lo := Min(req.skip, |catalog|);
    Page(catalog[lo..Min(req.skip + req.limit, |catalog|)], |catalog|)
  }

  /** The loaded pages, read in order, are the first products of the catalog. */
  predicate LoadedPrefix(catalog: seq<Product>, pages: seq<Page>) {
    TotalLoaded(pages) <= |catalog| && Flatten(pages) == catalog[..TotalLoaded(pages)]
  }

  lemma {:induction false} AppendPage(pages: seq<Page>, page: Page)
    ensures TotalLoaded(pages + [page]) == TotalLoaded(pages) + |page.products|
    ensures Flatten(pages + [page]) == Flatten(pages) + page.products
  {
    assert (pages + [page])[..|pages|] == pages;
  }

  /** The first page, requested with the initial parameter, holds the catalog's first products. */
  lemma {:induction false} FirstPage(catalog: seq<Product>, search: Option<string>)
    ensures var first := Serve(catalog, Request(InitialPageParam, search));
      LoadedPrefix(catalog, [first]) && TotalLoaded([first]) == Min(PageLimit, |catalog|)
  {
    var first := Serve(catalog, Request(InitialPageParam, search));
    AppendPage([], first);
    assert [] + [first] == [first];
  }

  /** While a next parameter is returned, fetching it extends the loaded products by the
      catalog's next products, with no gap and no overlap, and strictly increases the count. */
  lemma {:induction false} NextPage(catalog: seq<Product>, pages: seq<Page>, search: Option<string>)
    requires |pages| > 0 && pages[|pages| - 1].total == |catalog| && LoadedPrefix(catalog, pages)
    requires NextPageParam(pages[|pages| - 1], pages).Some?
    ensures var next := Serve(catalog, Request(NextPageParam(pages[|pages| - 1], pages).value, search));
      LoadedPrefix(catalog, pages + [next]) && TotalLoaded(pages + [next]) > TotalLoaded(pages)
  {
    var n := TotalLoaded(pages);
    var next := Serve(catalog, Request(n, search));
    AppendPage(pages, next);
    FlattenLength(pages);
    var hi := Min(n + PageLimit, |catalog|);
    assert next.products == catalog[n..hi];
    assert catalog[..n] + catalog[n..hi] == catalog[..hi];
  }

  /** When no next parameter is returned, every product of the catalog has been loaded, in order. */
  lemma {:induction false} LastPage(catalog: seq<Product>, pages: seq<Page>)
    requires |pages| > 0 && pages[|pages| - 1].total == |catalog| && LoadedPrefix(catalog, pages)
    requires NextPageParam(pages[|pages| - 1], pages).None?
    ensures Flatten(pages) == catalog
  {
    assert catalog[..|catalog|] == catalog;
  }
}
