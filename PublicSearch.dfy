/**
 * The public product search (`GET /search`): active products whose name or
 * category contains the query, ranked by how well the name matches, then
 * ordered by name and by most recent update, one page at a time.
 */
module PublicSearch {
  import opened Wrappers
  import opened Text
  import opened Query
  import opened ProductModels
  import Paging
  import UserModels

  /** An exact name match implies a prefix match, and a prefix match implies containment. */
  lemma MatchStrength(name: string, q: string)
    ensures EqualsCI(name, q) ==> StartsWithCI(name, q)
    ensures StartsWithCI(name, q) ==> ContainsCI(name, q)
  {
    if EqualsCI(name, q) { EqualIsPrefix(Lower(name), Lower(q)); }
    if StartsWithCI(name, q) { PrefixIsContained(Lower(name), Lower(q)); }
  }

  /** The `search_rank` annotation: 0 exact name, 1 name prefix, 2 name contains, 3 otherwise. */
  function Rank(p: Product, q: string): (r: nat)
    ensures r <= 3
    ensures r == 0 <==> EqualsCI(p.name, q)
    ensures r == 1 <==> StartsWithCI(p.name, q) && !EqualsCI(p.name, q)
    ensures r == 2 <==> ContainsCI(p.name, q) && !StartsWithCI(p.name, q)
    ensures r == 3 <==> !ContainsCI(p.name, q)
  {
    MatchStrength(p.name, q);
    if EqualsCI(p.name, q) then 0
    else if StartsWithCI(p.name, q) then 1
    else if ContainsCI(p.name, q) then 2
    else 3
  }

  /** The search filter: active, from the seller when one is given, and name or category containing the query. */
  predicate SearchMatch(p: Product, q: string, seller: Option<UserModels.UserId>) {
    p.isActive && (seller.Some? ==> p.owner == seller.value) &&
    (ContainsCI(p.name, q) || ContainsCI(p.category, q))
  }

  /** Among the search results, rank 3 means the query matched the category only. */
  lemma RankThreeIsCategoryOnly(p: Product, q: string, seller: Option<UserModels.UserId>)
    requires SearchMatch(p, q, seller) && Rank(p, q) == 3
    ensures ContainsCI(p.category, q) && !ContainsCI(p.name, q)
  {
  }

  /** `order_by('search_rank', 'product_name', '-updated_at')`. */
  predicate SearchLe(q: string, a: Product, b: Product) {
    if Rank(a, q) != Rank(b, q) then Rank(a, q) < Rank(b, q)
    else if a.name != b.name then StrLe(a.name, b.name)
    else a.updatedAt >= b.updatedAt
  }

  function SearchOrder(q: string): (Product, Product) -> bool {
    (a: Product, b: Product) => SearchLe(q, a, b)
  }

  lemma SearchOrderIsTotalPreorder(q: string)
    ensures IsTotalPreorder(SearchOrder(q))
  {
    var le := SearchOrder(q);
    forall a: Product, b: Product ensures le(a, b) || le(b, a) {
      StrLeTotal(a.name, b.name);
    }
    forall a: Product, b: Product, c: Product | le(a, b) && le(b, c) ensures le(a, c) {
      SearchLeTransitive(q, a, b, c);
    }
  }

  lemma SearchLeTransitive(q: string, a: Product, b: Product, c: Product)
    requires SearchLe(q, a, b) && SearchLe(q, b, c)
    ensures SearchLe(q, a, c)
  {
    if Rank(a, q) == Rank(b, q) == Rank(c, q) {
      if a.name != b.name && b.name != c.name {
        StrLeTransitive(a.name, b.name, c.name);
        if a.name == c.name { StrLeAntisymmetric(a.name, b.name); }
      }
    }
  }

  /** Every matching product, in result order. */
  function Ordered(ps: seq<Product>, q: string, seller: Option<UserModels.UserId>): (r: seq<Product>)
    ensures forall p :: p in r <==> p in ps && SearchMatch(p, q, seller)
    ensures SortedBy(r, SearchOrder(q))
    ensures multiset(r) == multiset(Filter(ps, (p: Product) => SearchMatch(p, q, seller)))
  {
    var sel := Filter(ps, (p: Product) => SearchMatch(p, q, seller));
    SearchOrderIsTotalPreorder(q);
    SortBySorted(sel, SearchOrder(q));
    forall p ensures p in SortBy(sel, SearchOrder(q)) <==> p in sel { SortByMembers(sel, SearchOrder(q), p); }
    SortBy(sel, SearchOrder(q))
  }

  datatype SearchError = SearchError(status: nat, detail: string)
  datatype SearchPage = SearchPage(items: seq<Product>, total: nat, page: nat, pageSize: nat, pages: nat)

  /**
   * `search_products`.  The page and page size reach the handler already
   * checked against their bounds (page at least 1, size 1..100).
   */
  function SearchProducts(ps: seq<Product>, q: string, seller: Option<UserModels.UserId>,
                          page: nat, pageSize: nat): (r: Result<SearchPage, SearchError>)
    requires page >= 1 && 1 <= pageSize <= 100
    ensures r.Err? <==> |Strip(q)| < 2
    ensures r.Err? ==> r.error == SearchError(422, "Search query must be at least 2 characters")
    ensures r.Ok? ==>
      var all := Ordered(ps, Strip(q), seller);
      r.value.total == |all| && r.value.page == page && r.value.pageSize == pageSize &&
      r.value.pages == Paging.TotalPages(|all|, pageSize) &&
      r.value.items == Paging.Page(all, page, pageSize) && |r.value.items| <= pageSize
    ensures r.Ok? ==> forall p :: p in r.value.items ==> p in ps && SearchMatch(p, Strip(q), seller)
    ensures r.Ok? ==> SortedBy(r.value.items, SearchOrder(Strip(q)))
  {
    var t := Strip(q);
    if |t| < 2 then Err(SearchError(422, "Search query must be at least 2 characters"))
    else
      var all := Ordered(ps, t, seller);
      var items := Paging.Page(all, page, pageSize);
      Paging.PageSorted(all, page, pageSize, SearchOrder(t));
      forall p | p in items ensures p in all {
        var k :| 0 <= k < |items| && items[k] == p;
        assert all[Paging.Offset(page, pageSize) + k] == p;
      }
      Ok(SearchPage(items, |all|, page, pageSize, Paging.TotalPages(|all|, pageSize)))
  }

  /** Two different pages of one search share no product, when the table holds no duplicate rows. */
  lemma SearchPagesDisjoint(ps: seq<Product>, q: string, seller: Option<UserModels.UserId>,
                            p1: nat, p2: nat, size: nat, x: Product)
    requires p1 >= 1 && p2 >= 1 && p1 != p2 && 1 <= size <= 100 && |Strip(q)| >= 2
    requires Distinct(ps)
    ensures !(x in SearchProducts(ps, q, seller, p1, size).value.items &&
              x in SearchProducts(ps, q, seller, p2, size).value.items)
  {
    var all := Ordered(ps, Strip(q), seller);
    var sel := Filter(ps, (p: Product) => SearchMatch(p, Strip(q), seller));
    FilterDistinct(ps, (p: Product) => SearchMatch(p, Strip(q), seller));
    DistinctMultiplicity(sel);
    DistinctMultiplicity(all);
    Paging.PagesDisjoint(all, size, p1, p2, x);
  }

  /** Every product of an earlier page ranks no worse than every product of a later one. */
  lemma EarlierPagesRankFirst(ps: seq<Product>, q: string, seller: Option<UserModels.UserId>,
                              p1: nat, p2: nat, size: nat, a: Product, b: Product)
    requires 1 <= p1 < p2 && 1 <= size <= 100 && |Strip(q)| >= 2
    requires a in SearchProducts(ps, q, seller, p1, size).value.items
    requires b in SearchProducts(ps, q, seller, p2, size).value.items
    ensures Rank(a, Strip(q)) <= Rank(b, Strip(q))
  {
    var all := Ordered(ps, Strip(q), seller);
    Paging.PagesOrdered(all, size, p1, p2, SearchOrder(Strip(q)), a, b);
  }
}
