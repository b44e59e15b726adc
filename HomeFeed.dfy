/**
 * The home feed (`GET /home`): the user's recent searches and one page of
 * the active products, filtered by seller, category and stock, ordered with
 * in-stock products first (or by search rank when a query is given), and
 * cached per request shape for two minutes.
 */
module HomeFeed {
  import opened Wrappers
  import opened Text
  import opened Query
  import opened ProductModels
  import UserModels
  import Paging
  import PublicSearch
  import SearchHistory
  import ProductService

  const MAX_PAGE_SIZE: nat := 20
  const PRODUCTS_CACHE_TIMEOUT: nat := 120
  const PREVIEW_LIMIT: nat := 120
  const PREVIEW_KEEP: nat := 117
  const RECENT_SEARCHES_LIMIT: nat := 5

  /** `min(page_size, 20)`: the hard cap on the page size. */
  function CappedPageSize(requested: nat): (n: nat)
    ensures n <= MAX_PAGE_SIZE && n <= requested
    ensures n == requested || n == MAX_PAGE_SIZE
  {
    Paging.Min(requested, MAX_PAGE_SIZE)
  }

  // ---------------------------------------------------------------------
  // the query parameter
  // ---------------------------------------------------------------------

  /** A non-empty `q` whose stripped length is below 2 is dropped; an empty one stays as it is. */
  function DropShortQuery(q: Option<string>): (r: Option<string>)
    ensures r.None? ==> q.None? || 0 < |Strip(q.value)| < 2 || (q.value != [] && Strip(q.value) == [])
    ensures r.Some? ==> r == q && (q.value == [] || |Strip(q.value)| >= 2)
  {
    if q.Some? && q.value != [] && |Strip(q.value)| < 2 then None else q
  }

  /** The term `_build_products_queryset` searches for: the stripped `q` when it has at least 2 characters. */
  function SearchTerm(q: Option<string>): (r: Option<string>)
    ensures r.Some? <==> q.Some? && |Strip(q.value)| >= 2
    ensures r.Some? ==> r.value == Strip(q.value) && |r.value| >= 2
  {
    if q.Some? && q.value != [] && |Strip(q.value)| >= 2 then Some(Strip(q.value)) else None
  }

  /** `if q and q.strip()`: the condition under which the search is recorded. */
  predicate Records(q: Option<string>) {
    q.Some? && q.value != [] && Strip(q.value) != []
  }

  /**
   * A too-short query is ignored rather than rejected: after it is dropped,
   * the search is recorded exactly when it is also used to filter and rank,
   * and the term is the same.
   */
  lemma ShortQueryIgnored(q: Option<string>)
    ensures Records(DropShortQuery(q)) <==> SearchTerm(DropShortQuery(q)).Some?
    ensures SearchTerm(DropShortQuery(q)) == SearchTerm(q)
  {
  }

  /** `if category:`: an empty category does not filter. */
  function CategoryFilter(category: Option<string>): (r: Option<string>)
    ensures r.Some? <==> category.Some? && category.value != []
    ensures r.Some? ==> r == category
  {
    if category.Some? && category.value != [] then category else None
  }

  // ---------------------------------------------------------------------
  // filtering and ordering
  // ---------------------------------------------------------------------

  /** The feed filter: active, the seller's when given, category equal ignoring case, in stock when asked, and the search. */
  predicate FeedMatch(p: Product, term: Option<string>, category: Option<string>,
                      seller: Option<UserModels.UserId>, hideOutOfStock: bool) {
    p.isActive && (seller.Some? ==> p.owner == seller.value) &&
    (category.Some? ==> EqualsCI(p.category, category.value)) &&
    (hideOutOfStock ==> p.stock > 0) &&
    (term.Some? ==> ContainsCI(p.name, term.value) || ContainsCI(p.category, term.value))
  }

  /** The `stock_priority` annotation: 0 for a product in stock, 1 otherwise. */
  function StockPriority(p: Product): (r: nat)
    ensures r == 0 <==> p.stock > 0
    ensures r <= 1
  {
    if p.stock > 0 then 0 else 1
  }

  /** The first sort key: the search rank with a term, the stock priority without. */
  function SortKey(term: Option<string>, p: Product): nat {
    if term.Some? then PublicSearch.Rank(p, term.value) else StockPriority(p)
  }

  /** `order_by(<key>, '-updated_at', 'product_name')`. */
  predicate FeedLe(term: Option<string>, a: Product, b: Product) {
    if SortKey(term, a) != SortKey(term, b) then SortKey(term, a) < SortKey(term, b)
    else if a.updatedAt != b.updatedAt then a.updatedAt > b.updatedAt
    else StrLe(a.name, b.name)
  }

  function FeedOrder(term: Option<string>): (Product, Product) -> bool {
    (a: Product, b: Product) => FeedLe(term, a, b)
  }

  lemma FeedOrderIsTotalPreorder(term: Option<string>)
    ensures IsTotalPreorder(FeedOrder(term))
  {
    var le := FeedOrder(term);
    forall a: Product, b: Product ensures le(a, b) || le(b, a) {
      StrLeTotal(a.name, b.name);
    }
    forall a: Product, b: Product, c: Product | le(a, b) && le(b, c) ensures le(a, c) {
      if SortKey(term, a) == SortKey(term, b) == SortKey(term, c) && a.updatedAt == b.updatedAt == c.updatedAt {
        StrLeTransitive(a.name, b.name, c.name);
      }
    }
  }

  /** `_build_products_queryset`: every matching product, in feed order. */
  function FeedProducts(ps: seq<Product>, term: Option<string>, category: Option<string>,
                        seller: Option<UserModels.UserId>, hideOutOfStock: bool): (r: seq<Product>)
    ensures forall p :: p in r <==> p in ps && FeedMatch(p, term, category, seller, hideOutOfStock)
    ensures SortedBy(r, FeedOrder(term))
  {
    var sel := Filter(ps, (p: Product) => FeedMatch(p, term, category, seller, hideOutOfStock));
    FeedOrderIsTotalPreorder(term);
    SortBySorted(sel, FeedOrder(term));
    forall p ensures p in SortBy(sel, FeedOrder(term)) <==> p in sel { SortByMembers(sel, FeedOrder(term), p); }
    SortBy(sel, FeedOrder(term))
  }

  /**
   * What the feed order means: the first key never decreases down the list,
   * and among equal keys the most recently updated product comes first.
   * Without a query, no product out of stock precedes one in stock.
   */
  lemma FeedOrderMeaning(ps: seq<Product>, term: Option<string>, category: Option<string>,
                         seller: Option<UserModels.UserId>, hideOutOfStock: bool, i: nat, j: nat)
    requires var r := FeedProducts(ps, term, category, seller, hideOutOfStock); i < j < |r|
    ensures var r := FeedProducts(ps, term, category, seller, hideOutOfStock);
      SortKey(term, r[i]) <= SortKey(term, r[j]) &&
      (SortKey(term, r[i]) == SortKey(term, r[j]) ==> r[i].updatedAt >= r[j].updatedAt) &&
      (term.None? && r[j].stock > 0 ==> r[i].stock > 0) &&
      (term.Some? ==> PublicSearch.Rank(r[i], term.value) <= PublicSearch.Rank(r[j], term.value))
  {
    var r := FeedProducts(ps, term, category, seller, hideOutOfStock);
    assert FeedOrder(term)(r[i], r[j]);
  }

  // ---------------------------------------------------------------------
  // product cards
  // ---------------------------------------------------------------------

  /** `description_preview`: a description over 120 characters becomes its first 117 and "...". */
  function Preview(d: Option<string>): (r: Option<string>)
    ensures r.None? <==> d.None?
    ensures d.Some? && |d.value| <= PREVIEW_LIMIT ==> r == d
    ensures d.Some? && |d.value| > PREVIEW_LIMIT ==>
      |r.value| == PREVIEW_LIMIT && r.value[..PREVIEW_KEEP] == d.value[..PREVIEW_KEEP] && r.value[PREVIEW_KEEP..] == "..."
  {
    if d.Some? && d.value != [] && |d.value| > PREVIEW_LIMIT then Some(d.value[..PREVIEW_KEEP] + "...") else d
  }

  /** A preview never exceeds 120 characters, so previewing a preview changes nothing. */
  lemma PreviewIdempotent(d: Option<string>)
    ensures Preview(d).Some? ==> |Preview(d).value| <= PREVIEW_LIMIT
    ensures Preview(Preview(d)) == Preview(d)
  {
  }

  /** `_get_seller_display_name`: the supplier profile's company name when it is not empty, else the username. */
  function SellerDisplayName(username: string, supplier: Option<UserModels.Profile>): (r: string)
    ensures supplier.Some? && supplier.value.companyName != [] ==> r == supplier.value.companyName
    ensures supplier.None? || supplier.value.companyName == [] ==> r == username
  {
    if supplier.Some? && supplier.value.companyName != [] then supplier.value.companyName else username
  }

  /**
   * The display name of the owner `uid`.  The owner always exists (the
   * column is a foreign key); the empty name stands for the impossible case.
   */
  function DisplayNameOf(users: seq<UserModels.User>, profiles: seq<UserModels.Profile>, uid: UserModels.UserId): (r: string)
    ensures UserModels.FindUser(users, uid).Some? && UserModels.FindUser(users, uid).value.username != [] ==> r != []
  {
    var username := match UserModels.FindUser(users, uid) case Some(u) => u.username case None => "";
    SellerDisplayName(username, UserModels.FindProfile(profiles, uid, UserModels.SupplierProfile))
  }

  /** The tables a card is drawn from, and the low-stock threshold setting. */
  datatype Tables = Tables(photos: seq<Photo>, users: seq<UserModels.User>, profiles: seq<UserModels.Profile>, threshold: int)

  datatype Seller = Seller(id: UserModels.UserId, displayName: string)

  datatype Card = Card(
    id: ProductId,
    name: string,
    category: string,
    descriptionPreview: Option<string>,
    photos: seq<Photo>,
    unitPrice: nat,
    sellQuantity: nat,
    stock: nat,
    stockStatus: StockStatus,
    seller: Seller,
    createdAt: int,
    updatedAt: int)

  /** One item of the product section. */
  function CardOf(p: Product, t: Tables): (c: Card)
    ensures c.id == p.id && c.seller.id == p.owner
    ensures c.stockStatus == StockStatusOf(p.stock, t.threshold)
    ensures c.descriptionPreview == Preview(p.description)
    ensures forall ph :: ph in c.photos <==> ph in t.photos && ph.product == p.id
    ensures SortedBy(c.photos, ProductService.PhotoLe)
  {
    Card(p.id, p.name, p.category, Preview(p.description), ProductService.PhotosOf(t.photos, p.id),
         p.unitPrice, p.sellQuantity, p.stock, StockStatusOf(p.stock, t.threshold),
         Seller(p.owner, DisplayNameOf(t.users, t.profiles, p.owner)), p.createdAt, p.updatedAt)
  }

  function Cards(page: seq<Product>, t: Tables): (cs: seq<Card>)
    ensures |cs| == |page|
  {
    seq(|page|, k requires 0 <= k < |page| => CardOf(page[k], t))
  }

  /** The loop of `get_home_feed` that appends one card per product of the page. */
  method BuildItems(page: seq<Product>, t: Tables) returns (items: seq<Card>)
    ensures items == Cards(page, t)
  {
    items := [];
    var i := 0;
    while i < |page|
      invariant 0 <= i <= |page|
      invariant |items| == i
      invariant forall k :: 0 <= k < i ==> items[k] == CardOf(page[k], t)
    {
      items := items + [CardOf(page[i], t)];
      i := i + 1;
    }
  }

  // ---------------------------------------------------------------------
  // the product section and its cache
  // ---------------------------------------------------------------------

  datatype ProductsSection = ProductsSection(pagination: Paging.PaginationInfo, items: seq<Card>)

  /** The product section computed from the tables, for an already normalised term and category. */
  function FreshSection(ps: seq<Product>, t: Tables, page: nat, pageSize: nat, term: Option<string>,
                        category: Option<string>, seller: Option<UserModels.UserId>, hideOutOfStock: bool): (s: ProductsSection)
    requires page >= 1 && pageSize >= 1
    ensures var all := FeedProducts(ps, term, category, seller, hideOutOfStock);
      s.pagination == Paging.Pagination(page, pageSize, |all|) &&
      s.items == Cards(Paging.Page(all, page, pageSize), t) && |s.items| <= pageSize
  {
    var all := FeedProducts(ps, term, category, seller, hideOutOfStock);
    ProductsSection(Paging.Pagination(page, pageSize, |all|), Cards(Paging.Page(all, page, pageSize), t))
  }

  /** Every card of a freshly computed section shows a product that passes the filters, in feed order. */
  lemma FreshSectionItems(ps: seq<Product>, t: Tables, page: nat, pageSize: nat, term: Option<string>,
                          category: Option<string>, seller: Option<UserModels.UserId>, hideOutOfStock: bool, k: nat)
    requires page >= 1 && pageSize >= 1
    requires k < |FreshSection(ps, t, page, pageSize, term, category, seller, hideOutOfStock).items|
    ensures var all := FeedProducts(ps, term, category, seller, hideOutOfStock);
      var off := Paging.Offset(page, pageSize);
      off + k < |all| &&
      FreshSection(ps, t, page, pageSize, term, category, seller, hideOutOfStock).items[k] == CardOf(all[off + k], t) &&
      FeedMatch(all[off + k], term, category, seller, hideOutOfStock)
  {
    var all := FeedProducts(ps, term, category, seller, hideOutOfStock);
    var off := Paging.Offset(page, pageSize);
    assert all[off + k] in all;
  }

  /** Python's `str()` of a boolean. */
  function BoolText(b: bool): (r: string)
    ensures ':' !in r
    ensures r == "True" <==> b
  {
    if b then "True" else "False"
  }

  /**
   * `str(seller_id) if seller_id else ""`. User ids are naturals here, so
   * their decimal text stands in for the UUID's text; neither holds a ':'.
   */
  function SellerText(seller: Option<UserModels.UserId>): (r: string)
    ensures ':' !in r
    ensures r == [] <==> seller.None?
  {
    if seller.Some? then NatToString(seller.value) else ""
  }

  /** The `key_parts` list of `_get_cache_key`, with the text given for `q` and for `category`. */
  function KeyParts(page: nat, pageSize: nat, qText: string, categoryText: string,
                    seller: Option<UserModels.UserId>, hideOutOfStock: bool): (r: seq<string>)
    ensures |r| == 7 && r[3] == qText && r[4] == categoryText
  {
    ["home_feed_products", NatToString(page), NatToString(pageSize), qText, categoryText,
     SellerText(seller), BoolText(hideOutOfStock)]
  }

  /**
   * `_get_cache_key` as written: the parts, with `q or ""` and `category or ""`,
   * joined with ':' (the md5 digest of this text is left out). A ':' inside the
   * search text reads the same as the separator.
   */
  function JoinedKey(page: nat, pageSize: nat, q: Option<string>, category: Option<string>,
                     seller: Option<UserModels.UserId>, hideOutOfStock: bool): string {
    Join(KeyParts(page, pageSize, q.GetOr(""), category.GetOr(""), seller, hideOutOfStock), ":")
  }

  /**
   * The key as written conflates a search for "ab:cd" in category "ef" with a
   * search for "ab" in category "cd:ef": both join to "…:ab:cd:ef:…". For an
   * active product named "ab:cd" in category "ef", the first request finds it
   * and the second does not, yet the second is served the first's cached section.
   */
  lemma JoinedKeyCollides(ps: seq<Product>, t: Tables, p: Product, page: nat, pageSize: nat,
                          seller: Option<UserModels.UserId>, hideOutOfStock: bool)
    requires page >= 1 && pageSize >= 1
    requires ps == [p] && p.isActive && p.name == "ab:cd" && p.category == "ef"
    requires seller.Some? ==> p.owner == seller.value
    requires hideOutOfStock ==> p.stock > 0
    ensures JoinedKey(page, pageSize, Some("ab:cd"), Some("ef"), seller, hideOutOfStock) ==
            JoinedKey(page, pageSize, Some("ab"), Some("cd:ef"), seller, hideOutOfStock)
    ensures FreshSection(ps, t, page, pageSize, SearchTerm(Some("ab:cd")), CategoryFilter(Some("ef")), seller, hideOutOfStock) !=
            FreshSection(ps, t, page, pageSize, SearchTerm(Some("ab")), CategoryFilter(Some("cd:ef")), seller, hideOutOfStock)
  {
    CollidingKeys(page, pageSize, seller, hideOutOfStock);
    CollidingRequestsDiffer(ps, p, seller, hideOutOfStock);
  }

  /** "ab:cd" with "ef" and "ab" with "cd:ef" join to the same text. */
  lemma CollidingKeys(page: nat, pageSize: nat, seller: Option<UserModels.UserId>, hideOutOfStock: bool)
    ensures JoinedKey(page, pageSize, Some("ab:cd"), Some("ef"), seller, hideOutOfStock) ==
            JoinedKey(page, pageSize, Some("ab"), Some("cd:ef"), seller, hideOutOfStock)
  {
    var tail1 := ["ab:cd", "ef", SellerText(seller), BoolText(hideOutOfStock)];
    var tail2 := ["ab", "cd:ef", SellerText(seller), BoolText(hideOutOfStock)];
    var head := ["home_feed_products", NatToString(page), NatToString(pageSize)];
    var rest := Join([SellerText(seller), BoolText(hideOutOfStock)], ":");
    assert Join(tail1[1..], ":") == "ef" + ":" + rest;
    assert Join(tail2[1..], ":") == "cd:ef" + ":" + rest;
    assert "ab:cd" + ":" + ("ef" + ":" + rest) == "ab:cd:ef:" + rest;
    assert "ab" + ":" + ("cd:ef" + ":" + rest) == "ab:cd:ef:" + rest;
    JoinSameTail(head, tail1, tail2);
    assert KeyParts(page, pageSize, "ab:cd", "ef", seller, hideOutOfStock) == head + tail1;
    assert KeyParts(page, pageSize, "ab", "cd:ef", seller, hideOutOfStock) == head + tail2;
  }

  /** The product "ab:cd" in category "ef" passes the first request's filters and not the second's. */
  lemma CollidingRequestsDiffer(ps: seq<Product>, p: Product, seller: Option<UserModels.UserId>, hideOutOfStock: bool)
    requires ps == [p] && p.isActive && p.name == "ab:cd" && p.category == "ef"
    requires seller.Some? ==> p.owner == seller.value
    requires hideOutOfStock ==> p.stock > 0
    ensures |FeedProducts(ps, SearchTerm(Some("ab:cd")), CategoryFilter(Some("ef")), seller, hideOutOfStock)| == 1
    ensures |FeedProducts(ps, SearchTerm(Some("ab")), CategoryFilter(Some("cd:ef")), seller, hideOutOfStock)| == 0
  {
    var term1, term2 := SearchTerm(Some("ab:cd")), SearchTerm(Some("ab"));
    assert Strip("ab:cd") == "ab:cd" && Strip("ab") == "ab";
    assert OccursAt(Lower(p.name), Lower("ab:cd"), 0);
    assert FeedMatch(p, term1, Some("ef"), seller, hideOutOfStock);
    FeedProductsOfOne(ps, p, term1, Some("ef"), seller, hideOutOfStock);
    assert |Lower(p.category)| != |Lower("cd:ef")|;
    assert !FeedMatch(p, term2, Some("cd:ef"), seller, hideOutOfStock);
    FeedProductsOfOne(ps, p, term2, Some("cd:ef"), seller, hideOutOfStock);
  }

  /** Over a one-product table the feed holds that product exactly when it passes the filters. */
  lemma FeedProductsOfOne(ps: seq<Product>, p: Product, term: Option<string>, category: Option<string>,
                          seller: Option<UserModels.UserId>, hideOutOfStock: bool)
    requires ps == [p]
    ensures |FeedProducts(ps, term, category, seller, hideOutOfStock)| == if FeedMatch(p, term, category, seller, hideOutOfStock) then 1 else 0
  {
    var all := FeedProducts(ps, term, category, seller, hideOutOfStock);
    var sel := Filter(ps, (x: Product) => FeedMatch(x, term, category, seller, hideOutOfStock));
    assert all == SortBy(sel, FeedOrder(term));
    if |sel| == 1 {
      assert sel[0] in sel;
    }
  }

  /** Lists with the same head join equally when their tails do. */
  lemma {:induction false} JoinSameTail(head: seq<string>, a: seq<string>, b: seq<string>)
    requires |a| >= 1 && |b| >= 1 && Join(a, ":") == Join(b, ":")
    ensures Join(head + a, ":") == Join(head + b, ":")
    decreases |head|
  {
    if head != [] {
      JoinSameTail(head[1..], a, b);
      assert (head + a)[1..] == head[1..] + a && (head + b)[1..] == head[1..] + b;
      assert Join(head + a, ":") == head[0] + ":" + Join(head[1..] + a, ":");
      assert Join(head + b, ":") == head[0] + ":" + Join(head[1..] + b, ":");
    } else {
      assert head + a == a && head + b == b;
    }
  }

  /**
   * The evidently intended key: the same parts, with ':' and the backslash escaped in
   * the search and category texts, so that no free text holds the separator.
   */
  function Escape(s: string): (r: string)
    ensures ':' !in r
    ensures |r| >= |s|
  {
    if s == [] then []
    else (if s[0] == ':' then "\\;" else if s[0] == '\\' then "\\\\" else [s[0]]) + Escape(s[1..])
  }

  /** Escaping loses nothing: different texts escape differently. */
  lemma {:induction false} EscapeInjective(s: string, s': string)
    requires Escape(s) == Escape(s')
    ensures s == s'
    decreases |s|
  {
    if s != [] && s' != [] {
      var e := Escape(s);
      assert e[0] == '\\' <==> s[0] == ':' || s[0] == '\\';
      assert e[0] == '\\' <==> s'[0] == ':' || s'[0] == '\\';
      var n := if e[0] == '\\' then 2 else 1;
      assert s[0] == s'[0];
      assert Escape(s[1..]) == e[n..] == Escape(s'[1..]);
      EscapeInjective(s[1..], s'[1..]);
      assert s == [s[0]] + s[1..] && s' == [s'[0]] + s'[1..];
    }
  }

  /** The cache key with the free texts escaped. */
  function EscapedKey(page: nat, pageSize: nat, q: Option<string>, category: Option<string>,
                      seller: Option<UserModels.UserId>, hideOutOfStock: bool): string {
    Join(KeyParts(page, pageSize, Escape(q.GetOr("")), Escape(category.GetOr("")), seller, hideOutOfStock), ":")
  }

  /** The escaped key tells every part apart: equal keys come from equal page, size, `q or ""`, `category or ""`, seller and flag. */
  lemma EscapedKeyInjective(page1: nat, pageSize1: nat, q1: Option<string>, c1: Option<string>,
                            seller1: Option<UserModels.UserId>, hide1: bool,
                            page2: nat, pageSize2: nat, q2: Option<string>, c2: Option<string>,
                            seller2: Option<UserModels.UserId>, hide2: bool)
    requires EscapedKey(page1, pageSize1, q1, c1, seller1, hide1) == EscapedKey(page2, pageSize2, q2, c2, seller2, hide2)
    ensures page1 == page2 && pageSize1 == pageSize2 && seller1 == seller2 && hide1 == hide2
    ensures q1.GetOr("") == q2.GetOr("") && c1.GetOr("") == c2.GetOr("")
  {
    var a := KeyParts(page1, pageSize1, Escape(q1.GetOr("")), Escape(c1.GetOr("")), seller1, hide1);
    var b := KeyParts(page2, pageSize2, Escape(q2.GetOr("")), Escape(c2.GetOr("")), seller2, hide2);
    assert forall k :: 0 <= k < 7 ==> ':' !in a[k] && ':' !in b[k];
    JoinInjective(a, b, ':');
    assert a[1] == b[1] && a[2] == b[2] && a[3] == b[3] && a[4] == b[4] && a[5] == b[5] && a[6] == b[6];
    NatToStringInjective(page1, page2);
    NatToStringInjective(pageSize1, pageSize2);
    EscapeInjective(q1.GetOr(""), q2.GetOr(""));
    EscapeInjective(c1.GetOr(""), c2.GetOr(""));
    if seller1.Some? && seller2.Some? {
      NatToStringInjective(seller1.value, seller2.value);
    }
  }

  /**
   * Requests with the same escaped key compute the same section from the
   * same tables, so sharing the entry is sound.
   */
  lemma SameKeySameSection(ps: seq<Product>, t: Tables,
                           page1: nat, pageSize1: nat, q1: Option<string>, c1: Option<string>,
                           seller1: Option<UserModels.UserId>, hide1: bool,
                           page2: nat, pageSize2: nat, q2: Option<string>, c2: Option<string>,
                           seller2: Option<UserModels.UserId>, hide2: bool)
    requires page1 >= 1 && pageSize1 >= 1
    requires EscapedKey(page1, pageSize1, q1, c1, seller1, hide1) == EscapedKey(page2, pageSize2, q2, c2, seller2, hide2)
    ensures page2 >= 1 && pageSize2 >= 1
    ensures FreshSection(ps, t, page1, pageSize1, SearchTerm(q1), CategoryFilter(c1), seller1, hide1) ==
            FreshSection(ps, t, page2, pageSize2, SearchTerm(q2), CategoryFilter(c2), seller2, hide2)
  {
    EscapedKeyInjective(page1, pageSize1, q1, c1, seller1, hide1, page2, pageSize2, q2, c2, seller2, hide2);
    KeyDeterminesFilters(q1, q2, c1, c2);
  }

  /** Equal `q or ""` parts give equal search terms, and equal `category or ""` parts equal category filters. */
  lemma KeyDeterminesFilters(q1: Option<string>, q2: Option<string>, c1: Option<string>, c2: Option<string>)
    requires q1.GetOr("") == q2.GetOr("") && c1.GetOr("") == c2.GetOr("")
    ensures SearchTerm(q1) == SearchTerm(q2) && CategoryFilter(c1) == CategoryFilter(c2)
  {
  }

  datatype CacheEntry = CacheEntry(section: ProductsSection, expiresAt: int)

  /** `cache.get`: an entry is served while the clock is before its expiry time. */
  function CacheGet(cache: map<string, CacheEntry>, key: string, now: int): (r: Option<ProductsSection>)
    ensures r.Some? <==> key in cache && now < cache[key].expiresAt
    ensures r.Some? ==> r.value == cache[key].section
  {
    if key in cache && now < cache[key].expiresAt then Some(cache[key].section) else None
  }

  /**
   * A stored section is served unchanged for the next 120 seconds, whatever
   * happens to the tables meanwhile, and not after; other keys are untouched.
   */
  lemma CachedUntilTimeout(cache: map<string, CacheEntry>, key: string, other: string,
                           s: ProductsSection, stored: int, later: int)
    requires other != key
    ensures var c := cache[key := CacheEntry(s, stored + PRODUCTS_CACHE_TIMEOUT)];
      (stored <= later < stored + PRODUCTS_CACHE_TIMEOUT ==> CacheGet(c, key, later) == Some(s)) &&
      (later >= stored + PRODUCTS_CACHE_TIMEOUT ==> CacheGet(c, key, later) == None) &&
      CacheGet(c, other, later) == CacheGet(cache, other, later)
  {
  }

  class HomeFeedService {
    const log: SearchHistory.SearchLog
    var cache: map<string, CacheEntry>

    ghost predicate Valid()
      reads this, log
    {
      log.Valid()
    }

    constructor ()
      ensures Valid() && log.events == [] && cache == map[]
    {
      log := new SearchHistory.SearchLog();
      cache := map[];
    }

    /**
     * `get_home_feed` for an authenticated user: record the query, read the
     * recent searches, then serve the product section from the cache or
     * compute and store it.
     */
    method GetHomeFeed(user: UserModels.UserId, page: nat, pageSize: nat, q: Option<string>,
                       category: Option<string>, seller: Option<UserModels.UserId>, hideOutOfStock: bool,
                       ps: seq<Product>, t: Tables, now: int)
      returns (recent: seq<SearchHistory.SearchEvent>, section: ProductsSection)
      requires Valid()
      requires page >= 1 && 1 <= pageSize <= 100
      modifies this, log
      ensures Valid()
      ensures var q' := DropShortQuery(q);
        (!Records(q') ==> log.events == old(log.events) && log.nextId == old(log.nextId)) &&
        (Records(q') ==>
           var o := SearchHistory.RecordOutcome(old(log.events), old(log.nextId), user, Strip(q'.value),
                                                SearchHistory.DEFAULT_DEDUPE_WINDOW_MINUTES, now);
           log.events == old(log.events) + (if o.Some? then [o.value] else []) &&
           log.nextId == old(log.nextId) + (if o.Some? then 1 else 0))
      ensures recent == SearchHistory.Recent(log.events, user, RECENT_SEARCHES_LIMIT)
      ensures var size := CappedPageSize(pageSize); var q' := DropShortQuery(q);
        var key := EscapedKey(page, size, q', category, seller, hideOutOfStock);
        var hit := CacheGet(old(cache), key, now);
        (hit.Some? ==> section == hit.value && cache == old(cache)) &&
        (hit.None? ==>
           section == FreshSection(ps, t, page, size, SearchTerm(q'), CategoryFilter(category), seller, hideOutOfStock) &&
           cache == old(cache)[key := CacheEntry(section, now + PRODUCTS_CACHE_TIMEOUT)])
    {
      var size := CappedPageSize(pageSize);
      var q' := DropShortQuery(q);
      if Records(q') {
        var _ := log.RecordSearch(user, Strip(q'.value), SearchHistory.DEFAULT_DEDUPE_WINDOW_MINUTES, now);
      }
      recent := log.RecentForUser(user, RECENT_SEARCHES_LIMIT);

      var key := EscapedKey(page, size, q', category, seller, hideOutOfStock);
      var hit := CacheGet(cache, key, now);
      if hit.Some? {
        section := hit.value;
      } else {
        var all := FeedProducts(ps, SearchTerm(q'), CategoryFilter(category), seller, hideOutOfStock);
        var items := BuildItems(Paging.Page(all, page, size), t);
        section := ProductsSection(Paging.Pagination(page, size, |all|), items);
        cache := cache[key := CacheEntry(section, now + PRODUCTS_CACHE_TIMEOUT)];
      }
    }
  }
}
