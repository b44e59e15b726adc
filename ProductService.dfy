/**
 * `ProductService`: the owner-scoped product listing, the critical-stock
 * query, partial updates with their photo operations, and the two bulk
 * updates.  The product and photo tables live in a `ProductStore`.
 */
module ProductService {
  import opened Wrappers
  import opened Text
  import opened Query
  import opened ProductModels
  import ProductSchemas
  import Paging
  import UserModels

  type UserId = UserModels.UserId

  /** A table whose rows are identified by their id: two rows with one id are one row. */
  predicate ProductIdsUnique(ps: seq<Product>) {
    forall a, b :: a in ps && b in ps && a.id == b.id ==> a == b
  }

  predicate PhotoIdsUnique(phs: seq<Photo>) {
    forall a, b :: a in phs && b in phs && a.id == b.id ==> a == b
  }

  function FindProduct(ps: seq<Product>, id: ProductId): (r: Option<Product>)
    ensures r.Some? ==> r.value in ps && r.value.id == id
    ensures r.None? ==> forall p :: p in ps ==> p.id != id
  {
    if ps == [] then None
    else if ps[0].id == id then Some(ps[0])
    else FindProduct(ps[1..], id)
  }

  // ---------------------------------------------------------------------
  // list_products
  // ---------------------------------------------------------------------

  datatype ListFilters = ListFilters(
    isActive: Option<bool>,
    stockStatus: Option<string>,
    stockBelow: Option<int>,
    category: Option<string>,
    search: Option<string>)

  /** The stock-status filter as the query writes it, on the stock column; an unknown value filters nothing. */
  predicate StockStatusFilter(p: Product, status: string, threshold: int) {
    if status == "out_of_stock" then p.stock == 0
    else if status == "low_stock" then 0 < p.stock < threshold
    else if status == "in_stock" then p.stock >= threshold
    else true
  }

  /** With a positive threshold the filter keeps exactly the rows whose `stock_status` is the one asked for. */
  lemma StatusFilterAgrees(p: Product, s: StockStatus, threshold: int)
    requires threshold >= 1
    ensures StockStatusFilter(p, StatusText(s), threshold) <==> StockStatusOf(p.stock, threshold) == s
  {
  }

  /** An unknown status text applies no filter. */
  lemma UnknownStatusFiltersNothing(p: Product, status: string, threshold: int)
    requires StatusFromText(status).None?
    ensures StockStatusFilter(p, status, threshold)
  {
  }

  /** The search term: applied only when non-empty after trimming. */
  function SearchTerm(search: Option<string>): (r: Option<string>)
    ensures r.Some? <==> search.Some? && !AllSpace(search.value)
    ensures r.Some? ==> r.value == Strip(search.value) && r.value != []
  {
    if search.None? then None
    else
      StripEmptyIff(search.value);
      var t := Strip(search.value);
      if t == [] then None else Some(t)
  }

  /** Name or description contains the term, ignoring case; a missing description contains nothing. */
  predicate MatchesSearch(p: Product, term: string) {
    ContainsCI(p.name, term) || (p.description.Some? && ContainsCI(p.description.value, term))
  }

  /** Every filter of `list_products`, for a row of the table. */
  predicate Matches(p: Product, owner: UserId, f: ListFilters, threshold: int) {
    p.owner == owner &&
    (f.isActive.Some? ==> p.isActive == f.isActive.value) &&
    (f.stockBelow.Some? ==> p.stock < f.stockBelow.value) &&
    (f.category.Some? && f.category.value != [] ==> p.category == f.category.value) &&
    (SearchTerm(f.search).Some? ==> MatchesSearch(p, SearchTerm(f.search).value)) &&
    (f.stockStatus.Some? && f.stockStatus.value != [] ==> StockStatusFilter(p, f.stockStatus.value, threshold))
  }

  datatype SortField = CreatedAt | UpdatedAt | UnitPrice | ProductName
  datatype Ordering = Ordering(field: SortField, descending: bool)

  /** The `order_by` argument an ordering stands for. */
  function OrderingText(o: Ordering): string {
    match o
    case Ordering(CreatedAt, false) => "created_at"
    case Ordering(CreatedAt, true) => "-created_at"
    case Ordering(UpdatedAt, false) => "updated_at"
    case Ordering(UpdatedAt, true) => "-updated_at"
    case Ordering(UnitPrice, false) => "unit_price"
    case Ordering(UnitPrice, true) => "-unit_price"
    case Ordering(ProductName, false) => "product_name"
    case Ordering(ProductName, true) => "-product_name"
  }

  const SORT_KEYS: set<string> := {
    "created_at", "-created_at", "updated_at", "-updated_at",
    "unit_price", "-unit_price", "product_name", "-product_name"}

  /** The sort whitelist: a listed key is used as given, anything else (absent included) means `-created_at`. */
  function SortOrder(sort: Option<string>): (o: Ordering)
    ensures sort.Some? && sort.value in SORT_KEYS ==> OrderingText(o) == sort.value
    ensures sort.None? || sort.value !in SORT_KEYS ==> o == Ordering(CreatedAt, true)
  {
    if sort.None? then Ordering(CreatedAt, true)
    else
      var s := sort.value;
      if s == "created_at" then Ordering(CreatedAt, false)
      else if s == "-created_at" then Ordering(CreatedAt, true)
      else if s == "updated_at" then Ordering(UpdatedAt, false)
      else if s == "-updated_at" then Ordering(UpdatedAt, true)
      else if s == "unit_price" then Ordering(UnitPrice, false)
      else if s == "-unit_price" then Ordering(UnitPrice, true)
      else if s == "product_name" then Ordering(ProductName, false)
      else if s == "-product_name" then Ordering(ProductName, true)
      else Ordering(CreatedAt, true)
  }

  /** Every ordering is named by a whitelisted key, which reads back as that ordering. */
  lemma SortOrderRoundTrip(o: Ordering)
    ensures OrderingText(o) in SORT_KEYS
    ensures SortOrder(Some(OrderingText(o))) == o
  {
  }

  predicate KeyLe(f: SortField, a: Product, b: Product) {
    match f
    case CreatedAt => a.createdAt <= b.createdAt
    case UpdatedAt => a.updatedAt <= b.updatedAt
    case UnitPrice => a.unitPrice <= b.unitPrice
    case ProductName => StrLe(a.name, b.name)
  }

  predicate OrderLe(o: Ordering, a: Product, b: Product) {
    if o.descending then KeyLe(o.field, b, a) else KeyLe(o.field, a, b)
  }

  function Comparator(o: Ordering): (Product, Product) -> bool {
    (a: Product, b: Product) => OrderLe(o, a, b)
  }

  lemma OrderingIsTotalPreorder(o: Ordering)
    ensures IsTotalPreorder(Comparator(o))
  {
    var le := Comparator(o);
    forall a: Product, b: Product ensures le(a, b) || le(b, a) {
      StrLeTotal(a.name, b.name);
    }
    forall a: Product, b: Product, c: Product | le(a, b) && le(b, c) ensures le(a, c) {
      if o.field == ProductName {
        if o.descending { StrLeTransitive(c.name, b.name, a.name); }
        else { StrLeTransitive(a.name, b.name, c.name); }
      }
    }
  }

  /** The rows `list_products` selects, before ordering. */
  function Selected(ps: seq<Product>, owner: UserId, f: ListFilters, threshold: int): (r: seq<Product>)
    ensures forall p :: p in r <==> p in ps && Matches(p, owner, f, threshold)
  {
    Filter(ps, (p: Product) => Matches(p, owner, f, threshold))
  }

  /** The whole ordered result of a listing. */
  function Listing(ps: seq<Product>, owner: UserId, f: ListFilters, sort: Option<string>, threshold: int): (r: seq<Product>)
    ensures forall p :: p in r <==> p in ps && Matches(p, owner, f, threshold)
    ensures multiset(r) == multiset(Selected(ps, owner, f, threshold))
    ensures SortedBy(r, Comparator(SortOrder(sort)))
  {
    var sel := Selected(ps, owner, f, threshold);
    var r := SortBy(sel, Comparator(SortOrder(sort)));
    OrderingIsTotalPreorder(SortOrder(sort));
    SortBySorted(sel, Comparator(SortOrder(sort)));
    forall p ensures p in r <==> p in sel { SortByMembers(sel, Comparator(SortOrder(sort)), p); }
    r
  }

  datatype ListResult = ListResult(items: seq<Product>, total: nat)

  /**
   * `list_products`: filter, order, count, then slice one page.  The page is at
   * least 1, as the list query schema guarantees.
   */
  function ListProducts(ps: seq<Product>, owner: UserId, f: ListFilters, sort: Option<string>,
                        page: nat, pageSize: nat, threshold: int): (r: ListResult)
    requires page >= 1
    ensures r.total == |Selected(ps, owner, f, threshold)|
    ensures |r.items| <= pageSize
    ensures forall p :: p in r.items ==> p in ps && Matches(p, owner, f, threshold)
    ensures SortedBy(r.items, Comparator(SortOrder(sort)))
    ensures r.items == Paging.Page(Listing(ps, owner, f, sort, threshold), page, pageSize)
  {
    var all := Listing(ps, owner, f, sort, threshold);
    var items := Paging.Page(all, page, pageSize);
    Paging.PageSorted(all, page, pageSize, Comparator(SortOrder(sort)));
    forall p | p in items ensures p in all {
      var k :| 0 <= k < |items| && items[k] == p;
      assert all[Paging.Offset(page, pageSize) + k] == p;
    }
    ListResult(items, |all|)
  }

  /** `get_critical_stock`: the owner's active rows below the threshold, lowest stock first. */
  function CriticalStock(ps: seq<Product>, owner: UserId, threshold: int): (r: seq<Product>)
    ensures forall p :: p in r <==> p in ps && p.owner == owner && p.isActive && p.stock < threshold
    ensures SortedBy(r, (a: Product, b: Product) => a.stock <= b.stock)
  {
    var le := (a: Product, b: Product) => a.stock <= b.stock;
    var sel := Filter(ps, (p: Product) => p.owner == owner && p.isActive && p.stock < threshold);
    SortBySorted(sel, le);
    forall p ensures p in SortBy(sel, le) <==> p in sel { SortByMembers(sel, le, p); }
    SortBy(sel, le)
  }

  // ---------------------------------------------------------------------
  // update_product
  // ---------------------------------------------------------------------

  /** The product row after `update_product`: every provided field replaced, `updated_at` set. */
  function ApplyUpdate(p: Product, u: ProductSchemas.ProductUpdate, now: int): (r: Product)
    ensures r.id == p.id && r.owner == p.owner && r.createdAt == p.createdAt && r.updatedAt == now
    ensures r.name == u.name.GetOr(p.name) && r.category == u.category.GetOr(p.category)
    ensures r.description == (if u.description.Some? then u.description else p.description)
    ensures r.unitPrice == u.unitPrice.GetOr(p.unitPrice) && r.stock == u.stock.GetOr(p.stock)
    ensures r.sellQuantity == u.sellQuantity.GetOr(p.sellQuantity)
    ensures r.features == u.features.GetOr(p.features) && r.isActive == u.isActive.GetOr(p.isActive)
  {
    Product(p.id, p.owner, u.name.GetOr(p.name), u.category.GetOr(p.category),
            if u.description.Some? then u.description else p.description,
            u.unitPrice.GetOr(p.unitPrice), u.stock.GetOr(p.stock), u.sellQuantity.GetOr(p.sellQuantity),
            u.features.GetOr(p.features), u.isActive.GetOr(p.isActive), p.createdAt, now)
  }

  /** An update that provides nothing only moves `updated_at`. */
  lemma EmptyUpdateOnlyTouches(p: Product, now: int)
    ensures ApplyUpdate(p, ProductSchemas.ProductUpdate(None, None, None, None, None, None, None, None), now)
      == p.(updatedAt := now)
  {
  }

  /** A validated update keeps `FieldsValid`. */
  lemma ValidatedUpdateKeepsBounds(p: Product, input: ProductSchemas.UpdateInput,
                                   decode: string -> ProductSchemas.Decoded, now: int)
    requires FieldsValid(p)
    requires ProductSchemas.ValidateUpdate(input, decode).Ok?
    ensures FieldsValid(ApplyUpdate(p, ProductSchemas.ValidateUpdate(input, decode).value, now))
  {
  }

  /** Replace the row with `r`'s id by `r`. */
  function ReplaceProduct(ps: seq<Product>, r: Product): (out: seq<Product>)
    ensures |out| == |ps|
    ensures forall k :: 0 <= k < |ps| ==> out[k] == if ps[k].id == r.id then r else ps[k]
  {
    seq(|ps|, k requires 0 <= k < |ps| => if ps[k].id == r.id then r else ps[k])
  }

  /** `photos_to_delete`: the listed photos of this product go; no other product's photo does. */
  function DeletePhotos(phs: seq<Photo>, pid: ProductId, ids: seq<PhotoId>): (r: seq<Photo>)
    ensures forall ph :: ph in r <==> ph in phs && !(ph.product == pid && ph.id in ids)
  {
    Filter(phs, (ph: Photo) => !(ph.product == pid && ph.id in ids))
  }

  /** Some photo of this product has the id: the row `filter(id=…, product=product)` matches. */
  predicate Targets(phs: seq<Photo>, pid: ProductId, id: PhotoId) {
    exists k :: 0 <= k < |phs| && phs[k].id == id && phs[k].product == pid
  }

  /**
   * `sort_order` is a `PositiveIntegerField`: no entry may write a negative
   * order into a row it matches. An entry matching no row updates nothing.
   */
  predicate Admissible(phs: seq<Photo>, pid: ProductId, ops: seq<(PhotoId, int)>) {
    forall i :: 0 <= i < |ops| ==> ops[i].1 >= 0 || !Targets(phs, pid, ops[i].0)
  }

  /** One entry of `photos_to_update`: the photo with that id, if it belongs to this product, gets the order. */
  function SetSortOrder(phs: seq<Photo>, pid: ProductId, id: PhotoId, order: int): (r: seq<Photo>)
    requires order >= 0 || !Targets(phs, pid, id)
    ensures |r| == |phs|
    ensures forall k :: 0 <= k < |phs| ==>
      r[k] == if phs[k].id == id && phs[k].product == pid then phs[k].(sortOrder := order) else phs[k]
  {
    seq(|phs|, k requires 0 <= k < |phs| =>
      if phs[k].id == id && phs[k].product == pid then phs[k].(sortOrder := order) else phs[k])
  }

  /** All of `photos_to_update`, in order: only sort orders of this product's photos change. */
  function Reorder(phs: seq<Photo>, pid: ProductId, ops: seq<(PhotoId, int)>): (r: seq<Photo>)
    requires Admissible(phs, pid, ops)
    ensures |r| == |phs|
    ensures forall k :: 0 <= k < |phs| ==> r[k].(sortOrder := phs[k].sortOrder) == phs[k]
    ensures forall k :: 0 <= k < |phs| && phs[k].product != pid ==> r[k] == phs[k]
    decreases |ops|
  {
    if ops == [] then phs
    else
      var last := ops[|ops| - 1];
      AdmissiblePrefix(phs, pid, ops, |ops| - 1);
      var before := Reorder(phs, pid, ops[..|ops| - 1]);
      SameTargets(phs, before, pid, last.0);
      SetSortOrder(before, pid, last.0, last.1)
  }
  /** The entries before a failing one are admissible too. */
  lemma AdmissiblePrefix(phs: seq<Photo>, pid: ProductId, ops: seq<(PhotoId, int)>, n: nat)
    requires n <= |ops| && Admissible(phs, pid, ops)
    ensures Admissible(phs, pid, ops[..n])
  {
    forall i | 0 <= i < n ensures ops[..n][i] == ops[i] { }
  }

  /** Photos with the same ids and products, position by position, are targeted by the same entries. */
  lemma SameTargets(phs: seq<Photo>, r: seq<Photo>, pid: ProductId, id: PhotoId)
    requires |r| == |phs| && forall k :: 0 <= k < |phs| ==> r[k].(sortOrder := phs[k].sortOrder) == phs[k]
    ensures Targets(r, pid, id) <==> Targets(phs, pid, id)
  {
    if Targets(r, pid, id) {
      var k :| 0 <= k < |r| && r[k].id == id && r[k].product == pid;
      assert r[k].(sortOrder := phs[k].sortOrder) == phs[k];
    }
    if Targets(phs, pid, id) {
      var k :| 0 <= k < |phs| && phs[k].id == id && phs[k].product == pid;
      assert r[k].(sortOrder := phs[k].sortOrder) == phs[k];
    }
  }


  /** `photos_to_add`: new photos of this product, with added ids from `firstId` on. */
  function NewPhotos(pid: ProductId, adds: seq<(string, nat)>, firstId: PhotoId, now: int): (r: seq<Photo>)
    ensures |r| == |adds|
    ensures forall k :: 0 <= k < |adds| ==> r[k] == Photo(firstId + k, pid, adds[k].0, adds[k].1, now)
  {
    seq(|adds|, k requires 0 <= k < |adds| => Photo(firstId + k, pid, adds[k].0, adds[k].1, now))
  }

  /** The photo ordering of the responses: `sort_order`, then `created_at`. */
  predicate PhotoLe(a: Photo, b: Photo) {
    a.sortOrder < b.sortOrder || (a.sortOrder == b.sortOrder && a.createdAt <= b.createdAt)
  }

  /** A product's photos as the responses list them. */
  function PhotosOf(phs: seq<Photo>, pid: ProductId): (r: seq<Photo>)
    ensures forall ph :: ph in r <==> ph in phs && ph.product == pid
    ensures SortedBy(r, PhotoLe)
  {
    var mine := Filter(phs, (ph: Photo) => ph.product == pid);
    SortBySorted(mine, PhotoLe);
    forall ph ensures ph in SortBy(mine, PhotoLe) <==> ph in mine { SortByMembers(mine, PhotoLe, ph); }
    SortBy(mine, PhotoLe)
  }

  // ---------------------------------------------------------------------
  // bulk updates
  // ---------------------------------------------------------------------

  datatype BulkField = PriceField | StockField
  datatype BulkItem = BulkItem(id: ProductId, value: nat)
  datatype BulkResult = BulkResult(id: ProductId, success: bool, error: Option<string>)

  /** `Product.objects.get(id=..., owner=user)` finds a row. */
  predicate Owns(ps: seq<Product>, id: ProductId, owner: UserId) {
    exists k :: 0 <= k < |ps| && ps[k].id == id && ps[k].owner == owner
  }

  /** `get_product_by_id`: the row with this id, but only when the user owns it. */
  function OwnedProduct(ps: seq<Product>, owner: UserId, id: ProductId): (r: Option<Product>)
    ensures r.Some? <==> Owns(ps, id, owner)
    ensures r.Some? ==> r.value in ps && r.value.id == id && r.value.owner == owner
  {
    if ps == [] then None
    else if ps[0].id == id && ps[0].owner == owner then Some(ps[0])
    else
      var r := OwnedProduct(ps[1..], owner, id);
      assert Owns(ps[1..], id, owner) ==> Owns(ps, id, owner) by {
        if Owns(ps[1..], id, owner) {
          var k :| 0 <= k < |ps[1..]| && ps[1..][k].id == id && ps[1..][k].owner == owner;
          assert ps[k + 1] == ps[1..][k];
        }
      }
      r
  }

  /** A user's own product is found by id whatever other owners' rows the table holds. */
  lemma {:induction false} OwnedProductIgnoresOthers(ps: seq<Product>, others: seq<Product>, owner: UserId, id: ProductId)
    requires forall p :: p in others ==> p.owner != owner
    ensures OwnedProduct(others + ps, owner, id) == OwnedProduct(ps, owner, id)
  {
    if others != [] {
      assert (others + ps)[0] == others[0] && others[0] in others;
      assert (others + ps)[1..] == others[1..] + ps;
      OwnedProductIgnoresOthers(ps, others[1..], owner, id);
    } else {
      assert others + ps == ps;
    }
  }

  /** The one-field write of a bulk item: the field and `updated_at`, nothing else. */
  function SetField(p: Product, field: BulkField, value: nat, now: int): (r: Product)
    ensures r.(unitPrice := p.unitPrice, stock := p.stock, updatedAt := p.updatedAt) == p
    ensures field == PriceField ==> r.unitPrice == value && r.stock == p.stock
    ensures field == StockField ==> r.stock == value && r.unitPrice == p.unitPrice
    ensures r.updatedAt == now
  {
    match field
    case PriceField => p.(unitPrice := value, updatedAt := now)
    case StockField => p.(stock := value, updatedAt := now)
  }

  /** One bulk item applied to the table. */
  function ApplyItem(ps: seq<Product>, owner: UserId, field: BulkField, item: BulkItem, now: int): (r: seq<Product>)
    ensures |r| == |ps|
    ensures forall k :: 0 <= k < |ps| ==>
      r[k] == if ps[k].id == item.id && ps[k].owner == owner then SetField(ps[k], field, item.value, now) else ps[k]
  {
    seq(|ps|, k requires 0 <= k < |ps| =>
      if ps[k].id == item.id && ps[k].owner == owner then SetField(ps[k], field, item.value, now) else ps[k])
  }

  /** The items applied one after the other. */
  function ApplyItems(ps: seq<Product>, owner: UserId, field: BulkField, items: seq<BulkItem>, now: int): (r: seq<Product>)
    ensures |r| == |ps|
    ensures forall k :: 0 <= k < |ps| ==> r[k].id == ps[k].id && r[k].owner == ps[k].owner
    decreases |items|
  {
    if items == [] then ps
    else ApplyItem(ApplyItems(ps, owner, field, items[..|items| - 1], now), owner, field, items[|items| - 1], now)
  }

  /** The value the last item naming `id` carries, if any item does. */
  function LastValue(items: seq<BulkItem>, id: ProductId): (r: Option<nat>)
    ensures r.None? <==> forall it :: it in items ==> it.id != id
    ensures r.Some? ==> BulkItem(id, r.value) in items
    decreases |items|
  {
    if items == [] then None
    else if items[|items| - 1].id == id then Some(items[|items| - 1].value)
    else
      var r := LastValue(items[..|items| - 1], id);
      assert forall it :: it in items ==> it in items[..|items| - 1] || it == items[|items| - 1];
      r
  }

  /**
   * After a bulk update each row is either untouched (another owner's, or not
   * named by any item) or has the named field set to the last value given for it.
   */
  lemma {:induction false} ApplyItemsRow(ps: seq<Product>, owner: UserId, field: BulkField, items: seq<BulkItem>, now: int, k: nat)
    requires k < |ps|
    ensures ApplyItems(ps, owner, field, items, now)[k] ==
      if ps[k].owner == owner && LastValue(items, ps[k].id).Some?
      then SetField(ps[k], field, LastValue(items, ps[k].id).value, now)
      else ps[k]
    decreases |items|
  {
    if items != [] {
      ApplyItemsRow(ps, owner, field, items[..|items| - 1], now, k);
    }
  }

  /** The results of a bulk update: item i succeeds exactly when the user owns the product it names. */
  function BulkResults(ps: seq<Product>, owner: UserId, items: seq<BulkItem>): (rs: seq<BulkResult>)
    ensures |rs| == |items|
    ensures forall i :: 0 <= i < |items| ==> rs[i] == ResultFor(ps, owner, items[i])
  {
    seq(|items|, i requires 0 <= i < |items| => ResultFor(ps, owner, items[i]))
  }

  /** One turn of the bulk loop, in terms of the table before the loop. */
  lemma BulkStep(ps0: seq<Product>, owner: UserId, field: BulkField, items: seq<BulkItem>, i: nat, now: int)
    requires i < |items|
    ensures var ps := ApplyItems(ps0, owner, field, items[..i], now);
      ApplyItems(ps0, owner, field, items[..i + 1], now) ==
        (if Owns(ps, items[i].id, owner) then ApplyItem(ps, owner, field, items[i], now) else ps) &&
      ResultFor(ps, owner, items[i]) == ResultFor(ps0, owner, items[i])
    ensures BulkResults(ps0, owner, items[..i + 1]) == BulkResults(ps0, owner, items[..i]) + [ResultFor(ps0, owner, items[i])]
  {
    var ps := ApplyItems(ps0, owner, field, items[..i], now);
    ApplyItemsStep(ps0, owner, field, items, i, now);
    OwnsKept(ps0, owner, field, items[..i], now, items[i].id, owner);
    if !Owns(ps, items[i].id, owner) { ApplyItemNotOwned(ps, owner, field, items[i], now); }
  }

  lemma {:induction false} ApplyItemsKeepIdsUnique(ps: seq<Product>, owner: UserId, field: BulkField, items: seq<BulkItem>, now: int)
    requires ProductIdsUnique(ps)
    ensures ProductIdsUnique(ApplyItems(ps, owner, field, items, now))
    decreases |items|
  {
    if items != [] {
      ApplyItemsKeepIdsUnique(ps, owner, field, items[..|items| - 1], now);
      ApplyItemKeepsIdsUnique(ApplyItems(ps, owner, field, items[..|items| - 1], now), owner, field, items[|items| - 1], now);
    }
  }

  lemma ApplyItemsStep(ps: seq<Product>, owner: UserId, field: BulkField, items: seq<BulkItem>, i: nat, now: int)
    requires i < |items|
    ensures ApplyItems(ps, owner, field, items[..i + 1], now) ==
      ApplyItem(ApplyItems(ps, owner, field, items[..i], now), owner, field, items[i], now)
  {
    assert items[..i + 1][..i] == items[..i];
  }

  lemma ApplyItemNotOwned(ps: seq<Product>, owner: UserId, field: BulkField, item: BulkItem, now: int)
    requires !Owns(ps, item.id, owner)
    ensures ApplyItem(ps, owner, field, item, now) == ps
  {
  }

  lemma SuccessesSnoc(rs: seq<BulkResult>, x: BulkResult)
    ensures Successes(rs + [x]) == Successes(rs) + (if x.success then 1 else 0)
  {
    assert (rs + [x])[..|rs|] == rs;
  }

  function ResultFor(ps: seq<Product>, owner: UserId, item: BulkItem): (r: BulkResult)
    ensures r.id == item.id
    ensures r.success <==> Owns(ps, item.id, owner)
    ensures r.success ==> r.error.None?
    ensures !r.success ==> r.error == Some("Product not found")
  {
    if Owns(ps, item.id, owner) then BulkResult(item.id, true, None)
    else BulkResult(item.id, false, Some("Product not found"))
  }

  function Successes(rs: seq<BulkResult>): (n: nat)
    ensures n <= |rs|
    decreases |rs|
  {
    if rs == [] then 0
    else Successes(rs[..|rs| - 1]) + (if rs[|rs| - 1].success then 1 else 0)
  }

  /** Ids and owners never move, so who owns what is the same before and after any items. */
  lemma OwnsKept(ps: seq<Product>, owner: UserId, field: BulkField, items: seq<BulkItem>, now: int, id: ProductId, u: UserId)
    ensures Owns(ApplyItems(ps, owner, field, items, now), id, u) <==> Owns(ps, id, u)
  {
    var r := ApplyItems(ps, owner, field, items, now);
    if Owns(ps, id, u) {
      var k :| 0 <= k < |ps| && ps[k].id == id && ps[k].owner == u;
      assert r[k].id == id && r[k].owner == u;
    }
    if Owns(r, id, u) {
      var k :| 0 <= k < |r| && r[k].id == id && r[k].owner == u;
      assert ps[k].id == id && ps[k].owner == u;
    }
  }

  lemma ApplyItemKeepsIdsUnique(ps: seq<Product>, owner: UserId, field: BulkField, item: BulkItem, now: int)
    requires ProductIdsUnique(ps)
    ensures ProductIdsUnique(ApplyItem(ps, owner, field, item, now))
  {
    var r := ApplyItem(ps, owner, field, item, now);
    forall a, b | a in r && b in r && a.id == b.id ensures a == b {
      var i :| 0 <= i < |r| && r[i] == a;
      var j :| 0 <= j < |r| && r[j] == b;
      assert ps[i].id == a.id && ps[j].id == b.id;
      assert ps[i] == ps[j];
    }
  }

  lemma ReplaceKeepsIdsUnique(ps: seq<Product>, r: Product)
    requires ProductIdsUnique(ps)
    ensures ProductIdsUnique(ReplaceProduct(ps, r))
  {
    var out := ReplaceProduct(ps, r);
    forall a, b | a in out && b in out && a.id == b.id ensures a == b {
      var i :| 0 <= i < |out| && out[i] == a;
      var j :| 0 <= j < |out| && out[j] == b;
      if ps[i].id != r.id && ps[j].id != r.id { assert ps[i] == ps[j]; }
    }
  }

  lemma ReorderKeepsIdsUnique(phs: seq<Photo>, pid: ProductId, ops: seq<(PhotoId, int)>)
    requires PhotoIdsUnique(phs) && Admissible(phs, pid, ops)
    ensures PhotoIdsUnique(Reorder(phs, pid, ops))
  {
    var r := Reorder(phs, pid, ops);
    forall a, b | a in r && b in r && a.id == b.id ensures a == b {
      var i :| 0 <= i < |r| && r[i] == a;
      var j :| 0 <= j < |r| && r[j] == b;
      ReorderSameId(phs, pid, ops, i, j);
    }
  }

  lemma ReorderSameId(phs: seq<Photo>, pid: ProductId, ops: seq<(PhotoId, int)>, i: nat, j: nat)
    requires PhotoIdsUnique(phs) && Admissible(phs, pid, ops)
    requires i < |phs| && j < |phs| && Reorder(phs, pid, ops)[i].id == Reorder(phs, pid, ops)[j].id
    ensures Reorder(phs, pid, ops)[i] == Reorder(phs, pid, ops)[j]
  {
    var r := Reorder(phs, pid, ops);
    assert r[i].(sortOrder := phs[i].sortOrder) == phs[i];
    assert r[j].(sortOrder := phs[j].sortOrder) == phs[j];
    assert phs[i] in phs && phs[j] in phs;
    assert phs[i] == phs[j];
    SameSortOrderAfterReorder(phs, pid, ops, i, j);
  }

  /** Reordering creates no photo: every photo afterwards has the id of one before. */
  lemma ReorderAddsNoPhoto(phs: seq<Photo>, pid: ProductId, ops: seq<(PhotoId, int)>)
    requires Admissible(phs, pid, ops)
    ensures forall ph :: ph in Reorder(phs, pid, ops) ==> exists q :: q in phs && q.id == ph.id
  {
    var r := Reorder(phs, pid, ops);
    forall ph | ph in r ensures exists q :: q in phs && q.id == ph.id {
      var i :| 0 <= i < |r| && r[i] == ph;
      assert r[i].(sortOrder := phs[i].sortOrder) == phs[i];
      assert phs[i] in phs;
    }
  }

  /** Two positions holding the same photo end with the same sort order. */
  lemma {:induction false} SameSortOrderAfterReorder(phs: seq<Photo>, pid: ProductId, ops: seq<(PhotoId, int)>, i: nat, j: nat)
    requires i < |phs| && j < |phs| && phs[i] == phs[j] && Admissible(phs, pid, ops)
    ensures Reorder(phs, pid, ops)[i] == Reorder(phs, pid, ops)[j]
    decreases |ops|
  {
    if ops != [] {
      AdmissiblePrefix(phs, pid, ops, |ops| - 1);
      SameSortOrderAfterReorder(phs, pid, ops[..|ops| - 1], i, j);
    }
  }

  class ProductStore {
    var products: seq<Product>
    var photos: seq<Photo>
    /** Source of added photo identifiers (`uuid4` in the database). */
    var nextPhotoId: nat

    ghost predicate Valid()
      reads this
    {
      ProductIdsUnique(products) && PhotoIdsUnique(photos) && (forall ph :: ph in photos ==> ph.id < nextPhotoId)
    }

    constructor ()
      ensures Valid() && products == [] && photos == []
    {
      products, photos, nextPhotoId := [], [], 0;
    }

    /** The loop both bulk updates run. */
    method BulkUpdate(user: UserId, field: BulkField, items: seq<BulkItem>, now: int)
      returns (updated: nat, failed: nat, results: seq<BulkResult>)
      requires Valid()
      modifies this
      ensures Valid()
      ensures photos == old(photos) && nextPhotoId == old(nextPhotoId)
      ensures products == ApplyItems(old(products), user, field, items, now)
      ensures |results| == |items| && updated + failed == |items| && updated == Successes(results)
      ensures results == BulkResults(old(products), user, items)
    {
      var ps;
      ps, updated, failed, results := BulkLoop(products, user, field, items, now);
      ApplyItemsKeepIdsUnique(old(products), user, field, items, now);
      products := ps;
    }

    /** `bulk_update_prices` (prices in cents). */
    method BulkUpdatePrices(user: UserId, items: seq<BulkItem>, now: int)
      returns (updated: nat, failed: nat, results: seq<BulkResult>)
      requires Valid()
      modifies this
      ensures Valid()
      ensures photos == old(photos) && nextPhotoId == old(nextPhotoId)
      ensures products == ApplyItems(old(products), user, PriceField, items, now)
      ensures |results| == |items| && updated + failed == |items| && updated == Successes(results)
      ensures results == BulkResults(old(products), user, items)
    {
      updated, failed, results := BulkUpdate(user, PriceField, items, now);
    }

    /** `bulk_update_stock`. */
    method BulkUpdateStock(user: UserId, items: seq<BulkItem>, now: int)
      returns (updated: nat, failed: nat, results: seq<BulkResult>)
      requires Valid()
      modifies this
      ensures Valid()
      ensures photos == old(photos) && nextPhotoId == old(nextPhotoId)
      ensures products == ApplyItems(old(products), user, StockField, items, now)
      ensures |results| == |items| && updated + failed == |items| && updated == Successes(results)
      ensures results == BulkResults(old(products), user, items)
    {
      updated, failed, results := BulkUpdate(user, StockField, items, now);
    }

    /**
     * `update_product` on a product already found for its owner: the provided
     * fields are saved, then the photo operations run as delete, reorder, add,
     * each limited to this product's photos. A negative order written into
     * one of the remaining photos breaks the column's check; the atomic
     * transaction then rolls back and nothing changes (`None`).
     */
    method UpdateProduct(pid: ProductId, u: ProductSchemas.ProductUpdate, deletes: seq<PhotoId>,
                         reorders: seq<(PhotoId, int)>, adds: seq<(string, nat)>, now: int) returns (r: Option<Product>)
      requires Valid() && FindProduct(products, pid).Some?
      modifies this
      ensures Valid()
      ensures r.None? <==> !Admissible(DeletePhotos(old(photos), pid, deletes), pid, reorders)
      ensures r.None? ==> products == old(products) && photos == old(photos) && nextPhotoId == old(nextPhotoId)
      ensures r.Some? ==> r.value == ApplyUpdate(FindProduct(old(products), pid).value, u, now)
      ensures r.Some? ==> products == ReplaceProduct(old(products), r.value)
      ensures r.Some? ==> photos == Reorder(DeletePhotos(old(photos), pid, deletes), pid, reorders)
                                   + NewPhotos(pid, adds, old(nextPhotoId), now)
      ensures r.Some? ==> nextPhotoId == old(nextPhotoId) + |adds|
    {
      var kept := DeletePhotos(photos, pid, deletes);
      var mid, ok := ReorderPhotos(kept, pid, reorders);
      if !ok {
        return None;
      }
      var p := ApplyUpdate(FindProduct(products, pid).value, u, now);
      ReplaceKeepsIdsUnique(products, p);
      products := ReplaceProduct(products, p);

      ReorderKeepsIdsUnique(kept, pid, reorders);
      ReorderAddsNoPhoto(kept, pid, reorders);
      var phs, next := AddPhotos(mid, pid, adds, nextPhotoId, now);
      photos, nextPhotoId := phs, next;
      PhotosValidAfterUpdate(old(photos), kept, mid, pid, adds, old(nextPhotoId), now);
      r := Some(p);
    }
  }

  /** The per-item loop of the bulk updates, over the products as they were at the start. */
  method BulkLoop(start: seq<Product>, user: UserId, field: BulkField, items: seq<BulkItem>, now: int)
    returns (ps: seq<Product>, updated: nat, failed: nat, results: seq<BulkResult>)
    ensures ps == ApplyItems(start, user, field, items, now)
    ensures |results| == |items| && updated + failed == |items| && updated == Successes(results)
    ensures results == BulkResults(start, user, items)
  {
    updated, failed, results := 0, 0, [];
    ps := start;
    var i := 0;
    while i < |items|
      invariant 0 <= i <= |items|
      invariant ps == ApplyItems(start, user, field, items[..i], now)
      invariant results == BulkResults(start, user, items[..i])
      invariant updated + failed == i && updated == Successes(results)
    {
      var item := items[i];
      BulkStep(start, user, field, items, i, now);
      var res := ResultFor(ps, user, item);
      if Owns(ps, item.id, user) {
        ps := ApplyItem(ps, user, field, item, now);
        updated := updated + 1;
      } else {
        failed := failed + 1;
      }
      SuccessesSnoc(results, res);
      results := results + [res];
      i := i + 1;
    }
    assert items[..|items|] == items;
  }

  /**
   * The reorder loop of `update_product`: each pair sets one of the product's
   * photos' sort order, and the first pair writing a negative order into a
   * photo of the product fails the loop.
   */
  method ReorderPhotos(kept: seq<Photo>, pid: ProductId, reorders: seq<(PhotoId, int)>)
    returns (phs: seq<Photo>, ok: bool)
    ensures ok <==> Admissible(kept, pid, reorders)
    ensures ok ==> phs == Reorder(kept, pid, reorders)
  {
    phs := kept;
    var i := 0;
    while i < |reorders|
      invariant 0 <= i <= |reorders|
      invariant Admissible(kept, pid, reorders[..i])
      invariant phs == Reorder(kept, pid, reorders[..i])
    {
      var (id, order) := reorders[i];
      SameTargets(kept, phs, pid, id);
      if order < 0 && Targets(phs, pid, id) {
        return phs, false;
      }
      assert reorders[..i + 1][..i] == reorders[..i];
      assert Admissible(kept, pid, reorders[..i + 1]) by {
        forall j | 0 <= j < i + 1 ensures reorders[..i + 1][j] == reorders[j] { }
      }
      phs := SetSortOrder(phs, pid, id, order);
      i := i + 1;
    }
    assert reorders[..|reorders|] == reorders;
    ok := true;
  }

  /** The add loop of `update_product`: one new photo per upload, numbered from `first`. */
  method AddPhotos(mid: seq<Photo>, pid: ProductId, adds: seq<(string, nat)>, first: nat, now: int)
    returns (phs: seq<Photo>, next: nat)
    ensures phs == mid + NewPhotos(pid, adds, first, now)
    ensures next == first + |adds|
  {
    phs, next := mid, first;
    var j := 0;
    while j < |adds|
      invariant 0 <= j <= |adds|
      invariant phs == mid + NewPhotos(pid, adds[..j], first, now)
      invariant next == first + j
    {
      phs := phs + [Photo(next, pid, adds[j].0, adds[j].1, now)];
      next := next + 1;
      j := j + 1;
    }
    assert adds[..|adds|] == adds;
  }

  lemma PhotosValidAfterUpdate(before: seq<Photo>, kept: seq<Photo>, mid: seq<Photo>, pid: ProductId,
                               adds: seq<(string, nat)>, next: nat, now: int)
    requires PhotoIdsUnique(before) && forall ph :: ph in before ==> ph.id < next
    requires forall ph :: ph in kept ==> ph in before
    requires PhotoIdsUnique(mid) && forall ph :: ph in mid ==> exists q :: q in kept && q.id == ph.id
    ensures var all := mid + NewPhotos(pid, adds, next, now);
      PhotoIdsUnique(all) && forall ph :: ph in all ==> ph.id < next + |adds|
  {
    var added := NewPhotos(pid, adds, next, now);
    var all := mid + added;
    forall ph | ph in mid ensures ph.id < next {
      var q :| q in kept && q.id == ph.id;
    }
    NewPhotosIds(pid, adds, next, now);
    forall a, b | a in all && b in all && a.id == b.id ensures a == b {
      assert a in mid <==> b in mid;
    }
  }

  /** The added photos have fresh, distinct ids from `next` on. */
  lemma NewPhotosIds(pid: ProductId, adds: seq<(string, nat)>, next: nat, now: int)
    ensures var added := NewPhotos(pid, adds, next, now);
      PhotoIdsUnique(added) && forall ph :: ph in added ==> next <= ph.id < next + |adds|
  {
    var added := NewPhotos(pid, adds, next, now);
    forall ph | ph in added ensures next <= ph.id < next + |adds| {
      var i :| 0 <= i < |added| && added[i] == ph;
    }
    forall a, b | a in added && b in added && a.id == b.id ensures a == b {
      var i :| 0 <= i < |added| && added[i] == a;
      var j :| 0 <= j < |added| && added[j] == b;
    }
  }
}
