/**
 * The watchlist endpoints: a user's saved products, listed newest first one
 * page at a time, added idempotently (201 for a new entry, 200 for one that
 * exists) and removed (404 when absent).  The watchlist table keeps at most
 * one entry per (user, product).
 */
module Watchlist {
  import opened Wrappers
  import opened Query
  import opened ProductModels
  import UserModels
  import Paging
  import HomeFeed
  import ProductService
  import ApiErrors

  datatype WatchlistItem = WatchlistItem(id: nat, user: UserModels.UserId, product: ProductId, createdAt: int)

  /** The table's constraints: ids below the id source and unique, one entry per (user, product). */
  ghost predicate ItemsValid(items: seq<WatchlistItem>, next: nat) {
    (forall it :: it in items ==> it.id < next) &&
    (forall a, b :: a in items && b in items && a.user == b.user && a.product == b.product ==> a == b) &&
    (forall a, b :: a in items && b in items && a.id == b.id ==> a == b)
  }

  /** The entry of `user` for `product`, if there is one. */
  function FindEntry(items: seq<WatchlistItem>, user: UserModels.UserId, product: ProductId): (r: Option<WatchlistItem>)
    ensures r.Some? ==> r.value in items && r.value.user == user && r.value.product == product
    ensures r.None? ==> forall it :: it in items ==> it.user != user || it.product != product
  {
    if items == [] then None
    else if items[0].user == user && items[0].product == product then Some(items[0])
    else FindEntry(items[1..], user, product)
  }

  /** `order_by('-created_at')`. */
  predicate NewerOrSame(a: WatchlistItem, b: WatchlistItem) { a.createdAt >= b.createdAt }

  /** The user's entries, newest first. */
  function EntriesOf(items: seq<WatchlistItem>, user: UserModels.UserId): (r: seq<WatchlistItem>)
    ensures forall it :: it in r <==> it in items && it.user == user
    ensures SortedBy(r, NewerOrSame)
  {
    var mine := Filter(items, (it: WatchlistItem) => it.user == user);
    SortBySorted(mine, NewerOrSame);
    forall it ensures it in SortBy(mine, NewerOrSame) <==> it in mine { SortByMembers(mine, NewerOrSame, it); }
    SortBy(mine, NewerOrSame)
  }

  /** Every entry's product exists: the foreign key. */
  predicate ProductsExist(items: seq<WatchlistItem>, ps: seq<Product>) {
    forall it :: it in items ==> ProductService.FindProduct(ps, it.product).Some?
  }

  /**
   * One element of the response: the entry with its product card.  The card
   * is the feed's card; the watchlist's product block carries every field of
   * it except `sellQuantity` and `createdAt` (the product's own creation
   * time), which that block does not have.
   */
  datatype ItemOut = ItemOut(id: nat, createdAt: int, product: HomeFeed.Card)

  /** `_build_watchlist_item_response`. */
  function ItemOutOf(it: WatchlistItem, ps: seq<Product>, t: HomeFeed.Tables): (r: ItemOut)
    requires ProductService.FindProduct(ps, it.product).Some?
    ensures r.id == it.id && r.createdAt == it.createdAt && r.product.id == it.product
    ensures r.product == HomeFeed.CardOf(ProductService.FindProduct(ps, it.product).value, t)
  {
    ItemOut(it.id, it.createdAt, HomeFeed.CardOf(ProductService.FindProduct(ps, it.product).value, t))
  }

  datatype ListResponse = ListResponse(items: seq<ItemOut>, pagination: Paging.PaginationInfo)

  /**
   * `list_watchlist`: the page size capped at 20, the user's entries newest
   * first, the page's slice, and the pagination block over all of them.
   */
  function ListWatchlist(items: seq<WatchlistItem>, user: UserModels.UserId, page: nat, pageSize: nat,
                         ps: seq<Product>, t: HomeFeed.Tables): (r: ListResponse)
    requires page >= 1 && 1 <= pageSize <= 100
    requires ProductsExist(items, ps)
    ensures var size := HomeFeed.CappedPageSize(pageSize); var mine := EntriesOf(items, user);
      r.pagination == Paging.Pagination(page, size, |mine|) &&
      |r.items| == |Paging.Page(mine, page, size)| && |r.items| <= size &&
      forall k :: 0 <= k < |r.items| ==>
        var it := Paging.Page(mine, page, size)[k];
        ProductService.FindProduct(ps, it.product).Some? && r.items[k] == ItemOutOf(it, ps, t)
  {
    var size := HomeFeed.CappedPageSize(pageSize);
    var mine := EntriesOf(items, user);
    var slice := Paging.Page(mine, page, size);
    forall k | 0 <= k < |slice| ensures ProductService.FindProduct(ps, slice[k].product).Some? {
      assert mine[Paging.Offset(page, size) + k] == slice[k];
      assert slice[k] in items;
    }
    ListResponse(seq(|slice|, k requires 0 <= k < |slice| => ItemOutOf(slice[k], ps, t)),
                 Paging.Pagination(page, size, |mine|))
  }

  /** A listed page shows only the requesting user's entries, newest first. */
  lemma ListedAreOwnNewestFirst(items: seq<WatchlistItem>, user: UserModels.UserId, page: nat, pageSize: nat)
    requires page >= 1 && 1 <= pageSize <= 100
    ensures var slice := Paging.Page(EntriesOf(items, user), page, HomeFeed.CappedPageSize(pageSize));
      (forall it :: it in slice ==> it in items && it.user == user) && SortedBy(slice, NewerOrSame)
  {
    var size := HomeFeed.CappedPageSize(pageSize);
    var mine := EntriesOf(items, user);
    var slice := Paging.Page(mine, page, size);
    Paging.PageSorted(mine, page, size, NewerOrSame);
    forall it | it in slice ensures it in mine {
      var k :| 0 <= k < |slice| && slice[k] == it;
      assert mine[Paging.Offset(page, size) + k] == it;
    }
  }

  const NOT_AVAILABLE: string := "Product not found or not available"
  const NOT_IN_WATCHLIST: string := "Product not in watchlist"
  const REMOVED: string := "Removed from watchlist"

  /** `WatchlistItem.get_product_ids_for_user`: the products of the user's entries. */
  function ProductIdsFor(items: seq<WatchlistItem>, user: UserModels.UserId): (r: seq<ProductId>)
    ensures forall pid :: pid in r <==> FindEntry(items, user, pid).Some?
  {
    var mine := Filter(items, (it: WatchlistItem) => it.user == user);
    var r := seq(|mine|, k requires 0 <= k < |mine| => mine[k].product);
    forall pid ensures pid in r <==> FindEntry(items, user, pid).Some? {
      if pid in r {
        var k :| 0 <= k < |r| && r[k] == pid;
        assert mine[k] in mine;
      }
      if FindEntry(items, user, pid).Some? {
        var e := FindEntry(items, user, pid).value;
        assert e in mine;
        var k :| 0 <= k < |mine| && mine[k] == e;
        assert r[k] == pid;
      }
    }
    r
  }

  class WatchlistStore {
    var items: seq<WatchlistItem>
    var nextId: nat

    ghost predicate Valid()
      reads this
    {
      ItemsValid(items, nextId)
    }

    constructor ()
      ensures Valid() && items == []
    {
      items, nextId := [], 0;
    }

    /** `add_to_watchlist`. */
    method Add(user: UserModels.UserId, pid: ProductId, ps: seq<Product>, now: int)
      returns (r: Result<(nat, WatchlistItem), ApiErrors.HttpError>)
      requires Valid()
      modifies this
      ensures Valid()
      ensures r == AddOutcome(old(items), old(nextId), user, pid, ps, now)
      ensures r.Ok? && r.value.0 == 201 ==> items == old(items) + [r.value.1] && nextId == old(nextId) + 1
      ensures !(r.Ok? && r.value.0 == 201) ==> items == old(items) && nextId == old(nextId)
    {
      var p := ProductService.FindProduct(ps, pid);
      if p.None? || !p.value.isActive {
        return Err(ApiErrors.HttpError(404, NOT_AVAILABLE));
      }
      var existing := FindEntry(items, user, pid);
      if existing.Some? {
        return Ok((200, existing.value));
      }
      var it := WatchlistItem(nextId, user, pid, now);
      items := items + [it];
      nextId := nextId + 1;
      r := Ok((201, it));
    }

    /** `remove_from_watchlist`: the entry is deleted, or 404 when there is none. */
    method Remove(user: UserModels.UserId, pid: ProductId) returns (r: Result<string, ApiErrors.HttpError>)
      requires Valid()
      modifies this
      ensures Valid()
      ensures r.Err? <==> FindEntry(old(items), user, pid).None?
      ensures r.Err? ==> r.error == ApiErrors.HttpError(404, NOT_IN_WATCHLIST) && items == old(items)
      ensures r.Ok? ==> r.value == REMOVED
      ensures r.Ok? ==> items == Filter(old(items), (it: WatchlistItem) => !(it.user == user && it.product == pid))
      ensures FindEntry(items, user, pid).None?
      ensures nextId == old(nextId)
    {
      if FindEntry(items, user, pid).None? {
        return Err(ApiErrors.HttpError(404, NOT_IN_WATCHLIST));
      }
      items := Filter(items, (it: WatchlistItem) => !(it.user == user && it.product == pid));
      r := Ok(REMOVED);
    }
  }

  /**
   * What `add_to_watchlist` answers: 404 unless the product exists and is
   * active; otherwise 200 with the user's existing entry for it, or 201 with
   * a new entry.  In every successful case the entry is the pair's entry
   * afterwards.
   */
  function AddOutcome(items: seq<WatchlistItem>, next: nat, user: UserModels.UserId, pid: ProductId,
                      ps: seq<Product>, now: int): (r: Result<(nat, WatchlistItem), ApiErrors.HttpError>)
    ensures var p := ProductService.FindProduct(ps, pid);
      (p.None? || !p.value.isActive) <==> r == Err(ApiErrors.HttpError(404, NOT_AVAILABLE))
    ensures r.Err? ==> r.error == ApiErrors.HttpError(404, NOT_AVAILABLE)
    ensures r.Ok? ==> r.value.0 in {200, 201}
    ensures r.Ok? && r.value.0 == 200 ==> FindEntry(items, user, pid) == Some(r.value.1)
    ensures r.Ok? && r.value.0 == 201 ==>
      FindEntry(items, user, pid).None? && r.value.1 == WatchlistItem(next, user, pid, now) &&
      FindEntry(items + [r.value.1], user, pid) == Some(r.value.1)
  {
    var p := ProductService.FindProduct(ps, pid);
    if p.None? || !p.value.isActive then Err(ApiErrors.HttpError(404, NOT_AVAILABLE))
    else if FindEntry(items, user, pid).Some? then Ok((200, FindEntry(items, user, pid).value))
    else
      var it := WatchlistItem(next, user, pid, now);
      FindEntryAppend(items, it, user, pid);
      Ok((201, it))
  }

  /** Appending an entry for a pair that had none makes it the pair's entry. */
  lemma {:induction false} FindEntryAppend(items: seq<WatchlistItem>, it: WatchlistItem, user: UserModels.UserId, pid: ProductId)
    requires FindEntry(items, user, pid).None? && it.user == user && it.product == pid
    ensures FindEntry(items + [it], user, pid) == Some(it)
  {
    if items != [] {
      assert (items + [it])[1..] == items[1..] + [it];
      FindEntryAppend(items[1..], it, user, pid);
    }
  }

  /** Adding twice is adding once: the second call answers 200 with the entry the first one made. */
  lemma AddIsIdempotent(items: seq<WatchlistItem>, next: nat, user: UserModels.UserId, pid: ProductId,
                        ps: seq<Product>, t1: int, t2: int)
    requires AddOutcome(items, next, user, pid, ps, t1).Ok?
    ensures var first := AddOutcome(items, next, user, pid, ps, t1).value;
      var after := if first.0 == 201 then items + [first.1] else items;
      AddOutcome(after, if first.0 == 201 then next + 1 else next, user, pid, ps, t2) == Ok((200, first.1))
  {
  }

  /** Adding keeps the table's constraints. */
  lemma AddKeepsItemsValid(items: seq<WatchlistItem>, next: nat, user: UserModels.UserId, pid: ProductId,
                           ps: seq<Product>, now: int)
    requires ItemsValid(items, next)
    requires AddOutcome(items, next, user, pid, ps, now).Ok?
    requires AddOutcome(items, next, user, pid, ps, now).value.0 == 201
    ensures ItemsValid(items + [AddOutcome(items, next, user, pid, ps, now).value.1], next + 1)
  {
  }
}
