/**
 * The chat REST endpoints: who becomes buyer and who supplier when a thread
 * is opened, the 404 answers, the clamping of the message-page parameters,
 * and the thread summary (`_build_thread_out`).  The store operations are
 * those of `ChatService.ChatStore`.
 */
module ChatApi {
  import opened Wrappers
  import opened Query
  import opened ChatModels
  import opened ChatService
  import UserModels
  import ProductModels
  import ProductService
  import ApiErrors

  const SUPPLIER_NOT_FOUND: string := "Supplier not found"
  const NOT_A_SUPPLIER: string := "User is not a supplier"
  const CHAT_WITH_SELF: string := "Cannot create chat with yourself"
  const PRODUCT_NOT_FOUND: string := "Product not found"
  const PRODUCT_NOT_OWNED: string := "Product does not belong to this supplier"
  const THREAD_NOT_FOUND: string := "Thread not found or access denied"

  /** The REST message body: 1 to 5000 characters, not trimmed. */
  const TEXT_MAX: nat := 5000

  predicate ValidRestText(text: string) {
    1 <= |text| <= TEXT_MAX
  }

  /** The arguments `create_or_get_thread` hands to `get_or_create_thread`. */
  datatype Parties = Parties(buyer: UserId, supplier: UserId, product: Option<ProductId>)

  /**
   * `create_or_get_thread` up to the store call: the target must exist, be a
   * supplier and not be the requester; a given product must exist and be the
   * target's.  A buyer-typed requester is the buyer; anyone else takes the
   * supplier's seat and the target becomes the buyer.
   */
  function ResolveParties(requester: UserModels.User, users: seq<UserModels.User>, targetId: UserId,
                          productId: Option<ProductId>, products: seq<ProductModels.Product>)
    : (r: Result<Parties, ApiErrors.HttpError>)
    ensures UserModels.FindUser(users, targetId).None? ==> r == Err(ApiErrors.HttpError(404, SUPPLIER_NOT_FOUND))
    ensures UserModels.FindUser(users, targetId).Some? && UserModels.FindUser(users, targetId).value.userType != UserModels.SUPPLIER ==>
      r == Err(ApiErrors.HttpError(404, NOT_A_SUPPLIER))
    ensures var t := UserModels.FindUser(users, targetId);
      t.Some? && t.value.userType == UserModels.SUPPLIER && t.value.id == requester.id ==>
      r == Err(ApiErrors.HttpError(404, CHAT_WITH_SELF))
    ensures var t := UserModels.FindUser(users, targetId);
      t.Some? && t.value.userType == UserModels.SUPPLIER && t.value.id != requester.id &&
      productId.Some? && ProductService.FindProduct(products, productId.value).None? ==>
      r == Err(ApiErrors.HttpError(404, PRODUCT_NOT_FOUND))
    ensures var t := UserModels.FindUser(users, targetId);
      t.Some? && t.value.userType == UserModels.SUPPLIER && t.value.id != requester.id &&
      productId.Some? && ProductService.FindProduct(products, productId.value).Some? &&
      ProductService.FindProduct(products, productId.value).value.owner != t.value.id ==>
      r == Err(ApiErrors.HttpError(404, PRODUCT_NOT_OWNED))
    ensures var t := UserModels.FindUser(users, targetId);
      t.Some? && t.value.userType == UserModels.SUPPLIER && t.value.id != requester.id &&
      (productId.Some? ==> ProductService.FindProduct(products, productId.value).Some? &&
                           ProductService.FindProduct(products, productId.value).value.owner == t.value.id) ==>
      r.Ok?
    ensures r.Err? ==> r.error.status == 404
    ensures r.Ok? ==> targetId != requester.id
    ensures r.Ok? ==> UserModels.FindUser(users, targetId).Some? && UserModels.FindUser(users, targetId).value.userType == UserModels.SUPPLIER
    ensures r.Ok? ==> r.value.product == productId
    ensures r.Ok? && productId.Some? ==>
      ProductService.FindProduct(products, productId.value).Some? &&
      ProductService.FindProduct(products, productId.value).value.owner == targetId
    ensures r.Ok? && requester.userType == UserModels.BUYER ==> r.value.buyer == requester.id && r.value.supplier == targetId
    ensures r.Ok? && requester.userType != UserModels.BUYER ==> r.value.buyer == targetId && r.value.supplier == requester.id
  {
    match UserModels.FindUser(users, targetId)
    case None => Err(ApiErrors.HttpError(404, SUPPLIER_NOT_FOUND))
    case Some(target) =>
      if target.userType != UserModels.SUPPLIER then Err(ApiErrors.HttpError(404, NOT_A_SUPPLIER))
      else if target.id == requester.id then Err(ApiErrors.HttpError(404, CHAT_WITH_SELF))
      else
        var productCheck: Option<ApiErrors.HttpError> :=
          match productId
          case None => None
          case Some(pid) =>
            match ProductService.FindProduct(products, pid)
            case None => Some(ApiErrors.HttpError(404, PRODUCT_NOT_FOUND))
            case Some(p) => if p.owner != target.id then Some(ApiErrors.HttpError(404, PRODUCT_NOT_OWNED)) else None;
        if productCheck.Some? then Err(productCheck.value)
        else if requester.userType == UserModels.BUYER then Ok(Parties(requester.id, target.id, productId))
        else Ok(Parties(target.id, requester.id, productId))
  }

  /** The two seats are always taken by two different users, so the store's one-row-per-user constraint never trips. */
  lemma ResolvedPartiesDiffer(requester: UserModels.User, users: seq<UserModels.User>, targetId: UserId,
                              productId: Option<ProductId>, products: seq<ProductModels.Product>)
    requires ResolveParties(requester, users, targetId, productId, products).Ok?
    ensures var p := ResolveParties(requester, users, targetId, productId, products).value;
      p.buyer != p.supplier && {p.buyer, p.supplier} == {requester.id, targetId}
  {
  }

  /** `min(max(page_size, 1), 100)`. */
  function ClampPageSize(n: int): (r: nat)
    ensures 1 <= r <= 100
    ensures 1 <= n <= 100 ==> r == n
    ensures n < 1 ==> r == 1
    ensures n > 100 ==> r == 100
  {
    if n < 1 then 1 else if n > 100 then 100 else n
  }

  /** `max(page, 1)`. */
  function ClampPage(n: int): (r: nat)
    ensures r >= 1
    ensures n >= 1 ==> r == n
    ensures n < 1 ==> r == 1
  {
    if n < 1 then 1 else n
  }

  datatype MessageList = MessageList(messages: seq<Message>, total: nat, page: nat, pageSize: nat, hasMore: bool)

  /**
   * `get_messages` (the endpoint): the clamped page of the thread's
   * messages, or the one 404 for a missing thread and for a stranger.
   */
  function MessagesEndpoint(ts: seq<Thread>, ms: seq<Message>, tid: ThreadId, u: UserId, page: int, pageSize: int)
    : (r: Result<MessageList, ApiErrors.HttpError>)
    ensures r.Err? <==> ThreadWithPermission(ts, tid, u).None?
    ensures r.Err? ==> r.error == ApiErrors.HttpError(404, THREAD_NOT_FOUND)
    ensures r.Ok? ==> r.value.page == ClampPage(page) && r.value.pageSize == ClampPageSize(pageSize)
    ensures r.Ok? ==> r.value.messages == GetMessages(ms, tid, ClampPage(page), ClampPageSize(pageSize)).messages
    ensures r.Ok? ==> |r.value.messages| <= 100 && SortedBy(r.value.messages, OlderFirst)
    ensures r.Ok? ==> forall m :: m in r.value.messages ==> m in ms && m.thread == tid
    ensures r.Ok? ==> r.value.total == |ThreadMessages(ms, tid)|
    ensures r.Ok? ==> (r.value.hasMore <==> r.value.page * r.value.pageSize < r.value.total)
  {
    var size := ClampPageSize(pageSize);
    var p := ClampPage(page);
    if ThreadWithPermission(ts, tid, u).None? then Err(ApiErrors.HttpError(404, THREAD_NOT_FOUND))
    else
      var mp := GetMessages(ms, tid, p, size);
      Ok(MessageList(mp.messages, mp.total, p, size, mp.hasMore))
  }

  /** A missing thread and a thread the user is no party to get the same answer. */
  lemma StrangerSeesMissingThread(ts: seq<Thread>, ms: seq<Message>, t: Thread, u: UserId, stranger: UserId,
                                  missing: ThreadId, page: int, pageSize: int)
    requires ThreadIdsUnique(ts) && t in ts && !IsParticipant(t, stranger)
    requires forall s :: s in ts ==> s.id != missing
    ensures MessagesEndpoint(ts, ms, t.id, stranger, page, pageSize) == MessagesEndpoint(ts, ms, missing, u, page, pageSize)
  {
    PermissionIff(ts, t.id, stranger);
  }

  /** `ThreadOut`, with the parties and the product by id. */
  datatype ThreadOut = ThreadOut(
    id: ThreadId,
    buyer: UserId,
    supplier: UserId,
    product: Option<ProductId>,
    lastMessage: Option<Message>,
    lastMessageAt: Option<int>,
    unreadCount: nat,
    createdAt: int,
    updatedAt: int)

  /**
   * `_build_thread_out`: the newest message and its time (none for an empty
   * thread), and the requester's own counter for the thread.
   */
  function BuildThreadOut(t: Thread, u: UserId, ms: seq<Message>, ps: seq<Participant>): (r: ThreadOut)
    ensures r.id == t.id && r.buyer == t.buyer && r.supplier == t.supplier && r.product == t.product
    ensures r.createdAt == t.createdAt && r.updatedAt == t.updatedAt
    ensures r.lastMessageAt.None? <==> forall m :: m in ms ==> m.thread != t.id
    ensures r.lastMessageAt.Some? ==>
      r.lastMessage.Some? && r.lastMessage.value in ms && r.lastMessage.value.thread == t.id &&
      r.lastMessageAt.value == r.lastMessage.value.createdAt &&
      forall m :: m in ms && m.thread == t.id ==> m.createdAt <= r.lastMessageAt.value
    ensures r.unreadCount == ThreadUnread(ps, t.id, u)
  {
    var last := LastMessage(ms, t.id);
    ThreadOut(t.id, t.buyer, t.supplier, t.product, last,
              if last.Some? then Some(last.value.createdAt) else None,
              ThreadUnread(ps, t.id, u), t.createdAt, t.updatedAt)
  }

  datatype ThreadList = ThreadList(threads: seq<ThreadOut>, total: nat)

  /** `get_threads`: a summary of each of the user's threads, in `get_user_threads` order. */
  function GetThreads(ts: seq<Thread>, u: UserId, ms: seq<Message>, ps: seq<Participant>): (r: ThreadList)
    ensures r.total == |r.threads| == |UserThreads(ts, u)|
    ensures forall i :: 0 <= i < |r.threads| ==> r.threads[i] == BuildThreadOut(UserThreads(ts, u)[i], u, ms, ps)
  {
    var mine := UserThreads(ts, u);
    var outs := seq(|mine|, i requires 0 <= i < |mine| => BuildThreadOut(mine[i], u, ms, ps));
    ThreadList(outs, |outs|)
  }

  /** The thread list shows only the user's threads, most recently updated first. */
  lemma ThreadListOwnRecentFirst(ts: seq<Thread>, u: UserId, ms: seq<Message>, ps: seq<Participant>)
    ensures var r := GetThreads(ts, u, ms, ps).threads;
      (forall i, j :: 0 <= i < j < |r| ==> r[i].updatedAt >= r[j].updatedAt) &&
      (forall i :: 0 <= i < |r| ==> r[i].buyer == u || r[i].supplier == u)
  {
    var mine := UserThreads(ts, u);
    var r := GetThreads(ts, u, ms, ps).threads;
    forall i, j | 0 <= i < j < |r| ensures r[i].updatedAt >= r[j].updatedAt {
      assert RecentlyUpdatedFirst(mine[i], mine[j]);
    }
    forall i | 0 <= i < |r| ensures r[i].buyer == u || r[i].supplier == u {
      assert mine[i] in mine;
    }
  }

  /**
   * `create_or_get_thread`: a 404 and no change when the checks fail;
   * otherwise the summary of the one thread for the resolved parties,
   * created with two zeroed rows when it did not exist.
   */
  method CreateOrGetThread(store: ChatStore, requester: UserModels.User, users: seq<UserModels.User>, targetId: UserId,
                           productId: Option<ProductId>, products: seq<ProductModels.Product>, now: int)
    returns (r: Result<ThreadOut, ApiErrors.HttpError>)
    requires store.Valid()
    modifies store
    ensures store.Valid()
    ensures var parties := ResolveParties(requester, users, targetId, productId, products);
      parties.Err? ==> r == Err(parties.error) && unchanged(store)
    ensures var parties := ResolveParties(requester, users, targetId, productId, products);
      parties.Ok? ==>
        var key := ThreadKey(parties.value.buyer, parties.value.supplier, parties.value.product);
        FindThread(store.threads, key).Some? &&
        r == Ok(BuildThreadOut(FindThread(store.threads, key).value, requester.id, store.messages, store.participants))
    ensures var parties := ResolveParties(requester, users, targetId, productId, products);
      parties.Ok? ==>
        var key := ThreadKey(parties.value.buyer, parties.value.supplier, parties.value.product);
        if FindThread(old(store.threads), key).Some? then unchanged(store)
        else
          var t := FindThread(store.threads, key).value;
          t.createdAt == now && t.updatedAt == now &&
          (forall s :: s in old(store.threads) ==> s.id != t.id) &&
          store.threads == old(store.threads) + [t] &&
          store.participants == old(store.participants) +
            [Participant(t.id, t.buyer, None, 0), Participant(t.id, t.supplier, None, 0)]
    ensures store.messages == old(store.messages)
  {
    var parties := ResolveParties(requester, users, targetId, productId, products);
    if parties.Err? {
      return Err(parties.error);
    }
    var key := ThreadKey(parties.value.buyer, parties.value.supplier, parties.value.product);
    var created := store.GetOrCreateThread(parties.value.buyer, parties.value.supplier, parties.value.product, now);
    match created
    case Err(_) =>
      assert false;
    case Ok(tc) =>
      var t := tc.0;
      if !tc.1 {
        assert FindThread(store.threads, key) == Some(t);
      } else {
        FindAfterCreate(old(store.threads), t);
      }
      r := Ok(BuildThreadOut(t, requester.id, store.messages, store.participants));
  }

  /**
   * `send_message` (the REST fallback): the same 404 for a missing thread
   * and a stranger; otherwise the store's send, which raises the other
   * party's counter by one.
   */
  method SendMessage(store: ChatStore, tid: ThreadId, u: UserId, text: string, now: int)
    returns (r: Result<Message, ApiErrors.HttpError>)
    requires store.Valid() && ValidRestText(text)
    modifies store
    ensures store.Valid()
    ensures ThreadWithPermission(old(store.threads), tid, u).None? ==>
      r == Err(ApiErrors.HttpError(404, THREAD_NOT_FOUND)) && unchanged(store)
    ensures ThreadWithPermission(old(store.threads), tid, u).Some? ==>
      var t := ThreadWithPermission(old(store.threads), tid, u).value;
      r == Ok(Message(old(store.nextId), tid, u, text, now)) &&
      store.messages == old(store.messages) + [r.value] &&
      store.threads == Touch(old(store.threads), tid, now) &&
      store.participants == Bump(old(store.participants), tid, OtherParticipant(t, u))
  {
    var t := ThreadWithPermission(store.threads, tid, u);
    if t.None? {
      return Err(ApiErrors.HttpError(404, THREAD_NOT_FOUND));
    }
    assert t.value.buyer != t.value.supplier;
    var m := store.SendMessage(tid, u, text, now);
    r := Ok(m);
  }

  datatype ReadAck = ReadAck(thread: ThreadId, unreadTotal: nat)

  /** `mark_thread_read`: the same 404; otherwise the user's row is zeroed and the new total returned. */
  method MarkThreadRead(store: ChatStore, tid: ThreadId, u: UserId, now: int)
    returns (r: Result<ReadAck, ApiErrors.HttpError>)
    requires store.Valid()
    modifies store
    ensures store.Valid()
    ensures ThreadWithPermission(old(store.threads), tid, u).None? ==>
      r == Err(ApiErrors.HttpError(404, THREAD_NOT_FOUND)) && unchanged(store)
    ensures ThreadWithPermission(old(store.threads), tid, u).Some? ==>
      store.threads == old(store.threads) && store.messages == old(store.messages) &&
      store.participants == MarkRead(old(store.participants), tid, u, now) &&
      r == Ok(ReadAck(tid, UnreadTotal(store.participants, u))) &&
      ThreadUnread(store.participants, tid, u) == 0
  {
    if ThreadWithPermission(store.threads, tid, u).None? {
      return Err(ApiErrors.HttpError(404, THREAD_NOT_FOUND));
    }
    var total := store.MarkThreadAsRead(tid, u, now);
    MarkReadThreadUnread(old(store.participants), tid, u, now, tid, u);
    r := Ok(ReadAck(tid, total));
  }
}
