/**
 * `ChatService`: the chat store and the queries over it.  The store keeps
 * the three tables as sequences; `get_or_create_thread`, `send_message` and
 * `mark_thread_as_read` change it in place, the rest are pure queries.
 */
module ChatService {
  import opened Wrappers
  import opened ChatModels
  import opened Query
  import Paging

  // ---------------------------------------------------------------- lookups

  function ThreadById(ts: seq<Thread>, tid: ThreadId): (r: Option<Thread>)
    ensures r.Some? ==> r.value in ts && r.value.id == tid
    ensures r.None? ==> forall t :: t in ts ==> t.id != tid
  {
    if ts == [] then None
    else if ts[0].id == tid then Some(ts[0])
    else ThreadById(ts[1..], tid)
  }

  /** `ChatThread.objects.filter(buyer=…, supplier=…, product=… or product__isnull=True).first()`. */
  function FindThread(ts: seq<Thread>, key: ThreadKey): (r: Option<Thread>)
    ensures r.Some? ==> r.value in ts && KeyOf(r.value) == key
    ensures r.None? ==> forall t :: t in ts ==> KeyOf(t) != key
  {
    if ts == [] then None
    else if KeyOf(ts[0]) == key then Some(ts[0])
    else FindThread(ts[1..], key)
  }

  /** After a thread is created, looking it up by its key finds it: the second call is a "get". */
  lemma {:induction false} FindAfterCreate(ts: seq<Thread>, t: Thread)
    requires FindThread(ts, KeyOf(t)).None?
    ensures FindThread(ts + [t], KeyOf(t)) == Some(t)
  {
    if ts != [] {
      assert (ts + [t])[1..] == ts[1..] + [t];
      FindAfterCreate(ts[1..], t);
    }
  }

  predicate HasRow(ps: seq<Participant>, tid: ThreadId, u: UserId) {
    exists i :: 0 <= i < |ps| && RowFor(ps[i], tid, u)
  }

  /** The row's thread exists and the row's user is one of its two parties. */
  predicate RowBelongs(ts: seq<Thread>, p: Participant) {
    exists i :: 0 <= i < |ts| && ts[i].id == p.thread && IsParticipant(ts[i], p.user)
  }

  // ---------------------------------------------------------------- unread counters

  /** `get_unread_count`: the sum of the user's counters, 0 when the user has no rows. */
  function UnreadTotal(ps: seq<Participant>, u: UserId): (n: nat)
    ensures (forall i :: 0 <= i < |ps| ==> ps[i].user != u) ==> n == 0
  {
    if ps == [] then 0
    else (if ps[0].user == u then ps[0].unreadCount else 0) + UnreadTotal(ps[1..], u)
  }

  /** `get_thread_unread_count`: the counter of the user's row in the thread, 0 when there is none. */
  function ThreadUnread(ps: seq<Participant>, tid: ThreadId, u: UserId): (n: nat)
    ensures !HasRow(ps, tid, u) ==> n == 0
    ensures n > 0 ==> exists i :: 0 <= i < |ps| && RowFor(ps[i], tid, u) && ps[i].unreadCount == n
  {
    if ps == [] then 0
    else if RowFor(ps[0], tid, u) then ps[0].unreadCount
    else
      var n := ThreadUnread(ps[1..], tid, u);
      HasRowCons(ps, tid, u);
      ShiftRow(ps, tid, u, n);
      n
  }

  lemma ShiftRow(ps: seq<Participant>, tid: ThreadId, u: UserId, n: nat)
    requires ps != []
    requires n > 0 ==> exists i :: 0 <= i < |ps[1..]| && RowFor(ps[1..][i], tid, u) && ps[1..][i].unreadCount == n
    ensures n > 0 ==> exists i :: 0 <= i < |ps| && RowFor(ps[i], tid, u) && ps[i].unreadCount == n
  {
    if n > 0 {
      var i :| 0 <= i < |ps[1..]| && RowFor(ps[1..][i], tid, u) && ps[1..][i].unreadCount == n;
      assert ps[i + 1] == ps[1..][i];
    }
  }

  /** The `F('unread_count') + 1` update on the rows of (thread, user). */
  function Bump(ps: seq<Participant>, tid: ThreadId, u: UserId): (r: seq<Participant>)
    ensures |r| == |ps|
    ensures forall i :: 0 <= i < |ps| ==> r[i].thread == ps[i].thread && r[i].user == ps[i].user
  {
    if ps == [] then []
    else
      [if RowFor(ps[0], tid, u) then ps[0].(unreadCount := ps[0].unreadCount + 1) else ps[0]]
      + Bump(ps[1..], tid, u)
  }

  /** The `update(last_read_at=now, unread_count=0)` on the rows of (thread, user). */
  function MarkRead(ps: seq<Participant>, tid: ThreadId, u: UserId, now: int): (r: seq<Participant>)
    ensures |r| == |ps|
    ensures forall i :: 0 <= i < |ps| ==> r[i].thread == ps[i].thread && r[i].user == ps[i].user
  {
    if ps == [] then []
    else [if RowFor(ps[0], tid, u) then MarkAsRead(ps[0], now) else ps[0]] + MarkRead(ps[1..], tid, u, now)
  }

  lemma UniqueTail(ps: seq<Participant>)
    requires ps != [] && ParticipantsUnique(ps)
    ensures ParticipantsUnique(ps[1..])
    ensures !HasRow(ps[1..], ps[0].thread, ps[0].user)
  {
    forall i | 0 <= i < |ps[1..]| ensures !RowFor(ps[1..][i], ps[0].thread, ps[0].user) {
      assert ps[1..][i] == ps[i + 1];
    }
  }

  lemma HasRowCons(ps: seq<Participant>, tid: ThreadId, u: UserId)
    requires ps != []
    ensures HasRow(ps, tid, u) <==> RowFor(ps[0], tid, u) || HasRow(ps[1..], tid, u)
  {
    if HasRow(ps[1..], tid, u) {
      var i :| 0 <= i < |ps[1..]| && RowFor(ps[1..][i], tid, u);
      assert RowFor(ps[i + 1], tid, u);
    }
    if HasRow(ps, tid, u) && !RowFor(ps[0], tid, u) {
      var i :| 0 <= i < |ps| && RowFor(ps[i], tid, u);
      assert RowFor(ps[1..][i - 1], tid, u);
    }
  }

  /** A send raises the recipient's per-thread counter by exactly 1 and no other counter. */
  lemma {:induction false} BumpThreadUnread(ps: seq<Participant>, tid: ThreadId, u: UserId, tid': ThreadId, v: UserId)
    requires ParticipantsUnique(ps) && HasRow(ps, tid, u)
    ensures ThreadUnread(Bump(ps, tid, u), tid', v)
         == ThreadUnread(ps, tid', v) + (if tid' == tid && v == u then 1 else 0)
  {
    var r := Bump(ps, tid, u);
    assert r[1..] == Bump(ps[1..], tid, u);
    UniqueTail(ps);
    HasRowCons(ps, tid, u);
    if !RowFor(ps[0], tid, u) {
      BumpThreadUnread(ps[1..], tid, u, tid', v);
    } else if !RowFor(ps[0], tid', v) {
      BumpAbsent(ps[1..], tid, u, tid', v);
    }
  }

  /** Bumping rows other than (tid', v) leaves the (tid', v) counter alone. */
  lemma {:induction false} BumpAbsent(ps: seq<Participant>, tid: ThreadId, u: UserId, tid': ThreadId, v: UserId)
    requires !HasRow(ps, tid, u)
    ensures ThreadUnread(Bump(ps, tid, u), tid', v) == ThreadUnread(ps, tid', v)
    ensures UnreadTotal(Bump(ps, tid, u), v) == UnreadTotal(ps, v)
  {
    if ps != [] {
      HasRowCons(ps, tid, u);
      assert Bump(ps, tid, u)[1..] == Bump(ps[1..], tid, u);
      BumpAbsent(ps[1..], tid, u, tid', v);
    }
  }

  /** A send raises the recipient's total by exactly 1 and leaves everybody else's total alone. */
  lemma {:induction false} BumpUnreadTotal(ps: seq<Participant>, tid: ThreadId, u: UserId, v: UserId)
    requires ParticipantsUnique(ps) && HasRow(ps, tid, u)
    ensures UnreadTotal(Bump(ps, tid, u), v) == UnreadTotal(ps, v) + (if v == u then 1 else 0)
  {
    var r := Bump(ps, tid, u);
    assert r[1..] == Bump(ps[1..], tid, u);
    UniqueTail(ps);
    HasRowCons(ps, tid, u);
    if !RowFor(ps[0], tid, u) {
      BumpUnreadTotal(ps[1..], tid, u, v);
    } else {
      BumpAbsent(ps[1..], tid, u, tid, v);
    }
  }

  /** After a read the reader's counter for the thread is 0 and every other counter is as before. */
  lemma {:induction false} MarkReadThreadUnread(ps: seq<Participant>, tid: ThreadId, u: UserId, now: int, tid': ThreadId, v: UserId)
    ensures ThreadUnread(MarkRead(ps, tid, u, now), tid', v)
         == if tid' == tid && v == u then 0 else ThreadUnread(ps, tid', v)
  {
    if ps != [] {
      assert MarkRead(ps, tid, u, now)[1..] == MarkRead(ps[1..], tid, u, now);
      MarkReadThreadUnread(ps[1..], tid, u, now, tid', v);
    }
  }

  /** A read lowers the reader's total by exactly that thread's counter and nobody else's. */
  lemma {:induction false} MarkReadUnreadTotal(ps: seq<Participant>, tid: ThreadId, u: UserId, now: int, v: UserId)
    requires ParticipantsUnique(ps)
    ensures UnreadTotal(MarkRead(ps, tid, u, now), v)
         == UnreadTotal(ps, v) - (if v == u then ThreadUnread(ps, tid, u) else 0)
  {
    if ps != [] {
      assert MarkRead(ps, tid, u, now)[1..] == MarkRead(ps[1..], tid, u, now);
      UniqueTail(ps);
      HasRowCons(ps, tid, u);
      MarkReadUnreadTotal(ps[1..], tid, u, now, v);
      if RowFor(ps[0], tid, u) {
        assert ThreadUnread(ps[1..], tid, u) == 0;
      }
    }
  }

  lemma {:induction false} BumpKeepsRows(ps: seq<Participant>, tid: ThreadId, u: UserId, tid': ThreadId, v: UserId)
    ensures HasRow(Bump(ps, tid, u), tid', v) <==> HasRow(ps, tid', v)
  {
    var r := Bump(ps, tid, u);
    if HasRow(ps, tid', v) { var i :| 0 <= i < |ps| && RowFor(ps[i], tid', v); assert RowFor(r[i], tid', v); }
    if HasRow(r, tid', v) { var i :| 0 <= i < |r| && RowFor(r[i], tid', v); assert RowFor(ps[i], tid', v); }
  }

  lemma {:induction false} MarkReadKeepsRows(ps: seq<Participant>, tid: ThreadId, u: UserId, now: int, tid': ThreadId, v: UserId)
    ensures HasRow(MarkRead(ps, tid, u, now), tid', v) <==> HasRow(ps, tid', v)
  {
    var r := MarkRead(ps, tid, u, now);
    if HasRow(ps, tid', v) { var i :| 0 <= i < |ps| && RowFor(ps[i], tid', v); assert RowFor(r[i], tid', v); }
    if HasRow(r, tid', v) { var i :| 0 <= i < |r| && RowFor(r[i], tid', v); assert RowFor(ps[i], tid', v); }
  }

  // ---------------------------------------------------------------- thread queries

  /** `get_thread_with_permission`: `None` both for a missing thread and for a non-participant. */
  function ThreadWithPermission(ts: seq<Thread>, tid: ThreadId, u: UserId): (r: Option<Thread>)
    ensures r.Some? ==> r.value in ts && r.value.id == tid && IsParticipant(r.value, u)
    ensures r.None? ==> ThreadById(ts, tid).None? || !IsParticipant(ThreadById(ts, tid).value, u)
  {
    match ThreadById(ts, tid)
    case None => None
    case Some(t) => if IsParticipant(t, u) then Some(t) else None
  }

  /** With unique ids, access is granted exactly to the two parties of an existing thread. */
  lemma PermissionIff(ts: seq<Thread>, tid: ThreadId, u: UserId)
    requires ThreadIdsUnique(ts)
    ensures ThreadWithPermission(ts, tid, u).Some?
        <==> exists i :: 0 <= i < |ts| && ts[i].id == tid && IsParticipant(ts[i], u)
  {
    if exists i :: 0 <= i < |ts| && ts[i].id == tid && IsParticipant(ts[i], u) {
      var i :| 0 <= i < |ts| && ts[i].id == tid && IsParticipant(ts[i], u);
      var t := ThreadById(ts, tid).value;
      var j :| 0 <= j < |ts| && ts[j] == t;
      assert i == j;
    }
  }

  lemma RecentlyUpdatedFirstIsTotalPreorder()
    ensures IsTotalPreorder(RecentlyUpdatedFirst)
  {
  }

  /** `get_user_threads`: exactly the user's threads, each as often as stored, most recently updated first. */
  function UserThreads(ts: seq<Thread>, u: UserId): (r: seq<Thread>)
    ensures forall t :: t in r <==> t in ts && IsParticipant(t, u)
    ensures forall t :: multiset(r)[t] == if IsParticipant(t, u) then multiset(ts)[t] else 0
    ensures SortedBy(r, RecentlyUpdatedFirst)
  {
    var mine := Filter(ts, (t: Thread) => IsParticipant(t, u));
    var r := SortBy(mine, RecentlyUpdatedFirst);
    RecentlyUpdatedFirstIsTotalPreorder();
    SortBySorted(mine, RecentlyUpdatedFirst);
    forall t ensures t in r <==> t in mine { SortByMembers(mine, RecentlyUpdatedFirst, t); }
    forall t ensures multiset(r)[t] == if IsParticipant(t, u) then multiset(ts)[t] else 0 {
      FilterCount(ts, (t: Thread) => IsParticipant(t, u), t);
    }
    r
  }

  // ---------------------------------------------------------------- message queries

  function ThreadMessages(ms: seq<Message>, tid: ThreadId): (r: seq<Message>)
    ensures forall m :: m in r <==> m in ms && m.thread == tid
  {
    Filter(ms, (m: Message) => m.thread == tid)
  }

  lemma NewerFirstIsTotalPreorder()
    ensures IsTotalPreorder(NewerFirst)
  {
  }

  /** The thread's messages, `order_by('-created_at')`. */
  function NewestFirst(ms: seq<Message>, tid: ThreadId): (r: seq<Message>)
    ensures forall m :: m in r <==> m in ms && m.thread == tid
    ensures |r| == |ThreadMessages(ms, tid)|
    ensures SortedBy(r, NewerFirst)
  {
    var mine := ThreadMessages(ms, tid);
    var r := SortBy(mine, NewerFirst);
    NewerFirstIsTotalPreorder();
    SortBySorted(mine, NewerFirst);
    forall m ensures m in r <==> m in mine { SortByMembers(mine, NewerFirst, m); }
    r
  }

  datatype MessagePage = MessagePage(messages: seq<Message>, total: nat, hasMore: bool)

  /**
   * `get_messages`: page `page` counted from the newest message, returned
   * oldest first; `total` counts the whole thread.
   */
  function GetMessages(ms: seq<Message>, tid: ThreadId, page: nat, pageSize: nat): (r: MessagePage)
    requires page >= 1
    ensures r.total == |ThreadMessages(ms, tid)|
    ensures r.hasMore <==> page * pageSize < r.total
    ensures |r.messages| <= pageSize
    ensures forall m :: m in r.messages ==> m in ms && m.thread == tid
    ensures SortedBy(r.messages, OlderFirst)
    ensures r.messages == Reverse(Paging.Page(NewestFirst(ms, tid), page, pageSize))
  {
    var newest := NewestFirst(ms, tid);
    var window := Paging.Page(newest, page, pageSize);
    Paging.PageSorted(newest, page, pageSize, NewerFirst);
    var msgs := Reverse(window);
    forall i, j | 0 <= i < j < |msgs| ensures OlderFirst(msgs[i], msgs[j]) {
      assert NewerFirst(window[|window| - 1 - j], window[|window| - 1 - i]);
    }
    MessagePage(msgs, |ThreadMessages(ms, tid)|, page * pageSize < |ThreadMessages(ms, tid)|)
  }

  /** Going one page further back only ever shows older messages. */
  lemma OlderPagesHoldOlderMessages(ms: seq<Message>, tid: ThreadId, p: nat, q: nat, size: nat, a: Message, b: Message)
    requires 1 <= p < q
    requires a in GetMessages(ms, tid, p, size).messages && b in GetMessages(ms, tid, q, size).messages
    ensures b.createdAt <= a.createdAt
  {
    var newest := NewestFirst(ms, tid);
    NewerFirstIsTotalPreorder();
    ReverseMembers(Paging.Page(newest, p, size), a);
    ReverseMembers(Paging.Page(newest, q, size), b);
    Paging.PagesOrdered(newest, size, p, q, NewerFirst, a, b);
  }

  /** Distinct pages of a thread hold distinct messages. */
  lemma PagesShareNoMessage(ms: seq<Message>, tid: ThreadId, p: nat, q: nat, size: nat, m: Message)
    requires p >= 1 && q >= 1 && p != q && size >= 1
    requires Distinct(ms)
    ensures !(m in GetMessages(ms, tid, p, size).messages && m in GetMessages(ms, tid, q, size).messages)
  {
    var mine := ThreadMessages(ms, tid);
    FilterDistinct(ms, (m: Message) => m.thread == tid);
    SortByDistinct(mine, NewerFirst);
    ReverseMembers(Paging.Page(NewestFirst(ms, tid), p, size), m);
    ReverseMembers(Paging.Page(NewestFirst(ms, tid), q, size), m);
    Paging.PagesDisjoint(NewestFirst(ms, tid), size, p, q, m);
  }

  /** `get_last_message`: the newest message of the thread, `None` when it has none. */
  function LastMessage(ms: seq<Message>, tid: ThreadId): (r: Option<Message>)
    ensures r.None? <==> forall m :: m in ms ==> m.thread != tid
    ensures r.Some? ==> r.value in ms && r.value.thread == tid
    ensures r.Some? ==> forall m :: m in ms && m.thread == tid ==> m.createdAt <= r.value.createdAt
  {
    var newest := NewestFirst(ms, tid);
    if newest == [] then None
    else
      assert newest[0] in newest;
      assert forall m :: m in newest ==> NewerFirst(newest[0], m) by {
        forall m | m in newest ensures NewerFirst(newest[0], m) {
          var j :| 0 <= j < |newest| && newest[j] == m;
          if j > 0 { assert NewerFirst(newest[0], newest[j]); }
        }
      }
      Some(newest[0])
  }

  // ---------------------------------------------------------------- the store

  /**
   * The party whose counter a send raises: the buyer when the sender is the
   * supplier, the supplier otherwise.  For the two parties this is
   * `get_other_participant`; for anyone else it is the supplier, where
   * `get_other_participant` would answer the buyer.
   */
  function Recipient(t: Thread, sender: UserId): (o: UserId)
    ensures IsParticipant(t, o)
    ensures IsParticipant(t, sender) && t.buyer != t.supplier ==> o == OtherParticipant(t, sender) && o != sender
    ensures !IsParticipant(t, sender) ==> o == t.supplier
  {
    if sender == t.supplier then t.buyer else t.supplier
  }

  datatype StoreError = IntegrityError

  /** `thread.updated_at = now; thread.save()`. */
  function Touch(ts: seq<Thread>, tid: ThreadId, now: int): (r: seq<Thread>)
    ensures |r| == |ts|
    ensures forall i :: 0 <= i < |ts| ==> r[i] == if ts[i].id == tid then ts[i].(updatedAt := now) else ts[i]
  {
    seq(|ts|, i requires 0 <= i < |ts| => if ts[i].id == tid then ts[i].(updatedAt := now) else ts[i])
  }

  class ChatStore {
    var threads: seq<Thread>
    var messages: seq<Message>
    var participants: seq<Participant>
    /** Source of fresh identifiers (`uuid4` in the database). */
    var nextId: nat

    /**
     * The database constraints, and the shape every operation keeps: each
     * thread has two different parties, each with exactly one participant
     * row, and every row and message belongs to an existing thread.
     */
    ghost predicate Valid()
      reads this
    {
      Shape(threads, participants, messages, nextId)
    }

    constructor ()
      ensures Valid()
      ensures threads == [] && messages == [] && participants == []
    {
      threads, messages, participants, nextId := [], [], [], 0;
    }

    /**
     * `get_or_create_thread`: the existing thread for (buyer, supplier, product)
     * with `created = false`, or a new thread with two zeroed participant rows
     * and `created = true`.  A thread with the same user on both sides breaks
     * the one-row-per-(thread, user) constraint, and the transaction is rolled back.
     */
    method GetOrCreateThread(buyer: UserId, supplier: UserId, product: Option<ProductId>, now: int)
      returns (r: Result<(Thread, bool), StoreError>)
      requires Valid()
      modifies this
      ensures Valid()
      ensures messages == old(messages)
      ensures var key := ThreadKey(buyer, supplier, product);
        match FindThread(old(threads), key)
        case Some(t) => r == Ok((t, false)) && unchanged(this)
        case None =>
          if buyer == supplier then r == Err(IntegrityError) && unchanged(this)
          else
            r.Ok? && r.value.1 &&
            var t := r.value.0;
            KeyOf(t) == key && t.createdAt == now && t.updatedAt == now &&
            (forall s :: s in old(threads) ==> s.id != t.id) &&
            threads == old(threads) + [t] &&
            participants == old(participants) + [Participant(t.id, buyer, None, 0), Participant(t.id, supplier, None, 0)]
    {
      var key := ThreadKey(buyer, supplier, product);
      var existing := FindThread(threads, key);
      if existing.Some? {
        return Ok((existing.value, false));
      }
      if buyer == supplier {
        return Err(IntegrityError);
      }
      var t := Thread(nextId, buyer, supplier, product, now, now);
      var rows := [Participant(t.id, buyer, None, 0), Participant(t.id, supplier, None, 0)];
      CreatePreservesShape(threads, participants, messages, nextId, t);
      threads := threads + [t];
      participants := participants + rows;
      nextId := nextId + 1;
      r := Ok((t, true));
    }

    /**
     * `send_message`: appends one message, moves the thread's `updated_at` to
     * now and raises the other party's counter by one.  "Other" is the buyer
     * when the sender is the supplier and the supplier otherwise; the sender's
     * participation is not checked.
     */
    method SendMessage(tid: ThreadId, sender: UserId, text: string, now: int) returns (m: Message)
      requires Valid() && ThreadById(threads, tid).Some?
      modifies this
      ensures Valid()
      ensures var t := ThreadById(old(threads), tid).value;
        var other := Recipient(t, sender);
        m == Message(old(nextId), tid, sender, text, now) &&
        messages == old(messages) + [m] &&
        threads == Touch(old(threads), tid, now) &&
        participants == Bump(old(participants), tid, other) &&
        nextId == old(nextId) + 1
    {
      var t := ThreadById(threads, tid).value;
      var other := Recipient(t, sender);
      m := Message(nextId, tid, sender, text, now);
      SendPreservesShape(threads, participants, messages, nextId, tid, now, other, m);
      messages := messages + [m];
      threads := Touch(threads, tid, now);
      participants := Bump(participants, tid, other);
      nextId := nextId + 1;
    }

    /** `mark_thread_as_read`: zeroes the user's row for the thread and returns the user's new total. */
    method MarkThreadAsRead(tid: ThreadId, u: UserId, now: int) returns (total: nat)
      requires Valid()
      modifies this
      ensures Valid()
      ensures threads == old(threads) && messages == old(messages) && nextId == old(nextId)
      ensures participants == MarkRead(old(participants), tid, u, now)
      ensures total == UnreadTotal(participants, u)
    {
      MarkReadPreservesShape(threads, participants, messages, nextId, tid, u, now);
      participants := MarkRead(participants, tid, u, now);
      total := UnreadTotal(participants, u);
    }
  }

  /**
   * The database constraints, and the shape every operation keeps: each
   * thread has two different parties, each with exactly one participant
   * row, and every row and message belongs to an existing thread.
   */
  ghost predicate Shape(threads: seq<Thread>, participants: seq<Participant>, messages: seq<Message>, nextId: nat) {
    ThreadKeysUnique(threads) && ThreadIdsUnique(threads) && MessageIdsUnique(messages) &&
    ParticipantsUnique(participants) &&
    (forall t :: t in threads ==>
      t.id < nextId && t.buyer != t.supplier &&
      HasRow(participants, t.id, t.buyer) && HasRow(participants, t.id, t.supplier)) &&
    (forall p :: p in participants ==> RowBelongs(threads, p)) &&
    (forall m :: m in messages ==> m.id < nextId && ThreadById(threads, m.thread).Some?)
  }

  lemma CreatePreservesShape(ts: seq<Thread>, ps: seq<Participant>, ms: seq<Message>, next: nat, t: Thread)
    requires Shape(ts, ps, ms, next)
    requires FindThread(ts, KeyOf(t)).None? && t.id == next && t.buyer != t.supplier
    ensures Shape(ts + [t], ps + [Participant(t.id, t.buyer, None, 0), Participant(t.id, t.supplier, None, 0)], ms, next + 1)
  {
    var ts' := ts + [t];
    CreateKeepsRows(ts, ps, ms, next, t);
    forall m | m in ms ensures ThreadById(ts', m.thread).Some? {
      ThreadByIdExtend(ts, t, m.thread);
    }
    forall i, j | 0 <= i < j < |ts'| ensures ts'[i].id != ts'[j].id && KeyOf(ts'[i]) != KeyOf(ts'[j]) {
      if j == |ts| { assert ts'[i] in ts; }
    }
  }

  /** The two new participant rows are unique and belong to the new thread, which has both of them. */
  lemma CreateKeepsRows(ts: seq<Thread>, ps: seq<Participant>, ms: seq<Message>, next: nat, t: Thread)
    requires Shape(ts, ps, ms, next)
    requires t.id == next && t.buyer != t.supplier
    ensures var ts', ps' := ts + [t], ps + [Participant(t.id, t.buyer, None, 0), Participant(t.id, t.supplier, None, 0)];
      ParticipantsUnique(ps') &&
      (forall s :: s in ts' ==> HasRow(ps', s.id, s.buyer) && HasRow(ps', s.id, s.supplier)) &&
      (forall p :: p in ps' ==> RowBelongs(ts', p))
  {
    var ts' := ts + [t];
    var rows := [Participant(t.id, t.buyer, None, 0), Participant(t.id, t.supplier, None, 0)];
    var ps' := ps + rows;
    forall i, j | 0 <= i < j < |ps'| ensures !RowFor(ps'[j], ps'[i].thread, ps'[i].user) {
      if j >= |ps| && i < |ps| {
        assert ps'[i] in ps;
        var k :| 0 <= k < |ts| && ts[k].id == ps'[i].thread && IsParticipant(ts[k], ps'[i].user);
        assert ts[k] in ts;
      }
    }
    forall s | s in ts' ensures HasRow(ps', s.id, s.buyer) && HasRow(ps', s.id, s.supplier) {
      if s == t {
        assert RowFor(ps'[|ps|], s.id, s.buyer);
        assert RowFor(ps'[|ps| + 1], s.id, s.supplier);
      } else {
        var i :| 0 <= i < |ps| && RowFor(ps[i], s.id, s.buyer);
        assert RowFor(ps'[i], s.id, s.buyer);
        var j :| 0 <= j < |ps| && RowFor(ps[j], s.id, s.supplier);
        assert RowFor(ps'[j], s.id, s.supplier);
      }
    }
    forall p | p in ps' ensures RowBelongs(ts', p) {
      if p in ps {
        var k :| 0 <= k < |ts| && ts[k].id == p.thread && IsParticipant(ts[k], p.user);
        assert ts'[k] == ts[k];
      } else {
        assert ts'[|ts|] == t;
      }
    }
  }


  lemma {:induction false} ThreadByIdExtend(ts: seq<Thread>, t: Thread, tid: ThreadId)
    requires ThreadById(ts, tid).Some?
    ensures ThreadById(ts + [t], tid) == ThreadById(ts, tid)
  {
    if ts[0].id != tid {
      assert (ts + [t])[1..] == ts[1..] + [t];
      ThreadByIdExtend(ts[1..], t, tid);
    }
  }

  /**
   * A thread object read earlier still stands for a stored thread: one with
   * its id, its two parties and its product.  Only `updated_at` may have
   * moved since, as it does when the other party sends.
   */
  predicate Current(ts: seq<Thread>, t: Thread) {
    ThreadById(ts, t.id).Some? && KeyOf(ThreadById(ts, t.id).value) == KeyOf(t)
  }

  /** A send moves `updated_at` of the thread it names and of no other; lookups by id otherwise see the same threads. */
  lemma {:induction false} ThreadByIdTouchAny(ts: seq<Thread>, tid: ThreadId, now: int, x: ThreadId)
    ensures ThreadById(Touch(ts, tid, now), x) ==
      if ThreadById(ts, x).None? then None
      else if x == tid then Some(ThreadById(ts, x).value.(updatedAt := now))
      else ThreadById(ts, x)
  {
    if ts != [] {
      assert Touch(ts, tid, now)[1..] == Touch(ts[1..], tid, now);
      ThreadByIdTouchAny(ts[1..], tid, now, x);
    }
  }

  /** Every connection's cached thread stays current through any send, stale `updated_at` or not. */
  lemma TouchKeepsCurrent(ts: seq<Thread>, tid: ThreadId, now: int, t: Thread, updatedAt: int)
    requires Current(ts, t)
    ensures Current(Touch(ts, tid, now), t.(updatedAt := updatedAt))
  {
    ThreadByIdTouchAny(ts, tid, now, t.id);
  }

  /** For a current thread object, the party a send credits is the sender's other party. */
  lemma CurrentRecipient(ts: seq<Thread>, ps: seq<Participant>, ms: seq<Message>, next: nat, t: Thread, u: UserId)
    requires Shape(ts, ps, ms, next) && Current(ts, t) && IsParticipant(t, u)
    ensures Recipient(ThreadById(ts, t.id).value, u) == OtherParticipant(t, u)
  {
    var st := ThreadById(ts, t.id).value;
    assert st in ts;
    assert st.buyer != st.supplier;
  }

  lemma SendPreservesShape(ts: seq<Thread>, ps: seq<Participant>, ms: seq<Message>, next: nat,
                           tid: ThreadId, now: int, other: UserId, m: Message)
    requires Shape(ts, ps, ms, next) && ThreadById(ts, tid).Some?
    requires m.id == next && m.thread == tid
    ensures Shape(Touch(ts, tid, now), Bump(ps, tid, other), ms + [m], next + 1)
  {
    var ts' := Touch(ts, tid, now);
    var ps' := Bump(ps, tid, other);
    TouchKeepsThreads(ts, tid, now);
    SendKeepsRows(ts, ps, ms, next, tid, now, other);
    SendKeepsMessages(ts, ms, next, tid, now, m);
  }

  lemma TouchKeepsThreads(ts: seq<Thread>, tid: ThreadId, now: int)
    ensures forall i :: 0 <= i < |ts| ==> KeyOf(Touch(ts, tid, now)[i]) == KeyOf(ts[i]) && Touch(ts, tid, now)[i].id == ts[i].id
    ensures ThreadKeysUnique(ts) ==> ThreadKeysUnique(Touch(ts, tid, now))
    ensures ThreadIdsUnique(ts) ==> ThreadIdsUnique(Touch(ts, tid, now))
  {
  }

  lemma SendKeepsRows(ts: seq<Thread>, ps: seq<Participant>, ms: seq<Message>, next: nat,
                      tid: ThreadId, now: int, other: UserId)
    requires Shape(ts, ps, ms, next)
    ensures var ts', ps' := Touch(ts, tid, now), Bump(ps, tid, other);
      ParticipantsUnique(ps') &&
      (forall s :: s in ts' ==> s.id < next + 1 && s.buyer != s.supplier && HasRow(ps', s.id, s.buyer) && HasRow(ps', s.id, s.supplier)) &&
      (forall p :: p in ps' ==> RowBelongs(ts', p))
  {
    SendKeepsThreadRows(ts, ps, ms, next, tid, now, other);
    SendKeepsRowOwners(ts, ps, ms, next, tid, now, other);
    var ps' := Bump(ps, tid, other);
    forall i, j | 0 <= i < j < |ps'| ensures !RowFor(ps'[j], ps'[i].thread, ps'[i].user) {
      assert !RowFor(ps[j], ps[i].thread, ps[i].user);
    }
  }

  /** After a send, every thread still has the rows of both its parties. */
  lemma SendKeepsThreadRows(ts: seq<Thread>, ps: seq<Participant>, ms: seq<Message>, next: nat,
                            tid: ThreadId, now: int, other: UserId)
    requires Shape(ts, ps, ms, next)
    ensures var ts', ps' := Touch(ts, tid, now), Bump(ps, tid, other);
      forall s :: s in ts' ==> s.id < next + 1 && s.buyer != s.supplier && HasRow(ps', s.id, s.buyer) && HasRow(ps', s.id, s.supplier)
  {
    var ts' := Touch(ts, tid, now);
    var ps' := Bump(ps, tid, other);
    TouchKeepsThreads(ts, tid, now);
    forall s | s in ts' ensures s.id < next + 1 && s.buyer != s.supplier && HasRow(ps', s.id, s.buyer) && HasRow(ps', s.id, s.supplier) {
      var i :| 0 <= i < |ts'| && ts'[i] == s;
      assert ts[i] in ts;
      BumpKeepsRows(ps, tid, other, s.id, s.buyer);
      BumpKeepsRows(ps, tid, other, s.id, s.supplier);
    }
  }

  /** After a send, every participant row still belongs to a party of its thread. */
  lemma SendKeepsRowOwners(ts: seq<Thread>, ps: seq<Participant>, ms: seq<Message>, next: nat,
                           tid: ThreadId, now: int, other: UserId)
    requires Shape(ts, ps, ms, next)
    ensures var ts', ps' := Touch(ts, tid, now), Bump(ps, tid, other);
      forall p :: p in ps' ==> RowBelongs(ts', p)
  {
    var ts' := Touch(ts, tid, now);
    var ps' := Bump(ps, tid, other);
    TouchKeepsThreads(ts, tid, now);
    forall p | p in ps' ensures RowBelongs(ts', p) {
      var i :| 0 <= i < |ps'| && ps'[i] == p;
      assert ps[i] in ps;
      var k :| 0 <= k < |ts| && ts[k].id == ps[i].thread && IsParticipant(ts[k], ps[i].user);
      assert ts'[k].id == ts[k].id && IsParticipant(ts'[k], p.user);
    }
  }

  lemma SendKeepsMessages(ts: seq<Thread>, ms: seq<Message>, next: nat, tid: ThreadId, now: int, m: Message)
    requires MessageIdsUnique(ms) && forall x :: x in ms ==> x.id < next && ThreadById(ts, x.thread).Some?
    requires ThreadById(ts, tid).Some? && m.id == next && m.thread == tid
    ensures MessageIdsUnique(ms + [m])
    ensures forall x :: x in ms + [m] ==> x.id < next + 1 && ThreadById(Touch(ts, tid, now), x.thread).Some?
  {
    var ms' := ms + [m];
    forall x | x in ms' ensures x.id < next + 1 && ThreadById(Touch(ts, tid, now), x.thread).Some? {
      ThreadByIdTouchAny(ts, tid, now, x.thread);
    }
    forall i, j | 0 <= i < j < |ms'| ensures ms'[i].id != ms'[j].id {
      if j == |ms| { assert ms'[i] in ms; }
    }
  }

  lemma MarkReadPreservesShape(ts: seq<Thread>, ps: seq<Participant>, ms: seq<Message>, next: nat,
                               tid: ThreadId, u: UserId, now: int)
    requires Shape(ts, ps, ms, next)
    ensures Shape(ts, MarkRead(ps, tid, u, now), ms, next)
  {
    var ps' := MarkRead(ps, tid, u, now);
    forall s | s in ts ensures HasRow(ps', s.id, s.buyer) && HasRow(ps', s.id, s.supplier) {
      MarkReadKeepsRows(ps, tid, u, now, s.id, s.buyer);
      MarkReadKeepsRows(ps, tid, u, now, s.id, s.supplier);
    }
    forall p | p in ps' ensures RowBelongs(ts, p) {
      var i :| 0 <= i < |ps'| && ps'[i] == p;
      assert ps[i] in ps;
    }
    forall i, j | 0 <= i < j < |ps'| ensures !RowFor(ps'[j], ps'[i].thread, ps'[i].user) {
      assert !RowFor(ps[j], ps[i].thread, ps[i].user);
    }
  }

  /** Each thread of a valid store has exactly two rows: one for each party. */
  lemma RowsOfThread(ts: seq<Thread>, ps: seq<Participant>, ms: seq<Message>, next: nat, t: Thread, p: Participant)
    requires Shape(ts, ps, ms, next) && t in ts
    ensures HasRow(ps, t.id, t.buyer) && HasRow(ps, t.id, t.supplier) && t.buyer != t.supplier
    ensures p in ps && p.thread == t.id ==> p.user == t.buyer || p.user == t.supplier
  {
    if p in ps && p.thread == t.id {
      var k :| 0 <= k < |ts| && ts[k].id == p.thread && IsParticipant(ts[k], p.user);
      var j :| 0 <= j < |ts| && ts[j] == t;
      assert k == j;
    }
  }
}
