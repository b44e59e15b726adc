/**
 * The three chat tables: threads between a buyer and a supplier (optionally
 * about one product), the messages in them, and one participant row per
 * (thread, user) holding that user's unread counter.  Identifiers (UUIDs in
 * the database) are natural numbers; timestamps are integers.
 */
module ChatModels {
  import opened Wrappers
  import UserModels
  import ProductModels

  type UserId = UserModels.UserId
  type ThreadId = nat
  type MessageId = nat
  type ProductId = ProductModels.ProductId

  datatype Thread = Thread(
    id: ThreadId,
    buyer: UserId,
    supplier: UserId,
    product: Option<ProductId>,
    createdAt: int,
    updatedAt: int)

  datatype Message = Message(id: MessageId, thread: ThreadId, sender: UserId, text: string, createdAt: int)

  /** `unread_count` is a positive-integer column, so it is a `nat`. */
  datatype Participant = Participant(thread: ThreadId, user: UserId, lastReadAt: Option<int>, unreadCount: nat)

  /** The columns the two thread uniqueness constraints range over. */
  datatype ThreadKey = ThreadKey(buyer: UserId, supplier: UserId, product: Option<ProductId>)

  function KeyOf(t: Thread): ThreadKey {
    ThreadKey(t.buyer, t.supplier, t.product)
  }

  predicate IsParticipant(t: Thread, u: UserId) {
    u == t.buyer || u == t.supplier
  }

  /** The supplier for the buyer, and the buyer for anyone else (non-participants included). */
  function OtherParticipant(t: Thread, u: UserId): (o: UserId)
    ensures IsParticipant(t, o)
    ensures IsParticipant(t, u) && t.buyer != t.supplier ==> o != u
    ensures !IsParticipant(t, u) ==> o == t.buyer
  {
    if u == t.buyer then t.supplier else t.buyer
  }

  /** For the two parties of a thread, "the other of the other" is oneself. */
  lemma OtherParticipantInvolution(t: Thread, u: UserId)
    requires IsParticipant(t, u) && t.buyer != t.supplier
    ensures OtherParticipant(t, OtherParticipant(t, u)) == u
  {
  }

  /**
   * Both uniqueness constraints together: one thread per (buyer, supplier, product)
   * and one per (buyer, supplier) among the threads without a product.
   */
  predicate ThreadKeysUnique(ts: seq<Thread>) {
    forall i, j :: 0 <= i < j < |ts| ==> KeyOf(ts[i]) != KeyOf(ts[j])
  }

  predicate ThreadIdsUnique(ts: seq<Thread>) {
    forall i, j :: 0 <= i < j < |ts| ==> ts[i].id != ts[j].id
  }

  predicate MessageIdsUnique(ms: seq<Message>) {
    forall i, j :: 0 <= i < j < |ms| ==> ms[i].id != ms[j].id
  }

  predicate RowFor(p: Participant, tid: ThreadId, u: UserId) {
    p.thread == tid && p.user == u
  }

  /** At most one participant row per (thread, user). */
  predicate ParticipantsUnique(ps: seq<Participant>) {
    forall i, j :: 0 <= i < j < |ps| ==> !RowFor(ps[j], ps[i].thread, ps[i].user)
  }

  /** `ChatThreadParticipant.mark_as_read`: the counter goes to 0, `last_read_at` to now, nothing else moves. */
  function MarkAsRead(p: Participant, now: int): (r: Participant)
    ensures r.unreadCount == 0 && r.lastReadAt == Some(now)
    ensures r.thread == p.thread && r.user == p.user
  {
    p.(lastReadAt := Some(now), unreadCount := 0)
  }

  /** Reading twice at the same moment is reading once. */
  lemma MarkAsReadIdempotent(p: Participant, now: int)
    ensures MarkAsRead(MarkAsRead(p, now), now) == MarkAsRead(p, now)
  {
  }

  /** The default message order: `created_at` ascending. */
  predicate OlderFirst(a: Message, b: Message) {
    a.createdAt <= b.createdAt
  }

  predicate NewerFirst(a: Message, b: Message) {
    a.createdAt >= b.createdAt
  }

  predicate RecentlyUpdatedFirst(a: Thread, b: Thread) {
    a.updatedAt >= b.updatedAt
  }
}
