/**
 * The two websocket consumers as state machines.  The channel layer is a
 * table of group memberships and a log of group sends; what a consumer
 * sends to its own client is appended to its `frames`.  Scheduling and
 * delivery of group sends to the members' clients are not modelled.
 */
module ChatConsumers {
  import opened Wrappers
  import opened Text
  import opened ChatModels
  import opened ChatService
  import ChatMiddleware

  type ConnId = nat

  /** `user_<id>_notifications` and `chat_thread_<id>` (the id as it appears in the URL). */
  datatype GroupName = UserGroup(user: UserId) | ThreadRoom(threadText: string)

  /** The events consumers hand to `group_send`. */
  datatype GroupEvent =
    | ChatMessage(message: Message)
    | NewMessageNotification(threadText: string, message: Message)
    | UnreadCountUpdate(unreadTotal: nat)
    | ReadReceipt(user: UserId, threadText: string)

  /** What a consumer sends to its own client. */
  datatype Frame =
    | UnreadCount(unreadTotal: nat)
    | Pong
    | ReadAck(threadText: string, unreadTotal: nat)
    | MessageFrame(message: Message)
    | NewMessage(threadText: string, message: Message)
    | ReadReceiptFrame(user: UserId, threadText: string)

  datatype Status = Connecting | Accepted | Closed(code: int)

  const CLOSE_UNAUTHENTICATED: int := 4001
  const CLOSE_FORBIDDEN: int := 4003

  class ChannelLayer {
    var members: map<GroupName, set<ConnId>>
    var sent: seq<(GroupName, GroupEvent)>

    constructor ()
      ensures members == map[] && sent == []
    {
      members, sent := map[], [];
    }

    function Members(g: GroupName): set<ConnId>
      reads this
    {
      if g in members then members[g] else {}
    }

    method GroupAdd(g: GroupName, c: ConnId)
      modifies this
      ensures members == old(members)[g := old(Members(g)) + {c}]
      ensures sent == old(sent)
    {
      members := members[g := Members(g) + {c}];
    }

    method GroupDiscard(g: GroupName, c: ConnId)
      modifies this
      ensures members == old(members)[g := old(Members(g)) - {c}]
      ensures sent == old(sent)
    {
      members := members[g := Members(g) - {c}];
    }

    method GroupSend(g: GroupName, e: GroupEvent)
      modifies this
      ensures sent == old(sent) + [(g, e)]
      ensures members == old(members)
    {
      sent := sent + [(g, e)];
    }
  }

  /** The scope's user, when it is an account; `None` for a missing or anonymous user. */
  function Admitted(scopeUser: Option<ChatMiddleware.Identity>): (r: Option<UserId>)
    ensures r.Some? <==> scopeUser.Some? && scopeUser.value.Authenticated?
    ensures r.Some? ==> r.value == scopeUser.value.user.id
  {
    if scopeUser.Some? && scopeUser.value.Authenticated? then Some(scopeUser.value.user.id) else None
  }

  /** An incoming JSON object: its `type` and `text` keys, when present. */
  datatype ClientMessage = ClientMessage(kind: Option<string>, text: Option<string>)

  datatype Action = SendText(text: string) | ReRead | ReplyPong | Ignore

  /**
   * `ChatThreadConsumer.receive_json`: `send` with text that is non-empty
   * after trimming sends the trimmed text, `read` marks read, `ping` answers
   * `pong`, and anything else is ignored.
   */
  function ThreadAction(c: ClientMessage): (r: Action)
    ensures r.SendText? <==> c.kind == Some("send") && Strip(c.text.GetOr("")) != []
    ensures r.SendText? ==> r.text == Strip(c.text.GetOr("")) && r.text != [] && IsStripped(r.text)
    ensures r.ReRead? <==> c.kind == Some("read")
    ensures r.ReplyPong? <==> c.kind == Some("ping")
  {
    if c.kind == Some("send") then
      var text := Strip(c.text.GetOr(""));
      if text != [] then SendText(text) else Ignore
    else if c.kind == Some("read") then ReRead
    else if c.kind == Some("ping") then ReplyPong
    else Ignore
  }

  /** Text that trims to nothing is dropped; there is no length cap on this path. */
  lemma BlankSendIgnored(text: string)
    requires Strip(text) == []
    ensures ThreadAction(ClientMessage(Some("send"), Some(text))) == Ignore
    ensures ThreadAction(ClientMessage(Some("send"), None)) == Ignore
  {
  }

  /** `ChatNotificationConsumer.receive_json`: only `ping` is answered. */
  function NotificationAction(c: ClientMessage): (r: Action)
    ensures r == ReplyPong <==> c.kind == Some("ping")
    ensures r != ReplyPong ==> r == Ignore
  {
    if c.kind == Some("ping") then ReplyPong else Ignore
  }

  class NotificationConsumer {
    const conn: ConnId
    var user: Option<UserId>
    var userGroup: Option<GroupName>
    var status: Status
    var frames: seq<Frame>

    constructor (c: ConnId)
      ensures conn == c && user.None? && userGroup.None? && status == Connecting && frames == []
    {
      conn := c;
      user, userGroup, status, frames := None, None, Connecting, [];
    }

    /**
     * `connect`: closes with 4001 and joins nothing for a missing or
     * anonymous user; otherwise joins the user's group, accepts, and sends
     * the user's unread total.
     */
    method Connect(layer: ChannelLayer, scopeUser: Option<ChatMiddleware.Identity>, ps: seq<Participant>)
      requires status == Connecting && userGroup.None?
      modifies this, layer
      ensures user == Admitted(scopeUser)
      ensures Admitted(scopeUser).None? ==>
        status == Closed(CLOSE_UNAUTHENTICATED) && userGroup.None? && frames == old(frames) &&
        unchanged(layer)
      ensures Admitted(scopeUser).Some? ==>
        var u := Admitted(scopeUser).value;
        user == Some(u) && userGroup == Some(UserGroup(u)) && status == Accepted &&
        layer.members == old(layer.members)[UserGroup(u) := old(layer.Members(UserGroup(u))) + {conn}] &&
        layer.sent == old(layer.sent) &&
        frames == old(frames) + [UnreadCount(UnreadTotal(ps, u))]
    {
      user := Admitted(scopeUser);
      if user.None? {
        status := Closed(CLOSE_UNAUTHENTICATED);
        return;
      }
      userGroup := Some(UserGroup(user.value));
      layer.GroupAdd(userGroup.value, conn);
      status := Accepted;
      var unread := UnreadTotal(ps, user.value);
      frames := frames + [UnreadCount(unread)];
    }

    /** `disconnect`: leaves the group only if it was joined. */
    method Disconnect(layer: ChannelLayer)
      modifies layer
      ensures userGroup.None? ==> unchanged(layer)
      ensures userGroup.Some? ==>
        layer.members == old(layer.members)[userGroup.value := old(layer.Members(userGroup.value)) - {conn}] &&
        layer.sent == old(layer.sent)
    {
      if userGroup.Some? {
        layer.GroupDiscard(userGroup.value, conn);
      }
    }

    method Receive(c: ClientMessage)
      requires status == Accepted
      modifies this
      ensures NotificationAction(c) == ReplyPong ==> frames == old(frames) + [Pong]
      ensures NotificationAction(c) == Ignore ==> frames == old(frames)
      ensures user == old(user) && userGroup == old(userGroup) && status == old(status)
    {
      if c.kind == Some("ping") {
        frames := frames + [Pong];
      }
    }

    /** The group-event handlers: each relays its event to the client. */
    method Deliver(e: GroupEvent)
      requires e.UnreadCountUpdate? || e.NewMessageNotification?
      modifies this
      ensures e.UnreadCountUpdate? ==> frames == old(frames) + [UnreadCount(e.unreadTotal)]
      ensures e.NewMessageNotification? ==> frames == old(frames) + [NewMessage(e.threadText, e.message)]
      ensures user == old(user) && userGroup == old(userGroup) && status == old(status)
    {
      match e
      case UnreadCountUpdate(n) => frames := frames + [UnreadCount(n)];
      case NewMessageNotification(t, m) => frames := frames + [NewMessage(t, m)];
    }
  }

  /**
   * The three group sends of `_handle_send_message`, in order: the message
   * to the room, then the notification and the recipient's total to the
   * recipient's group.
   */
  method Broadcast(layer: ChannelLayer, threadText: string, other: UserId, m: Message, otherUnread: nat)
    modifies layer
    ensures layer.members == old(layer.members)
    ensures layer.sent == old(layer.sent) + [
      (ThreadRoom(threadText), ChatMessage(m)),
      (UserGroup(other), NewMessageNotification(threadText, m)),
      (UserGroup(other), UnreadCountUpdate(otherUnread))]
  {
    layer.GroupSend(ThreadRoom(threadText), ChatMessage(m));
    layer.GroupSend(UserGroup(other), NewMessageNotification(threadText, m));
    layer.GroupSend(UserGroup(other), UnreadCountUpdate(otherUnread));
  }

  class ThreadConsumer {
    const conn: ConnId
    /** The thread id as it appears in the URL. */
    const threadText: string
    var user: Option<UserId>
    var thread: Option<Thread>
    var roomGroup: Option<GroupName>
    var status: Status
    var frames: seq<Frame>

    constructor (c: ConnId, t: string)
      ensures conn == c && threadText == t
      ensures user.None? && thread.None? && roomGroup.None? && status == Connecting && frames == []
    {
      conn, threadText := c, t;
      user, thread, roomGroup, status, frames := None, None, None, Connecting, [];
    }

    /**
     * The consumer is in a room: accepted, with a thread the user takes part
     * in.  The cached thread object is only required to be current (same id,
     * parties and product as the stored row): a send by the other party's
     * connection moves the stored `updated_at` and leaves this copy stale.
     */
    ghost predicate InRoom(store: ChatStore)
      reads this, store
    {
      status == Accepted && user.Some? && thread.Some? && roomGroup == Some(ThreadRoom(threadText)) &&
      IsParticipant(thread.value, user.value) &&
      Current(store.threads, thread.value)
    }

    /**
     * `connect`: 4001 for a missing or anonymous user, 4003 when the URL's id
     * is not a UUID (`parsedId` is `None`), the thread is missing or the user
     * is no party to it; otherwise joins the room, accepts and marks read.
     */
    method Connect(layer: ChannelLayer, store: ChatStore, scopeUser: Option<ChatMiddleware.Identity>,
                   parsedId: Option<ThreadId>, now: int)
      requires status == Connecting && roomGroup.None?
      requires store.Valid()
      modifies this, layer, store
      ensures store.Valid()
      ensures user == Admitted(scopeUser)
      ensures Admitted(scopeUser).None? ==>
        status == Closed(CLOSE_UNAUTHENTICATED) && roomGroup.None? && frames == old(frames) &&
        unchanged(layer) && unchanged(store)
      ensures (Admitted(scopeUser).Some? &&
        (parsedId.None? || ThreadWithPermission(old(store.threads), parsedId.value, Admitted(scopeUser).value).None?)) ==>
        status == Closed(CLOSE_FORBIDDEN) && roomGroup.None? && frames == old(frames) &&
        unchanged(layer) && unchanged(store)
      ensures (Admitted(scopeUser).Some? && parsedId.Some? &&
        ThreadWithPermission(old(store.threads), parsedId.value, Admitted(scopeUser).value).Some?) ==>
        var u := Admitted(scopeUser).value;
        InRoom(store) && user == Some(u) &&
        thread == ThreadWithPermission(old(store.threads), parsedId.value, u) &&
        layer.members == old(layer.members)[ThreadRoom(threadText) := old(layer.Members(ThreadRoom(threadText))) + {conn}] &&
        store.participants == MarkRead(old(store.participants), parsedId.value, u, now) &&
        frames == old(frames) + [ReadAck(threadText, UnreadTotal(store.participants, u))] &&
        layer.sent == old(layer.sent) + [(ThreadRoom(threadText), ReadReceipt(u, threadText))]
    {
      user := Admitted(scopeUser);
      if user.None? {
        status := Closed(CLOSE_UNAUTHENTICATED);
        return;
      }
      if parsedId.None? {
        status := Closed(CLOSE_FORBIDDEN);
        return;
      }
      var u := user.value;
      thread := ThreadWithPermission(store.threads, parsedId.value, u);
      if thread.None? {
        status := Closed(CLOSE_FORBIDDEN);
        return;
      }
      assert ThreadById(store.threads, parsedId.value) == thread;
      roomGroup := Some(ThreadRoom(threadText));
      layer.GroupAdd(ThreadRoom(threadText), conn);
      status := Accepted;
      assert InRoom(store);
      MarkAsRead(layer, store, now);
    }

    /** `_mark_as_read`: zero the counter, acknowledge with the new total, tell the room. */
    method MarkAsRead(layer: ChannelLayer, store: ChatStore, now: int)
      requires InRoom(store) && store.Valid()
      modifies this, layer, store
      ensures store.Valid() && InRoom(store)
      ensures user == old(user) && thread == old(thread) && roomGroup == old(roomGroup) && status == old(status)
      ensures store.threads == old(store.threads) && store.messages == old(store.messages)
      ensures store.participants == MarkRead(old(store.participants), thread.value.id, user.value, now)
      ensures frames == old(frames) + [ReadAck(threadText, UnreadTotal(store.participants, user.value))]
      ensures layer.members == old(layer.members)
      ensures layer.sent == old(layer.sent) + [(ThreadRoom(threadText), ReadReceipt(user.value, threadText))]
    {
      var total := store.MarkThreadAsRead(thread.value.id, user.value, now);
      frames := frames + [ReadAck(threadText, total)];
      layer.GroupSend(roomGroup.value, ReadReceipt(user.value, threadText));
    }

    /**
     * `_save_message`: `send_message` on the consumer's own thread object,
     * which also moves that object's `updated_at`.  The object may be stale;
     * its parties, and so the credited party, are those of the stored row.
     */
    method SaveMessage(store: ChatStore, text: string, now: int) returns (m: Message)
      requires InRoom(store) && store.Valid()
      modifies this, store
      ensures store.Valid() && InRoom(store)
      ensures user == old(user) && roomGroup == old(roomGroup) && status == old(status) && frames == old(frames)
      ensures thread == Some(old(thread).value.(updatedAt := now))
      ensures var t := old(thread).value;
        m == Message(old(store.nextId), t.id, user.value, text, now) &&
        store.messages == old(store.messages) + [m] &&
        store.participants == Bump(old(store.participants), t.id, OtherParticipant(t, user.value))
    {
      var t := thread.value;
      CurrentRecipient(store.threads, store.participants, store.messages, store.nextId, t, user.value);
      TouchKeepsCurrent(store.threads, t.id, now, t, now);
      thread := Some(t.(updatedAt := now));
      m := store.SendMessage(t.id, user.value, text, now);
    }

    /**
     * `_handle_send_message`: persist, then the message to the room, then
     * the notification and the recipient's new total to the recipient's group.
     */
    method HandleSend(layer: ChannelLayer, store: ChatStore, text: string, now: int)
      requires InRoom(store) && store.Valid()
      modifies this, layer, store
      ensures store.Valid() && InRoom(store)
      ensures user == old(user) && roomGroup == old(roomGroup) && status == old(status) && frames == old(frames)
      ensures thread == Some(old(thread).value.(updatedAt := now))
      ensures var t := old(thread).value;
        var other := OtherParticipant(t, user.value);
        var m := Message(old(store.nextId), t.id, user.value, text, now);
        store.messages == old(store.messages) + [m] &&
        store.participants == Bump(old(store.participants), t.id, other) &&
        layer.members == old(layer.members) &&
        layer.sent == old(layer.sent) + [
          (ThreadRoom(threadText), ChatMessage(m)),
          (UserGroup(other), NewMessageNotification(threadText, m)),
          (UserGroup(other), UnreadCountUpdate(UnreadTotal(store.participants, other)))]
    {
      var other := OtherParticipant(thread.value, user.value);
      var m := SaveMessage(store, text, now);
      var otherUnread := UnreadTotal(store.participants, other);
      Broadcast(layer, threadText, other, m, otherUnread);
    }

    /** `receive_json`. */
    method Receive(layer: ChannelLayer, store: ChatStore, c: ClientMessage, now: int)
      requires InRoom(store) && store.Valid()
      modifies this, layer, store
      ensures store.Valid() && InRoom(store)
      ensures user == old(user) && roomGroup == old(roomGroup) && status == old(status)
      ensures ThreadAction(c) == Ignore ==> unchanged(this, layer, store)
      ensures ThreadAction(c) == ReplyPong ==>
        thread == old(thread) && frames == old(frames) + [Pong] && unchanged(layer, store)
      ensures ThreadAction(c) == ReRead ==>
        thread == old(thread) &&
        store.threads == old(store.threads) && store.messages == old(store.messages) &&
        store.participants == MarkRead(old(store.participants), thread.value.id, user.value, now) &&
        frames == old(frames) + [ReadAck(threadText, UnreadTotal(store.participants, user.value))] &&
        layer.members == old(layer.members) &&
        layer.sent == old(layer.sent) + [(ThreadRoom(threadText), ReadReceipt(user.value, threadText))]
      ensures ThreadAction(c).SendText? ==>
        var t := old(thread).value;
        var other := OtherParticipant(t, user.value);
        var m := Message(old(store.nextId), t.id, user.value, ThreadAction(c).text, now);
        thread == Some(t.(updatedAt := now)) && frames == old(frames) &&
        store.messages == old(store.messages) + [m] &&
        store.participants == Bump(old(store.participants), t.id, other) &&
        layer.members == old(layer.members) &&
        layer.sent == old(layer.sent) + [
          (ThreadRoom(threadText), ChatMessage(m)),
          (UserGroup(other), NewMessageNotification(threadText, m)),
          (UserGroup(other), UnreadCountUpdate(UnreadTotal(store.participants, other)))]
    {
      if c.kind == Some("send") {
        var text := Strip(c.text.GetOr(""));
        if text != [] {
          HandleSend(layer, store, text, now);
        }
      } else if c.kind == Some("read") {
        MarkAsRead(layer, store, now);
      } else if c.kind == Some("ping") {
        frames := frames + [Pong];
      }
    }

    /** `disconnect`: leaves the room only if it was joined, so a rejected connection discards nothing. */
    method Disconnect(layer: ChannelLayer)
      modifies layer
      ensures roomGroup.None? ==> unchanged(layer)
      ensures roomGroup.Some? ==>
        layer.members == old(layer.members)[roomGroup.value := old(layer.Members(roomGroup.value)) - {conn}] &&
        layer.sent == old(layer.sent)
    {
      if roomGroup.Some? {
        layer.GroupDiscard(roomGroup.value, conn);
      }
    }

    /** The group-event handlers: each relays its event to the client. */
    method Deliver(e: GroupEvent)
      requires e.ChatMessage? || e.ReadReceipt?
      modifies this
      ensures e.ChatMessage? ==> frames == old(frames) + [MessageFrame(e.message)]
      ensures e.ReadReceipt? ==> frames == old(frames) + [ReadReceiptFrame(e.user, e.threadText)]
      ensures user == old(user) && thread == old(thread) && roomGroup == old(roomGroup) && status == old(status)
    {
      match e
      case ChatMessage(m) => frames := frames + [MessageFrame(m)];
      case ReadReceipt(u, t) => frames := frames + [ReadReceiptFrame(u, t)];
    }
  }
}
