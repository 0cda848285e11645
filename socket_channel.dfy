/** The real-time channel context: whether a socket connection is opened for
    the current user, the message and notification lists its event handlers
    append to, and the two emitters. */
module SocketChannel {
  import opened Common
  import opened AuthGateway

  datatype Sender = Sender(id: string, name: string, avatar: Option<string>)

  datatype Message = Message(id: string, content: string, senderId: string,
                             receiverId: Option<string>, groupId: Option<string>,
                             createdAt: string, sender: Sender)

  datatype Notice = Notice(title: string, message: string, kind: string)

  /** A socket instance, with the token its handshake carries. */
  datatype Connection = Connection(id: nat, token: string)

  /** The events the handlers are registered for. */
  datatype Event = Connect
                 | Disconnect
                 | NewMessage(message: Message)
                 | MessageSent(message: Message)
                 | NewNotification(notice: Notice)
                 | UserTyping(userId: string, name: string)
                 | UserStoppedTyping(userId: string)

  /** What an emitter puts on a connection. */
  datatype Outgoing = SendMessage(receiverId: Option<string>, groupId: Option<string>, content: string)
                    | JoinRoom(roomId: string)

  datatype Emission = Emission(conn: nat, payload: Outgoing)

  /** A user for whom the effect connects: signed in and not a mentor
      awaiting approval. */
  predicate Eligible(user: Option<User>) {
    user.Some? && !(user.value.role == Mentor && user.value.status == PendingApproval)
  }

  /** The token a new connection is opened with, if one is opened at all. */
  function ConnectToken(user: Option<User>, st: Storage): (r: Option<string>)
    ensures r.Some? <==> Eligible(user) && Truthy(Stored(st, AccessKey))
    ensures r.Some? ==> r.value == st[AccessKey] && r.value != ""
  {
    if Eligible(user) && Truthy(Stored(st, AccessKey)) then Some(st[AccessKey]) else None
  }

  /** The messages a run of events appends, in order. */
  function MessagesIn(events: seq<Event>): seq<Message> {
    if events == [] then []
    else
      (match events[0]
       case NewMessage(m) => [m]
       case MessageSent(m) => [m]
       case _ => [])
      + MessagesIn(events[1..])
  }

  /** The notifications a run of events appends, in order. */
  function NoticesIn(events: seq<Event>): seq<Notice> {
    if events == [] then []
    else (if events[0].NewNotification? then [events[0].notice] else []) + NoticesIn(events[1..])
  }

  /** How many of `events` are `new_notification`. */
  function NotificationEvents(events: seq<Event>): nat {
    if events == [] then 0 else (if events[0].NewNotification? then 1 else 0) + NotificationEvents(events[1..])
  }

  /** Handling `a` then `b` appends what `a` appends, then what `b` does. */
  lemma {:induction false} MessagesInConcat(a: seq<Event>, b: seq<Event>)
    ensures MessagesIn(a + b) == MessagesIn(a) + MessagesIn(b)
  {
    if a == [] {
      assert a + b == b;
    } else {
      assert (a + b)[0] == a[0];
      assert (a + b)[1..] == a[1..] + b;
      MessagesInConcat(a[1..], b);
    }
  }

  lemma {:induction false} NoticesInConcat(a: seq<Event>, b: seq<Event>)
    ensures NoticesIn(a + b) == NoticesIn(a) + NoticesIn(b)
  {
    if a == [] {
      assert a + b == b;
    } else {
      assert (a + b)[0] == a[0];
      assert (a + b)[1..] == a[1..] + b;
      NoticesInConcat(a[1..], b);
    }
  }

  /** Every `new_notification` adds exactly one entry and nothing else adds
      any. */
  lemma {:induction false} OneNoticePerNotification(events: seq<Event>)
    ensures |NoticesIn(events)| == NotificationEvents(events)
  {
    if events != [] {
      OneNoticePerNotification(events[1..]);
    }
  }

  /** Every message of `new_message` and `message_sent` is kept, with
      repeats: the lists are not de-duplicated. */
  lemma {:induction false} EveryMessageKept(events: seq<Event>, i: int)
    requires 0 <= i < |events| && (events[i].NewMessage? || events[i].MessageSent?)
    ensures events[i].message in MessagesIn(events)
  {
    assert events == events[..i] + events[i..];
    MessagesInConcat(events[..i], events[i..]);
    assert events[i..][0] == events[i];
  }

  /** Connection, disconnection and typing events change neither list. */
  lemma QuietEvents(e: Event)
    requires e.Connect? || e.Disconnect? || e.UserTyping? || e.UserStoppedTyping?
    ensures MessagesIn([e]) == [] && NoticesIn([e]) == []
  {
  }

  class Channel {
    /** The `socket` state. */
    var socket: Option<Connection>
    var messages: seq<Message>
    var onlineUsers: seq<string>
    var notifications: seq<Notice>
    /** The connection whose cleanup the effect registered, if any. */
    var cleanup: Option<nat>
    /** Instances not yet disconnected. */
    var open: set<nat>
    var nextConn: nat
    var emitted: seq<Emission>

    /** At most one connection is open, and it is the one the pending
        cleanup will close; `onlineUsers` never changes from []. */
    ghost predicate Valid()
      reads this
    {
      onlineUsers == []
      && open == (if cleanup.Some? then {cleanup.value} else {})
      && (cleanup.Some? ==> cleanup.value < nextConn && socket.Some? && socket.value.id == cleanup.value)
      && (socket.Some? ==> socket.value.id < nextConn)
    }

    constructor()
      ensures Valid()
      ensures socket.None? && messages == [] && notifications == [] && emitted == []
    {
      socket := None;
      messages := [];
      onlineUsers := [];
      notifications := [];
      cleanup := None;
      open := {};
      nextConn := 0;
      emitted := [];
    }

    /** The effect for a new `user`: the previous run's cleanup disconnects
        its instance, then a new instance is opened when `ConnectToken`
        gives a token. The lists are kept, and a previous `socket` value
        stays when no new one is opened. */
    method UserChanged(user: Option<User>, st: Storage)
      requires Valid()
      modifies this
      ensures Valid()
      ensures old(cleanup).Some? ==> old(cleanup).value !in open
      ensures ConnectToken(user, st).None? ==>
                open == {} && socket == old(socket) && nextConn == old(nextConn)
      ensures ConnectToken(user, st).Some? ==>
                socket == Some(Connection(old(nextConn), ConnectToken(user, st).value))
                && open == {old(nextConn)} && nextConn == old(nextConn) + 1
      ensures messages == old(messages) && notifications == old(notifications) && emitted == old(emitted)
    {
      if cleanup.Some? {
        open := open - {cleanup.value};
      }
      cleanup := None;
      var token := ConnectToken(user, st);
      if token.Some? {
        var conn := Connection(nextConn, token.value);
        nextConn := nextConn + 1;
        open := open + {conn.id};
        socket := Some(conn);
        cleanup := Some(conn.id);
      }
    }

    /** One event from the open connection. */
    method Handle(e: Event)
      requires Valid()
      modifies this
      ensures Valid()
      ensures messages == old(messages) + MessagesIn([e])
      ensures notifications == old(notifications) + NoticesIn([e])
      ensures socket == old(socket) && cleanup == old(cleanup) && open == old(open)
      ensures nextConn == old(nextConn) && emitted == old(emitted)
    {
      match e
      case NewMessage(m) =>
        messages := messages + [m];
      case MessageSent(m) =>
        messages := messages + [m];
      case NewNotification(n) =>
        notifications := notifications + [n];
      case _ =>
    }

    /** `sendMessage`: emitted only when a socket exists. */
    method Send(receiverId: Option<string>, groupId: Option<string>, content: string)
      requires Valid()
      modifies this
      ensures Valid()
      ensures socket.Some? ==>
                emitted == old(emitted) + [Emission(socket.value.id, SendMessage(receiverId, groupId, content))]
      ensures socket.None? ==> emitted == old(emitted)
      ensures socket == old(socket) && messages == old(messages) && notifications == old(notifications)
      ensures cleanup == old(cleanup) && open == old(open) && nextConn == old(nextConn)
    {
      if socket.Some? {
        emitted := emitted + [Emission(socket.value.id, SendMessage(receiverId, groupId, content))];
      }
    }

    /** `joinRoom`: emitted only when a socket exists. */
    method Join(roomId: string)
      requires Valid()
      modifies this
      ensures Valid()
      ensures socket.Some? ==> emitted == old(emitted) + [Emission(socket.value.id, JoinRoom(roomId))]
      ensures socket.None? ==> emitted == old(emitted)
      ensures socket == old(socket) && messages == old(messages) && notifications == old(notifications)
      ensures cleanup == old(cleanup) && open == old(open) && nextConn == old(nextConn)
    {
      if socket.Some? {
        emitted := emitted + [Emission(socket.value.id, JoinRoom(roomId))];
      }
    }

    /** `clearNotifications`: empties the notifications, keeps the messages. */
    method ClearNotifications()
      requires Valid()
      modifies this
      ensures Valid()
      ensures notifications == [] && messages == old(messages)
      ensures socket == old(socket) && cleanup == old(cleanup) && open == old(open)
      ensures nextConn == old(nextConn) && emitted == old(emitted)
    {
      notifications := [];
    }
  }
}
