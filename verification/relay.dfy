/**
 * The chat server: the socket handlers (`join_chat`, `typing_On`,
 * `typing_Off`, `send_message`, `get_message_history`, `disconnect`) and the
 * friend-request routes, over the server's shared state. Each handler runs
 * as one atomic step. The database tables are sequences of rows, Socket.IO's
 * room registry is a map from room name to connections, and every event a
 * connection is sent is appended to that connection's outbox.
 */
module Relay {
  import opened Base
  import opened Schema
  import opened Rooms
  import opened History
  import opened FriendRequests

  /** A socket connection. */
  type ConnId = nat

  /**
   * The `send_message` payload as a client may send it. Fields the client
   * may leave out are optional; the wrapped AES keys ride along but the
   * handler never reads them.
   */
  datatype SendPayload = SendPayload(
    senderId: string,
    receiverId: string,
    content: Option<string>,
    imageUrl: Option<string>,
    encryptedAESKey: Option<string>,
    senderEncryptedAESKey: Option<string>)

  /** The record `send_message` builds, stores and broadcasts. */
  datatype RelayedMessage = RelayedMessage(
    id: string,
    senderId: string,
    receiverId: string,
    content: string,
    imageUrl: Option<string>,
    createdAt: Time)

  /** An event the server emits to a connection. `HistoryPage` is `message_history`. */
  datatype Event =
    | TypingOn(userId: string)
    | TypingOff(userId: string)
    | ReceiveMessage(message: RelayedMessage)
    | HistoryPage(rows: seq<ChatMessage>)

  type Outbox = map<ConnId, seq<Event>>
  type Registry = map<string, set<ConnId>>

  /** The events emitted so far to connection `c`. */
  function Inbox(outbox: Outbox, c: ConnId): seq<Event>
  {
    if c in outbox then outbox[c] else []
  }

  /** Emits `ev` once to each connection in `targets`, and to no other. */
  function Deliver(outbox: Outbox, targets: set<ConnId>, ev: Event): (r: Outbox)
    ensures forall c :: Inbox(r, c) == Inbox(outbox, c) + if c in targets then [ev] else []
  {
    map c | c in outbox.Keys + targets :: Inbox(outbox, c) + if c in targets then [ev] else []
  }

  /** The connections that joined `room`. */
  function Members(rooms: Registry, room: string): set<ConnId>
  {
    if room in rooms then rooms[room] else {}
  }

  /** `socket.join(room)`. */
  function WithMember(rooms: Registry, room: string, c: ConnId): (r: Registry)
    ensures forall k :: Members(r, k) == if k == room then Members(rooms, k) + {c} else Members(rooms, k)
  {
    rooms[room := Members(rooms, room) + {c}]
  }

  /** Joining a room twice is the same as joining it once. */
  lemma JoinIdempotent(rooms: Registry, room: string, c: ConnId)
    ensures WithMember(WithMember(rooms, room, c), room, c) == WithMember(rooms, room, c)
  {
  }

  /** Socket.IO's own bookkeeping on disconnect: the connection leaves every room. */
  function WithoutConnection(rooms: Registry, c: ConnId): (r: Registry)
    ensures forall k :: Members(r, k) == Members(rooms, k) - {c}
  {
    map k | k in rooms :: rooms[k] - {c}
  }

  /** After a disconnect, no room broadcast reaches the connection. */
  lemma DisconnectedGetsNothing(outbox: Outbox, rooms: Registry, c: ConnId, room: string, ev: Event)
    ensures Inbox(Deliver(outbox, Members(WithoutConnection(rooms, c), room), ev), c) == Inbox(outbox, c)
  {
  }

  /** `imageUrl: messageData.imageUrl || null`. */
  function ImageOrNull(imageUrl: Option<string>): (r: Option<string>)
    ensures r.Some? <==> Present(imageUrl)
    ensures r.Some? ==> r == imageUrl
  {
    if Present(imageUrl) then imageUrl else None
  }

  /** The record built by `send_message` from a payload, a fresh id and the server time. */
  function Relayed(p: SendPayload, id: string, now: Time): (r: RelayedMessage)
    requires p.content.Some?
    ensures r.senderId == p.senderId && r.receiverId == p.receiverId && r.content == p.content.value
    ensures r.imageUrl == ImageOrNull(p.imageUrl)
    ensures r.id == id && r.createdAt == now
  {
    RelayedMessage(id, p.senderId, p.receiverId, p.content.value, ImageOrNull(p.imageUrl), now)
  }

  /** The row the insert writes: `chat_messages` has no image column, so the URL is not stored. */
  function StoredRow(m: RelayedMessage): (r: ChatMessage)
    ensures r.id == m.id && r.createdAt == m.createdAt && r.content == m.content
    ensures r.senderId == m.senderId && r.receiverId == m.receiverId
    ensures r.readAt.None? && r.friendRequestId.None?
  {
    ChatMessage(m.id, m.senderId, m.receiverId, m.content, m.createdAt, None, None)
  }

  /** The broadcast record depends only on sender, receiver, content and image URL of the payload. */
  lemma RelayedDropsWrappedKeys(p: SendPayload, k1: Option<string>, k2: Option<string>, id: string, now: Time)
    requires p.content.Some?
    ensures Relayed(p, id, now) == Relayed(p.(encryptedAESKey := k1, senderEncryptedAESKey := k2), id, now)
    ensures Relayed(p, id, now).id == id && Relayed(p, id, now).createdAt == now
  {
  }

  predicate IsMessageId(log: seq<ChatMessage>, id: string)
  {
    exists m :: m in log && m.id == id
  }

  /** The table constraints the insert must satisfy: content NOT NULL, a new primary key, existing users. */
  predicate Insertable(users: seq<User>, log: seq<ChatMessage>, p: SendPayload, id: string)
  {
    && p.content.Some?
    && !IsMessageId(log, id)
    && IsUserId(users, p.senderId) && IsUserId(users, p.receiverId)
  }

  /** Whether a message row references the request (the delete then violates the reference). */
  predicate Referenced(log: seq<ChatMessage>, id: string)
  {
    exists m :: m in log && m.friendRequestId == Some(id)
  }

  /** Inserting a request with a new id that references existing users keeps all tables valid. */
  lemma InsertKeepsValid(log: seq<ChatMessage>, users: seq<User>, requests: seq<FriendRequest>, row: FriendRequest)
    requires RequestsValid(requests, users) && MessagesValid(log, users, requests)
    requires !IsRequestId(requests, row.id)
    requires IsUserId(users, row.senderId) && IsUserId(users, row.receiverId)
    requires IsUserEmail(users, row.senderEmail) && IsUserEmail(users, row.receiverEmail)
    ensures RequestsValid(requests + [row], users)
    ensures MessagesValid(log, users, requests + [row])
  {
    var r := requests + [row];
    forall i, j | 0 <= i < j < |r|
      ensures r[i].id != r[j].id
    {
      if j == |requests| {
        assert r[i] in requests;
      }
    }
    forall m | m in log && m.friendRequestId.Some?
      ensures IsRequestId(r, m.friendRequestId.value)
    {
      var q :| q in requests && q.id == m.friendRequestId.value;
      assert q in r;
    }
  }

  /** Accepting a request keeps every message's reference to a request valid. */
  lemma AcceptKeepsMessagesValid(log: seq<ChatMessage>, users: seq<User>, requests: seq<FriendRequest>,
                                 id: string, now: Time)
    requires RequestsValid(requests, users) && MessagesValid(log, users, requests)
    ensures RequestsValid(AcceptRequest(requests, id, now), users)
    ensures MessagesValid(log, users, AcceptRequest(requests, id, now))
  {
    AcceptKeepsConstraints(requests, users, id, now);
  }

  /** Deleting a request no message references keeps the tables valid. */
  lemma RemoveKeepsMessagesValid(log: seq<ChatMessage>, users: seq<User>, requests: seq<FriendRequest>, id: string)
    requires RequestsValid(requests, users) && MessagesValid(log, users, requests)
    requires !Referenced(log, id)
    ensures RequestsValid(RemoveRequest(requests, id), users)
    ensures MessagesValid(log, users, RemoveRequest(requests, id))
    ensures IsRequestId(requests, id) ==> |RemoveRequest(requests, id)| == |requests| - 1
  {
    var r := RemoveRequest(requests, id);
    RemoveKeepsDistinct(requests, id);
    if IsRequestId(requests, id) {
      var q :| q in requests && q.id == id;
      var i :| 0 <= i < |requests| && requests[i] == q;
      RemoveExactlyOne(requests, id, i);
    }
    forall m | m in log && m.friendRequestId.Some?
      ensures IsRequestId(r, m.friendRequestId.value)
    {
      var q :| q in requests && q.id == m.friendRequestId.value;
      assert q in r;
    }
  }

  const MissingEmailError: string := "Sender or receiver email is missing"
  const UnknownSenderError: string := "Sender does not exist"
  const UnknownReceiverError: string := "Receiver does not exist"
  const SelfRequestError: string := "You cannot send a friend request to yourself"
  const DuplicateRequestError: string := "Friend request already exists"
  const SendRequestFailedError: string := "Failed to send friend request"
  const EmailRequiredError: string := "Email is required"
  const IncomingFailedError: string := "Failed to retrieve incoming friend requests"
  const FriendsFailedError: string := "Failed to retrieve friends list"
  const MissingIdError: string := "Friend request ID is required"
  const InvalidStatusError: string := "Invalid status update"
  const RequestNotFoundError: string := "Friend request not found"
  const UpdateFailedError: string := "Failed to update friend request"
  const MissingIdParamError: string := "Missing required parameter: id"
  const DeleteFailedError: string := "Failed to delete friend request"

  /**
   * The answer of `POST /api/friend-request/send`, checked in the route's
   * order. An empty email is missing; a store failure once the database is
   * reached (`storeFault`), or an insert that breaks the primary key, answers
   * 500. A success carries the PENDING row to insert.
   */
  function FriendRequestReply(users: seq<User>, requests: seq<FriendRequest>, senderEmail: string,
                              receiverEmail: string, freshId: string, now: Time, storeFault: bool)
    : (reply: Reply<FriendRequest>)
    requires UsersValid(users)
    ensures senderEmail == "" || receiverEmail == "" <==> reply == Error(400, MissingEmailError)
    ensures reply == Error(404, UnknownSenderError)
            <==> senderEmail != "" && receiverEmail != "" && !storeFault && !IsUserEmail(users, senderEmail)
    ensures reply == Error(404, UnknownReceiverError)
            <==> senderEmail != "" && receiverEmail != "" && !storeFault
                 && IsUserEmail(users, senderEmail) && !IsUserEmail(users, receiverEmail)
    ensures reply == Error(401, SelfRequestError)
            <==> senderEmail != "" && !storeFault && IsUserEmail(users, senderEmail) && senderEmail == receiverEmail
    ensures reply == Error(400, DuplicateRequestError) <==>
            && senderEmail != "" && receiverEmail != "" && senderEmail != receiverEmail && !storeFault
            && IsUserEmail(users, senderEmail) && IsUserEmail(users, receiverEmail)
            && FindBlockingRequest(requests, FindUserByEmail(users, senderEmail).value.id,
                                   FindUserByEmail(users, receiverEmail).value.id).Some?
    ensures senderEmail != "" && receiverEmail != "" && storeFault ==> reply == Error(500, SendRequestFailedError)
    ensures (&& senderEmail != "" && receiverEmail != "" && senderEmail != receiverEmail
             && IsUserEmail(users, senderEmail) && IsUserEmail(users, receiverEmail)
             && FindBlockingRequest(requests, FindUserByEmail(users, senderEmail).value.id,
                                    FindUserByEmail(users, receiverEmail).value.id).None?
             && IsRequestId(requests, freshId))
            ==> reply == Error(500, SendRequestFailedError)
    ensures reply.Ok? <==>
            && senderEmail != "" && receiverEmail != "" && senderEmail != receiverEmail && !storeFault
            && IsUserEmail(users, senderEmail) && IsUserEmail(users, receiverEmail)
            && !IsRequestId(requests, freshId)
            && FindBlockingRequest(requests, FindUserByEmail(users, senderEmail).value.id,
                                   FindUserByEmail(users, receiverEmail).value.id).None?
    ensures reply.Ok? ==> && reply.status == 201
                          && reply.value.id == freshId && reply.value.status == Pending
                          && reply.value.createdAt == now == reply.value.updatedAt
                          && reply.value.senderEmail == senderEmail && reply.value.receiverEmail == receiverEmail
                          && reply.value.senderId == FindUserByEmail(users, senderEmail).value.id
                          && reply.value.receiverId == FindUserByEmail(users, receiverEmail).value.id
  {
    if senderEmail == "" || receiverEmail == "" then Error(400, MissingEmailError)
    else if storeFault then Error(500, SendRequestFailedError)
    else
      var sender := FindUserByEmail(users, senderEmail);
      var receiver := FindUserByEmail(users, receiverEmail);
      if sender.None? then Error(404, UnknownSenderError)
      else if receiver.None? then Error(404, UnknownReceiverError)
      else
        SameUserIffSameEmail(users, senderEmail, receiverEmail);
        if sender.value.id == receiver.value.id then Error(401, SelfRequestError)
        else if FindBlockingRequest(requests, sender.value.id, receiver.value.id).Some? then
          Error(400, DuplicateRequestError)
        else if IsRequestId(requests, freshId) then Error(500, SendRequestFailedError)
        else Ok(201, FriendRequest(freshId, sender.value.id, receiver.value.id, senderEmail, receiverEmail,
                                   Pending, now, now))
  }

  /** The state shared by every connection and route of the server. */
  class ChatServer {
    /** `user`, written by the auth provider only. */
    var users: seq<User>
    /** `friend_request`. */
    var requests: seq<FriendRequest>
    /** `chat_messages`. */
    var log: seq<ChatMessage>
    /** Socket.IO's rooms. */
    var rooms: Registry
    /** Every event emitted to each connection, in order. */
    var outbox: Outbox

    /** The schema's key, uniqueness and reference constraints. */
    ghost predicate Valid()
      reads this
    {
      UsersValid(users) && RequestsValid(requests, users) && MessagesValid(log, users, requests)
    }

    constructor (users: seq<User>)
      requires UsersValid(users)
      ensures Valid()
      ensures this.users == users && requests == [] && log == [] && rooms == map[] && outbox == map[]
    {
      this.users := users;
      requests := [];
      log := [];
      rooms := map[];
      outbox := map[];
    }

    /** `join_chat`: subscribes the connection to the pair's room. */
    method JoinChat(conn: ConnId, senderId: string, receiverId: string)
      modifies this`rooms
      ensures rooms == WithMember(old(rooms), RoomId(senderId, receiverId), conn)
    {
      var room := RoomId(senderId, receiverId);
      rooms := WithMember(rooms, room, conn);
    }

    /** `typing_On` / `typing_Off`: forwards `{userId: senderId}` to the room, except to the emitting connection. */
    method Typing(conn: ConnId, senderId: string, receiverId: string, on: bool)
      modifies this`outbox
      ensures outbox == Deliver(old(outbox), Members(rooms, RoomId(senderId, receiverId)) - {conn},
                                if on then TypingOn(senderId) else TypingOff(senderId))
    {
      var room := RoomId(senderId, receiverId);
      outbox := Deliver(outbox, Members(rooms, room) - {conn}, if on then TypingOn(senderId) else TypingOff(senderId));
    }

    /**
     * `send_message`: builds the record with a fresh id and the server time,
     * inserts it, and only then broadcasts it to the whole room, sender
     * included. An insert that throws (a constraint violation, or the store
     * failing, `storeFault`) is caught: nothing is stored and nothing is sent.
     */
    method SendMessage(p: SendPayload, freshId: string, now: Time, storeFault: bool) returns (persisted: bool)
      requires Valid()
      modifies this`log, this`outbox
      ensures Valid()
      ensures persisted <==> !storeFault && Insertable(users, old(log), p, freshId)
      ensures persisted ==> log == old(log) + [StoredRow(Relayed(p, freshId, now))]
      ensures persisted ==> outbox == Deliver(old(outbox), Members(rooms, RoomId(p.senderId, p.receiverId)),
                                              ReceiveMessage(Relayed(p, freshId, now)))
      ensures !persisted ==> log == old(log) && outbox == old(outbox)
    {
      persisted := !storeFault && Insertable(users, log, p, freshId);
      if !persisted {
        return;
      }
      var message := Relayed(p, freshId, now);
      log := log + [StoredRow(message)];
      var room := RoomId(p.senderId, p.receiverId);
      outbox := Deliver(outbox, Members(rooms, room), ReceiveMessage(message));
    }

    /** `get_message_history`: the pair's page, emitted to the asking connection only. */
    method GetMessageHistory(conn: ConnId, senderId: string, receiverId: string, storeFault: bool)
      modifies this`outbox
      ensures outbox == if storeFault then old(outbox)
                        else Deliver(old(outbox), {conn}, HistoryPage(MessageHistory(log, senderId, receiverId)))
    {
      if !storeFault {
        outbox := Deliver(outbox, {conn}, HistoryPage(MessageHistory(log, senderId, receiverId)));
      }
    }

    /** `disconnect`: the handler only logs; the connection leaves its rooms. */
    method Disconnect(conn: ConnId)
      modifies this`rooms
      ensures rooms == WithoutConnection(old(rooms), conn)
    {
      rooms := WithoutConnection(rooms, conn);
    }

    /**
     * `POST /api/friend-request/send`: answers as FriendRequestReply does and,
     * on success, inserts the new row.
     */
    method SendFriendRequest(senderEmail: string, receiverEmail: string, freshId: string, now: Time, storeFault: bool)
      returns (reply: Reply<FriendRequest>)
      requires Valid()
      modifies this`requests
      ensures Valid()
      ensures reply == FriendRequestReply(users, old(requests), senderEmail, receiverEmail, freshId, now, storeFault)
      ensures reply.Ok? ==> requests == old(requests) + [reply.value]
      ensures reply.Error? ==> requests == old(requests)
    {
      reply := FriendRequestReply(users, requests, senderEmail, receiverEmail, freshId, now, storeFault);
      if reply.Ok? {
        InsertKeepsValid(log, users, requests, reply.value);
        requests := requests + [reply.value];
      }
    }

    /** `GET /api/friend-request/incoming/:email`. */
    function Incoming(email: string, storeFault: bool): (r: Reply<seq<IncomingEntry>>)
      reads this
      ensures email == "" <==> r == Error(400, EmailRequiredError)
      ensures email != "" && storeFault ==> r == Error(500, IncomingFailedError)
      ensures r.Ok? <==> email != "" && !storeFault
      ensures r.Ok? ==> r.status == 200
      ensures r.Ok? ==> forall e :: e in r.value ==>
                e.request in requests && e.request.receiverEmail == email && e.request.status == Pending
                && e.sender in users && e.sender.email == e.request.senderEmail
      ensures r.Ok? ==> forall q, u ::
                (q in requests && q.receiverEmail == email && q.status == Pending && u in users && u.email == q.senderEmail)
                ==> IncomingEntry(q, u) in r.value
    {
      if email == "" then Error(400, EmailRequiredError)
      else if storeFault then Error(500, IncomingFailedError)
      else Ok(200, IncomingRequests(requests, users, email))
    }

    /** `GET /api/friend-request/friends/:email`. */
    function Friends(email: string, storeFault: bool): (r: Reply<seq<User>>)
      reads this
      ensures email == "" <==> r == Error(400, EmailRequiredError)
      ensures email != "" && storeFault ==> r == Error(500, FriendsFailedError)
      ensures r.Ok? <==> email != "" && !storeFault
      ensures r.Ok? ==> r.status == 200
      ensures r.Ok? ==> forall u :: u in r.value <==>
                u in users && exists q :: q in requests && FriendVia(q, email, u.email)
    {
      if email == "" then Error(400, EmailRequiredError)
      else if storeFault then Error(500, FriendsFailedError)
      else Ok(200, UsersWithEmails(users, FriendEmails(requests, email)))
    }

    /**
     * `PUT /api/friend-request/update/:id` with body `{status}`: only the
     * status text "PENDING" is accepted, and it marks the row ACCEPTED.
     */
    method UpdateFriendRequest(id: string, status: Option<string>, now: Time, storeFault: bool)
      returns (reply: Reply<FriendRequest>)
      requires Valid()
      modifies this`requests
      ensures Valid()
      ensures id == "" <==> reply == Error(400, MissingIdError)
      ensures reply == Error(400, InvalidStatusError) <==> id != "" && status != Some("PENDING")
      ensures reply == Error(404, RequestNotFoundError)
              <==> id != "" && status == Some("PENDING") && !storeFault && !IsRequestId(old(requests), id)
      ensures id != "" && status == Some("PENDING") && storeFault ==> reply == Error(500, UpdateFailedError)
      ensures reply.Ok? <==> id != "" && status == Some("PENDING") && !storeFault && IsRequestId(old(requests), id)
      ensures reply.Ok? ==> && reply.status == 200
                            && requests == AcceptRequest(old(requests), id, now)
                            && reply.value in requests && reply.value.id == id
                            && reply.value.status == Accepted && reply.value.updatedAt == now
      ensures reply.Error? ==> requests == old(requests)
    {
      if id == "" {
        return Error(400, MissingIdError);
      }
      if status != Some("PENDING") {
        return Error(400, InvalidStatusError);
      }
      if storeFault {
        return Error(500, UpdateFailedError);
      }
      if !IsRequestId(requests, id) {
        return Error(404, RequestNotFoundError);
      }
      var i :| 0 <= i < |requests| && requests[i].id == id;
      AcceptKeepsMessagesValid(log, users, requests, id, now);
      requests := AcceptRequest(requests, id, now);
      reply := Ok(200, requests[i]);
    }

    /**
     * `DELETE /api/friend-request/delete/:id`. Every failure caught by the
     * handler answers 400, including a row still referenced by a message.
     */
    method DeleteFriendRequest(id: string, storeFault: bool) returns (reply: Reply<()>)
      requires Valid()
      modifies this`requests
      ensures Valid()
      ensures id == "" <==> reply == Error(400, MissingIdParamError)
      ensures reply == Error(404, RequestNotFoundError) <==> id != "" && !storeFault && !IsRequestId(old(requests), id)
      ensures id != "" && (storeFault || (IsRequestId(old(requests), id) && Referenced(log, id))) ==>
                reply == Error(400, DeleteFailedError)
      ensures reply.Ok? <==> id != "" && !storeFault && IsRequestId(old(requests), id) && !Referenced(log, id)
      ensures reply.Ok? ==> reply.status == 200 && requests == RemoveRequest(old(requests), id)
                            && |requests| == |old(requests)| - 1
      ensures reply.Error? ==> requests == old(requests)
    {
      if id == "" {
        return Error(400, MissingIdParamError);
      }
      if storeFault {
        return Error(400, DeleteFailedError);
      }
      if !IsRequestId(requests, id) {
        return Error(404, RequestNotFoundError);
      }
      if Referenced(log, id) {
        // the delete violates `chat_messages.friend_request_id` and throws
        return Error(400, DeleteFailedError);
      }
      RemoveKeepsMessagesValid(log, users, requests, id);
      requests := RemoveRequest(requests, id);
      reply := Ok(200, ());
    }
  }
}
