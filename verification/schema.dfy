/**
 * The relational tables the chat server works on: `user`, `friend_request` and
 * `chat_messages`, with the key, uniqueness and reference constraints their
 * declarations impose. The `status` enum adds no database check; it holds
 * because the routes only ever write "PENDING" or "ACCEPTED". A table is a
 * sequence of rows in insertion order.
 */
module Schema {
  import opened Base

  /** A row of `user`: `id` is the primary key and `email` is unique. */
  datatype User = User(
    id: string,
    name: string,
    email: string,
    emailVerified: bool,
    image: Option<string>,
    createdAt: Time,
    updatedAt: Time)

  /** The `status` enum of `friend_request`. */
  datatype RequestStatus = Pending | Accepted | Rejected

  /** The text stored in the `status` column. */
  function StatusText(s: RequestStatus): (t: string)
    ensures t in ["PENDING", "ACCEPTED", "REJECTED"]
  {
    match s
    case Pending => "PENDING"
    case Accepted => "ACCEPTED"
    case Rejected => "REJECTED"
  }

  /** Reads a status text back; any text outside the enum is refused. */
  function ParseStatus(t: string): (r: Option<RequestStatus>)
    ensures r.Some? <==> t in ["PENDING", "ACCEPTED", "REJECTED"]
  {
    if t == "PENDING" then Some(Pending)
    else if t == "ACCEPTED" then Some(Accepted)
    else if t == "REJECTED" then Some(Rejected)
    else None
  }

  /** The enum text and the enum value determine each other. */
  lemma StatusTextRoundTrip(s: RequestStatus, t: string)
    ensures ParseStatus(StatusText(s)) == Some(s)
    ensures ParseStatus(t) == Some(s) ==> StatusText(s) == t
  {
  }

  /** A row of `friend_request`. */
  datatype FriendRequest = FriendRequest(
    id: string,
    senderId: string,
    receiverId: string,
    senderEmail: string,
    receiverEmail: string,
    status: RequestStatus,
    createdAt: Time,
    updatedAt: Time)

  /**
   * A row of `chat_messages`. The table has no image column, so a stored
   * message carries no image URL; `readAt` and `friendRequestId` are nullable.
   */
  datatype ChatMessage = ChatMessage(
    id: string,
    senderId: string,
    receiverId: string,
    content: string,
    createdAt: Time,
    readAt: Option<Time>,
    friendRequestId: Option<string>)

  predicate IsUserId(users: seq<User>, id: string)
  {
    exists u :: u in users && u.id == id
  }

  predicate IsUserEmail(users: seq<User>, email: string)
  {
    exists u :: u in users && u.email == email
  }

  /** Primary key on `id`, unique `email`. */
  predicate UsersValid(users: seq<User>)
  {
    forall i, j :: 0 <= i < j < |users| ==> users[i].id != users[j].id && users[i].email != users[j].email
  }

  predicate IsRequestId(requests: seq<FriendRequest>, id: string)
  {
    exists r :: r in requests && r.id == id
  }

  /** Primary key on `id`; both user ids and both emails reference `user`. */
  predicate RequestsValid(requests: seq<FriendRequest>, users: seq<User>)
  {
    && (forall i, j :: 0 <= i < j < |requests| ==> requests[i].id != requests[j].id)
    && (forall r :: r in requests ==>
          && IsUserId(users, r.senderId) && IsUserId(users, r.receiverId)
          && IsUserEmail(users, r.senderEmail) && IsUserEmail(users, r.receiverEmail))
  }

  /** Primary key on `id`; sender and receiver reference `user.id`, the request reference `friend_request.id`. */
  predicate MessagesValid(log: seq<ChatMessage>, users: seq<User>, requests: seq<FriendRequest>)
  {
    && (forall i, j :: 0 <= i < j < |log| ==> log[i].id != log[j].id)
    && (forall m :: m in log ==>
          && IsUserId(users, m.senderId) && IsUserId(users, m.receiverId)
          && (m.friendRequestId.Some? ==> IsRequestId(requests, m.friendRequestId.value)))
  }

  /** Because `email` is unique, an email names at most one user. */
  lemma EmailNamesOneUser(users: seq<User>, u: User, v: User)
    requires UsersValid(users)
    requires u in users && v in users
    requires u.email == v.email
    ensures u == v
  {
    var i :| 0 <= i < |users| && users[i] == u;
    var j :| 0 <= j < |users| && users[j] == v;
  }

  /** Because `id` is the primary key of `chat_messages`, an id names at most one message. */
  lemma MessageIdNamesOneMessage(log: seq<ChatMessage>, users: seq<User>, requests: seq<FriendRequest>,
                                 i: nat, j: nat)
    requires MessagesValid(log, users, requests)
    requires i < |log| && j < |log|
    requires log[i].id == log[j].id
    ensures i == j
  {
  }
}
