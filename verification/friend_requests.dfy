/**
 * The queries behind the friend-request routes of the chat server: user
 * lookup by email, the duplicate-request check, the incoming-request join,
 * the friends list, and the row updates of accept and delete.
 */
module FriendRequests {
  import opened Base
  import opened Schema

  /** `select().from(user).where(eq(user.email, email)).get()`: the first user with that email. */
  function FindUserByEmail(users: seq<User>, email: string): (r: Option<User>)
    ensures r.Some? ==> r.value in users && r.value.email == email
    ensures r.None? <==> !IsUserEmail(users, email)
  {
    if users == [] then None
    else if users[0].email == email then Some(users[0])
    else
      var r := FindUserByEmail(users[1..], email);
      assert forall u :: u in users[1..] ==> u in users;
      assert users == [users[0]] + users[1..];
      r
  }

  /** Two distinct emails never resolve to the same user id, since both `id` and `email` are unique. */
  lemma SameUserIffSameEmail(users: seq<User>, e1: string, e2: string)
    requires UsersValid(users)
    requires IsUserEmail(users, e1) && IsUserEmail(users, e2)
    ensures FindUserByEmail(users, e1).value.id == FindUserByEmail(users, e2).value.id <==> e1 == e2
  {
    var u, v := FindUserByEmail(users, e1).value, FindUserByEmail(users, e2).value;
    var i :| 0 <= i < |users| && users[i] == u;
    var j :| 0 <= j < |users| && users[j] == v;
    assert i != j ==> users[i].id != users[j].id by {
      if i < j {
        assert users[i].id != users[j].id;
      } else if j < i {
        assert users[j].id != users[i].id;
      }
    }
  }

  /** The request links the two users, in either direction. */
  predicate BetweenUsers(q: FriendRequest, a: string, b: string)
  {
    (q.senderId == a && q.receiverId == b) || (q.senderId == b && q.receiverId == a)
  }

  /** A request that prevents a new one: between the pair and PENDING or ACCEPTED (a REJECTED one does not). */
  predicate Blocks(q: FriendRequest, a: string, b: string)
  {
    BetweenUsers(q, a, b) && (q.status == Pending || q.status == Accepted)
  }

  /** The duplicate check of the send route. */
  function FindBlockingRequest(requests: seq<FriendRequest>, a: string, b: string): (r: Option<FriendRequest>)
    ensures r.Some? ==> r.value in requests && Blocks(r.value, a, b)
    ensures r.None? <==> forall q :: q in requests ==> !Blocks(q, a, b)
  {
    if requests == [] then None
    else if Blocks(requests[0], a, b) then Some(requests[0])
    else
      assert requests == [requests[0]] + requests[1..];
      FindBlockingRequest(requests[1..], a, b)
  }

  /** The blocking check does not care which of the two users is the sender. */
  lemma BlockingSymmetric(requests: seq<FriendRequest>, a: string, b: string)
    ensures FindBlockingRequest(requests, a, b).None? <==> FindBlockingRequest(requests, b, a).None?
  {
  }

  /** One row of the incoming-requests answer: the request and the user who sent it. */
  datatype IncomingEntry = IncomingEntry(request: FriendRequest, sender: User)

  /** The inner join of one request with the users whose email is its sender email. */
  function JoinSender(q: FriendRequest, users: seq<User>): (r: seq<IncomingEntry>)
    ensures forall e :: e in r ==> e.request == q && e.sender in users && e.sender.email == q.senderEmail
    ensures forall u :: u in users && u.email == q.senderEmail ==> IncomingEntry(q, u) in r
  {
    if users == [] then []
    else
      assert users == [users[0]] + users[1..];
      (if users[0].email == q.senderEmail then [IncomingEntry(q, users[0])] else []) + JoinSender(q, users[1..])
  }

  /** The PENDING requests addressed to `email`, each joined with its sender. */
  function IncomingRequests(requests: seq<FriendRequest>, users: seq<User>, email: string): (r: seq<IncomingEntry>)
    ensures forall e :: e in r ==>
              && e.request in requests && e.request.receiverEmail == email && e.request.status == Pending
              && e.sender in users && e.sender.email == e.request.senderEmail
    ensures forall q, u ::
              (q in requests && q.receiverEmail == email && q.status == Pending && u in users && u.email == q.senderEmail)
              ==> IncomingEntry(q, u) in r
  {
    if requests == [] then []
    else
      var q := requests[0];
      var rest := IncomingRequests(requests[1..], users, email);
      assert requests == [q] + requests[1..];
      (if q.receiverEmail == email && q.status == Pending then JoinSender(q, users) else []) + rest
  }

  /** `friendEmail` is the other side of the accepted request `q` as seen by `email`. */
  predicate FriendVia(q: FriendRequest, email: string, friendEmail: string)
  {
    q.status == Accepted &&
    ((q.senderEmail == email && friendEmail == q.receiverEmail) ||
     (q.senderEmail != email && q.receiverEmail == email && friendEmail == q.senderEmail))
  }

  /** The accepted requests involving `email`, each mapped to the other party's email. */
  function FriendEmails(requests: seq<FriendRequest>, email: string): (r: seq<string>)
    ensures forall f :: f in r <==> exists q :: q in requests && FriendVia(q, email, f)
  {
    if requests == [] then []
    else
      var q := requests[0];
      var rest := FriendEmails(requests[1..], email);
      assert requests == [q] + requests[1..];
      var head := if q.status == Accepted && (q.senderEmail == email || q.receiverEmail == email)
                  then [if q.senderEmail == email then q.receiverEmail else q.senderEmail]
                  else [];
      assert forall f :: f in head <==> FriendVia(q, email, f);
      assert forall f :: (exists p :: p in requests && FriendVia(p, email, f)) ==> f in head + rest by {
        forall f | exists p :: p in requests && FriendVia(p, email, f)
          ensures f in head + rest
        {
          var p :| p in requests && FriendVia(p, email, f);
          if p != q {
            assert p in requests[1..];
          }
        }
      }
      head + rest
  }

  /** `inArray(user.email, emails)`: the users, in table order, whose email is listed. */
  function UsersWithEmails(users: seq<User>, emails: seq<string>): (r: seq<User>)
    ensures forall u :: u in r <==> u in users && u.email in emails
    ensures |r| <= |users|
  {
    if users == [] then []
    else
      assert users == [users[0]] + users[1..];
      (if users[0].email in emails then [users[0]] else []) + UsersWithEmails(users[1..], emails)
  }

  /** A friend is a user at the other end of an ACCEPTED request; acceptance is mutual. */
  lemma FriendshipMutual(requests: seq<FriendRequest>, users: seq<User>, a: User, b: User)
    requires a.email != b.email
    requires a in users && b in users
    ensures b in UsersWithEmails(users, FriendEmails(requests, a.email))
            <==> a in UsersWithEmails(users, FriendEmails(requests, b.email))
  {
    if b in UsersWithEmails(users, FriendEmails(requests, a.email)) {
      var q :| q in requests && FriendVia(q, a.email, b.email);
      assert FriendVia(q, b.email, a.email);
    }
    if a in UsersWithEmails(users, FriendEmails(requests, b.email)) {
      var q :| q in requests && FriendVia(q, b.email, a.email);
      assert FriendVia(q, a.email, b.email);
    }
  }

  /** `update ... set status = ACCEPTED, updatedAt = now where id = id`. */
  function AcceptRequest(requests: seq<FriendRequest>, id: string, now: Time): (r: seq<FriendRequest>)
    ensures |r| == |requests|
    ensures forall i :: 0 <= i < |r| ==>
              r[i] == if requests[i].id == id then requests[i].(status := Accepted, updatedAt := now) else requests[i]
  {
    if requests == [] then []
    else
      var q := requests[0];
      [if q.id == id then q.(status := Accepted, updatedAt := now) else q] + AcceptRequest(requests[1..], id, now)
  }

  /** `delete ... where id = id`. */
  function RemoveRequest(requests: seq<FriendRequest>, id: string): (r: seq<FriendRequest>)
    ensures forall q :: q in r <==> q in requests && q.id != id
    ensures |r| <= |requests|
  {
    if requests == [] then []
    else
      assert requests == [requests[0]] + requests[1..];
      (if requests[0].id == id then [] else [requests[0]]) + RemoveRequest(requests[1..], id)
  }

  /** With unique ids, deleting an existing id removes exactly that one row. */
  lemma {:induction false} RemoveExactlyOne(requests: seq<FriendRequest>, id: string, i: nat)
    requires forall j, k :: 0 <= j < k < |requests| ==> requests[j].id != requests[k].id
    requires i < |requests| && requests[i].id == id
    ensures multiset(RemoveRequest(requests, id)) + multiset{requests[i]} == multiset(requests)
    ensures |RemoveRequest(requests, id)| == |requests| - 1
  {
    assert requests == [requests[0]] + requests[1..];
    if i == 0 {
      RemoveNone(requests[1..], id);
    } else {
      RemoveExactlyOne(requests[1..], id, i - 1);
    }
  }

  /** Deleting an id no row carries changes nothing. */
  lemma {:induction false} RemoveNone(requests: seq<FriendRequest>, id: string)
    requires forall q :: q in requests ==> q.id != id
    ensures RemoveRequest(requests, id) == requests
  {
    if requests != [] {
      assert requests == [requests[0]] + requests[1..];
      RemoveNone(requests[1..], id);
    }
  }

  predicate DistinctIds(requests: seq<FriendRequest>)
  {
    forall j, k :: 0 <= j < k < |requests| ==> requests[j].id != requests[k].id
  }

  /** The row's key and the users it references. */
  predicate SameKeys(q: FriendRequest, p: FriendRequest)
  {
    q.id == p.id && q.senderId == p.senderId && q.receiverId == p.receiverId
    && q.senderEmail == p.senderEmail && q.receiverEmail == p.receiverEmail
  }

  /** Accepting keeps every row's key and references, so the table constraints still hold. */
  lemma AcceptKeepsConstraints(requests: seq<FriendRequest>, users: seq<User>, id: string, now: Time)
    requires RequestsValid(requests, users)
    ensures RequestsValid(AcceptRequest(requests, id, now), users)
    ensures forall k :: IsRequestId(AcceptRequest(requests, id, now), k) <==> IsRequestId(requests, k)
  {
    var r := AcceptRequest(requests, id, now);
    assert forall j :: 0 <= j < |r| ==> SameKeys(r[j], requests[j]);
    forall k | IsRequestId(requests, k)
      ensures IsRequestId(r, k)
    {
      var q :| q in requests && q.id == k;
      var j :| 0 <= j < |requests| && requests[j] == q;
      assert r[j] in r;
    }
    forall k | IsRequestId(r, k)
      ensures IsRequestId(requests, k)
    {
      var q :| q in r && q.id == k;
      var j :| 0 <= j < |r| && r[j] == q;
      assert requests[j] in requests;
    }
    forall q | q in r
      ensures && IsUserId(users, q.senderId) && IsUserId(users, q.receiverId)
              && IsUserEmail(users, q.senderEmail) && IsUserEmail(users, q.receiverEmail)
    {
      var j :| 0 <= j < |r| && r[j] == q;
      assert requests[j] in requests;
    }
  }

  /** Deleting rows keeps the remaining keys distinct. */
  lemma {:induction false} RemoveKeepsDistinct(requests: seq<FriendRequest>, id: string)
    requires DistinctIds(requests)
    ensures DistinctIds(RemoveRequest(requests, id))
  {
    if requests != [] {
      var rest := RemoveRequest(requests[1..], id);
      RemoveKeepsDistinct(requests[1..], id);
      assert forall q :: q in rest ==> q in requests[1..];
      assert forall q :: q in requests[1..] ==> q.id != requests[0].id;
    }
  }
}
