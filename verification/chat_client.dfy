/**
 * The chat area of the web client: the friend and assistant message lists,
 * the draft text, the pending image, and the handlers that send, receive
 * and load messages. Each asynchronous handler runs here as one step; the
 * answers of the network (the upload's URL, the assistant's reply) are
 * parameters.
 */
module ChatClient {
  import opened Base
  import opened Upload

  /** The `role` of a message shown in the assistant chat. */
  datatype Role = UserRole | AssistantRole

  /** The client-side message record; `id`, `role` and `imageUrl` may be absent. */
  datatype Message = Message(id: Option<string>, senderId: string, receiverId: string, content: string,
                             createdAt: Time, role: Option<Role>, imageUrl: Option<string>)

  /** One entry of the `messages` array sent to the chat-completion service. */
  datatype ContextEntry = ContextEntry(role: Role, content: string)

  /** What the client emits on its socket. */
  datatype Emit =
    | JoinChat(senderId: string, receiverId: string)
    | GetMessageHistory(senderId: string, receiverId: string)
    | SendMessage(message: Message)

  /** The id under which the assistant appears as a friend. */
  const AiAssistantId: string := "ai-assistant"
  const WelcomeText: string := "Assalamualikum, how can I assist you today?"
  const ApologyText: string := "Sorry, I encountered an error processing your request."
  const ImageText: string := "Sent an image"
  /** How many of the latest assistant-chat messages are sent as context. */
  const ContextWindow: nat := 5

  // ---------------------------------------------------------------------------
  // Blank drafts: `!newMessage.trim()`

  /** The characters `String.prototype.trim` removes: white space and line terminators. */
  predicate IsSpace(c: char)
  {
    || c == ' ' || c == '\t' || c == '\n' || c == '\r' || c == '\U{000B}' || c == '\U{000C}'
    || c == '\U{00A0}' || c == '\U{1680}' || ('\U{2000}' <= c <= '\U{200A}')
    || c == '\U{2028}' || c == '\U{2029}' || c == '\U{202F}' || c == '\U{205F}'
    || c == '\U{3000}' || c == '\U{FEFF}'
  }

  /** Drops the leading white space. */
  function TrimStart(s: string): (r: string)
    ensures |r| <= |s| && r == s[|s| - |r|..]
    ensures forall i :: 0 <= i < |s| - |r| ==> IsSpace(s[i])
    ensures r == [] || !IsSpace(r[0])
  {
    if s == [] || !IsSpace(s[0]) then s else TrimStart(s[1..])
  }

  /** Drops the trailing white space. */
  function TrimEnd(s: string): (r: string)
    ensures |r| <= |s| && r == s[..|r|]
    ensures forall i :: |r| <= i < |s| ==> IsSpace(s[i])
    ensures r == [] || !IsSpace(r[|r| - 1])
  {
    if s == [] || !IsSpace(s[|s| - 1]) then s else TrimEnd(s[..|s| - 1])
  }

  /** `s.trim()`: the slice of `s` between its first and last non-space characters. */
  function Trim(s: string): (r: string)
    ensures |r| <= |s|
    ensures r == [] || (!IsSpace(r[0]) && !IsSpace(r[|r| - 1]))
  {
    TrimEnd(TrimStart(s))
  }

  /** Every character of `s` is white space: the drafts `!s.trim()` refuses, by TrimEmptyIffBlank. */
  predicate Blank(s: string)
  {
    forall i :: 0 <= i < |s| ==> IsSpace(s[i])
  }

  /** A draft trims to the empty string exactly when all of it is white space. */
  lemma TrimEmptyIffBlank(s: string)
    ensures Trim(s) == "" <==> Blank(s)
  {
    var t := TrimStart(s);
    if Trim(s) == "" {
      assert t == [];
    }
    if Blank(s) {
      assert t == [];
    }
  }

  /** A draft holding any non-space character survives trimming, so it is sent. */
  lemma TrimKeepsText(s: string, i: nat)
    requires i < |s| && !IsSpace(s[i])
    ensures Trim(s) != ""
  {
    TrimEmptyIffBlank(s);
  }

  // ---------------------------------------------------------------------------
  // The assistant's request context

  /** `slice(-n)`: the last `n` elements, or all of them when there are fewer. */
  function Latest(s: seq<Message>, n: nat): (r: seq<Message>)
    ensures |r| == if |s| <= n then |s| else n
    ensures r == s[|s| - |r|..]
  {
    if |s| <= n then s else s[|s| - n..]
  }

  /** The context entry a message with a role contributes. */
  function Entry(m: Message): ContextEntry
    requires m.role.Some?
  {
    ContextEntry(m.role.value, m.content)
  }

  /** `filter(m => m.role !== undefined).map(m => ({role, content}))`. */
  function WithRoles(s: seq<Message>): (r: seq<ContextEntry>)
    ensures |r| <= |s|
  {
    if s == [] then [] else (if s[0].role.Some? then [Entry(s[0])] else []) + WithRoles(s[1..])
  }

  /** Each entry comes from a message with a role, and every message with a role gives one. */
  lemma {:induction false} WithRolesMembers(s: seq<Message>)
    ensures forall e :: e in WithRoles(s) <==> exists m :: m in s && m.role.Some? && e == Entry(m)
  {
    if s != [] {
      WithRolesMembers(s[1..]);
      assert s == [s[0]] + s[1..];
    }
  }

  /** The `j`th entry comes from a message with a role at index `k`. */
  lemma {:induction false} WithRolesSource(s: seq<Message>, j: nat) returns (k: nat)
    requires j < |WithRoles(s)|
    ensures k < |s| && s[k].role.Some? && WithRoles(s)[j] == Entry(s[k])
  {
    if s[0].role.Some? && j == 0 {
      k := 0;
    } else {
      var k' := WithRolesSource(s[1..], if s[0].role.Some? then j - 1 else j);
      k := k' + 1;
    }
  }

  /** Filtering keeps the order: the entries of a concatenation are those of each part, in turn. */
  lemma {:induction false} WithRolesAppend(s: seq<Message>, t: seq<Message>)
    ensures WithRoles(s + t) == WithRoles(s) + WithRoles(t)
  {
    if s == [] {
      assert s + t == t;
    } else {
      var h := if s[0].role.Some? then [Entry(s[0])] else [];
      assert (s + t)[0] == s[0] && (s + t)[1..] == s[1..] + t;
      assert WithRoles(s + t) == h + WithRoles(s[1..] + t);
      WithRolesAppend(s[1..], t);
      assert WithRoles(s) == h + WithRoles(s[1..]);
    }
  }

  /** When every message has a role, nothing is filtered out and the entries follow the messages one to one. */
  lemma {:induction false} WithRolesAllRoled(s: seq<Message>)
    requires forall i :: 0 <= i < |s| ==> s[i].role.Some?
    ensures |WithRoles(s)| == |s|
    ensures forall i :: 0 <= i < |s| ==> WithRoles(s)[i] == Entry(s[i])
  {
    if s != [] {
      WithRolesAllRoled(s[1..]);
    }
  }

  /** The `messages` of the chat-completion request for `userMessage`, given the earlier assistant-chat messages. */
  function AiContext(history: seq<Message>, userMessage: string): (r: seq<ContextEntry>)
    ensures 1 <= |r| <= ContextWindow + 1
    ensures r[|r| - 1] == ContextEntry(UserRole, userMessage)
  {
    WithRoles(Latest(history, ContextWindow)) + [ContextEntry(UserRole, userMessage)]
  }

  /** `e` is the entry of one of the last 5 messages of `history`, one that has a role. */
  predicate FromRecent(history: seq<Message>, e: ContextEntry)
  {
    exists i :: |history| - ContextWindow <= i < |history| && 0 <= i && history[i].role.Some? && e == Entry(history[i])
  }

  /** Every entry before the user message comes from one of the last 5 messages, one that has a role. */
  lemma AiContextSources(history: seq<Message>, userMessage: string)
    ensures forall j :: 0 <= j < |AiContext(history, userMessage)| - 1 ==>
              FromRecent(history, AiContext(history, userMessage)[j])
  {
    var recent := Latest(history, ContextWindow);
    var r := AiContext(history, userMessage);
    assert r == WithRoles(recent) + [ContextEntry(UserRole, userMessage)];
    forall j | 0 <= j < |r| - 1
      ensures FromRecent(history, r[j])
    {
      var k := WithRolesSource(recent, j);
      var i := |history| - |recent| + k;
      assert r[j] == WithRoles(recent)[j] == Entry(recent[k]);
      assert history[i] == recent[k];
    }
  }

  /**
   * When every earlier message has a role, the context is exactly the last
   * min(5, n) of them, in order, followed by the new user message.
   */
  lemma AiContextOfRoledHistory(history: seq<Message>, userMessage: string)
    requires forall i :: 0 <= i < |history| ==> history[i].role.Some?
    ensures var k := if |history| <= ContextWindow then |history| else ContextWindow;
            && |AiContext(history, userMessage)| == k + 1
            && forall i :: 0 <= i < k ==> AiContext(history, userMessage)[i] == Entry(history[|history| - k + i])
  {
    var recent := Latest(history, ContextWindow);
    WithRolesAllRoled(recent);
  }

  /** A message appended beyond the window pushes the oldest context message out. */
  lemma AiContextSlides(history: seq<Message>, m: Message, userMessage: string)
    requires |history| >= ContextWindow
    ensures AiContext(history + [m], userMessage)
            == WithRoles(history[|history| - ContextWindow + 1..] + [m]) + [ContextEntry(UserRole, userMessage)]
  {
    assert Latest(history + [m], ContextWindow) == history[|history| - ContextWindow + 1..] + [m];
  }

  // ---------------------------------------------------------------------------
  // The welcome message

  predicate HasWelcome(s: seq<Message>)
  {
    exists i :: 0 <= i < |s| && s[i].content == WelcomeText
  }

  /** The assistant's greeting to `userId`. */
  function WelcomeMessage(userId: string, now: Time): (r: Message)
    ensures r.senderId == AiAssistantId && r.receiverId == userId && r.role == Some(AssistantRole)
    ensures r.id == Some(AiAssistantId) && r.content == WelcomeText && r.imageUrl.None? && r.createdAt == now
  {
    Message(Some(AiAssistantId), AiAssistantId, userId, WelcomeText, now, Some(AssistantRole), None)
  }

  /** The assistant list after the welcome update: the welcome message in front unless one is already there. */
  function WithWelcome(prev: seq<Message>, userId: string, now: Time): (r: seq<Message>)
    ensures HasWelcome(r)
    ensures |prev| <= |r| <= |prev| + 1 && r[|r| - |prev|..] == prev
    ensures |r| == |prev| + 1 <==> !HasWelcome(prev)
  {
    if HasWelcome(prev) then prev
    else
      var r := [WelcomeMessage(userId, now)] + prev;
      assert r[0].content == WelcomeText;
      r
  }

  /** Running the welcome update again changes nothing, whoever and whenever. */
  lemma WithWelcomeIdempotent(prev: seq<Message>, u1: string, t1: Time, u2: string, t2: Time)
    ensures WithWelcome(WithWelcome(prev, u1, t1), u2, t2) == WithWelcome(prev, u1, t1)
  {
  }

  // ---------------------------------------------------------------------------
  // The messages the handlers build

  /** The user's text message to `friendId`. */
  function TextMessage(userId: string, friendId: string, content: string, now: Time): (r: Message)
    ensures r.senderId == userId && r.receiverId == friendId && r.role == Some(UserRole)
    ensures r.content == content && r.imageUrl.None? && r.id.None? && r.createdAt == now
  {
    Message(None, userId, friendId, content, now, Some(UserRole), None)
  }

  /** The user's image message to `friendId`, carrying the uploaded file's URL. */
  function ImageMessage(userId: string, friendId: string, url: string, now: Time): (r: Message)
    ensures r.senderId == userId && r.receiverId == friendId && r.role == Some(UserRole)
    ensures r.content == ImageText && r.imageUrl == Some(url) && r.id.None? && r.createdAt == now
  {
    Message(None, userId, friendId, ImageText, now, Some(UserRole), Some(url))
  }

  /** The assistant's answer: the reply's content, or the apology when the request failed. */
  function AssistantMessage(reply: Option<string>, userId: string, now: Time): (r: Message)
    ensures r.senderId == AiAssistantId && r.receiverId == userId && r.role == Some(AssistantRole)
    ensures r.content == if reply.Some? then reply.value else ApologyText
  {
    Message(None, AiAssistantId, userId, if reply.Some? then reply.value else ApologyText, now,
            Some(AssistantRole), None)
  }

  /** `!imageUrl`: the upload answered with no usable URL. */
  predicate NoUrl(uploaded: Option<string>)
  {
    uploaded.None? || uploaded.value == ""
  }

  class ChatArea {
    /** The signed-in user's id, None without a session. */
    const session: Option<string>
    /** The id of the friend selected in the sidebar, None when nothing is selected. */
    var selectedFriend: Option<string>
    var friendMessages: seq<Message>
    var aiMessages: seq<Message>
    /** The draft in the text input. */
    var newMessage: string
    /** The image chosen in the file input and not yet sent. */
    var imageFile: Option<UploadedFile>
    var isFirstAiMessage: bool
    /** The socket in state: None while `socket` is null, else the (user, friend) pair it was opened for. */
    var socket: Option<(string, string)>
    /**
     * Whether the socket in state is still connected: the effect that opened
     * it has not been cleaned up by `newSocket.disconnect()`. The handlers
     * registered on a disconnected socket never fire again.
     */
    var live: bool
    /** Every emit made on a socket, in order. */
    var emitted: seq<Emit>
    /** Every chat-completion request sent, by its `messages` array. */
    var aiRequests: seq<seq<ContextEntry>>

    /** The component as first rendered, before its selection effect has run. */
    constructor (session: Option<string>, selectedFriend: Option<string>)
      ensures this.session == session && this.selectedFriend == selectedFriend
      ensures friendMessages == [] && aiMessages == [] && newMessage == "" && imageFile.None?
      ensures isFirstAiMessage && socket.None? && !live && emitted == [] && aiRequests == []
    {
      this.session := session;
      this.selectedFriend := selectedFriend;
      friendMessages := [];
      aiMessages := [];
      newMessage := "";
      imageFile := None;
      isFirstAiMessage := true;
      socket := None;
      live := false;
      emitted := [];
      aiRequests := [];
    }

    /** The text input's `onChange`. */
    method Type(text: string)
      modifies this`newMessage
      ensures newMessage == text
    {
      newMessage := text;
    }

    /** The file input's `onChange` (a file or null) and the remove button (null). */
    method PickImage(file: Option<UploadedFile>)
      modifies this`imageFile
      ensures imageFile == file
    {
      imageFile := file;
    }

    /**
     * The state the selection effect leaves for the current selection: the
     * draft cleared; for the assistant, the socket kept and the welcome
     * message added on first use or to an empty list; for a friend, a new
     * connected socket for the pair; without a session or a selection,
     * nothing else changed.
     */
    twostate predicate Selected(now: Time)
      reads this
    {
      && newMessage == ""
      && (session.None? || selectedFriend.None? ==>
            aiMessages == old(aiMessages) && isFirstAiMessage == old(isFirstAiMessage) && socket == old(socket))
      && (session.Some? && selectedFriend == Some(AiAssistantId) ==>
            && socket == old(socket)
            && !isFirstAiMessage
            && aiMessages == if old(isFirstAiMessage) || old(aiMessages) == []
                             then WithWelcome(old(aiMessages), session.value, now)
                             else old(aiMessages))
      && (FriendSelected() ==>
            && socket == Some((session.value, selectedFriend.value)) && live
            && aiMessages == old(aiMessages) && isFirstAiMessage == old(isFirstAiMessage))
    }

    /** The current selection is a friend, for whom the effect opens a socket. */
    predicate FriendSelected()
      reads this
    {
      session.Some? && selectedFriend.Some? && selectedFriend.value != AiAssistantId
    }

    /**
     * The body of the effect run after mount and after each change of
     * session or selection: clears the draft; for the assistant, adds the
     * welcome message on first use or when the list is empty; for a friend,
     * opens a new socket for the pair. Without a session or a selection only
     * the draft is cleared.
     */
    method SelectionEffect(now: Time)
      modifies this`newMessage, this`aiMessages, this`isFirstAiMessage, this`socket, this`live
      ensures Selected(now)
      ensures !FriendSelected() ==> live == old(live)
    {
      newMessage := "";
      if session.None? || selectedFriend.None? {
        return;
      }
      if selectedFriend.value == AiAssistantId {
        if isFirstAiMessage || |aiMessages| == 0 {
          aiMessages := WithWelcome(aiMessages, session.value, now);
          isFirstAiMessage := false;
        }
        return;
      }
      socket := Some((session.value, selectedFriend.value));
      live := true;
    }

    /**
     * A new selection: the prop changes, the previous run's cleanup
     * disconnects the socket it opened (if any), and the effect runs again.
     * The socket stays in state, disconnected, unless a friend is selected.
     */
    method Select(friend: Option<string>, now: Time)
      modifies this`selectedFriend, this`newMessage, this`aiMessages, this`isFirstAiMessage, this`socket, this`live
      ensures selectedFriend == friend && Selected(now)
      ensures !FriendSelected() ==> !live
      ensures session.Some? && friend == Some(AiAssistantId) ==> aiMessages != [] && !isFirstAiMessage
      ensures session.Some? && friend == Some(AiAssistantId) && old(isFirstAiMessage) ==> HasWelcome(aiMessages)
      ensures friendMessages == old(friendMessages)
    {
      selectedFriend := friend;
      live := false;
      SelectionEffect(now);
    }

    /**
     * The socket's `connect` handler: joins the pair's room and asks for its
     * history. A disconnected socket's handler never fires.
     */
    method OnConnect()
      modifies this`emitted
      ensures socket.Some? && live ==> emitted == old(emitted) + [JoinChat(socket.value.0, socket.value.1),
                                                                  GetMessageHistory(socket.value.0, socket.value.1)]
      ensures socket.None? || !live ==> emitted == old(emitted)
    {
      if socket.Some? && live {
        emitted := emitted + [JoinChat(socket.value.0, socket.value.1), GetMessageHistory(socket.value.0, socket.value.1)];
      }
    }

    /** `receive_message` on the connected socket: the message goes at the end of the friend list. */
    method OnReceiveMessage(m: Message)
      modifies this`friendMessages
      ensures friendMessages == if live then old(friendMessages) + [m] else old(friendMessages)
    {
      if live {
        friendMessages := friendMessages + [m];
      }
    }

    /** `message_history` on the connected socket: the friend list becomes the page, whatever it held. */
    method OnMessageHistory(history: seq<Message>)
      modifies this`friendMessages
      ensures friendMessages == if live then history else old(friendMessages)
    {
      if live {
        friendMessages := history;
      }
    }

    /**
     * The state `handleImageUpload` leaves: without a pending image, a
     * session or a selection nothing changes; otherwise the pending image is
     * dropped, and with a usable URL the image message is appended to the
     * assistant list or, for a friend with an open socket, emitted.
     */
    twostate predicate ImageHandled(uploaded: Option<string>, now: Time)
      reads this
    {
      && (old(imageFile).None? || session.None? || selectedFriend.None? ==>
            imageFile == old(imageFile) && aiMessages == old(aiMessages) && emitted == old(emitted))
      && (old(imageFile).Some? && session.Some? && selectedFriend.Some? ==> imageFile.None?)
      && (NoUrl(uploaded) ==> aiMessages == old(aiMessages) && emitted == old(emitted))
      && (old(imageFile).Some? && session.Some? && selectedFriend == Some(AiAssistantId) && !NoUrl(uploaded) ==>
            && aiMessages == old(aiMessages) + [ImageMessage(session.value, AiAssistantId, uploaded.value, now)]
            && emitted == old(emitted))
      && (old(imageFile).Some? && session.Some? && selectedFriend.Some? && selectedFriend.value != AiAssistantId
          && !NoUrl(uploaded) ==>
            && aiMessages == old(aiMessages)
            && emitted == old(emitted) + if socket.Some?
                                         then [SendMessage(ImageMessage(session.value, selectedFriend.value, uploaded.value, now))]
                                         else [])
    }

    /**
     * `handleImageUpload`; `uploaded` is what the upload yields (`data.url`,
     * or null when it failed). Once the guard passes the pending image is
     * dropped whatever the upload's outcome; without a usable URL nothing is
     * sent.
     */
    method HandleImageUpload(uploaded: Option<string>, now: Time)
      modifies this`imageFile, this`aiMessages, this`emitted
      ensures ImageHandled(uploaded, now)
    {
      if imageFile.None? || session.None? || selectedFriend.None? {
        return;
      }
      imageFile := None;
      if NoUrl(uploaded) {
        return;
      }
      var message := ImageMessage(session.value, selectedFriend.value, uploaded.value, now);
      if selectedFriend.value == AiAssistantId {
        aiMessages := aiMessages + [message];
      } else if socket.Some? {
        emitted := emitted + [SendMessage(message)];
      }
    }

    /**
     * `handleSendMessage`. A pending image is sent instead of the text, and
     * the draft is then kept. A blank draft, or no session or selection,
     * sends nothing. To the assistant: the user message is appended, the
     * request built from the list as it was BEFORE that append, and its
     * answer (`aiReply`, None when the request failed) appended after it. To
     * a friend: one `send_message` emit and no local append, since the
     * message appears when the server echoes it back. Either way the draft
     * is cleared.
     */
    method HandleSendMessage(uploaded: Option<string>, aiReply: Option<string>, now: Time)
      modifies this`imageFile, this`aiMessages, this`emitted, this`aiRequests, this`newMessage
      ensures friendMessages == old(friendMessages)
      ensures old(imageFile).Some? ==>
                ImageHandled(uploaded, now) && newMessage == old(newMessage) && aiRequests == old(aiRequests)
      ensures old(imageFile).None? && (Blank(old(newMessage)) || session.None? || selectedFriend.None?) ==>
                && newMessage == old(newMessage) && imageFile.None?
                && aiMessages == old(aiMessages) && emitted == old(emitted) && aiRequests == old(aiRequests)
      ensures old(imageFile).None? && !Blank(old(newMessage)) && session.Some? && selectedFriend == Some(AiAssistantId) ==>
                && newMessage == "" && imageFile.None? && emitted == old(emitted)
                && aiRequests == old(aiRequests) + [AiContext(old(aiMessages), old(newMessage))]
                && aiMessages == old(aiMessages) + [TextMessage(session.value, AiAssistantId, old(newMessage), now),
                                                    AssistantMessage(aiReply, session.value, now)]
      ensures old(imageFile).None? && !Blank(old(newMessage)) && session.Some? && selectedFriend.Some?
              && selectedFriend.value != AiAssistantId ==>
                && newMessage == "" && imageFile.None? && aiMessages == old(aiMessages) && aiRequests == old(aiRequests)
                && emitted == old(emitted) + if socket.Some?
                                             then [SendMessage(TextMessage(session.value, selectedFriend.value, old(newMessage), now))]
                                             else []
    {
      if imageFile.Some? {
        HandleImageUpload(uploaded, now);
        return;
      }
      if Blank(newMessage) || session.None? || selectedFriend.None? {
        return;
      }
      var message := TextMessage(session.value, selectedFriend.value, newMessage, now);
      if selectedFriend.value == AiAssistantId {
        var context := AiContext(aiMessages, newMessage);
        aiMessages := aiMessages + [message];
        aiRequests := aiRequests + [context];
        aiMessages := aiMessages + [AssistantMessage(aiReply, session.value, now)];
      } else if socket.Some? {
        emitted := emitted + [SendMessage(message)];
      }
      newMessage := "";
    }
  }
}
