# Chat app core in Dafny

This project models the core of a one-to-one chat application.

- **Server** (a Hono HTTP app with a Socket.IO relay over SQLite):
  - derives a room name for each pair of users;
  - stores each message and then broadcasts it to the pair's room;
  - relays typing notices;
  - replays a pair's history as one page of 50 rows;
  - serves the friend-request routes (send, incoming, friends, accept, delete);
  - validates image uploads.
- **Client**:
  - `EncryptionService`, which manages the user's RSA key in local storage and talks to a public-key directory;
  - the chat area's state: the friend and assistant message lists, the draft, the pending image, and the handlers that send, receive and load messages;
  - the "typing..." indicator.

## Modules

| file | module | what it models |
|---|---|---|
| `base.dfy` | `Base` | `Option`, `Result` and the route answer `Reply` (a status with a value or an error text) |
| `schema.dfy` | `Schema` | the `user`, `friend_request` and `chat_messages` rows with their key, unique and reference constraints, and the status texts the routes write |
| `rooms.dfy` | `Rooms` | the room name `[a, b].sort().join('_')` |
| `history.dfy` | `History` | the history query: filter by pair, sort by `createdAt`, limit 50 |
| `friend_requests.dfy` | `FriendRequests` | the lookups, filters and row updates behind the friend-request routes |
| `upload.dfy` | `Upload` | the decision of `POST /api/uploadImage` |
| `relay.dfy` | `Relay` | class `ChatServer`: the socket handlers and routes over the tables, the room registry and every connection's outbox |
| `encryption.dfy` | `Encryption` | class `EncryptionService` and the `getInstance` singleton slot |
| `chat_client.dfy` | `ChatClient` | class `ChatArea` and the pure helpers it uses: trim, AI context, welcome message |
| `typing_indicator.dfy` | `Typing` | class `TypingIndicator` and its modular counter |

Modelling choices:

- **One step per handler.** Each handler runs as one atomic step.
- **Oracle parameters.** Things the code gets from outside arrive as parameters:
  - a fresh `nanoid()` value and the current time;
  - whether a database call throws (`storeFault`);
  - the result of a `fetch`;
  - the URL returned by an upload;
  - the assistant's reply.
- **Opaque RSA.** The code does not show how NodeRSA imports or decrypts a key. The service therefore holds both operations as function-valued constants and makes no claim about what they compute.
- **Constraints enforced.** The database is assumed to enforce its declared primary-key, NOT NULL and foreign-key constraints. An insert or delete that would break one throws, and the handler catches the error.

Behaviour of the code worth knowing:

- **History is the oldest page.** The history query sorts ascending by `createdAt` and then takes 50 rows, so it returns the OLDEST 50 messages of the pair, not the latest 50 (`History.HistoryOmitsNewest`).
- **Wrapped keys are not kept.** `send_message` copies only sender, receiver, content and image URL. It drops both wrapped AES keys (`Relay.RelayedDropsWrappedKeys`).
- **No image column.** `chat_messages` has no image column, so a stored row has no image URL. Only the broadcast record carries it (`Relay.StoredRow`).
- **Room names can collide.** The room name is unique only for ids that do not contain `_` (`Rooms.RoomIdInjective`, `Rooms.RoomIdCollision`).

## Model

| member | source | states |
|---|---|---|
| Schema.StatusText | db/schema.ts:69-71 | every status is stored as one of the three enum texts |
| Schema.ParseStatus | db/schema.ts:69-71 | a text is accepted exactly when it is one of the three enum texts |
| Schema.StatusTextRoundTrip | db/schema.ts:69-71 | enum value and stored text determine each other |
| Schema.EmailNamesOneUser | db/schema.ts:6 | because `email` is unique, two users with the same email are the same user |
| Schema.MessageIdNamesOneMessage | db/schema.ts:78 | because `id` is the primary key, two messages with the same id are the same row |
| Rooms.SortPair | hono/index.ts:32 | `[a, b].sort()` keeps the two ids and leaves the larger one second |
| Rooms.RoomId | hono/index.ts:32 | the room name has the length of both ids plus one delimiter |
| Rooms.RoomIdSymmetric | hono/index.ts:32 | the room does not depend on which user is the sender (join, typing and send derive it alike) |
| Rooms.RoomIdSmallerFirst | hono/index.ts:32 | the room name is the smaller id, `_`, then the larger id |
| Rooms.JoinInjective | hono/index.ts:32 | joining two delimiter-free first halves with `_` can be undone |
| Rooms.RoomIdInjective | hono/index.ts:32 | with ids free of `_`, two pairs share a room exactly when they are the same unordered pair |
| Rooms.RoomIdCollision | hono/index.ts:32 | ids containing `_` can put two different pairs in one room |
| History.Conversation | hono/index.ts:84-97 | the where clause keeps every message between the two users, in either direction, as often as stored, and nothing else |
| History.SortByTime | hono/index.ts:98 | the rows come out ascending by `createdAt`, as a permutation of the selection |
| History.Take | hono/index.ts:99 | `limit(n)` yields a prefix of length min(n, size) |
| History.MessageHistory | hono/index.ts:81-99 | the page holds at most 50 rows, ascending by time, all stored messages of the pair |
| History.HistorySize | hono/index.ts:81-99 | the page holds exactly min(n, 50) of the pair's n messages, none more often than stored |
| History.HistoryIsEarliest | hono/index.ts:98-99 | a message of the pair left out of the page is no earlier than any message in it |
| History.HistoryOmitsNewest | hono/index.ts:98-99 | beyond 50 messages, the pair's strictly newest message is not in the page |
| History.ConversationSymmetric | hono/index.ts:84-97 | the selection is the same whichever user asks |
| History.HistorySymmetric | hono/index.ts:79-101 | both participants get the same page |
| History.HistoryIgnoresOtherPairs | hono/index.ts:84-97 | a message between other users does not change the pair's page |
| FriendRequests.FindUserByEmail | hono/index.ts:208-211 | the lookup finds a user with that email exactly when one exists |
| FriendRequests.SameUserIffSameEmail | hono/index.ts:221-224 | with unique ids and emails, sender and receiver are the same user exactly when their emails are equal |
| FriendRequests.FindBlockingRequest | hono/index.ts:232-253 | finds a PENDING or ACCEPTED request between the pair in either direction, and finds none only when there is none |
| FriendRequests.BlockingSymmetric | hono/index.ts:235-246 | the duplicate check does not depend on which user sends |
| FriendRequests.JoinSender | hono/index.ts:309 | the inner join pairs the request with exactly the users whose email is its sender email |
| FriendRequests.IncomingRequests | hono/index.ts:303-316 | the answer holds exactly the PENDING requests to that email, each joined with its sender |
| FriendRequests.FriendEmails | hono/index.ts:340-359 | the list holds exactly the other parties of the ACCEPTED requests involving the email |
| FriendRequests.UsersWithEmails | hono/index.ts:362-366 | `inArray` keeps exactly the users whose email is listed |
| FriendRequests.FriendshipMutual | hono/index.ts:340-366 | b is a friend of a exactly when a is a friend of b |
| FriendRequests.AcceptRequest | hono/index.ts:403-410 | the row with that id becomes ACCEPTED with the new time; every other row is unchanged |
| FriendRequests.RemoveRequest | hono/index.ts:448 | exactly the rows with another id remain |
| FriendRequests.RemoveExactlyOne | hono/index.ts:448 | with unique ids, deleting an existing id removes that one row and no other |
| FriendRequests.AcceptKeepsConstraints | hono/index.ts:403-410 | accepting keeps the key and reference constraints and the set of ids |
| FriendRequests.RemoveKeepsDistinct | hono/index.ts:448 | deleting keeps the primary key unique |
| Upload.UploadImage | hono/index.ts:132-170 | 400 exactly for a missing file, a type outside jpeg/png/gif/webp, or a size over 5 MiB (each with its own text, the size refusal for every size over the limit); 201 with `http://localhost:3000/uploads/<id>-<name>` exactly when the file is acceptable and written; otherwise 500 |
| Upload.SizeLimitInclusive | hono/index.ts:147-151 | exactly 5 MiB is accepted; one byte more is refused |
| Upload.UrlEndsWithIdAndName | hono/index.ts:153-162 | the URL ends with `<id>-<name>`, so any two distinct ids give distinct URLs |
| Relay.Deliver | hono/index.ts:70 | an emit to a room reaches each member once and no one else |
| Relay.WithMember | hono/index.ts:33 | `socket.join` adds the connection to that room only |
| Relay.JoinIdempotent | hono/index.ts:33 | joining twice is the same as joining once |
| Relay.WithoutConnection | hono/index.ts:107-109 | a disconnected connection leaves every room and nothing else changes |
| Relay.DisconnectedGetsNothing | hono/index.ts:107-109 | after a disconnect no room broadcast reaches the connection |
| Relay.ImageOrNull | hono/index.ts:59 | the image URL is kept when present and non-empty, otherwise null |
| Relay.StoredRow | hono/index.ts:64 | the stored row keeps id, sender, receiver, content and time; read time and request reference are null |
| Relay.Relayed | hono/index.ts:54-61 | the record takes sender, receiver and content from the payload, the image URL or null, the fresh id and the server time, and nothing else |
| Relay.RelayedDropsWrappedKeys | hono/index.ts:54-61 | the broadcast record ignores both wrapped keys and carries the fresh id and the server time |
| Relay.AcceptKeepsMessagesValid | hono/index.ts:403-410 | accepting a request keeps every message's reference to a request valid |
| Relay.RemoveKeepsMessagesValid | hono/index.ts:448 | deleting an unreferenced request keeps all tables valid, and removes exactly one row when the id exists |
| Relay.ChatServer.JoinChat | hono/index.ts:31-35 | the connection joins the pair's room |
| Relay.ChatServer.Typing | hono/index.ts:38-49 | `{userId: senderId}` goes to every member of the pair's room except the emitting connection |
| Relay.ChatServer.SendMessage | hono/index.ts:52-76 | the message is stored and broadcast exactly when the insert succeeds; a thrown insert changes neither the table nor any outbox; the constraints stay valid |
| Relay.ChatServer.GetMessageHistory | hono/index.ts:79-105 | the pair's page goes to the asking connection only; a failed query emits nothing |
| Relay.ChatServer.Disconnect | hono/index.ts:107-109 | the connection leaves every room |
| Relay.FriendRequestReply | hono/index.ts:198-294 | 400 on a missing email, 404 on an unknown sender and then receiver, 401 on a self request, 400 "Friend request already exists" exactly on a blocking request, 500 on a store failure once both emails are present or on an id already in use, else 201 with a PENDING row holding the fresh id, the time and both users' ids and emails |
| Relay.InsertKeepsValid | hono/index.ts:263-275 | inserting a row with a new id that references existing users keeps every table constraint |
| Relay.ChatServer.SendFriendRequest | hono/index.ts:198-294 | answers as `FriendRequestReply`; on success exactly the returned row is appended; on an error the table is unchanged; the constraints stay valid |
| Relay.ChatServer.Incoming | hono/index.ts:296-331 | 400 without an email, 500 when the query fails; otherwise exactly the PENDING requests to it, each joined with every user whose email is its sender email |
| Relay.ChatServer.Friends | hono/index.ts:333-378 | 400 without an email, 500 when the query fails; otherwise exactly the users on the other side of an ACCEPTED request |
| Relay.ChatServer.UpdateFriendRequest | hono/index.ts:380-429 | 400 without an id or unless the body status is "PENDING", 500 when the store fails, 404 for an unknown id, else that row becomes ACCEPTED |
| Relay.ChatServer.DeleteFriendRequest | hono/index.ts:431-465 | 400 without an id, 404 for an unknown id, else exactly that row is removed; a store failure, or a row still referenced by a message, answers 400 "Failed to delete friend request" |
| Encryption.EncryptionService.constructor | lib/encryption.ts:9-11 | a new service has no loaded key (`keyPair` is null) and has sent nothing |
| Encryption.EncryptionService.LoadPrivateKey | lib/encryption.ts:32-44 | loads exactly when a non-empty stored key imports; an unimportable stored key is removed and the loaded key kept |
| Encryption.EncryptionService.SavePrivateKey | lib/encryption.ts:47-50 | the text is stored first; the loaded key changes only when it imports |
| Encryption.EncryptionService.GenerateKeyPair | lib/encryption.ts:21-29 | the new pair becomes the loaded key and is returned |
| Encryption.EncryptionService.PublicKey | lib/encryption.ts:53-55 | null exactly when no key is loaded or its public text is empty |
| Encryption.EncryptionService.DecryptAESKey | lib/encryption.ts:80-85 | refuses exactly when no key is loaded; otherwise yields what RSA decryption yields |
| Encryption.EncryptionService.InitializeUserKeys | lib/encryption.ts:88-167 | without a loadable key: generate, store and then publish, failing with its own error when the publish is not ok, when the request itself fails, or when an ok answer's body is not JSON; with one: ask the directory and upload the local public key only when the lookup is not ok, never failing |
| Encryption.EncryptionService.GetRecipientPublicKey | lib/encryption.ts:170-182 | yields the directory's key exactly when the lookup answers ok; a refused lookup, a failed request and an unreadable body each fail with their own error |
| Encryption.ServiceSlot.GetInstance | lib/encryption.ts:13-18 | creates the service on the first call and returns that same object after that |
| Encryption.GetInstanceTwice | lib/encryption.ts:13-18 | two calls return one and the same service |
| ChatClient.TrimStart | components/Chat/orginal.tsx:249 | removes exactly the leading white space |
| ChatClient.TrimEnd | components/Chat/orginal.tsx:249 | removes exactly the trailing white space |
| ChatClient.Trim | components/Chat/orginal.tsx:249 | the result is empty or starts and ends with a non-space character |
| ChatClient.TrimEmptyIffBlank | components/Chat/orginal.tsx:249 | a draft trims to "" exactly when it is all white space |
| ChatClient.TrimKeepsText | components/Chat/orginal.tsx:249 | a draft with any non-space character passes the guard |
| ChatClient.Latest | components/Chat/orginal.tsx:62 | `slice(-n)` is the last min(n, size) elements |
| ChatClient.WithRoles | components/Chat/orginal.tsx:61-67 | filtering never yields more entries than messages |
| ChatClient.WithRolesMembers | components/Chat/orginal.tsx:61-67 | the entries are exactly those of the messages that have a role |
| ChatClient.WithRolesSource | components/Chat/orginal.tsx:61-67 | each entry, by position, comes from a message with a role |
| ChatClient.WithRolesAppend | components/Chat/orginal.tsx:61-67 | filtering and mapping keep the order |
| ChatClient.WithRolesAllRoled | components/Chat/orginal.tsx:61-67 | with every role present, the entries follow the messages one to one |
| ChatClient.AiContext | components/Chat/orginal.tsx:60-68 | at most 6 entries, the last of which is the new user message |
| ChatClient.AiContextSources | components/Chat/orginal.tsx:60-68 | every other entry comes from one of the last 5 messages, one that has a role |
| ChatClient.AiContextOfRoledHistory | components/Chat/orginal.tsx:60-68 | with every role present, the context is exactly the last min(5, n) messages in order, then the user message |
| ChatClient.AiContextSlides | components/Chat/orginal.tsx:62 | a message appended beyond the window pushes the oldest one out |
| ChatClient.WelcomeMessage | components/Chat/orginal.tsx:117-124 | the greeting is from the assistant to the user, under the id "ai-assistant", with the fixed welcome text and no image |
| ChatClient.TextMessage | components/Chat/orginal.tsx:251-257 | the user's message to the selected friend carries the draft as its content, the user role, no id and no image |
| ChatClient.ImageMessage | components/Chat/orginal.tsx:219-226 | the user's image message carries "Sent an image", the user role and the uploaded URL |
| ChatClient.AssistantMessage | components/Chat/orginal.tsx:81-102 | the assistant's message carries the reply, or the fixed apology when the call failed |
| ChatClient.WithWelcome | components/Chat/orginal.tsx:113-130 | the list then holds a welcome message; one is put in front only when none was there |
| ChatClient.WithWelcomeIdempotent | components/Chat/orginal.tsx:113-130 | repeating the welcome update changes nothing |
| ChatClient.ChatArea.constructor | components/Chat/orginal.tsx:31-39 | the component starts with empty message lists, an empty draft, no pending image, `isFirstAiMessage` set, no socket, and nothing emitted or requested |
| ChatClient.ChatArea.Type | components/Chat/orginal.tsx:389 | the draft becomes the input's text |
| ChatClient.ChatArea.PickImage | components/Chat/orginal.tsx:360 | the pending image becomes the chosen file or null |
| ChatClient.ChatArea.SelectionEffect | components/Chat/orginal.tsx:106-166 | `Selected`: clears the draft; for the assistant, keeps the socket and adds the welcome on first use or to an empty list; for a friend, opens a connected socket for the pair and keeps the assistant state; without a session or selection nothing else changes |
| ChatClient.ChatArea.Select | components/Chat/orginal.tsx:106-166 | the selection changes, the previous run's socket is disconnected, and the effect's new state follows for it (`Selected`), with the socket connected only when a friend is selected: the draft cleared; for the assistant the socket kept, the welcome added on first use or to an empty list, and the list non-empty; for a friend a socket for the pair, with the assistant list and first-use flag kept; friend messages are kept |
| ChatClient.ChatArea.OnConnect | components/Chat/orginal.tsx:141-151 | on connect the client emits `join_chat` and then `get_message_history` for the pair; a disconnected socket emits nothing |
| ChatClient.ChatArea.OnReceiveMessage | components/Chat/orginal.tsx:153-155 | a message received on the connected socket is appended at the end; a disconnected socket's handler changes nothing |
| ChatClient.ChatArea.OnMessageHistory | components/Chat/orginal.tsx:157-159 | a history page on the connected socket replaces the friend list wholesale; a disconnected socket's handler changes nothing |
| ChatClient.ChatArea.HandleImageUpload | components/Chat/orginal.tsx:208-241 | `ImageHandled`: without a pending image, session or selection nothing changes; past the guard the pending image is dropped; without a URL nothing is sent; with one, "Sent an image" plus the URL goes to the assistant list or one socket emit |
| ChatClient.ChatArea.HandleSendMessage | components/Chat/orginal.tsx:243-267 | a pending image takes priority: the upload's new state (`ImageHandled`) follows, the text is not sent and the draft is kept; a blank draft or no session/selection sends nothing; the assistant gets the user message and one reply built from the earlier list; a friend gets one emit and no local append; then the draft is cleared |
| Typing.Next | components/Chat/TypingIndicator.tsx:16 | the counter advances by one and wraps from 3 to 0, staying below 4 |
| Typing.TicksAdvance | components/Chat/TypingIndicator.tsx:15-17 | after n ticks the counter is (p + n) mod 4 |
| Typing.FourTicksCycle | components/Chat/TypingIndicator.tsx:15-17 | every four ticks the counter is back where it was |
| Typing.Caption | components/Chat/TypingIndicator.tsx:22-38 | the text is "typing" followed by 4 - p dots |
| Typing.TypingIndicator.constructor | components/Chat/TypingIndicator.tsx:11 | the counter starts at 0 |
| Typing.TypingIndicator.Tick | components/Chat/TypingIndicator.tsx:15-17 | one interval callback advances the counter and keeps it below 4 |
| Typing.TypingIndicator.Text | components/Chat/TypingIndicator.tsx:38 | the rendered text is "typing" followed by 4 - p dots for the current counter p |

## Left out

- **Transport and bootstrap:** Socket.IO and HTTP setup, CORS and `serve` are not modelled. Rooms are a map, and emits are appends to per-connection outboxes.
- **Disconnect:** the handler itself only logs. `Relay.ChatServer.Disconnect` applies Socket.IO's own room cleanup, which is library behaviour and is stated as an assumption.
- **Concurrency:** interleavings of the asynchronous handlers are out of scope; each handler is one step. The client's stale-closure timing is kept only where it changes a result: the AI context is built from the list as it was before the user message was appended.
- **File I/O:** `mkdir` and `Bun.write` are one `written` flag. The `GET /uploads/:filename` route that serves files is not modelled.
- **Request bodies:** a body that is not valid JSON, or a form that cannot be parsed, throws inside the route's try block. The model has no input for this.
- **`Relay.ChatServer.Incoming` and `Relay.ChatServer.Friends`:** the ensures list what the answer contains but not its order.
- **`inArray` on an empty list:** the query library's handling of an empty list is assumed to select no rows.
- **Timestamps:** times are integers. The column's truncation to seconds is not modelled.
- **String ordering:** JavaScript's default `sort` compares UTF-16 code units. `Rooms.LexLess` compares characters, and the two orders agree except for characters outside the Basic Multilingual Plane.
- **`String.prototype.trim`:** `ChatClient.IsSpace` lists the white space and line terminator characters of ECMAScript.
- **Crypto internals:** AES and the NodeRSA encrypt, decrypt, import and export are opaque functions or parameters, so no encrypt-then-decrypt round trip is claimed. The same holds for `generateAESKey`, `encryptMessage`, `decryptMessage` and `encryptAESKey`.
- **Key directory:** the `/api/keys` routes the client calls are not in the server code, so the model records the requests sent and takes the responses as parameters.
- **`History.MessageHistory`:** the database leaves the order of messages with equal `createdAt` open, and times are stored in seconds, so ties happen. The model fixes one order, the selection order, which also decides which tied rows make the 50-row cut. The lemmas about the page hold for that order only.
- **Rejection texts:** the thrown message of a refused publish also carries the status and the body text, and the texts of a failed `fetch` and of `response.json()` on a non-JSON body depend on the browser. The model keeps one fixed text per kind of failure.
- **`Encryption.EncryptionService.InitializeUserKeys`:** the outcome of the upload made on the existing-key path is only logged, so it is not an input.
- **External services:** the chat-completion request, `data.choices[0].message.content` and the upload `fetch` are oracle parameters.
- **UI:** scrolling, loading flags, the file input reset, rendering and date formatting are not modelled.
- **Authentication:** the `session`, `account` and `verification` tables and the auth routes are not modelled.
