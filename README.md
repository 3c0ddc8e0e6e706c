# Chat client core in Dafny

This project models the browser chat client's state handling. It covers four
parts:

- **App** (`App.dfy`): the top-level page switch between login, signup and
  chat. The switch starts from the token in local storage, and logout clears
  the session keys.
- **Chat page** (`Chat.dfy`): the friend roster, the open conversation's
  message list, the compose box and the send path. The roster and the message
  history are fetched from the REST server. Messages pushed over the socket
  are normalised and appended when they involve the selected friend. Messages
  are grouped by date for display.
- **Friend requests** (`Requests.dfy`): the pending-request list. It is
  fetched and deduplicated by id, grows with pushed `friendRequest` events,
  and shrinks on `friendAccepted`/`friendRejected` events and on the user's
  own accept or reject.
- **Voice call** (`VoiceCall.dfy`): the call signalling state. This covers
  normalisation of the several incoming-offer payload shapes, the
  emit-with-acknowledgement fallback across a list of socket event names, and
  the call controller. The controller has a status (idle, calling, incoming,
  in-call) and slots for the peer connection, the local stream and the stored
  offer.

`Js.dfy` gives the JavaScript values these handlers work on: parsed JSON and
socket payloads. It also gives the parts of the language they rely on:

- truthiness and `a || b || c` alias chains;
- guarded reads `a && a.k` and `a?.k`;
- `String(x)`;
- strict equality;
- `trim()` and `indexOf`.

Reading a property of `null` or `undefined` throws in JavaScript. The model
therefore tests for such values explicitly. Where the code would throw, it
takes the surrounding `catch` path. A throw inside a React state updater has
no surrounding `catch`; there the model keeps the state cell unchanged (see
"Left out").

The client's inputs appear as parameters:

- **Server replies** are a `Reply`: either a response with its `ok` flag and
  parsed body, or a thrown error.
- **Clock values** are plain strings: `Date.now().toString()` becomes `nowId`
  and `new Date().toISOString()` becomes `nowIso`.
- **Date labels**: `formatDate` is an arbitrary function from timestamp to
  label.
- **Browser media and RTC steps** are given as the point at which they fail,
  if any.
- **Socket acknowledgements** are given as the outcome of each emit.

Stateful components are classes whose fields are the component's state
cells and refs. Each handler is a method that states the new state in terms
of the pure functions, and the properties are proved about those functions.

## Model

| member | source | states |
|---|---|---|
| Js.FirstTruthy | src/pages/Chat.jsx:53-59 | `a0 \|\| a1 \|\| ...` is truthy iff some alternative is. When truthy it is the first truthy alternative, otherwise the last alternative |
| App.InitialPage | src/App.jsx:9-12 | The app opens on chat exactly when local storage holds a non-empty token, and never opens on signup |
| App.Target | src/App.jsx:23-40 | Chat is reached only by login's auth success and signup only by login's switch link. Signup's two callbacks and logout lead to login |
| App.WithoutSession | src/App.jsx:14-19 | Logout removes exactly `token`, `userId` and `userName`. Every other key keeps its value, and no token remains |
| App.ShownViews | src/App.jsx:23-40 | Exactly one view is mounted, and it is the one whose page is current |
| App.ChatOnlyAfterLogin | src/App.jsx:9-40 | The chat page is current only after a stored token or a successful sign-in as the last event |
| App.ReloadAfterLogout | src/App.jsx:9-19 | After logout, reopening the app lands on the login page |
| App.AppState.constructor | src/App.jsx:9-12 | The page starts from the stored token, and the storage is untouched |
| App.AppState.Handle | src/App.jsx:14-33 | A callback sets the page to its target. Logout also clears the session keys, and the other callbacks leave storage alone |
| Requests.KeepFirstKeys | src/components/Requests.jsx:19-23 | Deduplication keeps every id that occurs in the input and adds none |
| Requests.KeepFirstNoDuplicates | src/components/Requests.jsx:19-23 | After deduplication no two requests share an id under `String(r.id)` |
| Requests.KeepFirstSubseq | src/components/Requests.jsx:19-23 | Deduplication keeps requests in their original order and drops some of them |
| Requests.KeepFirstOfDistinct | src/components/Requests.jsx:19-23 | A list without duplicate ids is returned unchanged |
| Requests.KeepFirstIdempotent | src/components/Requests.jsx:19-23 | Deduplicating twice is the same as deduplicating once |
| Requests.Dedupe | src/components/Requests.jsx:19-23 | The `reduce` loop keeps the first request of each id. The result has no duplicate ids, keeps the input order and has the same id set |
| Requests.NewRequest | src/components/Requests.jsx:43-45 | A pushed request's id is `String(payload.from)`, and its name and email are copied from the payload |
| Requests.Inserted | src/components/Requests.jsx:42-46 | A pushed request is put first exactly when the payload and every entry are readable and its id is not yet listed. Otherwise the list is unchanged, which includes the cases where the updater throws |
| Requests.InsertedHasKey | src/components/Requests.jsx:42-46 | After a push the sender's id is listed, and every entry is still readable |
| Requests.InsertedIdempotent | src/components/Requests.jsx:42-46 | The same push delivered twice has the effect of one |
| Requests.InsertedNoDuplicates | src/components/Requests.jsx:42-46 | A push keeps the list free of duplicate ids |
| Requests.WithoutKey | src/components/Requests.jsx:54 | The filter keeps exactly the entries whose id differs from the given one, and never grows the list |
| Requests.WithoutKeyCounts | src/components/Requests.jsx:54 | The filter keeps each entry with another id as many times as it occurs, and drops every occurrence of the given id |
| Requests.WithoutKeySubseq | src/components/Requests.jsx:54 | The filter keeps the remaining entries in order |
| Requests.WithoutAbsentKey | src/components/Requests.jsx:54 | Filtering out an id that is not listed changes nothing |
| Requests.Removed | src/components/Requests.jsx:50-62 | On a readable list, removal filters out the id. A list with a null entry is kept |
| Requests.RemovedSpec | src/components/Requests.jsx:50-62 | After removal the id is gone. Every other entry remains as often as before, in order and readable. Distinct ids stay distinct |
| Requests.RemovedDistinct | src/components/Requests.jsx:54 | Filtering keeps a list free of duplicate ids |
| Requests.RemovedIdempotent | src/components/Requests.jsx:50-62 | A repeated accept or reject event has the effect of one |
| Requests.OnResolved | src/components/Requests.jsx:50-62 | An event without a truthy `payload?.from` changes nothing. Otherwise that sender's request is removed |
| Requests.Find | src/components/Requests.jsx:93 | `find` gives the first entry with the id exactly when every entry before it is readable. It throws exactly when it reaches a null entry before any match. It gives nothing exactly when the list is readable and lacks the id |
| Requests.RequesterName | src/components/Requests.jsx:94 | The name comes from the found request when that entry is truthy, else from a truthy `data.name`, else it is undefined |
| Requests.RequestList.constructor | src/components/Requests.jsx:4-6 | The list starts empty, not loading, with no error |
| Requests.RequestList.FetchRequests | src/components/Requests.jsx:10-31 | On success the list becomes the deduplicated `data.requests`, with a missing list meaning empty. A failure keeps the list and sets the server message or the fallback text. A thrown error sets its message or `Network error`. A body or entries that cannot be read set a TypeError. Loading ends false |
| Requests.RequestList.OnFriendRequest | src/components/Requests.jsx:39-47 | The list becomes the pushed request inserted at the front |
| Requests.RequestList.OnFriendResolved | src/components/Requests.jsx:50-62 | The list loses the accepted or rejected sender's request |
| Requests.RequestList.Respond | src/components/Requests.jsx:79-112 | On success the requester is removed. `onFriendAdded` is called only for an accept, and a `friendAccepted` event with the requester's name is dispatched. A failure keeps the list and sets the error. Loading ends false |
| Requests.RespondRemovesRequester | src/components/Requests.jsx:96-97 | A successful answer removes the requester, keeps ids distinct, and shortens a list that held the requester by exactly one |
| Requests.RemovedOneLess | src/components/Requests.jsx:97 | In a list of distinct ids, filtering out a listed id removes exactly one entry |
| Chat.RosterSource | src/pages/Chat.jsx:82-86 | The friend list is the first array among the body, `data.friends`, `data.data` and `data.users`, and empty when none is an array |
| Chat.NormalizeFriend | src/pages/Chat.jsx:88-97 | Id, name and email come from `user`, `friend` or the entry itself, in that priority. The name falls back from `name` to `username` to `Unknown User` and is always non-empty. The last message comes from either alias, and the unread count is the first truthy alias or 0 |
| Chat.Roster | src/pages/Chat.jsx:73-107 | The roster is the source list normalised entry by entry, in order. It is empty on a failure, a thrown request, or an unreadable body or entry |
| Chat.NormalizeFriendJson | src/pages/Chat.jsx:88-97 | A well-formed roster entry normalises back to itself |
| Chat.NormalizePushed | src/pages/Chat.jsx:53-59 | Each field of a pushed message is the first truthy of its aliases, with the clock as fallback for id and time. The text is always a string or truthy |
| Chat.NormalizeHistory | src/pages/Chat.jsx:121-127 | A history entry takes `_id` as is and the first truthy alias for every other field, with no fallback values |
| Chat.NormalizeHistoryJson | src/pages/Chat.jsx:121-127 | A well-formed stored message normalises back to itself |
| Chat.NormalizePushedJson | src/pages/Chat.jsx:53-59 | A pushed message that already has its id, time and text normalises back to itself, whatever the clock says |
| Chat.Pushed | src/pages/Chat.jsx:49-66 | A pushed message is appended exactly when the payload is truthy, a friend is selected, and the friend is its sender or receiver under `===`. Otherwise the thread is unchanged |
| Chat.PushedTwice | src/pages/Chat.jsx:65 | Pushes are not deduplicated: the same relevant payload delivered twice appends two equal entries |
| Chat.ObjectIdsNeverMatch | src/pages/Chat.jsx:64 | A message whose sender and receiver are objects never matches a string friend id, so it is dropped |
| Chat.HistorySource | src/pages/Chat.jsx:121 | The history list is the first truthy of `data.messages`, `data.data`, `data` and `[]`, and it is always truthy |
| Chat.History | src/pages/Chat.jsx:112-135 | The thread becomes the source normalised entry by entry, in order. It is empty on a failure, a thrown request, a non-array source or an unreadable entry |
| Chat.SentMessage | src/pages/Chat.jsx:160-166 | The appended entry carries the untrimmed draft, the current user as sender and the friend as receiver. Its id is the server's `data.data._id` when given, else the clock |
| Chat.SendError | src/pages/Chat.jsx:170-171 | A failed send shows the server's message, else `Failed to send message`, or `Network error` when the request threw. The error is always non-empty |
| Chat.GroupByDate | src/pages/Chat.jsx:186-198 | The groups concatenate back to the thread in order. Each group is non-empty and labelled by its messages' date, and adjacent groups have different labels |
| Chat.RunLength | src/pages/Chat.jsx:189-195 | The run length is the longest prefix of the thread whose messages carry the given label |
| Chat.FirstGroupIsRun | src/pages/Chat.jsx:186-198 | The first group is exactly the leading run of messages with its label |
| Chat.GroupingUnique | src/pages/Chat.jsx:186-198 | Only one grouping of a thread satisfies these rules, so the grouping is fully determined by the thread |
| Chat.ChatPage.constructor | src/pages/Chat.jsx:5-16 | The page starts with empty lists, no selection, an empty draft, no error, nothing loading and no user id |
| Chat.ChatPage.FetchCurrentUser | src/pages/Chat.jsx:24-37 | The user id becomes `data.user._id` on a readable success, and is kept otherwise |
| Chat.ChatPage.FetchFriends | src/pages/Chat.jsx:73-107 | The roster is replaced wholesale, and loading ends false |
| Chat.ChatPage.OnNewMessage | src/pages/Chat.jsx:49-66 | The thread becomes the pushed update of the old thread |
| Chat.ChatPage.FetchMessages | src/pages/Chat.jsx:112-135 | A falsy id changes nothing. Otherwise the thread is replaced by the fetched history and loading ends false |
| Chat.ChatPage.SelectFriend | src/pages/Chat.jsx:137-139 | The clicked friend becomes selected. A newly selected friend's thread becomes its fetched history, with no fetch for a falsy id. Clicking the friend already selected keeps the thread |
| Chat.ChatPage.EditDraft | src/pages/Chat.jsx:253 | The draft becomes the typed text |
| Chat.ChatPage.SendMessage | src/pages/Chat.jsx:145-173 | A blank draft or missing selection changes nothing. A success appends the sent entry, clears the draft and error, and emits the entry when a socket exists. A failure keeps the thread and draft and sets the error |
| VoiceCall.NormalizeOffer | src/components/VoiceCall.jsx:15-24 | A falsy payload gives nothing. The SDP, type and caller are the first truthy of their alias lists, with `offer` as the default type and `''` as the default caller. A bare string containing `v=0` is its own SDP. With no SDP the result is nothing, and a result always has a truthy SDP |
| VoiceCall.BareSdpOffer | src/components/VoiceCall.jsx:21 | A bare SDP string becomes an offer of type `offer` from an empty caller |
| VoiceCall.NormalizeOfferIdempotent | src/components/VoiceCall.jsx:15-24 | A normalised offer with a truthy type normalises back to itself |
| VoiceCall.EmitWithAckFallback | src/components/VoiceCall.jsx:102-126 | Without a socket nothing is emitted. Otherwise events are emitted in list order, each at most once, until one is acknowledged. The result is the first acknowledged event and its ack. The result is null exactly when no event in the list is acknowledged, and then every event was tried |
| VoiceCall.CallController.constructor | src/components/VoiceCall.jsx:6-11 | The controller starts idle, with no connection, stream, offer or alert |
| VoiceCall.CallController.OnOffer | src/components/VoiceCall.jsx:26-38 | A normalisable offer is stored and the status becomes incoming. Anything else changes nothing. The controller invariant holds |
| VoiceCall.CallController.OnAnswer | src/components/VoiceCall.jsx:39-47 | With a connection, an accepted answer makes the call in-call. Without a connection, or with a rejected answer, nothing changes |
| VoiceCall.CallController.StartCall | src/components/VoiceCall.jsx:128-179 | Without a friend or a connected socket nothing happens. Without a microphone the alert is shown and the status goes idle. A failure releases the connection and stream and goes idle. A success holds both, stays calling, and the offer is acknowledged iff some offer event is |
| VoiceCall.CallController.AcceptCall | src/components/VoiceCall.jsx:181-230 | Without a stored offer nothing happens. A failure releases the connection and stream, goes idle and keeps the offer. Without a microphone the alert is shown, the status goes idle and the connection is kept. A success goes in-call, answers the caller and drops the offer |
| VoiceCall.CallController.RejectCall | src/components/VoiceCall.jsx:232-235 | The stored offer is dropped and the status goes idle |
| VoiceCall.CallController.Hangup | src/components/VoiceCall.jsx:237-245 | The connection and stream are released and the status goes idle. The peer is notified exactly when the socket is connected and a friend is selected |

## Left out

- **Features this code does not have are not modelled.** A chat client
  might be expected to offer the following, but this one does not:
  - optimistic sends with temporary ids reconciled against acknowledgements
    and pushes;
  - deduplication of pushed messages;
  - unread counters incremented by pushes and reset on opening a
    conversation;
  - presence flags;
  - sorting by time before grouping by date;
  - deduplicating fetched history.

  Instead, the code appends a pushed message with no duplicate
  check (see `Chat.PushedTwice`), replaces the thread on fetch, takes the
  unread count only from the roster fetch, and groups in arrival order.
- **Socket lifecycle:** `io(...)`, `connect`/`disconnect`, and the
  subscription and unsubscription of handlers are not modelled. A handler is
  modelled as a method called with its payload.
- **Handlers run to completion in one step.** Every asynchronous handler is
  a single method, so nothing interleaves with its awaits. The model
  therefore does not capture these behaviours of the code:
  - a history response for a previously selected friend can overwrite the
    newly selected friend's thread (`src/pages/Chat.jsx:112-139`);
  - text typed while a send is in flight is cleared by the send's
    `setNewMessage("")` (`src/pages/Chat.jsx:168`);
  - `loading` and `messagesLoading` are true while a request is outstanding,
    which the model never shows as a state;
  - an answer or a new offer can arrive during the awaits of `startCall`
    and `acceptCall`.
- `Chat.ChatPage.SelectFriend`: value equality of `Friend` stands in for the
  identity of the roster objects. Those objects are loaded once on mount, so
  clicking the selected entry again passes the very object React already
  holds. Two roster entries with equal fields would be distinct objects in
  the code but are one value here.
- **Stale closures:** `respond` reads the `requests` of the render it was
  created in, and the `newMessage` handler reads the `selectedFriend` of its
  own render. The model reads the current state.
- **Other pages and modules:** the Login, Signup and Add-friends components
  and the configuration module are not part of this model.
- **Unrendered state cells:** the search and success-message cells of the
  chat page are never changed by the modelled code and are not modelled.
- **JSX rendering:** class names, scrolling and `formatTime` are left out.
  `formatDate` is an arbitrary date-label function, because it depends on
  the clock and the locale.
- **WebRTC and media:** `RTCPeerConnection`, `getUserMedia`, device
  enumeration, track handling, remote audio playback and ICE candidate
  exchange (including the `onIce` handler and the fire-and-forget ICE
  emits) are browser calls. Each appears only as whether it succeeds and
  where it fails. The answer payload's conversion into a session
  description is part of this.
- **Offer payload contents:** the fields of the offer and answer payloads
  (`to`, `toSocket`, `fromName`, `sdp`) are not modelled. After an
  unacknowledged offer, the fire-and-forget re-emits are not modelled
  either; the status stays calling, as in the code.
- `VoiceCall.EmitWithAckFallback`: does not model an acknowledgement that
  arrives after its timer has already moved on to the next event name. Each
  emit's outcome is taken as acknowledged in time, timed out, or thrown.
- **Numbers:** JSON numbers are unbounded integers, kept exact and written
  out in full by `String(x)`. JavaScript numbers differ in three ways the
  model does not capture:
  - integers beyond 2^53 are rounded, so distinct large ids can collide;
  - `String(x)` prints magnitudes of 1e21 and above in exponent form, so
    `Num(10^21)` and `Str("1e+21")` share a key in the code but not in the
    model;
  - fractions and `NaN` exist.
- `Js.ToStr`: `String` of any object is `[object Object]`. An object that
  carries its own `toString` field (for example `{"toString": 1}`) makes
  `String` throw a TypeError in the code; the model does not represent that
  throw. This reaches every `String(r.id)` key of the request list and the
  caller id of `normalizeOffer`.
- **Error message text:** a TypeError raised by the engine is represented by
  one non-empty constant message, because its wording is the engine's own.
- `Requests.Inserted`: a null or undefined payload, or a null entry reached
  before a match, makes `String(payload.from)` or the `some` callback throw
  inside the state updater. No `catch` surrounds this. The model keeps the
  list unchanged there rather than modelling React's error handling.
- `Requests.Removed`: on a list that holds a null entry, a `filter` state
  updater throws inside React. The model keeps the list unchanged there
  rather than modelling React's error handling.
- **Console logging** is left out throughout.
