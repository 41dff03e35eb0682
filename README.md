# Chat core of a patient/doctor messaging front end, in Dafny

This project models the in-memory chat core of a React front end in which patients and
doctors exchange messages. There are three parts.

- **The mock socket** (`MockSocketConnection`). It has a registry of named-event listeners
  (`on`, `off`, `emit`), a connection state (`connected`, `userId`) set by `connect` and
  `disconnect`, and a `sendMessage` whose timers first emit the completed message as
  `new_message`. A later timer may add a synthetic reply taken from a fixed 7-entry catalogue.
- **The socket provider.** It opens one socket for the signed-in user and registers handlers
  for `connected`, `disconnected` and `new_message`. It keeps the append-only message log that
  the `new_message` handler feeds, and its `sendMessage` wrapper always sends as the signed-in
  user.
- **The two consumers of the log.** The chat window shows the conversation with one partner
  and sends non-blank input. The doctor's dashboard lists the distinct senders who wrote to
  the doctor, and picks an "urgent" and a "new" sublist by index.

Modelling choices:

- Callbacks are opaque ids, so `cb !== callback` becomes id inequality.
- `emit` returns the ordered calls `callback(data)` that `forEach` makes.
- Every `setTimeout` becomes a `Task` in the socket's `pending` sequence. `Fire(k, env)` runs
  any pending timer. The pure function `RunTask` says what a timer body does, given the
  current `userId`.
- `Math.random()` and `new Date().toISOString()` become an `Ambient` value passed in by the
  caller: an id suffix, a timestamp and a real number in [0, 1).
- The provider is one run of its effect. `owner` is the user the socket was opened for, and
  `socket` is fixed once the provider is built. `user` is the current `authState.user?.id`.
  `SignOut` sets it to nothing, and the old socket is kept because nothing calls
  `setSocket(null)`. `Tick` fires one of the socket's timers and runs the handlers that its
  emission reaches.
- The chat window's `partner` is a prop that can change under the same component, because
  the dashboard renders the window without a `key`. `SetPartner` models that.

What the model proves about the code as written:

- `connect` sets `connected` at once. The `connected` event comes only when the handshake
  timer fires, and that timer fires even after `disconnect`.
- `disconnect` clears `connected` and `userId` only. Listeners and pending timers stay, so a
  message sent just before cleanup still reaches the log (`DeliveredAfterCleanup`).
- No timer ever emits `disconnected`.
- The reply guard needs `senderId != userId` and `receiverId == userId`. The provider sends
  every message as its own user, who is also the socket's user until cleanup, and `userId`
  is null after cleanup. So through the provider no reply is ever produced. The provider's
  invariant `Valid()` says every logged message was sent by the socket's owner.
  `PatientSendsOneMessage` ends with exactly one message in the conversation, not two.
- It follows that a doctor's dashboard, fed by the doctor's own log, lists no one but the
  doctor (`OwnLogListsNoOtherPatient`).
- The socket does no validation: no empty-body check and no not-connected error. The only
  blank-input check is the chat window's `trim` guard.

Four things the code does not do:

- `disconnect` cancels no timers and removes no listeners.
- `sendMessage` does not reject empty bodies or sends made while disconnected.
- A repeated `connect` starts a second handshake instead of reusing the session.
- Nothing filters the doctor list on availability.

## Model

| member | source | states |
|---|---|---|
| `SocketContext.MockSocketConnection.constructor` | src/context/SocketContext.jsx:6-11 | a new socket has no listeners, is not connected, has no user and no timers |
| `SocketContext.MockSocketConnection.Connect` | src/context/SocketContext.jsx:13-24 | `connected` and `userId` are set at once; exactly one handshake timer carrying the given id is added; listeners unchanged; returns the same object |
| `SocketContext.MockSocketConnection.Disconnect` | src/context/SocketContext.jsx:26-31 | clears `connected` and `userId` and leaves listeners and pending timers untouched; the new state does not depend on the old connection state, so a second call changes nothing |
| `SocketContext.MockSocketConnection.On` | src/context/SocketContext.jsx:33-39 | the callback is appended to the end of the event's list, which is created if absent; every other entry and the rest of the state are unchanged |
| `SocketContext.MockSocketConnection.Off` | src/context/SocketContext.jsx:41-50 | without a callback the event's entry is removed; with one the list is replaced by the list without that callback; an absent event leaves the registry unchanged; other events are untouched |
| `SocketContext.WithoutExact` | src/context/SocketContext.jsx:44-47 | filtering out a callback removes every occurrence of it, keeps every other callback with its multiplicity, and keeps the survivors in order (a subsequence) |
| `SocketContext.MockSocketConnection.Emit` | src/context/SocketContext.jsx:52-57 | the calls made are exactly the listeners registered for the event, in registration order, each with the same data; none if the event has no entry; nothing is modified |
| `SocketContext.MockSocketConnection.SendMessage` | src/context/SocketContext.jsx:59-60 | only adds the send timer for the message; no validation, no connection check, nothing else changes |
| `SocketContext.MockSocketConnection.IsConnected` | src/context/SocketContext.jsx:103-105 | returns the `connected` field, which `connect` sets before the `connected` event |
| `SocketContext.MockSocketConnection.Fire` | src/context/SocketContext.jsx:19-87 | firing timer `k` removes it, adds what its body schedules, runs its body (the handshake at 19-21, the send and reply steps at 60-87) against the current `userId`, and returns the calls its emission makes against the unchanged registry |
| `SocketContext.RunTask` | src/context/SocketContext.jsx:19-87 | no timer emits `disconnected`; the handshake timer (19-21) emits `connected` with the `{userId}` given to `connect`, and schedules nothing; the send step emits `new_message` once, keeping sender, receiver and body, adding `msg_`+suffix id, the timestamp and `read = false`, and sets the reply timer; the reply step emits iff the guard holds, and then a message with sender and receiver swapped, `read = false` and a body from the catalogue |
| `SocketContext.ReplyOnlyForIncoming` | src/context/SocketContext.jsx:72-75 | a reply is emitted exactly when the socket has a user, the draft is addressed to that user, and it was not sent by that user |
| `SocketContext.ResponseIndex` | src/context/SocketContext.jsx:100 | `floor(r * 7)` for `r` in [0, 1) is a valid index, in [0, 7), into the 7-string catalogue |
| `SocketContext.GenerateResponse` | src/context/SocketContext.jsx:90-101 | the reply body is a member of the catalogue |
| `SocketContext.ProviderHandles` | src/context/SocketContext.jsx:122-181 | against the provider's registry, `new_message` appends its message at the end of the log and keeps the prefix; `connected` sets the connected flag; `disconnected` clears it; an event with no handler changes nothing |
| `SocketContext.SocketProvider.constructor` | src/context/SocketContext.jsx:117-181 | with an authenticated user a fresh socket is connected for that user's id, with the three handlers registered (one per event) and only the handshake pending; otherwise there is no socket; the log starts empty and the provider starts disconnected |
| `SocketContext.SocketProvider.SendMessage` | src/context/SocketContext.jsx:189-198 | without a socket nothing happens; with a socket but no user (after sign-out) the socket's timers are unchanged; otherwise exactly one send timer is added for `(user.id, receiverId, message)`; the invariant is kept |
| `SocketContext.SocketProvider.SignOut` | src/context/SocketContext.jsx:183-187 | with the user gone the cleanup disconnects the socket, its timers and listeners stay, the provider keeps the old socket, the log and the flag, and the invariant is kept |
| `SocketContext.SendAfterSignOutIsDropped` | src/context/SocketContext.jsx:190 | after sign-out the provider still holds a socket, yet a send adds no timer: only the `authState.user` test stops it |
| `SocketContext.SocketProvider.Cleanup` | src/context/SocketContext.jsx:183-185 | the socket is disconnected; its timers survive; the invariant is kept |
| `SocketContext.SocketProvider.Dispatch` | src/context/SocketContext.jsx:54 | running the calls of one emission applies each handler's effect in order |
| `SocketContext.SocketProvider.Tick` | src/context/SocketContext.jsx:178-181 | a fired send step appends exactly the completed message to the log; a reply step changes neither the log nor the flag; the handshake sets the connected flag; the invariant is kept, so every logged message has the signed-in user as sender |
| `SocketContext.DeliveredAfterCleanup` | src/context/SocketContext.jsx:26-31 | after sending and then cleaning up, the pending timers still fire: the log holds the message, and the provider is marked connected while the socket is not |
| `ChatWindow.ConversationMessages` | src/components/chat/ChatWindow.jsx:17-20 | a message is in the conversation iff it is in the log and its (sender, receiver) is (self, partner) or (partner, self) |
| `ChatWindow.ConversationIsSubsequence` | src/components/chat/ChatWindow.jsx:17-20 | the conversation is a subsequence of the log: order kept, never longer |
| `ChatWindow.ConversationSymmetric` | src/components/chat/ChatWindow.jsx:17-20 | swapping self and partner yields the same sequence |
| `ChatWindow.ConversationWithoutUser` | src/components/chat/ChatWindow.jsx:18-19 | with no signed-in user (`authState.user?.id` undefined) the conversation is empty |
| `ChatWindow.ConversationAppend` | src/components/chat/ChatWindow.jsx:17-20 | appending a message to the log extends the conversation by that message exactly when it is between the two parties |
| `ChatWindow.DeliveredMessageJoinsConversation` | src/components/chat/ChatWindow.jsx:17-20 | a delivered send appears once, last, in the sender's conversation with the receiver and in the receiver's with the sender |
| `ChatWindow.TrimStart` | src/components/chat/ChatWindow.jsx:30 | the result is a suffix of the input, everything removed is white space, and it does not start with white space |
| `ChatWindow.TrimEnd` | src/components/chat/ChatWindow.jsx:30 | the result is a prefix of the input, everything removed is white space, and it does not end with white space |
| `ChatWindow.TrimEmptyIff` | src/components/chat/ChatWindow.jsx:30 | `trim()` yields the empty string iff every character of the input is JavaScript white space or a line terminator |
| `ChatWindow.ChatWindow.constructor` | src/components/chat/ChatWindow.jsx:14 | the input starts empty |
| `ChatWindow.ChatWindow.OnInputChange` | src/components/chat/ChatWindow.jsx:69 | the input holds what was typed; the partner is unchanged |
| `ChatWindow.ChatWindow.SetPartner` | src/pages/DoctorDashboard.jsx:185-186 | a new `partner` prop on the same component replaces the partner and keeps the typed draft |
| `ChatWindow.ChatWindow.HandleSendMessage` | src/components/chat/ChatWindow.jsx:28-34 | blank input sends nothing and stays as it was; otherwise exactly one send of the untrimmed input to the partner is scheduled through the provider, and the input becomes `''` |
| `ChatWindow.DraftFollowsNewPartner` | src/components/chat/ChatWindow.jsx:14-34 | a draft typed with one patient selected, then sent after another is picked, is sent to the patient picked last, and the input is cleared |
| `ChatWindow.PatientSendsOneMessage` | src/components/chat/ChatWindow.jsx:28-34 | a signed-in patient sends one non-blank text; after the handshake, send and reply timers have fired, the conversation is exactly the patient's message, with no synthetic reply |
| `DoctorDashboard.NoUserNoPatients` | src/pages/DoctorDashboard.jsx:31 | with no signed-in user the list is empty |
| `DoctorDashboard.PatientIdsAreSenders` | src/pages/DoctorDashboard.jsx:34-39 | an id is listed iff some message in the log is addressed to the doctor and sent from it |
| `DoctorDashboard.PatientIdsInFirstOccurrenceOrder` | src/pages/DoctorDashboard.jsx:39 | the ids have no duplicates and appear in the order of their first occurrence among the senders of incoming messages |
| `DoctorDashboard.ShortId` | src/pages/DoctorDashboard.jsx:44 | `id.substring(0, 5)` is the prefix of the id with length min(5, length of id) |
| `DoctorDashboard.PatientRecordsShape` | src/pages/DoctorDashboard.jsx:42-49 | one record per patient id, in id order; each carries its id, `role = 'patient'`, and name, username and email built from the id's five-character prefix |
| `DoctorDashboard.PatientsDistinct` | src/pages/DoctorDashboard.jsx:39-49 | no two records are equal |
| `DoctorDashboard.UrgentPatientsExact` | src/pages/DoctorDashboard.jsx:53-55 | `urgentPatients` picks the patients at exactly the indices `i` with `i % 3 == 0`, in increasing order |
| `DoctorDashboard.NewPatientsExact` | src/pages/DoctorDashboard.jsx:57-59 | `newPatients` picks the patients at exactly the indices `i` with `i % 2 == 0 && i % 3 != 0`, in increasing order |
| `DoctorDashboard.UrgentAndNewDisjoint` | src/pages/DoctorDashboard.jsx:53-59 | both sublists are subsequences of `patients` and no patient is in both |
| `DoctorDashboard.OwnLogListsNoOtherPatient` | src/pages/DoctorDashboard.jsx:34-39 | if the doctor sent every message in the log, as in the provider's own log, then no id other than the doctor's is listed |
| `Seqs.Distinct` | src/pages/DoctorDashboard.jsx:39 | `[...new Set(s)]` holds exactly the elements of `s`, without duplicates |
| `Seqs.DistinctFirstOccurrence` | src/pages/DoctorDashboard.jsx:39 | `[...new Set(s)]` lists its elements in the order of their first occurrence in `s` |
| `Seqs.FilterByIndexPicks` | src/pages/DoctorDashboard.jsx:54 | `s.filter((_, i) => keep(i))` is the elements of `s` at the kept indices, ascending |

## Left out

- src/App.jsx and src/context/AuthContext.jsx are not part of this model. The signed-in user
  is an input: an authenticated flag and an optional user id.
- JSX rendering, the scroll effect, the dashboard's redirects, `e.preventDefault()`, the send
  button's `disabled` state and all `console.log` output are left out. None of them changes
  the model's state.
- Real timer delays are left out: 500 ms for the handshake and the send step, 5 to 10 s for
  the reply step. `Fire` may run any pending timer next, which allows every order the delays
  would allow and some orders they would not.
- Message ids and timestamps are given by the caller, so their uniqueness is not claimed.
  Each record's `createdAt` on the dashboard is one value shared by the whole list.
- `SocketContext.ResponseIndex` computes on exact reals, not on doubles. Floating-point
  rounding of `Math.random() * 7` is not modelled.
- The provider's `availableDoctors` list is left out. It is hard-coded seed data, set by the
  `connected` handler for patients, and nothing in the core reads it.
- The provider is modelled for one run of its effect, and for sign-out, after which no new
  socket is opened. When another user signs in, React keeps the `messages` state, cleans up
  the old socket, whose timers may still fire, and opens a new one. That sequence is not
  modelled.
- `useSocket` throwing outside a provider is left out, because the error belongs to React
  context plumbing.
- Only `connect` models the `return this` used for chaining. `on`, `off`, `emit` and
  `disconnect` also return `this`, but no caller uses the returned value.
- A listener that throws stops `forEach` in JavaScript. Callbacks are opaque ids here, so this
  is not modelled. The provider's handlers do not throw.
- Listener keys are plain JavaScript object properties. An event name that collides with an
  `Object.prototype` member, such as `toString`, would behave differently. The model treats
  every name as an ordinary key, and the code uses only three fixed names.
- JavaScript strings are UTF-16, but these strings are sequences of Unicode scalar values.
  Only `substring(0, 5)` can differ, by splitting a surrogate pair. Every character `trim`
  removes lies in the Basic Multilingual Plane, so `Trim` agrees with the source on every string.
- In `SocketContext.Handle`, a `new_message` call whose data is not a message leaves the log
  unchanged. This never happens, because only timer bodies emit `new_message`, and they
  always send a message.
