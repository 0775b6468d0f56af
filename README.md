# Auto_task front end: session, realtime and page logic in Dafny

This project models the logic of a React single-page front end that talks
to two backends: AutoTask (trading strategies and a wallet) and CL Tech
(elections and a research console). Most of that logic depends on a
backend tag. The tag is `'AUTOTASK'`, `'CL_TECH'`, or any other string
read back from `localStorage`.

The modules follow the application's files:

| module | file | what it holds |
|---|---|---|
| `Js` | — | JavaScript values, plain objects as records, truthiness, logical or (`a` or else `b`) on strings, object spread and `String.prototype.trim` |
| `Lists` | — | `filter` and `map` on sequences, order-preserving subsequences, and facts about filters |
| `Storage` | — | the two backend tags, the two stored keys, and `localStorage` as a class over a string map |
| `AuthContext` | `src/contexts/AuthContext.jsx` | the session provider as a class; restore, `login` and `logout` each specified by a function on the session value |
| `ProtectedRoute` | `src/components/Auth/ProtectedRoute.jsx` | the guard's decision as a function |
| `Sockets` | `src/services/sockets/index.js` | the two sockets as objects with a connected flag, a multiset of registered handlers and a log of emitted events; `getActiveSocket`, `connectSocket`, `disconnectSocket` |
| `SocketContext` | `src/contexts/SocketContext.jsx` | the realtime provider as a class; each inbound event's updater as a function on the provider's state; handler registration and cleanup; the three emit helpers |
| `Api` | `src/services/api.js` | the two interceptors, as methods on a request config, the store and the location; the endpoint methods, as functions to a `Call` value; path round trips |
| `Strategies` | `src/pages/Strategies.jsx` | realtime merge, optimistic status updates, tab filter and counts as functions; the page state as a class |
| `Chat` | `src/pages/Chat.jsx` | channel visibility, displayed messages, header count, empty state, the send guard and payload; the page state as a class |
| `Navbar` | `src/components/Layout/Navbar.jsx` | the nav item list, its filter, and the order of the backend switch calls |

State that the source changes in place is modelled as classes whose
methods carry `modifies` clauses. Examples are the provider hooks, the
sockets, `localStorage`, the request config and `window.location`.
Each such method's `ensures` gives every field it may change, in terms of
the old state and pure functions of it, and says which state stays as it
was. The properties the application relies on are proved as
lemmas about those functions. Examples:

- a reload after `login` restores the session;
- the chat log is append-only;
- strategy and election paths can be parsed back;
- the running and stopped counts never exceed the total.

Four behaviours of the code a reader might not expect:

- The startup restore trusts the stored token. It does not revalidate it against a profile endpoint, and it installs a fixed placeholder user (`AuthContext.Restored`).
- `login` and `logout` neither open nor close a socket. Connection state changes only through `connectSocket` and `disconnectSocket`, which the modelled code never calls.
- A backend change moves the realtime handlers to the socket the new backend selects, which is the same socket when neither the old nor the new tag is `'CL_TECH'`. It keeps the chat log and the realtime record (`SocketContext.SocketProvider.ChangeBackend`). The chat page hides other backends' messages by filtering on each message's `backend` field (`Chat.DisplayedMessages`).
- A stored backend that is the empty string is falsy, so it is not restored (`AuthContext.RestoreAfterLogin`).

## Model

| member | source | states |
|---|---|---|
| Js.Spread | src/pages/Strategies.jsx:27 | object spread: the keys are the union; each property of the second object wins, and the others keep the first object's value |
| Js.Or | src/pages/Chat.jsx:42 | logical or (`a` or else `b`) on strings gives `a` exactly when `a` is non-empty (or equals `b`), else `b` |
| Js.TrimStartSuffix | src/pages/Chat.jsx:38 | trimming the start drops exactly the leading white space: the result is a suffix, every dropped character is white space, and the result does not start with white space |
| Js.TrimEndPrefix | src/pages/Chat.jsx:38 | trimming the end drops exactly the trailing white space: the result is a prefix, every dropped character is white space, and the result does not end with white space |
| Js.Trim | src/pages/Chat.jsx:38 | `trim()` is no longer than its input, and a non-empty result neither starts nor ends with white space |
| Js.TrimEmptyIff | src/pages/Chat.jsx:38 | `s.trim()` is empty iff every character of `s` is white space |
| Lists.Filter | src/pages/Chat.jsx:24-26 | `filter` returns a list no longer than its input |
| Lists.FilterMembers | src/pages/Chat.jsx:24-26 | `filter` keeps exactly the elements satisfying the predicate |
| Lists.FilterCount | src/pages/Chat.jsx:160-161 | `filter` keeps every occurrence of a matching element and none of a failing one |
| Lists.FilterSubsequence | src/components/Layout/Navbar.jsx:25-27 | `filter` returns an order-preserving subsequence of its input |
| Lists.MapSeq | src/pages/Strategies.jsx:25-29 | `map` keeps the length and applies the function at every index |
| Lists.FilterKeepsAll | src/pages/Strategies.jsx:69-74 | a filter every element passes returns the whole list |
| Lists.FilterAppend | src/pages/Chat.jsx:160-161 | filtering a log that grows at the end gives the old matches followed by the new ones |
| Lists.FilterWeaker | src/pages/Chat.jsx:151 | a weaker predicate keeps at least as many elements |
| Lists.FilterDisjoint | src/pages/Strategies.jsx:129-138 | two exclusive predicates together select at most the whole list |
| Lists.FilterSame | src/pages/Strategies.jsx:69-74 | predicates that agree everywhere select the same list |
| Lists.FilterAfterMap | src/pages/Strategies.jsx:49-51 | a map that never takes an element out of the predicate does not lower the filtered count |
| Storage.WithoutSession | src/contexts/AuthContext.jsx:45-47 | removing the session removes both keys and leaves every other key as it was |
| Storage.WithoutSessionIdempotent | src/services/api.js:42-43 | removing the session keys twice equals removing them once |
| Storage.LocalStorage.GetItem | src/contexts/AuthContext.jsx:20-21 | `getItem` gives the stored value, and `null` exactly when the key is absent |
| Storage.LocalStorage.SetItem | src/contexts/AuthContext.jsx:36-37 | `setItem` writes one key and keeps the rest |
| Storage.LocalStorage.RemoveItem | src/contexts/AuthContext.jsx:46-47 | `removeItem` removes one key and keeps the rest |
| AuthContext.IsAuthenticated | src/contexts/AuthContext.jsx:58 | `!!user`: authenticated exactly when a user object is set; `LoggedIn`, `LoggedOut` and `RestoreAfterLogin` fix its value after a login, a logout and a reload |
| AuthContext.Restored | src/contexts/AuthContext.jsx:18-29 | loading ends in every case; with a truthy token and a truthy backend stored, the placeholder user and the saved backend are installed; otherwise user and backend are kept |
| AuthContext.LoginBackend | src/contexts/AuthContext.jsx:31 | the backend argument defaults to `'AUTOTASK'` |
| AuthContext.LoginItems | src/contexts/AuthContext.jsx:36-37 | after login the store holds `auth_token = 'demo-token'` and `current_backend = b`; other keys are unchanged |
| AuthContext.LoggedIn | src/contexts/AuthContext.jsx:35-39 | after login the session is authenticated as `{email, 'Demo User', type}` on backend `b`; loading is untouched |
| AuthContext.LoggedOut | src/contexts/AuthContext.jsx:45-50 | after logout, from any session, there is no user and the backend is `'AUTOTASK'` |
| AuthContext.LogoutIdempotent | src/contexts/AuthContext.jsx:45-50 | logout twice equals logout once, on the session and on the store |
| AuthContext.RestoreAfterLogin | src/contexts/AuthContext.jsx:18-43 | reloading after login restores an authenticated session on the same backend iff that backend is non-empty, and loading ends |
| AuthContext.RestoreAfterLogout | src/contexts/AuthContext.jsx:18-50 | reloading after logout gives the anonymous session on `'AUTOTASK'`, not loading |
| AuthContext.AuthProvider.constructor | src/contexts/AuthContext.jsx:14-16 | the initial state: no user, `'AUTOTASK'`, loading |
| AuthContext.AuthProvider.Restore | src/contexts/AuthContext.jsx:18-29 | the mount effect moves the provider to `Restored` of its state and the stored items |
| AuthContext.AuthProvider.Login | src/contexts/AuthContext.jsx:31-43 | the store becomes `LoginItems`, the state becomes `LoggedIn`, and the result carries the same user and the demo token |
| AuthContext.AuthProvider.Logout | src/contexts/AuthContext.jsx:45-50 | the store becomes `WithoutSession` and the state becomes `LoggedOut` |
| ProtectedRoute.Decide | src/components/Auth/ProtectedRoute.jsx:5-24 | spinner iff loading; `/` iff loaded without a user; `/dashboard` iff a user, a founder-only route and no founder flag; the children in every other case |
| ProtectedRoute.UnflaggedRouteRenders | src/components/Auth/ProtectedRoute.jsx:5-24 | on a route without `requireFounder`, every logged-in user sees the children |
| ProtectedRoute.GuardAfterRestore | src/components/Auth/ProtectedRoute.jsx:8-24 | after the startup restore the guard sends the visitor to `/` exactly when no session was stored |
| ProtectedRoute.GuardAfterLogout | src/components/Auth/ProtectedRoute.jsx:16-18 | after logout, once loaded, the guard always sends the visitor to `/` |
| Sockets.SocketFor | src/services/sockets/index.js:42-44 | the CL Tech socket iff the tag is `'CL_TECH'`; every other string selects the AutoTask socket |
| Sockets.Socket.constructor | src/services/sockets/index.js:3-18 | a socket made with `autoConnect: false` starts disconnected, with no handlers and no traffic |
| Sockets.Socket.Auth | src/services/sockets/index.js:6-9 | the handshake carries whatever token is stored at that moment, or `null` when there is none |
| Sockets.Socket.Connect | src/services/sockets/index.js:49 | connecting sets the flag and keeps handlers and traffic |
| Sockets.Socket.Disconnect | src/services/sockets/index.js:54 | disconnecting clears the flag and keeps handlers and traffic |
| Sockets.Socket.On | src/contexts/SocketContext.jsx:66-72 | `on` adds one handler for the event |
| Sockets.Socket.Off | src/contexts/SocketContext.jsx:75-81 | `off` removes one handler for the event |
| Sockets.Socket.Emit | src/contexts/SocketContext.jsx:87 | `emit` appends the event and its payload to the outbound traffic |
| Sockets.SocketRegistry.constructor | src/services/sockets/index.js:3-18 | two distinct sockets that both read the one `localStorage` for their handshake token, both disconnected, without handlers or traffic |
| Sockets.SocketRegistry.ConnectSocket | src/services/sockets/index.js:47-50 | only the selected socket becomes connected; the other is unchanged |
| Sockets.SocketRegistry.DisconnectSocket | src/services/sockets/index.js:52-55 | only the selected socket becomes disconnected; the other is unchanged |
| SocketContext.EventNameHandled | src/contexts/SocketContext.jsx:66-72 | every inbound event kind has a handler registered under its name |
| SocketContext.EventNamesDistinct | src/contexts/SocketContext.jsx:66-72 | two events share a name iff they are of the same kind |
| SocketContext.AppendMessage | src/contexts/SocketContext.jsx:34-36 | the new message goes at the end; earlier messages keep their order; the length grows by one |
| SocketContext.PutStrategy | src/contexts/SocketContext.jsx:38-43 | the update is stored under its own id; other ids and the other slots keep their values |
| SocketContext.Apply | src/contexts/SocketContext.jsx:24-64 | `connect`/`disconnect` set the flag; `new-message` appends; `strategy-update` stores the payload under its id as `PutStrategy` does; `wallet-update`, `election-update` and `system-update` put the payload in their slot; each slot changes only on its own event |
| SocketContext.ApplyAll | src/contexts/SocketContext.jsx:24-64 | the provider's state after a run of events: each updater applied in arrival order; its contents are fixed by `ApplyAllLast`, `ChatLogAppendOnly` and `LastConnectionEventWins` |
| SocketContext.ApplyAllLast | src/contexts/SocketContext.jsx:24-64 | the last event to arrive is applied to the state the earlier ones left |
| SocketContext.ChatLogAppendOnly | src/contexts/SocketContext.jsx:34-36 | after any run of events the log is the old log followed by the chat payloads in arrival order |
| SocketContext.LastConnectionEventWins | src/contexts/SocketContext.jsx:24-32 | after a run of events the connected flag is set by the last `connect` or `disconnect` |
| SocketContext.NoConnectionEvents | src/contexts/SocketContext.jsx:24-32 | a run of events without connection events leaves the flag unchanged |
| SocketContext.StrategyPayload | src/contexts/SocketContext.jsx:92 | the payload `{ strategyId }` has the id as its only property |
| SocketContext.SocketProvider.constructor | src/contexts/SocketContext.jsx:15-72 | the initial state is disconnected, with no messages and an empty record; the seven handlers are registered on the active socket only |
| SocketContext.SocketProvider.Subscribe | src/contexts/SocketContext.jsx:66-72 | the effect registers exactly the seven handlers |
| SocketContext.SocketProvider.Unsubscribe | src/contexts/SocketContext.jsx:74-82 | the cleanup removes exactly the seven handlers that were registered |
| SocketContext.SocketProvider.ChangeBackend | src/contexts/SocketContext.jsx:21-83 | a backend change moves the handlers to the newly selected socket; messages, record and flag are kept, and no socket connects, disconnects or emits |
| SocketContext.SocketProvider.Resubscribe | src/contexts/SocketContext.jsx:74-83 | the cleanup on the old socket followed by the registration on the new one leaves the seven handlers on the new socket only, with no change to any connected flag or outbound traffic |
| SocketContext.SocketProvider.Receive | src/contexts/SocketContext.jsx:21-72 | an event from the active socket applies its updater; an event from the other socket changes nothing |
| SocketContext.SocketProvider.Update | src/contexts/SocketContext.jsx:24-64 | a handler's updater moves the state hooks to `Apply` of their values and the event |
| SocketContext.SocketProvider.SendMessage | src/contexts/SocketContext.jsx:85-88 | `send-message` with the given payload is emitted on the active socket; the other socket is unchanged |
| SocketContext.SocketProvider.StartStrategy | src/contexts/SocketContext.jsx:90-93 | `start-strategy` with `{ strategyId }` is emitted on the active socket only |
| SocketContext.SocketProvider.StopStrategy | src/contexts/SocketContext.jsx:95-98 | `stop-strategy` with `{ strategyId }` is emitted on the active socket only |
| Api.WithBearer | src/services/api.js:30-36 | with a truthy stored token `Authorization` becomes `Bearer <token>` and no other header changes; otherwise the headers are unchanged |
| Api.BearerCarriesToken | src/services/api.js:33 | the header value reads back as exactly the stored token |
| Api.NoBearerWithoutSession | src/services/api.js:30-35 | after logout or a 401 no request carries an `Authorization` header it did not already have |
| Api.BearerAfterLogin | src/services/api.js:30-35 | after login every request carries the demo token |
| Api.RequestInterceptor | src/services/api.js:30-36 | the interceptor edits the config's headers in place as `WithBearer` says and returns the same config |
| Api.ResponseInterceptor | src/services/api.js:38-48 | a 401 error clears both session keys and sets the location to `/`; other errors and successes leave store and location alone; the outcome is passed on unchanged |
| Api.AuthCall | src/services/api.js:53-58 | the auth methods go through the instance they belong to |
| Api.ClTechCall | src/services/api.js:52-79 | every `clTech.*` method goes through the CL Tech instance |
| Api.AutoTaskCall | src/services/api.js:82-106 | every `autoTask.*` method goes through the AutoTask instance |
| Api.StrategyPathRoundTrip | src/services/api.js:92-94 | the id (unencoded) and the action can be read back from every run/stop/stats path string |
| Api.ElectionPathRoundTrip | src/services/api.js:66-67 | the country (unencoded) and the action can be read back from every election path string |
| Api.EarningsPathRoundTrip | src/services/api.js:104 | the path is the earnings prefix followed by the period, unencoded |
| Strategies.MergeUpdates | src/pages/Strategies.jsx:22-32 | the merge keeps length and order; an entry with an update has exactly the union of both key sets, takes each field of the update and keeps its others; an entry without one is unchanged |
| Strategies.SetStatus | src/pages/Strategies.jsx:49-51 | exactly the entries with the id get the new status, with every other field kept; every other entry is unchanged |
| Strategies.SetStatusIdempotent | src/pages/Strategies.jsx:61-63 | repeating an optimistic update changes nothing more |
| Strategies.StartKeepsRunning | src/pages/Strategies.jsx:49-51 | starting a strategy never lowers the running count |
| Strategies.FilteredStrategies | src/pages/Strategies.jsx:69-74 | `'all'` and unknown tabs give the whole list; `'running'`/`'stopped'` keep exactly that status; always an order-preserving subsequence |
| Strategies.RunningCount | src/pages/Strategies.jsx:131 | the running count never exceeds the number of strategies |
| Strategies.StoppedCount | src/pages/Strategies.jsx:137 | the stopped count never exceeds the number of strategies |
| Strategies.CountsWithinTotal | src/pages/Strategies.jsx:126-138 | running plus stopped is at most the total |
| Strategies.RunningTabMatchesCount | src/pages/Strategies.jsx:129-138 | the running and stopped tabs show as many cards as the matching counts |
| Strategies.PageView | src/pages/Strategies.jsx:76-101 | the notice iff the backend is not `'AUTOTASK'`; the spinner iff AutoTask and loading; else exactly the tab's filtered list, `FilteredStrategies`, with the empty state iff it is empty |
| Strategies.StrategiesPage.constructor | src/pages/Strategies.jsx:12-14 | the page starts with no strategies, loading, tab `'all'` |
| Strategies.StrategiesPage.LoadStrategies | src/pages/Strategies.jsx:34-43 | a missing list loads as empty, a failure keeps the list, and loading ends either way |
| Strategies.StrategiesPage.OnBackend | src/pages/Strategies.jsx:16-20 | data is loaded only on `'AUTOTASK'` |
| Strategies.StrategiesPage.OnRealtimeStrategies | src/pages/Strategies.jsx:22-32 | when the `strategies` slot is present the list becomes its merge |
| Strategies.StrategiesPage.HandleStartStrategy | src/pages/Strategies.jsx:45-55 | on success the matching entries become running; if the call throws the list is unchanged |
| Strategies.StrategiesPage.HandleStopStrategy | src/pages/Strategies.jsx:57-67 | on success the matching entries become stopped; if the call throws the list is unchanged |
| Strategies.StrategiesPage.SelectTab | src/pages/Strategies.jsx:157 | choosing a tab changes only the tab |
| Chat.FilteredChannels | src/pages/Chat.jsx:24-26 | the channel list is an order-preserving subsequence of the declared channels; the three lemmas below give it for each backend |
| Chat.ChannelsOnAutoTask | src/pages/Chat.jsx:16-26 | on `'AUTOTASK'` the channels are general, trading, support |
| Chat.ChannelsOnClTech | src/pages/Chat.jsx:16-26 | on `'CL_TECH'` the channels are general, support, elections, admin |
| Chat.ChannelsOnOtherBackend | src/pages/Chat.jsx:16-26 | on any other tag only general and support are shown |
| Chat.DisplayedMessages | src/pages/Chat.jsx:160-161 | exactly the messages of the active channel and the current backend, every occurrence of each, as an order-preserving subsequence of the log |
| Chat.HeaderCount | src/pages/Chat.jsx:151 | the header count, by channel only, never exceeds the length of the log |
| Chat.HeaderCountCoversDisplayed | src/pages/Chat.jsx:151 | the header count, filtered by channel only, is at least the number of displayed messages |
| Chat.ShowsEmptyState | src/pages/Chat.jsx:200 | the empty state shows iff no message of the log is in the active channel and on the current backend |
| Chat.MessagePayload | src/pages/Chat.jsx:39-45 | the payload object `handleSendMessage` builds; `PayloadFields` states its fields |
| Chat.PayloadFields | src/pages/Chat.jsx:39-45 | the payload has exactly text, channel, user, timestamp and backend, with `user` the name when non-empty, else the email |
| Chat.CanSend | src/pages/Chat.jsx:38 | the send guard `message.trim() && isConnected`; `CanSendIff` states when it holds |
| Chat.CanSendIff | src/pages/Chat.jsx:38 | a message is sent iff the socket is connected and the text holds a character that is not white space |
| Chat.EchoedMessageDisplayed | src/pages/Chat.jsx:160-161 | a sent payload echoed back as `new-message` appears last among the displayed messages of its channel and backend |
| Chat.ChatPage.constructor | src/pages/Chat.jsx:11-13 | the input starts empty on channel `general` |
| Chat.ChatPage.SelectChannel | src/pages/Chat.jsx:93 | choosing a channel keeps the input text |
| Chat.ChatPage.HandleSendMessage | src/pages/Chat.jsx:36-48 | when the guard holds, the payload goes out on the active socket and the input is cleared; otherwise nothing is emitted and the input is kept; the connected flags and the other socket are unchanged either way |
| Navbar.BuildNavItems | src/components/Layout/Navbar.jsx:13-23 | five fixed items, with the CL Tech item pushed iff the backend is `'CL_TECH'` and the user is a founder |
| Navbar.FilteredNavItems | src/components/Layout/Navbar.jsx:11-27 | nothing is rendered iff the path is `/`; otherwise an order-preserving subsequence of the built list |
| Navbar.ItemsShown | src/components/Layout/Navbar.jsx:13-27 | Dashboard, Chat and Settings always appear; Wallet and Strategies appear iff `'AUTOTASK'`; CL Tech appears iff `'CL_TECH'` and founder |
| Navbar.BackendSwitchEffects | src/components/Layout/Navbar.jsx:29-32 | exactly two calls, `switchBackend` then navigation to `/dashboard`, when `switchBackend` returns; only the first when it throws |

## Left out

- Network and timing: real HTTP, the socket.io transport, the one-second timer in `login`, and `console` logging. Each awaited call is one atomic step that succeeds or throws, and its outcome is a parameter (`started`, `stopped`, `ListResponse`, `Settled`).
- socket.io's own `connect`/`disconnect`/`error` logging handlers (src/services/sockets/index.js:21-37). They only log. The `listeners` multiset counts only the provider's handlers.
- Handler identity: `on`/`off` are counted by event name. Two handlers for the same name are not told apart.
- `new Date().toISOString()` in the chat payload: the timestamp is a parameter.
- Values: numbers are integers, and nested objects are not modelled. Record keys are strings. Strategy ids are JSON values compared without coercion to strings, so `1` and `"1"` are distinct ids here, although they name the same property in JavaScript.
- URL encoding and URL parsing: `${id}`, `${country}` and `${period}` are interpolated without encoding (src/services/api.js:66-67, 92-94, 104), and the round trips are about path strings. A server that splits the URL on `/`, `?`, `&`, `#` or `+` can read a different id, country or period.
- The backend configuration objects and base URLs (src/services/api.js:4-26). `Api.Call` records only the instance, verb, path and body.
- src/services/api.js:29: line 26 has no semicolon after it, so this line continues the previous statement. It indexes into `axios.create(...)` and reads `autoTaskAPI` inside its own initializer, so the module throws at load. The interceptors are modelled as the comment on line 28 intends, installed on both instances.
- src/contexts/SocketContext.jsx:3 imports `../services/socket`, which does not exist. The model wires the provider to the sockets of src/services/sockets/index.js.
- `switchBackend`, `BACKENDS` and `isFounder`: the session provider does not export them (src/contexts/AuthContext.jsx:52-59), so all three are `undefined` where they are read.
- Navbar.FilteredNavItems: states which items the bar would list. As wired the bar never lists them: on every path except `/` it reads `BACKENDS[currentBackend].name` (src/components/Layout/Navbar.jsx:49) with `BACKENDS` undefined, so rendering throws.
- ProtectedRoute.Decide: takes `isFounder` as an input. As wired it is `undefined`, so founder-only routes send every user to `/dashboard`.
- Navbar.BackendSwitchEffects: takes whether `switchBackend` threw as an input. As wired it is `undefined` and throws, so the navigation never happens.
- Navbar.ItemsShown: takes `isFounder` as an input, for the same reason.
- Password checking and the `register` flow: `login` ignores its password, and `register` is not part of the session provider.
- The pages with only display logic: Settings, Splash, Dashboard, Wallet, CLTechConsole and App. Wallet's balance reads the `wallet` slot modelled in `SocketContext`. src/pages/Settings.jsx:81 uses `AnimatePresence` without importing it.
- JSX markup, animations, scrolling, date and number formatting, and the CSS class lookups.
- Async interleaving: responses arriving after unmount and overlapping effects.
