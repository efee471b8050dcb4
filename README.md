# Session and presence store of the OsekChat client

This project models the chat client's authentication store
(`frontend/src/store/useAuthStore.js`). The store holds a small session and
presence state:

- the authenticated user, or none;
- three in-flight flags (`isSigningUp`, `isLoggingIn`, `isUpdatingProfile`);
- the readiness flag `isCheckingAuth`;
- the roster of online user ids;
- at most one real-time socket.

It has five request-driven operations: `checkAuth`, `signup`, `login`,
`logout` and `updateProfile`. It also has `connectSocket` and
`disconnectSocket`, and a `getOnlineUsers` listener that each new socket
registers.

The project has three modules:

- `Session` (session.dfy) gives the store state as a value, with one
  transition function per operation. The function's `ensures` clauses state
  what the operation promises: which flag is raised while the request is in
  flight and cleared afterwards, what happens to the identity on success and
  on failure, exactly which notification is shown, and when a connection is
  created.
- `Store` (auth_store.dfy) is the store as a class. It has the same fields,
  and its methods update them one assignment at a time in the order the
  JavaScript does. Each method is proved to produce the new state that the
  matching `Session` function gives.
- `Traces` (traces.dfy) covers arbitrary sequences of operations and socket
  events. It proves by induction the properties that hold along every such
  sequence: flags are released; the roster is the last one delivered; there
  is no second connection while one is live; readiness is cleared by the
  first identity check and never raised again.

External calls are modelled as inputs or logs:

- Each HTTP request is an input `Response`: `Ok(body)` or `Err(message)`,
  where `message` is the server's message.
- The requests sent are kept in a `requests` log. Each entry holds the path
  label, the body and the store's flags at the moment of sending. This log
  is how "the flag is true while the request is in flight" is stated.
- The notifications shown are kept in a `toasts` log.
- The userIds handed to the connection factory are kept in a `connections`
  log.

Some behaviours of the code are worth stating plainly:

- `isCheckingAuth` starts `true` and is only ever cleared, never raised. It
  means "the identity check is still pending".
- `logout` clears the identity and disconnects, but it keeps the
  disconnected socket object in `socket`. It does not clear the roster.
- A live connection can exist with no identity. A failed `checkAuth` sets
  the identity to null but leaves the socket connected
  (`Traces.FailedCheckKeepsConnection`). `Traces.RunLiveNeedsIdentity` shows
  that this is the only way it happens.
- `connectSocket` checks only whether the socket is connected, not whose
  socket it is. So a login while connected keeps the old socket and its
  `userId` (`Session.Login`, via `OpensPresence`).

## Model

| member | source | states |
|---|---|---|
| Store.AuthStore.constructor | frontend/src/store/useAuthStore.js:9-15 | The new store is in the state `Session.Initial()`: no user, `isCheckingAuth` true, the other three flags false, an empty roster, no socket and empty logs. |
| Session.ConnectSocket | frontend/src/store/useAuthStore.js:85-96 | With no identity, or while the current socket is connected, nothing changes. Otherwise exactly one connection is created, keyed to `authUser._id`, and a new connected socket replaces the previous (disconnected) one. Only the socket and the connection log change. |
| Session.DisconnectSocket | frontend/src/store/useAuthStore.js:103-105 | Afterwards no connection is live. No connection is created. The socket is kept with its `userId` and is not set to null. A socket that was not connected is untouched. Nothing other than the socket changes, so the roster is kept. |
| Session.OnOnlineUsers | frontend/src/store/useAuthStore.js:98-100 | The roster becomes exactly the delivered sequence. Nothing else changes. |
| Session.CheckAuth | frontend/src/store/useAuthStore.js:17-29 | `isCheckingAuth` is false afterwards and no other flag changes. The request is made with the flags as they were, because `checkAuth` never raises a flag. No notification is shown on either outcome. On success the returned user is stored and a connection is live (opened for that user if none was). On failure the identity becomes null and the socket is untouched. |
| Session.Signup | frontend/src/store/useAuthStore.js:31-43 | The request is sent with `isSigningUp` true. Afterwards `isSigningUp` is false and no other flag changes. On success the returned user is stored, the success notification is shown and a connection is live (opened for that user if none was). On failure the identity and the socket are unchanged and exactly one error notification with the server's message is shown. |
| Session.Login | frontend/src/store/useAuthStore.js:45-58 | The same as `signup`, with `isLoggingIn` and its own success text. |
| Session.Logout | frontend/src/store/useAuthStore.js:60-69 | No flag changes. On success the identity becomes null, the logout notification is shown and the socket is disconnected but kept. On failure the identity and the socket are unchanged and exactly one error notification with the server's message is shown. The roster is never touched. |
| Session.UpdateProfile | frontend/src/store/useAuthStore.js:71-83 | The request is sent with `isUpdatingProfile` true. Afterwards `isUpdatingProfile` is false and no other flag changes. The socket and the connection log are never touched. On success the returned user is stored and the success notification is shown. On failure the identity is unchanged and exactly one error notification with the server's message is shown. |
| Store.AuthStore.CheckAuth | frontend/src/store/useAuthStore.js:17-29 | The step-by-step update leaves the store in the state `Session.CheckAuth` gives for the old state and the response. |
| Store.AuthStore.Signup | frontend/src/store/useAuthStore.js:31-43 | The step-by-step update leaves the store in the state `Session.Signup` gives. |
| Store.AuthStore.Login | frontend/src/store/useAuthStore.js:45-58 | The step-by-step update leaves the store in the state `Session.Login` gives. |
| Store.AuthStore.Logout | frontend/src/store/useAuthStore.js:60-69 | The step-by-step update leaves the store in the state `Session.Logout` gives. |
| Store.AuthStore.UpdateProfile | frontend/src/store/useAuthStore.js:71-83 | The step-by-step update leaves the store in the state `Session.UpdateProfile` gives. |
| Store.AuthStore.ConnectSocket | frontend/src/store/useAuthStore.js:85-96 | The guarded update leaves the store in the state `Session.ConnectSocket` gives. |
| Store.AuthStore.DisconnectSocket | frontend/src/store/useAuthStore.js:103-105 | The guarded in-place disconnect leaves the store in the state `Session.DisconnectSocket` gives. |
| Store.AuthStore.OnOnlineUsers | frontend/src/store/useAuthStore.js:98-100 | The listener leaves the store in the state `Session.OnOnlineUsers` gives. |
| Store.LoginThenRoster | frontend/src/store/useAuthStore.js:45-58 | In a fresh store, an accepted login followed by one roster delivery gives: the user stored, exactly one connection keyed to the user's id and live, the delivered roster, `isLoggingIn` released and `isCheckingAuth` still set. |
| Traces.RunConsistent | frontend/src/store/useAuthStore.js:31-96 | Every sequence of operations and events keeps two facts. First, no signup, login or profile flag is left raised. Second, a socket is held exactly when a connection has been created, and its `userId` is the one handed to the last connection created. |
| Traces.ReachableConsistent | frontend/src/store/useAuthStore.js:9-15 | Those two facts hold in every state reached from the initial store. |
| Traces.CheckingAuthAfterRun | frontend/src/store/useAuthStore.js:13-27 | After any sequence, `isCheckingAuth` is still set if and only if it was set before and the sequence holds no `checkAuth` call. |
| Traces.RosterIsLatestEvent | frontend/src/store/useAuthStore.js:98-100 | After any sequence, the roster is the payload of the last `getOnlineUsers` delivery in it. |
| Traces.RosterUntouchedWithoutEvents | frontend/src/store/useAuthStore.js:98-105 | A sequence with no `getOnlineUsers` delivery leaves the roster as it was, across logins, logouts and disconnects. |
| Traces.RosterReplacedNotMerged | frontend/src/store/useAuthStore.js:98-100 | Deliveries `[a, b]` and then `[c]` leave the roster `[c]`. |
| Traces.NoSecondConnection | frontend/src/store/useAuthStore.js:85-87 | While a connection is live, no sequence without a disconnect or a successful logout creates another connection or replaces the socket. |
| Traces.RunLiveNeedsIdentity | frontend/src/store/useAuthStore.js:85-87 | If a live connection implies an identity at the start, it still does after any sequence with no failed `checkAuth`. |
| Traces.FailedCheckKeepsConnection | frontend/src/store/useAuthStore.js:23-25 | A failed `checkAuth` while connected drops the identity but leaves the connection live. |
| Traces.ConnectIdempotent | frontend/src/store/useAuthStore.js:85-96 | Calling `connectSocket` twice has the same effect as calling it once. |
| Traces.DisconnectIdempotent | frontend/src/store/useAuthStore.js:103-105 | Calling `disconnectSocket` twice has the same effect as calling it once. |
| Traces.LoginAccepted | frontend/src/store/useAuthStore.js:45-58 | From the initial store, an accepted login gives: the user stored, one success notification, exactly one connection keyed to the user's id, and the flag released. |
| Traces.LoginRejected | frontend/src/store/useAuthStore.js:45-58 | From the initial store, a rejected login gives: no identity, exactly the server's error message as the only notification, no connection, and the flag released. |
| Traces.LogoutAfterLogin | frontend/src/store/useAuthStore.js:60-65 | An accepted login and then an accepted logout give: no identity, the two success notifications, and the one socket kept but disconnected. |
| Traces.CheckAuthWithoutSession | frontend/src/store/useAuthStore.js:17-29 | From the initial store, a failed identity check gives: no identity, readiness cleared, no notification, and no connection. |

## Left out

- HTTP transport: the status codes, and the request paths beyond their labels. Each request is an input `Response`.
- The case where an error has no `response.data.message`, which makes the JavaScript fail to read the property. Failures always carry a message string in this model.
- socket.io internals: the handshake, reconnection and event timing. `connect()` is modelled as taking effect at once. A socket never drops on its own. In socket.io-client, `connected` stays false until the handshake completes. During that window, two `connectSocket` calls open two connections. A `logout` in that window skips `disconnect()`, and the socket then goes live with no identity. `Traces.NoSecondConnection`, `Traces.ConnectIdempotent` and `Traces.LogoutAfterLogin` do not cover that window.
- The `getOnlineUsers` listener can fire at any time in the model, even with no socket. The real listener fires only for a socket that has been created. The listener itself has no guard, so the model over-approximates what can happen.
- Toast rendering and `console.log`. Only an abstract log of notification kinds and texts is kept.
- The choice of `BASE_URL` from the runtime mode (line 6). It is environment configuration and is not passed to the model's connection.
- Interleaving of operations while they are suspended at `await`, for example a logout racing a login. Each operation is atomic in the model.
- Faults thrown after a request succeeds, for example by `toast` or `io`, are not modelled. Such a fault would send `checkAuth` into its catch block and set the identity to null.
- zustand's `create`/`set`/`get`. They are plain reads and writes of the class's fields.
- Socket object identity: a replaced socket is dropped from the model. The old object is not kept. Its state is known only to have been disconnected when it was replaced.
