/**
 The session and presence state of the chat client's authentication store, as
 a value, and one transition function per operation of the store.

 The store's network requests, notifications and connection-factory calls are
 external. Each request is an input `Response` (the server's answer or the
 message of the error it threw); notifications, requests sent and connections
 created are appended to logs held in the state, so that "an error
 notification carrying the server's message", "no notification" and "the flag
 was set while the request was in flight" can be stated.
 */
module Session {

  datatype Option<+T> = None | Some(value: T)

  type UserId = string

  /** The user record the server returns: its `_id` and the other fields. */
  datatype User = User(id: UserId, profile: map<string, string>)

  /** What a request resolves to: the response body, or the message of the
      error the request sender threw. */
  datatype Response<+T> = Ok(value: T) | Err(message: string)

  /** A real-time connection: the `userId` it was opened with and whether it
      reports itself connected. */
  datatype Socket = Socket(userId: UserId, connected: bool)

  datatype Toast = SuccessToast(text: string) | ErrorToast(text: string)

  /** Labels of the five request paths. */
  datatype Endpoint = AuthCheck | AuthSignup | AuthLogin | AuthLogout | AuthUpdateProfile

  /** A form the UI hands to signup, login or updateProfile. */
  type Form = map<string, string>

  /** The store's four booleans: `isCheckingAuth`, `isSigningUp`,
      `isLoggingIn` and `isUpdatingProfile`. */
  datatype Flags = Flags(checkingAuth: bool, signingUp: bool, loggingIn: bool, updatingProfile: bool)

  /** A request as it was sent, with the store's flags at that moment. */
  datatype Request = Request(endpoint: Endpoint, body: Form, flagsInFlight: Flags)

  datatype State = State(
    authUser: Option<User>,
    flags: Flags,
    onlineUsers: seq<UserId>,
    socket: Option<Socket>,
    connections: seq<UserId>,  // the userId handed to the connection factory, per connection created
    toasts: seq<Toast>,
    requests: seq<Request>)

  const SignupSucceeded := "Account created successfully"
  const LoginSucceeded := "Successfully logged in"
  const LogoutSucceeded := "Logged out successfully"
  const ProfileUpdated := "Profile updated successfully"

  /** The store as created: no identity, the identity check pending, no
      request in flight, an empty roster and no socket. */
  function Initial(): State
  {
    State(None, Flags(true, false, false, false), [], None, [], [], [])
  }

  predicate Connected(s: State)
  {
    s.socket.Some? && s.socket.value.connected
  }

  /** The socket and the connections created are as they were. */
  predicate KeepsPresence(s: State, r: State)
  {
    r.socket == s.socket && r.connections == s.connections
  }

  /** After `connectSocket` ran with identity `u` stored: a connection is live;
      a live one is kept as it was, otherwise exactly one new connection keyed
      to `u.id` was created and replaced the previous socket. */
  predicate OpensPresence(s: State, r: State, u: User)
  {
    && Connected(r)
    && (Connected(s) ==> KeepsPresence(s, r))
    && (!Connected(s) ==> r.socket == Some(Socket(u.id, true)) && r.connections == s.connections + [u.id])
  }

  /** After `disconnectSocket`: no connection is live, none was created, the
      socket (if any) is still held and still carries its `userId`, and a
      socket that was not connected is untouched. */
  predicate ClosesPresence(s: State, r: State)
  {
    && !Connected(r)
    && r.connections == s.connections
    && (s.socket.None? <==> r.socket.None?)
    && (s.socket.Some? ==> r.socket.value.userId == s.socket.value.userId)
    && (!Connected(s) ==> r.socket == s.socket)
  }

  /** `connectSocket`: does nothing without an identity or while the current
      socket is connected; otherwise opens a connection for the identity. */
  function ConnectSocket(s: State): (r: State)
    ensures s.authUser.None? || Connected(s) ==> r == s
    ensures s.authUser.Some? ==> OpensPresence(s, r, s.authUser.value)
    ensures r.(socket := s.socket, connections := s.connections) == s
  {
    if s.authUser.None? || Connected(s) then s
    else
      var id := s.authUser.value.id;
      s.(socket := Some(Socket(id, true)), connections := s.connections + [id])
  }

  /** `disconnectSocket`: marks a connected socket disconnected and keeps it;
      the roster is left as it is. */
  function DisconnectSocket(s: State): (r: State)
    ensures ClosesPresence(s, r)
    ensures r.(socket := s.socket) == s
  {
    if Connected(s) then s.(socket := Some(s.socket.value.(connected := false))) else s
  }

  /** The `getOnlineUsers` listener: the roster becomes exactly the delivered
      sequence. */
  function OnOnlineUsers(s: State, userIds: seq<UserId>): (r: State)
    ensures r.onlineUsers == userIds
    ensures r.(onlineUsers := s.onlineUsers) == s
  {
    s.(onlineUsers := userIds)
  }

  /** `checkAuth`: never raises `isCheckingAuth`, clears it on both outcomes,
      and never notifies. */
  function CheckAuth(s: State, response: Response<User>): (r: State)
    ensures r.flags == s.flags.(checkingAuth := false)
    ensures r.requests == s.requests + [Request(AuthCheck, map[], s.flags)]
    ensures r.toasts == s.toasts
    ensures r.onlineUsers == s.onlineUsers
    ensures response.Ok? ==> r.authUser == Some(response.value) && OpensPresence(s, r, response.value)
    ensures response.Err? ==> r.authUser.None? && KeepsPresence(s, r)
  {
    var sent := s.(requests := s.requests + [Request(AuthCheck, map[], s.flags)]);
    var settled :=
      match response
      case Ok(user) => ConnectSocket(sent.(authUser := Some(user)))
      case Err(_) => sent.(authUser := None);
    settled.(flags := settled.flags.(checkingAuth := false))
  }

  /** `signup`: `isSigningUp` is raised while the request is in flight and
      cleared on both outcomes; a failure leaves the identity as it was. */
  function Signup(s: State, data: Form, response: Response<User>): (r: State)
    ensures r.flags == s.flags.(signingUp := false)
    ensures r.requests == s.requests + [Request(AuthSignup, data, s.flags.(signingUp := true))]
    ensures r.onlineUsers == s.onlineUsers
    ensures response.Ok? ==>
      && r.authUser == Some(response.value)
      && r.toasts == s.toasts + [SuccessToast(SignupSucceeded)]
      && OpensPresence(s, r, response.value)
    ensures response.Err? ==>
      && r.authUser == s.authUser
      && r.toasts == s.toasts + [ErrorToast(response.message)]
      && KeepsPresence(s, r)
  {
    var raised := s.(flags := s.flags.(signingUp := true));
    var sent := raised.(requests := raised.requests + [Request(AuthSignup, data, raised.flags)]);
    var settled :=
      match response
      case Ok(user) =>
        ConnectSocket(sent.(authUser := Some(user), toasts := sent.toasts + [SuccessToast(SignupSucceeded)]))
      case Err(message) => sent.(toasts := sent.toasts + [ErrorToast(message)]);
    settled.(flags := settled.flags.(signingUp := false))
  }

  /** `login`: as `signup`, with `isLoggingIn`. */
  function Login(s: State, data: Form, response: Response<User>): (r: State)
    ensures r.flags == s.flags.(loggingIn := false)
    ensures r.requests == s.requests + [Request(AuthLogin, data, s.flags.(loggingIn := true))]
    ensures r.onlineUsers == s.onlineUsers
    ensures response.Ok? ==>
      && r.authUser == Some(response.value)
      && r.toasts == s.toasts + [SuccessToast(LoginSucceeded)]
      && OpensPresence(s, r, response.value)
    ensures response.Err? ==>
      && r.authUser == s.authUser
      && r.toasts == s.toasts + [ErrorToast(response.message)]
      && KeepsPresence(s, r)
  {
    var raised := s.(flags := s.flags.(loggingIn := true));
    var sent := raised.(requests := raised.requests + [Request(AuthLogin, data, raised.flags)]);
    var settled :=
      match response
      case Ok(user) =>
        ConnectSocket(sent.(authUser := Some(user), toasts := sent.toasts + [SuccessToast(LoginSucceeded)]))
      case Err(message) => sent.(toasts := sent.toasts + [ErrorToast(message)]);
    settled.(flags := settled.flags.(loggingIn := false))
  }

  /** `logout`: no flag; success drops the identity, notifies and disconnects;
      failure keeps the identity and the socket and notifies the error. */
  function Logout(s: State, response: Response<()>): (r: State)
    ensures r.flags == s.flags
    ensures r.requests == s.requests + [Request(AuthLogout, map[], s.flags)]
    ensures r.onlineUsers == s.onlineUsers
    ensures response.Ok? ==>
      && r.authUser.None?
      && r.toasts == s.toasts + [SuccessToast(LogoutSucceeded)]
      && ClosesPresence(s, r)
    ensures response.Err? ==>
      && r.authUser == s.authUser
      && r.toasts == s.toasts + [ErrorToast(response.message)]
      && KeepsPresence(s, r)
  {
    var sent := s.(requests := s.requests + [Request(AuthLogout, map[], s.flags)]);
    match response
    case Ok(_) =>
      DisconnectSocket(sent.(authUser := None, toasts := sent.toasts + [SuccessToast(LogoutSucceeded)]))
    case Err(message) => sent.(toasts := sent.toasts + [ErrorToast(message)])
  }

  /** `updateProfile`: as `signup`, with `isUpdatingProfile`, except that the
      socket is never touched. */
  function UpdateProfile(s: State, data: Form, response: Response<User>): (r: State)
    ensures r.flags == s.flags.(updatingProfile := false)
    ensures r.requests == s.requests + [Request(AuthUpdateProfile, data, s.flags.(updatingProfile := true))]
    ensures r.onlineUsers == s.onlineUsers
    ensures KeepsPresence(s, r)
    ensures response.Ok? ==>
      && r.authUser == Some(response.value)
      && r.toasts == s.toasts + [SuccessToast(ProfileUpdated)]
    ensures response.Err? ==>
      && r.authUser == s.authUser
      && r.toasts == s.toasts + [ErrorToast(response.message)]
  {
    var raised := s.(flags := s.flags.(updatingProfile := true));
    var sent := raised.(requests := raised.requests + [Request(AuthUpdateProfile, data, raised.flags)]);
    var settled :=
      match response
      case Ok(user) => sent.(authUser := Some(user), toasts := sent.toasts + [SuccessToast(ProfileUpdated)])
      case Err(message) => sent.(toasts := sent.toasts + [ErrorToast(message)]);
    settled.(flags := settled.flags.(updatingProfile := false))
  }
}
