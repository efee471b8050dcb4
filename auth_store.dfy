/**
 The authentication store as the object the UI holds: the same fields, each
 operation updating them one assignment at a time in the order the store
 does (flag raised, request sent, identity written, notification, socket
 opened or closed, flag released). Every method is specified by the
 transition function of module Session for the whole store state.
 */
module Store {
  import opened Session

  class AuthStore {
    var authUser: Option<User>
    var isSigningUp: bool
    var isLoggingIn: bool
    var isUpdatingProfile: bool
    var isCheckingAuth: bool
    var onlineUsers: seq<UserId>
    var socket: Option<Socket>

    // Logs of the calls made to the outside: requests sent (with the flags at
    // that moment), notifications shown, and connections created.
    var requests: seq<Request>
    var toasts: seq<Toast>
    var connections: seq<UserId>

    function Flags(): Session.Flags
      reads this
    {
      Session.Flags(isCheckingAuth, isSigningUp, isLoggingIn, isUpdatingProfile)
    }

    function State(): Session.State
      reads this
    {
      Session.State(authUser, Flags(), onlineUsers, socket, connections, toasts, requests)
    }

    constructor ()
      ensures State() == Initial()
    {
      authUser := None;
      isSigningUp := false;
      isLoggingIn := false;
      isUpdatingProfile := false;
      isCheckingAuth := true;
      onlineUsers := [];
      socket := None;
      requests := [];
      toasts := [];
      connections := [];
    }

    method CheckAuth(response: Response<User>)
      modifies this
      ensures State() == Session.CheckAuth(old(State()), response)
    {
      requests := requests + [Request(AuthCheck, map[], Flags())];
      match response {
        case Ok(user) =>
          authUser := Some(user);
          ConnectSocket();
        case Err(_) =>
          authUser := None;
      }
      isCheckingAuth := false;
    }

    method Signup(data: Form, response: Response<User>)
      modifies this
      ensures State() == Session.Signup(old(State()), data, response)
    {
      isSigningUp := true;
      requests := requests + [Request(AuthSignup, data, Flags())];
      match response {
        case Ok(user) =>
          authUser := Some(user);
          toasts := toasts + [SuccessToast(SignupSucceeded)];
          ConnectSocket();
        case Err(message) =>
          toasts := toasts + [ErrorToast(message)];
      }
      isSigningUp := false;
    }

    method Login(data: Form, response: Response<User>)
      modifies this
      ensures State() == Session.Login(old(State()), data, response)
    {
      isLoggingIn := true;
      requests := requests + [Request(AuthLogin, data, Flags())];
      match response {
        case Ok(user) =>
          authUser := Some(user);
          toasts := toasts + [SuccessToast(LoginSucceeded)];
          ConnectSocket();
        case Err(message) =>
          toasts := toasts + [ErrorToast(message)];
      }
      isLoggingIn := false;
    }

    method Logout(response: Response<()>)
      modifies this
      ensures State() == Session.Logout(old(State()), response)
    {
      requests := requests + [Request(AuthLogout, map[], Flags())];
      match response {
        case Ok(_) =>
          authUser := None;
          toasts := toasts + [SuccessToast(LogoutSucceeded)];
          DisconnectSocket();
        case Err(message) =>
          toasts := toasts + [ErrorToast(message)];
      }
    }

    method UpdateProfile(data: Form, response: Response<User>)
      modifies this
      ensures State() == Session.UpdateProfile(old(State()), data, response)
    {
      isUpdatingProfile := true;
      requests := requests + [Request(AuthUpdateProfile, data, Flags())];
      match response {
        case Ok(user) =>
          authUser := Some(user);
          toasts := toasts + [SuccessToast(ProfileUpdated)];
        case Err(message) =>
          toasts := toasts + [ErrorToast(message)];
      }
      isUpdatingProfile := false;
    }

    method ConnectSocket()
      modifies this
      ensures State() == Session.ConnectSocket(old(State()))
    {
      if authUser.None? || (socket.Some? && socket.value.connected) {
        return;
      }
      var created := Socket(authUser.value.id, true);
      connections := connections + [created.userId];
      socket := Some(created);
    }

    method DisconnectSocket()
      modifies this
      ensures State() == Session.DisconnectSocket(old(State()))
    {
      if socket.Some? && socket.value.connected {
        socket := Some(socket.value.(connected := false));
      }
    }

    /** The `getOnlineUsers` listener each opened socket registers. */
    method OnOnlineUsers(userIds: seq<UserId>)
      modifies this
      ensures State() == Session.OnOnlineUsers(old(State()), userIds)
    {
      onlineUsers := userIds;
    }
  }

  /** A client of the store: logging in with an accepted form and then being
      sent a roster opens one connection keyed to the user and shows exactly
      that roster. */
  method LoginThenRoster(data: Form, u: User, roster: seq<UserId>)
    returns (store: AuthStore)
    ensures store.authUser == Some(u)
    ensures store.connections == [u.id]
    ensures store.socket == Some(Socket(u.id, true))
    ensures store.onlineUsers == roster
    ensures !store.isLoggingIn && store.isCheckingAuth
  {
    store := new AuthStore();
    store.Login(data, Ok(u));
    store.OnOnlineUsers(roster);
  }
}
