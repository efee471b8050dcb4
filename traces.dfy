/**
 Sequences of store operations and socket events, each one applied
 atomically, and the properties that hold along every such sequence.
 */
module Traces {
  import opened Session

  /** One call into the store, with the outcome of its request, or one
      `getOnlineUsers` delivery. */
  datatype Event =
    | CheckAuthCall(answer: Response<User>)
    | SignupCall(data: Form, answer: Response<User>)
    | LoginCall(data: Form, answer: Response<User>)
    | LogoutCall(ack: Response<()>)
    | UpdateProfileCall(data: Form, answer: Response<User>)
    | ConnectSocketCall
    | DisconnectSocketCall
    | OnlineUsersEvent(userIds: seq<UserId>)

  function Step(s: State, e: Event): State
  {
    match e
    case CheckAuthCall(answer) => CheckAuth(s, answer)
    case SignupCall(data, answer) => Signup(s, data, answer)
    case LoginCall(data, answer) => Login(s, data, answer)
    case LogoutCall(ack) => Logout(s, ack)
    case UpdateProfileCall(data, answer) => UpdateProfile(s, data, answer)
    case ConnectSocketCall => ConnectSocket(s)
    case DisconnectSocketCall => DisconnectSocket(s)
    case OnlineUsersEvent(userIds) => OnOnlineUsers(s, userIds)
  }

  function Run(s: State, es: seq<Event>): State
    decreases |es|
  {
    if es == [] then s else Run(Step(s, es[0]), es[1..])
  }

  // ---------------------------------------------------------------------
  // Flags are released and the socket matches the last connection created.

  /** No signup, login or profile request is in flight. */
  predicate Idle(s: State)
  {
    !s.flags.signingUp && !s.flags.loggingIn && !s.flags.updatingProfile
  }

  /** A socket is held exactly when a connection was ever created, and its
      `userId` is the one handed to the last connection created. */
  predicate SocketIsLatest(s: State)
  {
    && (s.socket.None? <==> s.connections == [])
    && (s.socket.Some? ==> s.socket.value.userId == s.connections[|s.connections| - 1])
  }

  predicate Consistent(s: State)
  {
    Idle(s) && SocketIsLatest(s)
  }

  lemma StepConsistent(s: State, e: Event)
    requires Consistent(s)
    ensures Consistent(Step(s, e))
  {
  }

  lemma {:induction false} RunConsistent(s: State, es: seq<Event>)
    requires Consistent(s)
    ensures Consistent(Run(s, es))
    decreases |es|
  {
    if es != [] {
      StepConsistent(s, es[0]);
      RunConsistent(Step(s, es[0]), es[1..]);
    }
  }

  /** Every state the store reaches from its initial state is consistent. */
  lemma ReachableConsistent(es: seq<Event>)
    ensures Consistent(Run(Initial(), es))
  {
    RunConsistent(Initial(), es);
  }

  // ---------------------------------------------------------------------
  // Readiness: `isCheckingAuth` is cleared by the first `checkAuth` and is
  // never raised again.

  predicate NoCheckAuth(es: seq<Event>)
  {
    forall i :: 0 <= i < |es| ==> !es[i].CheckAuthCall?
  }

  lemma {:induction false} CheckingAuthAfterRun(s: State, es: seq<Event>)
    ensures Run(s, es).flags.checkingAuth <==> s.flags.checkingAuth && NoCheckAuth(es)
    decreases |es|
  {
    if es != [] {
      CheckingAuthAfterRun(Step(s, es[0]), es[1..]);
      assert NoCheckAuth(es) <==> !es[0].CheckAuthCall? && NoCheckAuth(es[1..]) by {
        if !es[0].CheckAuthCall? && NoCheckAuth(es[1..]) {
          forall i | 0 <= i < |es| ensures !es[i].CheckAuthCall? {
            if i > 0 { assert es[i] == es[1..][i - 1]; }
          }
        }
        if NoCheckAuth(es) {
          forall i | 0 <= i < |es[1..]| ensures !es[1..][i].CheckAuthCall? {
            assert es[1..][i] == es[i + 1];
          }
        }
      }
    }
  }

  // ---------------------------------------------------------------------
  // The roster is replaced, never merged: after any sequence of events it is
  // the payload of the last `getOnlineUsers` delivery.

  predicate IsRosterEvent(e: Event)
  {
    e.OnlineUsersEvent?
  }

  lemma {:induction false} RosterUntouchedWithoutEvents(s: State, es: seq<Event>)
    requires forall j :: 0 <= j < |es| ==> !IsRosterEvent(es[j])
    ensures Run(s, es).onlineUsers == s.onlineUsers
    decreases |es|
  {
    if es != [] {
      assert !IsRosterEvent(es[0]);
      forall j | 0 <= j < |es[1..]| ensures !IsRosterEvent(es[1..][j]) {
        assert es[1..][j] == es[j + 1];
      }
      RosterUntouchedWithoutEvents(Step(s, es[0]), es[1..]);
    }
  }

  lemma {:induction false} RosterIsLatestEvent(s: State, es: seq<Event>, i: nat)
    requires i < |es| && IsRosterEvent(es[i])
    requires forall j :: i < j < |es| ==> !IsRosterEvent(es[j])
    ensures Run(s, es).onlineUsers == es[i].userIds
    decreases |es|
  {
    forall j | i <= j < |es[1..]| ensures !IsRosterEvent(es[1..][j]) {
      assert es[1..][j] == es[j + 1];
    }
    if i == 0 {
      RosterUntouchedWithoutEvents(Step(s, es[0]), es[1..]);
    } else {
      assert es[1..][i - 1] == es[i];
      RosterIsLatestEvent(Step(s, es[0]), es[1..], i - 1);
    }
  }

  /** Deliveries `[a, b]` and then `[c]` leave the roster `[c]`. */
  lemma RosterReplacedNotMerged(s: State, a: UserId, b: UserId, c: UserId)
    ensures Run(s, [OnlineUsersEvent([a, b]), OnlineUsersEvent([c])]).onlineUsers == [c]
  {
    var es := [OnlineUsersEvent([a, b]), OnlineUsersEvent([c])];
    RosterIsLatestEvent(s, es, 1);
  }

  // ---------------------------------------------------------------------
  // No second connection while one is connected.

  /** The events that can take a live connection down. */
  predicate Disconnects(e: Event)
  {
    e.DisconnectSocketCall? || (e.LogoutCall? && e.ack.Ok?)
  }

  lemma {:induction false} NoSecondConnection(s: State, es: seq<Event>)
    requires Connected(s)
    requires forall i :: 0 <= i < |es| ==> !Disconnects(es[i])
    ensures KeepsPresence(s, Run(s, es))
    decreases |es|
  {
    if es != [] {
      assert !Disconnects(es[0]);
      forall i | 0 <= i < |es[1..]| ensures !Disconnects(es[1..][i]) {
        assert es[1..][i] == es[i + 1];
      }
      NoSecondConnection(Step(s, es[0]), es[1..]);
    }
  }

  // ---------------------------------------------------------------------
  // A live connection needs an identity, except after a failed `checkAuth`.

  predicate LiveNeedsIdentity(s: State)
  {
    Connected(s) ==> s.authUser.Some?
  }

  predicate FailedCheck(e: Event)
  {
    e.CheckAuthCall? && e.answer.Err?
  }

  lemma StepLiveNeedsIdentity(s: State, e: Event)
    requires LiveNeedsIdentity(s) && !FailedCheck(e)
    ensures LiveNeedsIdentity(Step(s, e))
  {
  }

  lemma {:induction false} RunLiveNeedsIdentity(s: State, es: seq<Event>)
    requires LiveNeedsIdentity(s)
    requires forall i :: 0 <= i < |es| ==> !FailedCheck(es[i])
    ensures LiveNeedsIdentity(Run(s, es))
    decreases |es|
  {
    if es != [] {
      StepLiveNeedsIdentity(s, es[0]);
      forall i | 0 <= i < |es[1..]| ensures !FailedCheck(es[1..][i]) {
        assert es[1..][i] == es[i + 1];
      }
      RunLiveNeedsIdentity(Step(s, es[0]), es[1..]);
    }
  }

  /** A failed `checkAuth` drops the identity but keeps a live connection. */
  lemma FailedCheckKeepsConnection(s: State, message: string)
    requires Connected(s)
    ensures Step(s, CheckAuthCall(Err(message))).authUser.None?
    ensures Connected(Step(s, CheckAuthCall(Err(message))))
  {
  }

  // ---------------------------------------------------------------------
  // End-to-end runs from the initial state.

  lemma ConnectIdempotent(s: State)
    ensures ConnectSocket(ConnectSocket(s)) == ConnectSocket(s)
  {
  }

  lemma DisconnectIdempotent(s: State)
    ensures DisconnectSocket(DisconnectSocket(s)) == DisconnectSocket(s)
  {
  }

  lemma LoginAccepted(data: Form, u: User)
    ensures var r := Run(Initial(), [LoginCall(data, Ok(u))]);
      && r.authUser == Some(u)
      && r.toasts == [SuccessToast(LoginSucceeded)]
      && r.connections == [u.id]
      && r.socket == Some(Socket(u.id, true))
      && !r.flags.loggingIn
  {
  }

  lemma LoginRejected(data: Form, message: string)
    ensures var r := Run(Initial(), [LoginCall(data, Err(message))]);
      && r.authUser.None?
      && r.toasts == [ErrorToast(message)]
      && r.connections == []
      && !r.flags.loggingIn
  {
  }

  lemma LogoutAfterLogin(data: Form, u: User)
    ensures var r := Run(Initial(), [LoginCall(data, Ok(u)), LogoutCall(Ok(()))]);
      && r.authUser.None?
      && r.toasts == [SuccessToast(LoginSucceeded), SuccessToast(LogoutSucceeded)]
      && r.connections == [u.id]
      && r.socket == Some(Socket(u.id, false))
  {
    var es := [LoginCall(data, Ok(u)), LogoutCall(Ok(()))];
    var loggedIn := Login(Initial(), data, Ok(u));
    assert es[1..] == [LogoutCall(Ok(()))];
    assert Run(Initial(), es) == Run(loggedIn, [LogoutCall(Ok(()))]);
  }

  lemma CheckAuthWithoutSession(message: string)
    ensures var r := Run(Initial(), [CheckAuthCall(Err(message))]);
      && r.authUser.None?
      && !r.flags.checkingAuth
      && r.toasts == []
      && r.connections == []
  {
  }
}
