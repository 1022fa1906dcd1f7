/** The session store (`AuthProvider`): whether someone is logged in, who, a
    loading flag, the last login error, and the token persisted under
    `authToken`. Each operation is a transition on a `Session` value; the class
    `AuthProvider` performs the same transitions step by step on its fields. */
module AuthContext {
  import opened Http

  /** One church assignment of a user. */
  datatype Assignment = Assignment(id: int, userId: int, churchId: int, churchName: string)

  /** The user record the backend returns. A missing `enrollment_status` is the
      empty string; `churchAssignments` may be missing altogether. */
  datatype User = User(
    id: int, email: string, name: string, role: string,
    enrollmentStatus: string, churchAssignments: Option<seq<Assignment>>)

  /** The body of `/auth/verify-token`: `valid`, and `user` when there is one. */
  datatype VerifyBody = VerifyBody(valid: bool, user: Option<User>)

  /** The body of `/auth/login`: `token`, `user` and `error`, the strings empty when missing. */
  datatype LoginBody = LoginBody(token: string, user: Option<User>, error: string)

  const LoginFailedMessage := "Login failed"
  const LoginNetworkMessage := "Network error. Please try again."

  /** The provider's state. `token` is what local storage holds under
      `authToken` (`None` when nothing is stored). */
  datatype Session = Session(
    isLoggedIn: bool, user: Option<User>, loading: bool,
    error: Option<string>, token: Option<string>)

  /** The state when the provider mounts, over whatever storage already holds. */
  function Initial(stored: Option<string>): Session {
    Session(false, None, true, None, stored)
  }

  /** `if (token)`: a stored token that is not the empty string. */
  predicate HasToken(s: Session) {
    s.token.Some? && s.token.value != ""
  }

  /** A session is logged in exactly when it has a user, and exactly when a
      token is stored. */
  predicate Consistent(s: Session) {
    && (s.isLoggedIn <==> s.user.Some?)
    && (s.isLoggedIn <==> HasToken(s))
  }

  /** The verify endpoint vouched for the token: an OK reply with `valid && user`. */
  predicate Verified(reply: Reply<VerifyBody>) {
    reply.Responded? && reply.ok && reply.body.valid && reply.body.user.Some?
  }

  /** `checkExistingAuth`, run once on mount. */
  function AfterBootstrap(s: Session, reply: Reply<VerifyBody>): (t: Session)
    ensures !t.loading && t.error == s.error
    ensures !HasToken(s) ==> t == s.(loading := false)
    ensures HasToken(s) && Verified(reply) ==>
      t.isLoggedIn && t.user == reply.body.user && t.token == s.token
    ensures HasToken(s) && !Verified(reply) ==>
      t.token == None && t.isLoggedIn == s.isLoggedIn && t.user == s.user
    ensures s == Initial(s.token) ==> (t.isLoggedIn <==> HasToken(s) && Verified(reply)) && Consistent(t)
  {
    if !HasToken(s) then s.(loading := false)
    else if Verified(reply) then s.(user := reply.body.user, isLoggedIn := true, loading := false)
    else s.(token := None, loading := false)
  }

  /** The login endpoint accepted the credentials: an OK reply naming both a token and a user. */
  predicate LoginAccepted(reply: Reply<LoginBody>) {
    reply.Responded? && reply.ok && reply.body.token != "" && reply.body.user.Some?
  }

  /** The message a refused or failed login leaves in `error`. */
  function LoginFailure(reply: Reply<LoginBody>): (m: string)
    ensures m != ""
    ensures reply.Threw? ==> m == LoginNetworkMessage
    ensures reply.Responded? && reply.body.error != "" ==> m == reply.body.error
    ensures reply.Responded? && reply.body.error == "" ==> m == LoginFailedMessage
  {
    if reply.Threw? then LoginNetworkMessage else Or(reply.body.error, LoginFailedMessage)
  }

  /** `login(email, password)`, `reply` being the server's answer to the credentials. */
  function AfterLogin(s: Session, reply: Reply<LoginBody>): (t: Session)
    ensures !t.loading
    ensures LoginAccepted(reply) ==>
      t.isLoggedIn && t.user == reply.body.user && t.token == Some(reply.body.token) && t.error == None
    ensures !LoginAccepted(reply) ==>
      t.isLoggedIn == s.isLoggedIn && t.user == s.user && t.token == s.token
      && t.error == Some(LoginFailure(reply))
    ensures Consistent(s) ==> Consistent(t)
  {
    if LoginAccepted(reply) then
      Session(true, reply.body.user, false, None, Some(reply.body.token))
    else
      s.(error := Some(LoginFailure(reply)), loading := false)
  }

  /** `logout()`: whatever the state, no token, nobody logged in, no error. */
  function AfterLogout(s: Session): (t: Session)
    ensures t.token == None && !t.isLoggedIn && t.user == None && t.error == None
    ensures t.loading == s.loading
    ensures Consistent(t)
  {
    s.(token := None, isLoggedIn := false, user := None, error := None)
  }

  /** Logging out twice is the same as logging out once. */
  lemma LogoutIdempotent(s: Session)
    ensures AfterLogout(AfterLogout(s)) == AfterLogout(s)
  {
  }

  /** `refreshUser()`: with a stored token and a vouching reply only `user` is
      replaced; otherwise, failures included, nothing changes and the token stays. */
  function AfterRefresh(s: Session, reply: Reply<VerifyBody>): (t: Session)
    ensures t.isLoggedIn == s.isLoggedIn && t.loading == s.loading
    ensures t.error == s.error && t.token == s.token
    ensures HasToken(s) && Verified(reply) ==> t.user == reply.body.user
    ensures !(HasToken(s) && Verified(reply)) ==> t == s
    ensures Consistent(s) ==> Consistent(t)
  {
    if HasToken(s) && Verified(reply) then s.(user := reply.body.user) else s
  }

  /** A rejected token: the bootstrap check deletes it, a refresh keeps it. */
  lemma RejectedTokenFate(s: Session, reply: Reply<VerifyBody>)
    requires HasToken(s) && !Verified(reply)
    ensures AfterBootstrap(s, reply).token == None
    ensures AfterRefresh(s, reply).token == s.token
  {
  }

  /** What the rest of the application can ask of the session after mounting. */
  datatype Action = SignIn(loginReply: Reply<LoginBody>) | SignOut | Refresh(verifyReply: Reply<VerifyBody>)

  function Step(s: Session, a: Action): (t: Session)
    ensures Consistent(s) ==> Consistent(t)
  {
    match a
    case SignIn(r) => AfterLogin(s, r)
    case SignOut => AfterLogout(s)
    case Refresh(r) => AfterRefresh(s, r)
  }

  function Run(s: Session, actions: seq<Action>): Session
    decreases |actions|
  {
    if actions == [] then s else Run(Step(s, actions[0]), actions[1..])
  }

  /** From any consistent session, every sequence of logins, logouts and
      refreshes keeps the session consistent. */
  lemma {:induction false} RunKeepsConsistent(s: Session, actions: seq<Action>)
    requires Consistent(s)
    ensures Consistent(Run(s, actions))
    decreases |actions|
  {
    if actions != [] {
      RunKeepsConsistent(Step(s, actions[0]), actions[1..]);
    }
  }

  /** Whatever storage holds at mount and however the verify request is
      answered, the session is consistent from then on, through any sequence
      of logins, logouts and refreshes. */
  lemma MountedSessionConsistent(stored: Option<string>, reply: Reply<VerifyBody>, actions: seq<Action>)
    ensures var t := Run(AfterBootstrap(Initial(stored), reply), actions);
      && (t.isLoggedIn <==> t.user.Some?)
      && (t.isLoggedIn <==> HasToken(t))
  {
    RunKeepsConsistent(AfterBootstrap(Initial(stored), reply), actions);
  }

  /** A failed login never logs anybody out: once logged in, only `logout`
      ends the session. */
  lemma {:induction false} OnlyLogoutEndsSession(s: Session, actions: seq<Action>)
    requires s.isLoggedIn
    requires forall i :: 0 <= i < |actions| ==> !actions[i].SignOut?
    ensures Run(s, actions).isLoggedIn
    decreases |actions|
  {
    if actions != [] {
      OnlyLogoutEndsSession(Step(s, actions[0]), actions[1..]);
    }
  }

  class AuthProvider {
    var isLoggedIn: bool
    var user: Option<User>
    var loading: bool
    var error: Option<string>
    /** Local storage's `authToken` entry. */
    var storedToken: Option<string>

    function State(): Session
      reads this
    {
      Session(isLoggedIn, user, loading, error, storedToken)
    }

    /** Mounting: logged out, loading, over the token storage already holds. */
    constructor (stored: Option<string>)
      ensures State() == Initial(stored)
    {
      isLoggedIn, user, loading, error, storedToken := false, None, true, None, stored;
    }

    /** `checkExistingAuth`; `reply` answers the verify request when one is made. */
    method CheckExistingAuth(reply: Reply<VerifyBody>)
      modifies this
      ensures State() == AfterBootstrap(old(State()), reply)
    {
      var token := storedToken;
      if token.Some? && token.value != "" {
        match reply {
          case Responded(ok, _, data) =>
            if ok && data.valid && data.user.Some? {
              user := data.user;
              isLoggedIn := true;
            } else {
              storedToken := None;
            }
          case Threw =>
            storedToken := None;
        }
      }
      loading := false;
    }

    method Login(reply: Reply<LoginBody>) returns (accepted: bool)
      modifies this
      ensures State() == AfterLogin(old(State()), reply)
      ensures accepted <==> LoginAccepted(reply)
    {
      error := None;
      loading := true;
      match reply {
        case Responded(ok, _, data) =>
          if ok && data.token != "" && data.user.Some? {
            storedToken := Some(data.token);
            user := data.user;
            isLoggedIn := true;
            loading := false;
            return true;
          } else {
            error := Some(Or(data.error, LoginFailedMessage));
            loading := false;
            return false;
          }
        case Threw =>
          error := Some(LoginNetworkMessage);
          loading := false;
          return false;
      }
    }

    method Logout()
      modifies this
      ensures State() == AfterLogout(old(State()))
    {
      storedToken := None;
      isLoggedIn := false;
      user := None;
      error := None;
    }

    method RefreshUser(reply: Reply<VerifyBody>)
      modifies this
      ensures State() == AfterRefresh(old(State()), reply)
    {
      var token := storedToken;
      if !(token.Some? && token.value != "") {
        return;
      }
      match reply {
        case Responded(ok, _, data) =>
          if ok && data.valid && data.user.Some? {
            user := data.user;
          }
        case Threw =>
      }
    }
  }
}
