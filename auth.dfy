/** The session of src/auth/AuthContext.jsx: the token, the signed-in user's
    profile and the token kept in local storage, and the operations that move
    them. The state machine is stated on Session values; AuthProvider holds
    the same state in fields and its methods are proved against it. */
module Auth {
  import opened Js
  import opened Http
  import opened Api

  /** The provider's state: `token` and `user` as React state, `stored` as
      the "token" entry of local storage (None when it is removed). */
  datatype Session = Session(token: Option<string>, user: Option<User>, stored: Option<string>)

  /** How a call of `login` or `register` settles: it resolves, it throws the
      server's error text, or it rejects because the request or the reading
      of the body failed. */
  datatype Outcome = Resolved | Rejected(message: string) | Thrown

  /** The request fetchUser sends; a null token is written out as "null". */
  function MeRequest(token: Option<string>): Request {
    Request(GET, "/users/me", [], [Bearer(if token.Some? then token.value else "null")], [])
  }

  function LoginRequest(credentials: Pairs): Request {
    Request(POST, "/users/login", [], [JsonContent], credentials)
  }

  function RegisterRequest(credentials: Pairs): Request {
    Request(POST, "/users/register", [], [JsonContent], credentials)
  }

  /** The user after fetchUser: the profile of an ok response whose body
      parses, and the previous user on any failure. */
  function FetchedUser(current: Option<User>, r: Response<User>): (u: Option<User>)
    ensures Delivered(r) ==> u == Some(r.body.value)
    ensures !Delivered(r) ==> u == current
  {
    if Delivered(r) then Some(r.body.value) else current
  }

  /** The effect that runs whenever the token changes: a truthy token is
      stored and the profile fetched with it; otherwise the stored token is
      removed and the user cleared. */
  function Effect(s: Session, net: Request -> Response<User>): (s2: Session)
    ensures s2.token == s.token
    ensures Present(s.token) ==> s2.stored == s.token && s2.user == FetchedUser(s.user, net(MeRequest(s.token)))
    ensures !Present(s.token) ==> s2.stored.None? && s2.user.None?
  {
    if Present(s.token) then
      Session(s.token, FetchedUser(s.user, net(MeRequest(s.token))), s.token)
    else
      Session(s.token, None, None)
  }

  /** `login` and `register` once the response is in: an ok response sets the
      token to the body text; a non-ok one throws that text; a failed request
      or body read rejects. Only the token can change, and only on success. */
  function SignIn(s: Session, r: Response<string>): (result: (Session, Outcome))
    ensures result.0.user == s.user && result.0.stored == s.stored
    ensures result.1.Resolved? <==> Delivered(r)
    ensures result.1.Resolved? ==> result.0.token == Some(r.body.value)
    ensures !result.1.Resolved? ==> result.0 == s
    ensures result.1.Rejected? <==> r.Reply? && !r.ok && r.body.Some?
    ensures result.1.Rejected? ==> result.1.message == r.body.value
  {
    match r
    case NetworkError => (s, Thrown)
    case Reply(_, None) => (s, Thrown)
    case Reply(ok, Some(text)) => if !ok then (s, Rejected(text)) else (s.(token := Some(text)), Resolved)
  }

  /** `logout`: the token is dropped and the stored token removed at once; the
      user is only cleared by the effect that follows. */
  function SignOut(s: Session): (s2: Session)
    ensures s2.token.None? && s2.stored.None? && s2.user == s.user
  {
    Session(None, s.user, None)
  }

  /** After signing out and the effect, nothing of the session is left. */
  lemma SignOutThenEffect(s: Session, net: Request -> Response<User>)
    ensures Effect(SignOut(s), net) == Session(None, None, None)
  {
  }

  /** After a successful sign-in with a non-empty token and the effect, the
      token is stored and the user is the profile fetched with that token
      when the server delivers it. */
  lemma SignInThenEffect(s: Session, r: Response<string>, net: Request -> Response<User>)
    requires Delivered(r) && r.body.value != ""
    ensures var after := Effect(SignIn(s, r).0, net);
            && after.token == Some(r.body.value) && after.stored == Some(r.body.value)
            && after.user == FetchedUser(s.user, net(MeRequest(Some(r.body.value))))
  {
  }

  /** An ok response with an empty body signs nobody in: the empty token is
      falsy, so the effect removes the stored token and clears the user. */
  lemma EmptyTokenSignsOut(s: Session, r: Response<string>, net: Request -> Response<User>)
    requires Delivered(r) && r.body.value == ""
    ensures SignIn(s, r).1 == Resolved
    ensures var after := Effect(SignIn(s, r).0, net);
            after.token == Some("") && after.stored.None? && after.user.None?
  {
  }

  /** Running the effect twice with the same server gives the state of running
      it once. */
  lemma EffectIdempotent(s: Session, net: Request -> Response<User>)
    ensures Effect(Effect(s, net), net) == Effect(s, net)
  {
  }

  /** After the effect, the stored token is the token whenever the token is
      truthy, and nothing is stored otherwise. */
  predicate Settled(s: Session) {
    if Present(s.token) then s.stored == s.token else s.stored.None? && s.user.None?
  }

  lemma EffectSettles(s: Session, net: Request -> Response<User>)
    ensures Settled(Effect(s, net))
  {
  }

  /** Signing in from a settled state changes only the token, so a failed
      attempt leaves the session settled. */
  lemma FailedSignInKeepsSettled(s: Session, r: Response<string>)
    requires Settled(s) && !Delivered(r)
    ensures Settled(SignIn(s, r).0)
  {
  }

  /** The provider component's state. */
  class AuthProvider {
    var token: Option<string>
    var user: Option<User>
    var stored: Option<string>

    function Snapshot(): Session
      reads this
    {
      Session(token, user, stored)
    }

    /** Mounting: the token starts as whatever local storage holds, and no
        user is known yet. */
    constructor (saved: Option<string>)
      ensures Snapshot() == Session(saved, None, saved)
    {
      token := saved;
      user := None;
      stored := saved;
    }

    /** fetchUser: only a delivered profile replaces the user. */
    method FetchUser(net: Request -> Response<User>) returns (sent: Request)
      modifies this
      ensures token == old(token) && stored == old(stored)
      ensures sent == MeRequest(token)
      ensures user == FetchedUser(old(user), net(sent))
    {
      sent := MeRequest(token);
      var response := net(sent);
      if response.Reply? && response.ok && response.body.Some? {
        user := Some(response.body.value);
      }
    }

    /** The token effect. */
    method TokenEffect(net: Request -> Response<User>)
      modifies this
      ensures Snapshot() == Effect(old(Snapshot()), net)
    {
      if token.Some? && token.value != "" {
        stored := token;
        var _ := FetchUser(net);
      } else {
        stored := None;
        user := None;
      }
    }

    /** register. */
    method Register(credentials: Pairs, net: Request -> Response<string>) returns (outcome: Outcome)
      modifies this
      ensures (Snapshot(), outcome) == SignIn(old(Snapshot()), net(RegisterRequest(credentials)))
    {
      outcome := Submit(net(RegisterRequest(credentials)));
    }

    /** login. */
    method Login(credentials: Pairs, net: Request -> Response<string>) returns (outcome: Outcome)
      modifies this
      ensures (Snapshot(), outcome) == SignIn(old(Snapshot()), net(LoginRequest(credentials)))
    {
      outcome := Submit(net(LoginRequest(credentials)));
    }

    /** The steps `login` and `register` share once the response is in. */
    method Submit(response: Response<string>) returns (outcome: Outcome)
      modifies this
      ensures (Snapshot(), outcome) == SignIn(old(Snapshot()), response)
    {
      if response.NetworkError? || response.body.None? {
        return Thrown;
      }
      var result := response.body.value;
      if !response.ok {
        return Rejected(result);
      }
      token := Some(result);
      outcome := Resolved;
    }

    /** logout. */
    method Logout()
      modifies this
      ensures Snapshot() == SignOut(old(Snapshot()))
    {
      token := None;
      stored := None;
    }
  }
}
