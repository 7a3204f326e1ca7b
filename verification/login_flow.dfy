/** The per-session login flow of server.js: `initialize`, `GET /`, `/login`,
    `/oauth` and `/logout`. The session holds a `state` object and a
    `loggedIn` flag; each route is a transition on it. What the OAuth
    provider answers is an input: the outcome of the request-token call, the
    authorisation URL it builds from a token, and the verify call as a
    function of its three arguments. */
module LoginFlow {
  import opened Values

  /** Names of the properties of the session's `state` object. */
  const OAuthToken := "oauth_token"
  const OAuthTokenSecret := "oauth_token_secret"
  const OAuthTokenVerifier := "oauth_token_verifier"
  const Fullname := "fullname"
  const UserNsid := "user_nsid"
  const Username := "username"

  /** The properties written from a successful verify response. */
  const IdentityKeys: set<string> := {Fullname, OAuthToken, OAuthTokenSecret, UserNsid, Username}

  /** Redirect targets used by the routes. */
  const HomePage := "/"
  const ErrorPage := "/error"

  /** The `state` object's properties; a missing key reads as `undefined`. */
  type StateFields = map<string, string>

  /** Reading `state.key`. */
  function Get(fields: StateFields, key: string): Option<string>
  {
    if key in fields then Some(fields[key]) else None
  }

  /** Writing `state.key = v`; writing `undefined` makes the key read as
      missing. */
  function Put(fields: StateFields, key: string, v: Option<string>): (r: StateFields)
    ensures Get(r, key) == v
    ensures forall k :: k != key ==> Get(r, k) == Get(fields, k)
  {
    if v.Some? then fields[key := v.value] else fields - {key}
  }

  /** The value of a session: its `state` object (absent until `initialize`)
      and its `loggedIn` flag. */
  datatype SessionData = SessionData(state: Option<StateFields>, loggedIn: Option<bool>)

  /** A session with nothing in it: a first visit, or after `/logout`. */
  const EmptySession := SessionData(None, None)

  /** What a route sends back. `NoReply` is a handler that returns without
      answering. */
  datatype Reply = Redirect(location: string) | NoReply

  /** The session after a route, and the route's reply. */
  datatype Outcome = Outcome(session: SessionData, reply: Reply)

  /** The parameters `GET /` passes to the template. */
  datatype HomeParams = HomeParams(seo: Json, loggedOut: bool)

  /** `oauth.request` resolved: the temporary token and its secret. */
  datatype RequestToken = RequestToken(token: string, secret: string)

  /** `oauth.verify` resolved: the access token and the identity claims. */
  datatype Access = Access(fullname: string, token: string, secret: string, userNsid: string, username: string)

  /** `oauth.verify(token, verifier, secret)`: the provider's answer to the
      three values it is called with; `None` is a rejected promise. */
  type Verify = (Option<string>, Option<string>, Option<string>) -> Option<Access>

  /** JavaScript `!loggedIn` on the stored flag. */
  predicate LoggedOut(loggedIn: Option<bool>)
  {
    loggedIn != Some(true)
  }

  // ---------------------------------------------------------------------
  // The routes as functions of the session's value

  /** `initialize` (server.js:68-91). */
  function InitializeStep(s: SessionData): (t: SessionData)
    ensures t.state.Some?
    ensures s.state.None? ==> t.state == Some(map[]) && t.loggedIn == Some(false)
    ensures s.state.Some? ==> t == s
  {
    if s.state.None? then SessionData(Some(map[]), Some(false)) else s
  }

  /** The template parameters of `GET /` (server.js:99-126). */
  function HomeView(s: SessionData, seo: Json): (p: HomeParams)
    ensures p.seo == seo
    ensures p.loggedOut <==> !(s.state.Some? && s.loggedIn == Some(true))
  {
    HomeParams(seo, LoggedOut(InitializeStep(s).loggedIn))
  }

  /** `/login` (server.js:150-169). */
  function LoginStep(s: SessionData, request: Option<RequestToken>, authorizeUrl: string -> string): (r: Outcome)
    ensures r.session.loggedIn == s.loggedIn
    ensures r.reply.Redirect? <==> request.Some? && s.state.Some?
    ensures r.reply.Redirect? ==>
              && r.reply.location == authorizeUrl(request.value.token)
              && r.session.state.Some?
              && Get(r.session.state.value, OAuthToken) == Some(request.value.token)
              && Get(r.session.state.value, OAuthTokenSecret) == Some(request.value.secret)
              && forall k :: k != OAuthToken && k != OAuthTokenSecret ==>
                   Get(r.session.state.value, k) == Get(s.state.value, k)
    ensures r.reply == NoReply ==> r.session == s
  {
    if request.None? || s.state.None? then Outcome(s, NoReply)
    else
      var fields := s.state.value[OAuthToken := request.value.token][OAuthTokenSecret := request.value.secret];
      Outcome(s.(state := Some(fields)), Redirect(authorizeUrl(request.value.token)))
  }

  /** The provider's answer to `/oauth` on a session that has a `state`
      object: verify is called with the stored token, the verifier received
      in the query and the stored secret. */
  function Answer(s: SessionData, verifier: Option<string>, verify: Verify): Option<Access>
    requires s.state.Some?
  {
    verify(Get(s.state.value, OAuthToken), verifier, Get(s.state.value, OAuthTokenSecret))
  }

  /** The properties written from a verify response. */
  function WithIdentity(fields: StateFields, a: Access): (r: StateFields)
    ensures IdentityKeys <= r.Keys
    ensures Get(r, Fullname) == Some(a.fullname) && Get(r, OAuthToken) == Some(a.token)
    ensures Get(r, OAuthTokenSecret) == Some(a.secret) && Get(r, UserNsid) == Some(a.userNsid)
    ensures Get(r, Username) == Some(a.username)
    ensures forall k :: k !in IdentityKeys ==> Get(r, k) == Get(fields, k)
  {
    fields[Fullname := a.fullname][OAuthToken := a.token][OAuthTokenSecret := a.secret]
          [UserNsid := a.userNsid][Username := a.username]
  }

  /** `/oauth` (server.js:192-219). */
  function CallbackStep(s: SessionData, verifier: Option<string>, verify: Verify): (r: Outcome)
    ensures r.reply == Redirect(HomePage) || r.reply == Redirect(ErrorPage)
    ensures r.reply == Redirect(HomePage) <==> s.state.Some? && Answer(s, verifier, verify).Some?
    ensures r.reply == Redirect(HomePage) ==>
              var a := Answer(s, verifier, verify).value;
              && r.session.loggedIn == Some(true)
              && r.session.state.Some?
              && Get(r.session.state.value, Fullname) == Some(a.fullname)
              && Get(r.session.state.value, OAuthToken) == Some(a.token)
              && Get(r.session.state.value, OAuthTokenSecret) == Some(a.secret)
              && Get(r.session.state.value, UserNsid) == Some(a.userNsid)
              && Get(r.session.state.value, Username) == Some(a.username)
              && Get(r.session.state.value, OAuthTokenVerifier) == verifier
              && forall k :: k !in IdentityKeys && k != OAuthTokenVerifier ==>
                   Get(r.session.state.value, k) == Get(s.state.value, k)
    ensures r.reply == Redirect(ErrorPage) ==> r.session.loggedIn == s.loggedIn
    ensures r.reply == Redirect(ErrorPage) && s.state.Some? ==>
              r.session.state == Some(Put(s.state.value, OAuthTokenVerifier, verifier))
    ensures s.state.None? ==> r == Outcome(s, Redirect(ErrorPage))
  {
    if s.state.None? then Outcome(s, Redirect(ErrorPage))
    else
      var fields := Put(s.state.value, OAuthTokenVerifier, verifier);
      match verify(Get(fields, OAuthToken), Get(fields, OAuthTokenVerifier), Get(fields, OAuthTokenSecret))
      case None => Outcome(s.(state := Some(fields)), Redirect(ErrorPage))
      case Some(a) => Outcome(SessionData(Some(WithIdentity(fields, a)), Some(true)), Redirect(HomePage))
  }

  /** `/logout` (server.js:176-185). */
  function LogoutStep(s: SessionData): (r: Outcome)
    ensures r.session.state.None? && r.session.loggedIn.None?
    ensures r.reply == Redirect(HomePage)
  {
    Outcome(EmptySession, Redirect(HomePage))
  }

  // ---------------------------------------------------------------------
  // The session object and the route handlers

  /** The object stored under the session key `state`; the handlers write
      its properties in place. */
  class StateObject {
    var fields: StateFields

    constructor ()
      ensures fields == map[]
    {
      fields := map[];
    }
  }

  /** The request's session: the `state` object it holds (null when the key
      is absent) and the `loggedIn` flag. */
  class Session {
    var state: StateObject?
    var loggedIn: Option<bool>

    /** A session with nothing stored, as on a first visit. */
    constructor ()
      ensures Contents() == EmptySession
    {
      state := null;
      loggedIn := None;
    }

    /** The value of the session. */
    function Contents(): SessionData
      reads this, state
    {
      SessionData(if state == null then None else Some(state.fields), loggedIn)
    }
  }

  /** `initialize` (server.js:68-91): a session without a `state` object
      gets an empty one and `loggedIn = false`; any other session is left as
      it is. */
  method Initialize(session: Session)
    modifies session
    ensures session.Contents() == InitializeStep(old(session.Contents()))
    ensures session.state == old(session.state) || fresh(session.state)
  {
    var state := session.state;
    if state == null {
      state := new StateObject();
      session.state := state;
      session.loggedIn := Some(false);
    }
  }

  /** `GET /` (server.js:99-126): initialises the session and reports
      whether it is logged out. */
  method Home(session: Session, seo: Json) returns (params: HomeParams)
    modifies session
    ensures session.Contents() == InitializeStep(old(session.Contents()))
    ensures params == HomeView(old(session.Contents()), seo)
  {
    params := HomeParams(seo, true);
    Initialize(session);
    var loggedIn := session.loggedIn;
    params := params.(loggedOut := LoggedOut(loggedIn));
  }

  /** `/login` (server.js:150-169). A rejected token request, or a session
      without a `state` object (writing to `undefined` throws), is caught and
      logged and nothing is sent. */
  method Login(session: Session, request: Option<RequestToken>, authorizeUrl: string -> string)
    returns (reply: Reply)
    modifies session, session.state
    ensures session.state == old(session.state)
    ensures session.Contents() == LoginStep(old(session.Contents()), request, authorizeUrl).session
    ensures reply == LoginStep(old(session.Contents()), request, authorizeUrl).reply
  {
    var state := session.state;
    if request.None? {
      reply := NoReply;
      return;
    }
    var token := request.value;
    if state == null {
      reply := NoReply;
      return;
    }
    state.fields := state.fields[OAuthToken := token.token];
    state.fields := state.fields[OAuthTokenSecret := token.secret];
    session.state := state;
    reply := Redirect(authorizeUrl(token.token));
  }

  /** `/oauth` (server.js:192-219). The verifier is written into the stored
      object before the provider is asked, so it stays there when the
      provider refuses. */
  method OAuthCallback(session: Session, verifier: Option<string>, verify: Verify)
    returns (reply: Reply)
    modifies session, session.state
    ensures session.state == old(session.state)
    ensures session.Contents() == CallbackStep(old(session.Contents()), verifier, verify).session
    ensures reply == CallbackStep(old(session.Contents()), verifier, verify).reply
  {
    var state := session.state;
    if state == null {
      reply := Redirect(ErrorPage);
      return;
    }
    state.fields := Put(state.fields, OAuthTokenVerifier, verifier);
    var answer := verify(Get(state.fields, OAuthToken), Get(state.fields, OAuthTokenVerifier),
                         Get(state.fields, OAuthTokenSecret));
    if answer.None? {
      reply := Redirect(ErrorPage);
      return;
    }
    var a := answer.value;
    state.fields := state.fields[Fullname := a.fullname];
    state.fields := state.fields[OAuthToken := a.token];
    state.fields := state.fields[OAuthTokenSecret := a.secret];
    state.fields := state.fields[UserNsid := a.userNsid];
    state.fields := state.fields[Username := a.username];
    session.loggedIn := Some(true);
    session.state := state;
    reply := Redirect(HomePage);
  }

  /** `/logout` (server.js:176-185): the session is deleted and the visitor
      sent home. */
  method Logout(session: Session) returns (reply: Reply)
    modifies session
    ensures session.Contents() == LogoutStep(old(session.Contents())).session
    ensures reply == LogoutStep(old(session.Contents())).reply
  {
    session.state := null;
    session.loggedIn := None;
    reply := Redirect(HomePage);
  }

  // ---------------------------------------------------------------------
  // Sequences of requests on one session

  /** A request that touches the session, with what the provider answers it. */
  datatype Request =
    | Visit
    | StartLogin(request: Option<RequestToken>)
    | Callback(verifier: Option<string>, verify: Verify)
    | SignOut

  function Step(s: SessionData, q: Request, authorizeUrl: string -> string): SessionData
  {
    match q
    case Visit => InitializeStep(s)
    case StartLogin(request) => LoginStep(s, request, authorizeUrl).session
    case Callback(verifier, verify) => CallbackStep(s, verifier, verify).session
    case SignOut => LogoutStep(s).session
  }

  /** The session after the requests `qs`, in order. */
  function Run(s: SessionData, qs: seq<Request>, authorizeUrl: string -> string): SessionData
    decreases |qs|
  {
    if qs == [] then s else Run(Step(s, qs[0], authorizeUrl), qs[1..], authorizeUrl)
  }

  /** A logged-in session holds the token and the identity claims. */
  ghost predicate SignedInHasIdentity(s: SessionData)
  {
    s.loggedIn == Some(true) ==> s.state.Some? && IdentityKeys <= s.state.value.Keys
  }

  lemma StepKeepsIdentity(s: SessionData, q: Request, authorizeUrl: string -> string)
    requires SignedInHasIdentity(s)
    ensures SignedInHasIdentity(Step(s, q, authorizeUrl))
  {
  }

  /** Every session reached from an empty one by any requests and any
      provider answers: when `loggedIn` is true, the token, its secret and
      the identity claims are all stored. */
  lemma {:induction false} SignedInHasIdentityAlways(s: SessionData, qs: seq<Request>, authorizeUrl: string -> string)
    requires SignedInHasIdentity(s)
    ensures SignedInHasIdentity(Run(s, qs, authorizeUrl))
    decreases |qs|
  {
    if qs != [] {
      StepKeepsIdentity(s, qs[0], authorizeUrl);
      SignedInHasIdentityAlways(Step(s, qs[0], authorizeUrl), qs[1..], authorizeUrl);
    }
  }

  /** The login phases of the session. */
  datatype Phase = Anonymous | PendingVerification | Authenticated

  function PhaseOf(s: SessionData): Phase
  {
    if s.loggedIn == Some(true) then Authenticated
    else if s.state.Some? && OAuthToken in s.state.value then PendingVerification
    else Anonymous
  }

  /** A visit never changes the phase of a reachable session. */
  lemma VisitKeepsPhase(s: SessionData)
    requires SignedInHasIdentity(s)
    ensures PhaseOf(InitializeStep(s)) == PhaseOf(s)
  {
  }

  /** A granted token request on an anonymous, initialised session makes the
      verification pending. */
  lemma LoginMakesPending(s: SessionData, request: Option<RequestToken>, authorizeUrl: string -> string)
    requires PhaseOf(s) == Anonymous && s.state.Some? && request.Some?
    ensures PhaseOf(LoginStep(s, request, authorizeUrl).session) == PendingVerification
  {
  }

  /** A verified callback authenticates; a refused one never does, and a
      pending temporary token stays stored. */
  lemma CallbackPhases(s: SessionData, verifier: Option<string>, verify: Verify)
    ensures CallbackStep(s, verifier, verify).reply == Redirect(HomePage) ==>
              PhaseOf(CallbackStep(s, verifier, verify).session) == Authenticated
    ensures CallbackStep(s, verifier, verify).reply == Redirect(ErrorPage) ==>
              PhaseOf(CallbackStep(s, verifier, verify).session) == PhaseOf(s)
  {
  }

  /** Logging out ends anonymous from any session, and a second logout
      changes nothing. */
  lemma LogoutPhases(s: SessionData)
    ensures PhaseOf(LogoutStep(s).session) == Anonymous
    ensures LogoutStep(LogoutStep(s).session) == LogoutStep(s)
  {
  }

  /** `/login` on a logged-in session keeps `loggedIn` true while replacing
      the stored access token with the new temporary one. */
  lemma LoginWhileSignedIn(s: SessionData, request: Option<RequestToken>, authorizeUrl: string -> string)
    requires s.loggedIn == Some(true) && s.state.Some? && request.Some?
    requires Get(s.state.value, OAuthToken) != Some(request.value.token)
    ensures var t := LoginStep(s, request, authorizeUrl).session;
      && t.loggedIn == Some(true)
      && t.state.Some?
      && Get(t.state.value, OAuthToken) == Some(request.value.token)
      && Get(t.state.value, OAuthToken) != Get(s.state.value, OAuthToken)
  {
  }

  /** A provider that refuses to verify without a token. */
  ghost predicate RejectsMissingToken(verify: Verify)
  {
    forall verifier, secret :: verify(None, verifier, secret).None?
  }

  /** Requests with no `/login` among them, whose callbacks meet such a
      provider. */
  ghost predicate NoLogin(qs: seq<Request>)
  {
    forall i :: 0 <= i < |qs| ==>
      !qs[i].StartLogin? && (qs[i].Callback? ==> RejectsMissingToken(qs[i].verify))
  }

  ghost predicate HoldsNoToken(s: SessionData)
  {
    s.loggedIn != Some(true) && (s.state.None? || OAuthToken !in s.state.value)
  }

  lemma {:induction false} NoTokenWithoutLogin(s: SessionData, qs: seq<Request>, authorizeUrl: string -> string)
    requires HoldsNoToken(s) && NoLogin(qs)
    ensures HoldsNoToken(Run(s, qs, authorizeUrl))
    decreases |qs|
  {
    if qs != [] {
      assert NoLogin(qs[1..]) by {
        forall i | 0 <= i < |qs[1..]| ensures !qs[1..][i].StartLogin? {
          assert qs[1..][i] == qs[i + 1];
        }
      }
      NoTokenWithoutLogin(Step(s, qs[0], authorizeUrl), qs[1..], authorizeUrl);
    }
  }

  /** `/oauth` on a fresh session that never went through `/login` is sent
      to the error page, whatever else happened before. */
  lemma CallbackWithoutLoginFails(qs: seq<Request>, authorizeUrl: string -> string, verifier: Option<string>, verify: Verify)
    requires NoLogin(qs) && RejectsMissingToken(verify)
    ensures CallbackStep(Run(EmptySession, qs, authorizeUrl), verifier, verify).reply == Redirect(ErrorPage)
  {
    NoTokenWithoutLogin(EmptySession, qs, authorizeUrl);
  }
}
