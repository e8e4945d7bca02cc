/** The credential resolver: five authentication handlers, each guarded by an
    applicability test over the configured credentials, and login(), which
    tries them in the iteration order of a Go map until one of them settles
    the question.

    Go leaves the iteration order of a map unspecified, so login() is
    modelled for every order: the order is a parameter, any permutation of
    the five wired strategies. The backend's login endpoint is an oracle, and
    every result carries the trace of login requests it sent. */
module Auth {
  import opened Wrappers

  /** The strategy tags. Three of them (ServiceToken, ServiceAccount and
      KubernetesMachineIdentity) are declared but no handler is wired to them. */
  datatype AuthStrategy =
    | ServiceToken
    | ServiceAccount
    | UniversalMachineIdentity
    | KubernetesMachineIdentity
    | AwsIamMachineIdentity
    | AzureMachineIdentity
    | GcpIdTokenMachineIdentity
    | GcpIamMachineIdentity
  {
    /** True for the five strategies that login() has a handler for. */
    predicate IsWired() {
      !(ServiceToken? || ServiceAccount? || KubernetesMachineIdentity?)
    }
  }

  /** The string value of each tag. Note that the Kubernetes tag's value is
      not its field name. */
  function TagName(s: AuthStrategy): string {
    match s
    case ServiceToken => "SERVICE_TOKEN"
    case ServiceAccount => "SERVICE_ACCOUNT"
    case UniversalMachineIdentity => "UNIVERSAL_MACHINE_IDENTITY"
    case KubernetesMachineIdentity => "KUBERNETES_AUTH_MACHINE_IDENTITY"
    case AwsIamMachineIdentity => "AWS_IAM_MACHINE_IDENTITY"
    case AzureMachineIdentity => "AZURE_MACHINE_IDENTITY"
    case GcpIdTokenMachineIdentity => "GCP_ID_TOKEN_MACHINE_IDENTITY"
    case GcpIamMachineIdentity => "GCP_IAM_MACHINE_IDENTITY"
  }

  /** No two tags share a string value. */
  lemma TagNamesDistinct(s: AuthStrategy, t: AuthStrategy)
    ensures TagName(s) == TagName(t) <==> s == t
  {
  }

  /** The credential fields of an AuthHandler. Its SDK client is the
      LoginBackend oracle passed beside it. */
  datatype AuthHandler = AuthHandler(
    clientId: string,
    clientSecret: string,
    identityId: string,
    resource: string,
    serviceAccountKeyfilePath: string)

  /** The SDK login call a handler makes, with the fields it passes. */
  datatype LoginRequest =
    | UniversalAuthLogin(clientId: string, clientSecret: string)
    | AwsIamAuthLogin(identityId: string)
    | AzureAuthLogin(identityId: string, resource: string)
    | GcpIdTokenAuthLogin(identityId: string)
    | GcpIamAuthLogin(identityId: string, serviceAccountKeyfilePath: string)

  /** What the backend answers to a login call; a rejection carries the SDK
      error's text. */
  datatype LoginReply = LoginAccepted | LoginRejected(reason: string)

  /** The backend's login endpoint, an uninterpreted oracle. */
  type LoginBackend = LoginRequest -> LoginReply

  /** The errors of the resolver. HandlerLoginFailed is formatted with %s, so
      it does not wrap the SDK error; StrategyFailed is formatted with %w and
      wraps its cause. */
  datatype AuthError =
    | ErrAuthNotApplicable
    | HandlerLoginFailed(loginMethod: string, reason: string)
    | StrategyFailed(strategy: AuthStrategy, cause: AuthError)
    | NoValidAuthentication

  /** Go's errors.Is: does e, or an error it wraps, equal target? */
  function ErrorsIs(e: AuthError, target: AuthError): bool {
    e == target || (e.StrategyFailed? && ErrorsIs(e.cause, target))
  }

  /** What a handler returns, with the login requests it sent. */
  datatype HandlerResult = HandlerResult(details: Result<AuthStrategy, AuthError>, calls: seq<LoginRequest>)
  {
    /** login()'s test for "this handler does not apply". */
    predicate NotApplicable() {
      details.Failure? && ErrorsIs(details.error, ErrAuthNotApplicable)
    }

    /** The handler sent exactly `request`, and reports `tag` if the backend
        accepted it and an error other than "not applicable" if not. */
    predicate Attempted(tag: AuthStrategy, request: LoginRequest, login: LoginBackend) {
      && calls == [request]
      && (details.Success? <==> login(request).LoginAccepted?)
      && (details.Success? ==> details.value == tag)
      && !NotApplicable()
    }
  }

  /** One login call; the error message names the login method. */
  function Attempt(tag: AuthStrategy, loginMethod: string, request: LoginRequest, login: LoginBackend): HandlerResult {
    match login(request)
    case LoginAccepted => HandlerResult(Success(tag), [request])
    case LoginRejected(reason) => HandlerResult(Failure(HandlerLoginFailed(loginMethod, reason)), [request])
  }

  function NotApplicableResult(): HandlerResult {
    HandlerResult(Failure(ErrAuthNotApplicable), [])
  }

  function HandleUniversalAuth(h: AuthHandler, login: LoginBackend): (r: HandlerResult)
    ensures r.NotApplicable() <==> h.clientId == "" && h.clientSecret == ""
    ensures r.NotApplicable() ==> r.calls == []
    ensures !r.NotApplicable() ==>
      r.Attempted(UniversalMachineIdentity, UniversalAuthLogin(h.clientId, h.clientSecret), login)
  {
    if h.clientId == "" && h.clientSecret == "" then NotApplicableResult()
    else Attempt(UniversalMachineIdentity, "machine identity credentials",
                 UniversalAuthLogin(h.clientId, h.clientSecret), login)
  }

  function HandleAwsIamAuth(h: AuthHandler, login: LoginBackend): (r: HandlerResult)
    ensures r.NotApplicable() <==> h.identityId == ""
    ensures r.NotApplicable() ==> r.calls == []
    ensures !r.NotApplicable() ==>
      r.Attempted(AwsIamMachineIdentity, AwsIamAuthLogin(h.identityId), login)
  {
    if h.identityId == "" then NotApplicableResult()
    else Attempt(AwsIamMachineIdentity, "AWS IAM auth", AwsIamAuthLogin(h.identityId), login)
  }

  /** An empty resource is passed on as it is; the SDK substitutes its default. */
  function HandleAzureAuth(h: AuthHandler, login: LoginBackend): (r: HandlerResult)
    ensures r.NotApplicable() <==> h.identityId == ""
    ensures r.NotApplicable() ==> r.calls == []
    ensures !r.NotApplicable() ==>
      r.Attempted(AzureMachineIdentity, AzureAuthLogin(h.identityId, h.resource), login)
  {
    if h.identityId == "" then NotApplicableResult()
    else Attempt(AzureMachineIdentity, "Azure auth", AzureAuthLogin(h.identityId, h.resource), login)
  }

  function HandleGcpIdTokenAuth(h: AuthHandler, login: LoginBackend): (r: HandlerResult)
    ensures r.NotApplicable() <==> h.identityId == ""
    ensures r.NotApplicable() ==> r.calls == []
    ensures !r.NotApplicable() ==>
      r.Attempted(GcpIdTokenMachineIdentity, GcpIdTokenAuthLogin(h.identityId), login)
  {
    if h.identityId == "" then NotApplicableResult()
    else Attempt(GcpIdTokenMachineIdentity, "GCP Id Token auth", GcpIdTokenAuthLogin(h.identityId), login)
  }

  function HandleGcpIamAuth(h: AuthHandler, login: LoginBackend): (r: HandlerResult)
    ensures r.NotApplicable() <==> h.identityId == "" && h.serviceAccountKeyfilePath == ""
    ensures r.NotApplicable() ==> r.calls == []
    ensures !r.NotApplicable() ==>
      r.Attempted(GcpIamMachineIdentity, GcpIamAuthLogin(h.identityId, h.serviceAccountKeyfilePath), login)
  {
    if h.identityId == "" && h.serviceAccountKeyfilePath == "" then NotApplicableResult()
    else Attempt(GcpIamMachineIdentity, "GCP IAM auth",
                 GcpIamAuthLogin(h.identityId, h.serviceAccountKeyfilePath), login)
  }

  // ---------------------------------------------------------------------------
  // Specification of the handlers, stated per strategy

  /** When a strategy's handler goes on to call the backend. The legacy tags
      have no handler and never apply. */
  predicate Applicable(s: AuthStrategy, h: AuthHandler) {
    match s
    case UniversalMachineIdentity => h.clientId != "" || h.clientSecret != ""
    case AwsIamMachineIdentity => h.identityId != ""
    case AzureMachineIdentity => h.identityId != ""
    case GcpIdTokenMachineIdentity => h.identityId != ""
    case GcpIamMachineIdentity => h.identityId != "" || h.serviceAccountKeyfilePath != ""
    case _ => false
  }

  /** The login request each wired strategy sends. */
  function RequestFor(s: AuthStrategy, h: AuthHandler): LoginRequest
    requires s.IsWired()
  {
    match s
    case UniversalMachineIdentity => UniversalAuthLogin(h.clientId, h.clientSecret)
    case AwsIamMachineIdentity => AwsIamAuthLogin(h.identityId)
    case AzureMachineIdentity => AzureAuthLogin(h.identityId, h.resource)
    case GcpIdTokenMachineIdentity => GcpIdTokenAuthLogin(h.identityId)
    case GcpIamMachineIdentity => GcpIamAuthLogin(h.identityId, h.serviceAccountKeyfilePath)
    case _ => assert false; UniversalAuthLogin("", "")
  }

  /** The strategy map of login(): the handler bound to each wired tag. A
      handler that does not apply makes no call; one that applies makes
      exactly its own call and answers with its own tag or a real error. */
  function Handler(s: AuthStrategy, h: AuthHandler, login: LoginBackend): (r: HandlerResult)
    requires s.IsWired()
    ensures r.NotApplicable() <==> !Applicable(s, h)
    ensures !Applicable(s, h) ==> r.calls == []
    ensures Applicable(s, h) ==> r.Attempted(s, RequestFor(s, h), login)
  {
    match s
    case UniversalMachineIdentity => HandleUniversalAuth(h, login)
    case AwsIamMachineIdentity => HandleAwsIamAuth(h, login)
    case AzureMachineIdentity => HandleAzureAuth(h, login)
    case GcpIdTokenMachineIdentity => HandleGcpIdTokenAuth(h, login)
    case GcpIamMachineIdentity => HandleGcpIamAuth(h, login)
    case _ => assert false; NotApplicableResult()
  }

  // ---------------------------------------------------------------------------
  // login()

  /** What login() returns: Success(tag) stands for a nil error, the tag being
      the one it logs; Failure(e) for the error e. */
  datatype LoginResult = LoginResult(outcome: Result<AuthStrategy, AuthError>, calls: seq<LoginRequest>)

  /** An iteration order of the strategy map: each of the five wired
      strategies exactly once. */
  predicate IsIterationOrder(order: seq<AuthStrategy>) {
    && |order| == 5
    && (forall s :: s in order <==> s.IsWired())
    && (forall i, j :: 0 <= i < j < |order| ==> order[i] != order[j])
  }

  /** The loop of login() over the strategies still to visit. */
  function LoginFrom(order: seq<AuthStrategy>, h: AuthHandler, login: LoginBackend): (r: LoginResult)
    requires forall s :: s in order ==> s.IsWired()
    ensures |r.calls| <= 1
    ensures r.outcome.Success? ==> r.outcome.value in order
    ensures r.outcome == Failure(NoValidAuthentication) ==> r.calls == []
  {
    if order == [] then LoginResult(Failure(NoValidAuthentication), [])
    else
      var hr := Handler(order[0], h, login);
      if hr.details.Success? then LoginResult(Success(hr.details.value), hr.calls)
      else if !ErrorsIs(hr.details.error, ErrAuthNotApplicable) then
        LoginResult(Failure(StrategyFailed(order[0], hr.details.error)), hr.calls)
      else
        var rest := LoginFrom(order[1..], h, login);
        LoginResult(rest.outcome, hr.calls + rest.calls)
  }

  /** login() for one iteration order of its strategy map. At most one
      backend login call is made, and a reported tag is a wired strategy. */
  function Login(h: AuthHandler, order: seq<AuthStrategy>, login: LoginBackend): (r: LoginResult)
    requires IsIterationOrder(order)
    ensures |r.calls| <= 1
    ensures r.outcome.Success? ==> r.outcome.value.IsWired()
  {
    LoginFrom(order, h, login)
  }

  // ---------------------------------------------------------------------------
  // login() is a first-match search

  /** The position of the first applicable strategy in `order`, if any. */
  function FirstApplicable(order: seq<AuthStrategy>, h: AuthHandler): (r: Option<nat>)
    ensures r.Some? ==> r.value < |order| && Applicable(order[r.value], h)
    ensures r.Some? ==> forall j :: 0 <= j < r.value ==> !Applicable(order[j], h)
    ensures r.None? ==> forall j :: 0 <= j < |order| ==> !Applicable(order[j], h)
  {
    if order == [] then None
    else if Applicable(order[0], h) then Some(0)
    else
      match FirstApplicable(order[1..], h)
      case None => None
      case Some(i) => Some(i + 1)
  }

  /** A position holding an applicable strategy with none before it is the
      one FirstApplicable finds. */
  lemma FirstApplicableAt(order: seq<AuthStrategy>, h: AuthHandler, i: nat)
    requires i < |order| && Applicable(order[i], h)
    requires forall j :: 0 <= j < i ==> !Applicable(order[j], h)
    ensures FirstApplicable(order, h) == Some(i)
  {
  }

  /** The outcome of the search once the first applicable strategy is known:
      exactly its one call; its tag on acceptance, otherwise its error wrapped
      with its tag. */
  predicate SettledBy(r: LoginResult, s: AuthStrategy, h: AuthHandler, login: LoginBackend)
    requires s.IsWired()
  {
    && r.calls == [RequestFor(s, h)]
    && (login(RequestFor(s, h)).LoginAccepted? ==> r.outcome == Success(s))
    && (login(RequestFor(s, h)).LoginRejected? ==>
          r.outcome == Failure(StrategyFailed(s, Handler(s, h, login).details.error)))
  }

  /** The loop returns what the first applicable strategy's handler returns,
      and "no valid authentication provided" after no call when none applies. */
  lemma {:induction false} LoginFromIsFirstMatch(order: seq<AuthStrategy>, h: AuthHandler, login: LoginBackend)
    requires forall s :: s in order ==> s.IsWired()
    ensures FirstApplicable(order, h).None? ==>
      LoginFrom(order, h, login) == LoginResult(Failure(NoValidAuthentication), [])
    ensures FirstApplicable(order, h).Some? ==>
      SettledBy(LoginFrom(order, h, login), order[FirstApplicable(order, h).value], h, login)
  {
    if order != [] {
      var hr := Handler(order[0], h, login);
      if !Applicable(order[0], h) {
        assert forall s :: s in order[1..] ==> s in order;
        LoginFromIsFirstMatch(order[1..], h, login);
        assert order[1..][0..] == order[1..];
      }
    }
  }

  /** login() returns nil exactly when the first applicable strategy of the
      iteration order logs in, and it then reports that strategy. */
  lemma LoginSucceedsIff(h: AuthHandler, order: seq<AuthStrategy>, login: LoginBackend)
    requires IsIterationOrder(order)
    ensures var first := FirstApplicable(order, h);
      Login(h, order, login).outcome.Success? <==>
        first.Some? && login(RequestFor(order[first.value], h)).LoginAccepted?
    ensures var first := FirstApplicable(order, h);
      Login(h, order, login).outcome.Success? ==> Login(h, order, login).outcome.value == order[first.value]
  {
    LoginFromIsFirstMatch(order, h, login);
  }

  /** When the first applicable strategy's login fails, login() fails naming
      that strategy, and no later strategy's login is attempted. */
  lemma LoginStopsAtFirstFailure(h: AuthHandler, order: seq<AuthStrategy>, login: LoginBackend, i: nat)
    requires IsIterationOrder(order)
    requires i < |order| && Applicable(order[i], h)
    requires forall j :: 0 <= j < i ==> !Applicable(order[j], h)
    requires login(RequestFor(order[i], h)).LoginRejected?
    ensures Login(h, order, login).calls == [RequestFor(order[i], h)]
    ensures Login(h, order, login).outcome.Failure?
    ensures Login(h, order, login).outcome.error.StrategyFailed?
    ensures Login(h, order, login).outcome.error.strategy == order[i]
    ensures !ErrorsIs(Login(h, order, login).outcome.error.cause, ErrAuthNotApplicable)
  {
    LoginFromIsFirstMatch(order, h, login);
    FirstApplicableAt(order, h, i);
  }

  /** No wired strategy applies to these credentials. */
  predicate NoStrategyApplicable(h: AuthHandler) {
    forall s: AuthStrategy :: s.IsWired() ==> !Applicable(s, h)
  }

  /** No strategy applies exactly when client id, client secret, identity id
      and key file path are all empty; the Azure resource alone enables none. */
  lemma NoStrategyApplicableIff(h: AuthHandler)
    ensures NoStrategyApplicable(h) <==>
      h.clientId == "" && h.clientSecret == "" && h.identityId == "" && h.serviceAccountKeyfilePath == ""
  {
    if NoStrategyApplicable(h) {
      assert !Applicable(UniversalMachineIdentity, h);
      assert !Applicable(GcpIamMachineIdentity, h);
    }
  }

  /** With no strategy applicable, login() reports "no valid authentication
      provided" after zero login calls; otherwise it reports something else. */
  lemma LoginNoneApplicable(h: AuthHandler, order: seq<AuthStrategy>, login: LoginBackend)
    requires IsIterationOrder(order)
    ensures NoStrategyApplicable(h) ==>
      Login(h, order, login) == LoginResult(Failure(NoValidAuthentication), [])
    ensures Login(h, order, login).outcome == Failure(NoValidAuthentication) ==> NoStrategyApplicable(h)
  {
    LoginFromIsFirstMatch(order, h, login);
    if NoStrategyApplicable(h) {
      assert forall j :: 0 <= j < |order| ==> order[j] in order;
    } else {
      var s: AuthStrategy :| s.IsWired() && Applicable(s, h);
      assert s in order;
      var k :| 0 <= k < |order| && order[k] == s;
      assert Applicable(order[k], h);
    }
  }

  /** If at most one strategy applies, the iteration order does not matter. */
  lemma OrderIrrelevantWhenOneApplies(h: AuthHandler, o1: seq<AuthStrategy>, o2: seq<AuthStrategy>, login: LoginBackend)
    requires IsIterationOrder(o1) && IsIterationOrder(o2)
    requires forall s: AuthStrategy, t: AuthStrategy :: s.IsWired() && t.IsWired() && Applicable(s, h) && Applicable(t, h) ==> s == t
    ensures Login(h, o1, login) == Login(h, o2, login)
  {
    LoginFromIsFirstMatch(o1, h, login);
    LoginFromIsFirstMatch(o2, h, login);
    var f1, f2 := FirstApplicable(o1, h), FirstApplicable(o2, h);
    if f1.Some? {
      var s := o1[f1.value];
      assert s in o2;
      var k :| 0 <= k < |o2| && o2[k] == s;
      assert Applicable(o2[k], h);
      assert o2[f2.value] in o2;
    } else {
      forall j | 0 <= j < |o2| ensures !Applicable(o2[j], h) {
        assert o2[j] in o2;
        assert o2[j] in o1;
        var k :| 0 <= k < |o1| && o1[k] == o2[j];
      }
    }
  }

  /** With only an identity id configured, the four identity-based strategies
      all apply, and login() attempts whichever of them the map yields first. */
  lemma IdentityIdOnly(h: AuthHandler, order: seq<AuthStrategy>, login: LoginBackend)
    requires IsIterationOrder(order)
    requires h.identityId != "" && h.clientId == "" && h.clientSecret == ""
    ensures !Applicable(UniversalMachineIdentity, h)
    ensures forall s: AuthStrategy :: s.IsWired() && s != UniversalMachineIdentity ==> Applicable(s, h)
    ensures var s := if order[0] == UniversalMachineIdentity then order[1] else order[0];
      s != UniversalMachineIdentity && s.IsWired() && SettledBy(Login(h, order, login), s, h, login)
  {
    assert order[0] in order && order[1] in order;
    LoginFromIsFirstMatch(order, h, login);
    var first := FirstApplicable(order, h);
    if order[0] == UniversalMachineIdentity {
      assert first == Some(1);
    } else {
      assert first == Some(0);
    }
  }

  /** Two iteration orders can resolve the same credentials to different
      strategies: login() has no fixed precedence. */
  lemma OutcomeDependsOnOrder()
    ensures var h := AuthHandler("id", "secret", "identity", "", "");
      var acceptAll := (r: LoginRequest) => LoginAccepted;
      && IsIterationOrder(UniversalFirst())
      && IsIterationOrder(AwsIamFirst())
      && Login(h, UniversalFirst(), acceptAll).outcome == Success(UniversalMachineIdentity)
      && Login(h, AwsIamFirst(), acceptAll).outcome == Success(AwsIamMachineIdentity)
  {
  }

  function UniversalFirst(): seq<AuthStrategy> {
    [UniversalMachineIdentity, AwsIamMachineIdentity, AzureMachineIdentity,
     GcpIdTokenMachineIdentity, GcpIamMachineIdentity]
  }

  function AwsIamFirst(): seq<AuthStrategy> {
    [AwsIamMachineIdentity, UniversalMachineIdentity, AzureMachineIdentity,
     GcpIdTokenMachineIdentity, GcpIamMachineIdentity]
  }
}
