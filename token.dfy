/**
 * The token service (token-service/internal/token/service.go): a cache of access tokens per
 * account type, and the Robinhood login workflow that obtains a new one. HTTP exchanges are
 * a script of outcomes consumed in order; a request beyond the end of the script fails, as
 * an unreachable server would. Decoded JSON bodies are Json values.
 */
module Token {
  import opened Wrappers

  const Robinhood: string := "robinhood"

  /** One second, in nanoseconds: times are integer nanoseconds. */
  const Second: int := 1_000_000_000

  /** The number of prompt-status checks before the poll gives up waiting. */
  const MaxPromptChecks: nat := 30

  const StatusOK: int := 200

  /** A decoded JSON value, as far as the service inspects it. */
  datatype Json = JString(s: string) | JNumber(n: real) | JObject(fields: map<string, Json>) | JOther

  type Body = map<string, Json>

  /** An HTTP exchange that completed: its status and its decoded body. */
  datatype Reply = Reply(status: int, body: Body)

  type Script = seq<Result<Reply, string>>

  /** The outcome of the k-th request of a run. */
  function Request(script: Script, k: nat): (r: Result<Reply, string>)
    ensures k < |script| ==> r == script[k]
    ensures k >= |script| ==> r.Failure?
  {
    if k < |script| then script[k] else Failure("no response")
  }

  /** `body[key].(string)` with the comma-ok form: a string, or nothing. */
  function StringField(body: Body, key: string): (r: Option<string>)
    ensures r.Some? <==> key in body && body[key].JString?
    ensures r.Some? ==> body[key] == JString(r.value)
  {
    if key in body && body[key].JString? then Some(body[key].s) else None
  }

  /** `body[key].(map[string]interface{})` in the single-value form: a panic (None) unless it is an object. */
  function ObjectField(body: Body, key: string): (r: Option<Body>)
    ensures r.Some? <==> key in body && body[key].JObject?
    ensures r.Some? ==> body[key] == JObject(r.value)
  {
    if key in body && body[key].JObject? then Some(body[key].fields) else None
  }

  /** Go's conversion of a float to an integer, which truncates toward zero. */
  function Truncate(x: real): (r: int)
    ensures x >= 0.0 ==> r as real <= x < r as real + 1.0
    ensures x < 0.0 ==> r as real - 1.0 < x <= r as real
  {
    if x >= 0.0 then x.Floor else -((-x).Floor)
  }

  /** When a token from `body` issued at `now` expires: `expires_in` whole seconds later, none if it is absent. */
  function Expiry(body: Body, now: int): (r: int)
    ensures (r - now) % Second == 0
    ensures !("expires_in" in body && body["expires_in"].JNumber?) ==> r == now
    ensures "expires_in" in body && body["expires_in"].JNumber? && body["expires_in"].n >= 0.0 ==>
              now <= r && ((r - now) / Second) as real <= body["expires_in"].n < ((r - now) / Second + 1) as real
    ensures "expires_in" in body && body["expires_in"].JNumber? && body["expires_in"].n < 0.0 ==> r <= now
  {
    var seconds := if "expires_in" in body && body["expires_in"].JNumber? then body["expires_in"].n else 0.0;
    now + Truncate(seconds) * Second
  }

  // ---------------------------------------------------------------------------------------
  // The login workflow.

  datatype LoginError =
    | InitialRequestFailed
    | MissingTokenAndWorkflow
    | WorkflowNotAMap
    | WorkflowMissingId
    | MachineVerificationFailed
    | NoInquiryId
    | UserViewFailed
    | NoChallengeId
    | PromptCheckFailed
    | PromptStatusNotOK(status: int)
    | UnexpectedChallengeStatus(challengeStatus: string)
    | WorkflowCheckFailed
    | WorkflowNotApproved
    | FinalRequestFailed
    | NoFinalAccessToken

  /** How a login ends: a token and its expiry, an error, or a run-time panic on a malformed reply. */
  datatype LoginOutcome = Issued(accessToken: string, expiresAt: int) | LoginFailed(error: LoginError) | Panicked

  /** The challenge status of a poll reply; Go's unchecked type assertion leaves it empty when absent or not a string. */
  function ChallengeStatus(body: Body): (r: string)
    ensures StringField(body, "challenge_status").Some? ==> r == StringField(body, "challenge_status").value
    ensures StringField(body, "challenge_status").None? ==> r == ""
  {
    match StringField(body, "challenge_status") case Some(s) => s case None => ""
  }

  /** A poll reply that completed with status 200 and the challenge status "issued": the poll goes on. */
  predicate IssuedCheck(r: Result<Reply, string>)
  {
    r.Success? && r.value.status == StatusOK && StringField(r.value.body, "challenge_status") == Some("issued")
  }

  /** How the prompt poll ends: validated, still "issued" after every check, or an error. */
  datatype PollEnd = Validated | StillIssued | PollFailed(error: LoginError)

  /**
   * The prompt poll from request `k`, after `attempt` checks: each check must complete with
   * status 200 and a challenge status of "validated" (done) or "issued" (check again). The
   * result also gives the index of the next request.
   */
  function Poll(script: Script, k: nat, attempt: nat): (r: (PollEnd, nat))
    requires attempt <= MaxPromptChecks
    ensures k <= r.1 <= k + (MaxPromptChecks - attempt)
    ensures r.0 == StillIssued ==> r.1 == k + (MaxPromptChecks - attempt)
    decreases MaxPromptChecks - attempt
  {
    if attempt == MaxPromptChecks then (StillIssued, k)
    else
      match Request(script, k)
      case Failure(_) => (PollFailed(PromptCheckFailed), k + 1)
      case Success(reply) =>
        if reply.status != StatusOK then (PollFailed(PromptStatusNotOK(reply.status)), k + 1)
        else
          var status := ChallengeStatus(reply.body);
          if status == "validated" then (Validated, k + 1)
          else if status != "issued" then (PollFailed(UnexpectedChallengeStatus(status)), k + 1)
          else Poll(script, k + 1, attempt + 1)
  }

  /** The challenge id of the user-view reply; a missing or non-object context or challenge panics. */
  function ChallengeId(body: Body): (r: Option<Option<string>>)
    ensures r.None? <==> ObjectField(body, "context").None?
                         || ObjectField(ObjectField(body, "context").value, "sheriff_challenge").None?
  {
    match ObjectField(body, "context")
    case None => None
    case Some(context) =>
      match ObjectField(context, "sheriff_challenge")
      case None => None
      case Some(challenge) => Some(StringField(challenge, "id"))
  }

  /** The workflow result of the status reply; a missing or non-object type context panics. */
  function WorkflowResult(body: Body): (r: Option<Option<string>>)
    ensures r.None? <==> ObjectField(body, "type_context").None?
  {
    match ObjectField(body, "type_context")
    case None => None
    case Some(context) => Some(StringField(context, "result"))
  }

  /** Steps 5 and 6 of the login from request `k`: the workflow must be approved, and the final reply must hold a token. */
  function Finish(script: Script, k: nat, now: int): (r: (LoginOutcome, nat))
    ensures k + 1 <= r.1 <= k + 2
    ensures r.0.Issued? ==>
              && Request(script, k).Success? && Request(script, k + 1).Success?
              && WorkflowResult(Request(script, k).value.body) == Some(Some("workflow_status_approved"))
              && StringField(Request(script, k + 1).value.body, "access_token") == Some(r.0.accessToken)
              && r.0.expiresAt == Expiry(Request(script, k + 1).value.body, now)
              && r.1 == k + 2
  {
    match Request(script, k)
    case Failure(_) => (LoginFailed(WorkflowCheckFailed), k + 1)
    case Success(view) =>
      match WorkflowResult(view.body)
      case None => (Panicked, k + 1)
      case Some(result) =>
        if result != Some("workflow_status_approved") then (LoginFailed(WorkflowNotApproved), k + 1)
        else
          match Request(script, k + 1)
          case Failure(_) => (LoginFailed(FinalRequestFailed), k + 2)
          case Success(final) =>
            match StringField(final.body, "access_token")
            case None => (LoginFailed(NoFinalAccessToken), k + 2)
            case Some(token) => (Issued(token, Expiry(final.body, now)), k + 2)
  }

  /**
   * fetchRobinhoodToken on a script of replies, at time `now`: the outcome and the number of
   * requests made. A token in the first reply is used directly; otherwise the verification
   * workflow runs: machine verification, user view, prompt poll, workflow check and a final
   * token request.
   */
  function Login(script: Script, now: int): (r: (LoginOutcome, nat))
    ensures 1 <= r.1 <= 3 + MaxPromptChecks + 2
    ensures r.1 > 1 ==> Request(script, 0).Success? && StringField(Request(script, 0).value.body, "access_token").None?
  {
    match Request(script, 0)
    case Failure(_) => (LoginFailed(InitialRequestFailed), 1)
    case Success(first) =>
      var body := first.body;
      match StringField(body, "access_token")
      case Some(token) => (Issued(token, Expiry(body, now)), 1)
      case None =>
        if "verification_workflow" !in body then (LoginFailed(MissingTokenAndWorkflow), 1)
        else if !body["verification_workflow"].JObject? then (LoginFailed(WorkflowNotAMap), 1)
        else if StringField(body["verification_workflow"].fields, "id").None? then (LoginFailed(WorkflowMissingId), 1)
        else
          match Request(script, 1)
          case Failure(_) => (LoginFailed(MachineVerificationFailed), 2)
          case Success(machine) =>
            if StringField(machine.body, "id").None? then (LoginFailed(NoInquiryId), 2)
            else
              match Request(script, 2)
              case Failure(_) => (LoginFailed(UserViewFailed), 3)
              case Success(view) =>
                match ChallengeId(view.body)
                case None => (Panicked, 3)
                case Some(None) => (LoginFailed(NoChallengeId), 3)
                case Some(Some(_)) =>
                  var (pollEnd, k) := Poll(script, 3, 0);
                  if pollEnd.PollFailed? then (LoginFailed(pollEnd.error), k)
                  else Finish(script, k, now)
  }

  /** A token in the first reply is returned at once with its expiry, and no other request is made. */
  lemma DirectToken(script: Script, now: int)
    requires |script| > 0 && script[0].Success?
    requires StringField(script[0].value.body, "access_token").Some?
    ensures Login(script, now) ==
            (Issued(StringField(script[0].value.body, "access_token").value, Expiry(script[0].value.body, now)), 1)
  {
  }

  /**
   * Every token the login yields is the access token of a reply: the first one, or the
   * last request after an approved workflow. The login makes at most 3 + 30 + 2 requests.
   */
  lemma LoginTokenSource(script: Script, now: int)
    ensures var (outcome, used) := Login(script, now);
            && 1 <= used <= 3 + MaxPromptChecks + 2
            && (outcome.Issued? ==>
                  && Request(script, used - 1).Success?
                  && StringField(Request(script, used - 1).value.body, "access_token") == Some(outcome.accessToken)
                  && outcome.expiresAt == Expiry(Request(script, used - 1).value.body, now))
            && (outcome.Issued? && used > 1 ==>
                  && Request(script, 0).Success?
                  && "verification_workflow" in Request(script, 0).value.body
                  && Request(script, 0).value.body["verification_workflow"].JObject?
                  && StringField(Request(script, 0).value.body["verification_workflow"].fields, "id").Some?)
  {
    var r := Login(script, now);
    if r.0.Issued? && r.1 > 1 {
      var k := Poll(script, 3, 0).1;
      assert r == Finish(script, k, now);
    }
  }

  /** Thirty checks that all answer "issued" end the poll without error, after exactly thirty requests. */
  lemma {:induction false} PollAllIssued(script: Script, k: nat, attempt: nat)
    requires attempt <= MaxPromptChecks
    requires forall j | k <= j < k + (MaxPromptChecks - attempt) :: IssuedCheck(Request(script, j))
    ensures Poll(script, k, attempt) == (StillIssued, k + (MaxPromptChecks - attempt))
    decreases MaxPromptChecks - attempt
  {
    if attempt < MaxPromptChecks {
      assert IssuedCheck(Request(script, k));
      assert Poll(script, k, attempt) == Poll(script, k + 1, attempt + 1);
      PollAllIssued(script, k + 1, attempt + 1);
    }
  }

  /** A "validated" check ends the poll at once, after every earlier check said "issued". */
  lemma {:induction false} PollValidated(script: Script, k: nat, attempt: nat, j: nat)
    requires attempt <= MaxPromptChecks && k <= j < k + (MaxPromptChecks - attempt)
    requires forall i | k <= i < j :: IssuedCheck(Request(script, i))
    requires j < |script| && script[j].Success? && script[j].value.status == StatusOK
    requires StringField(script[j].value.body, "challenge_status") == Some("validated")
    ensures Poll(script, k, attempt) == (Validated, j + 1)
    decreases MaxPromptChecks - attempt
  {
    if k < j {
      PollValidated(script, k + 1, attempt + 1, j);
    }
  }

  /**
   * A failed check ends the poll at once with its error, after every earlier check said
   * "issued": a request error, a status other than 200, or a challenge status that is
   * neither "issued" nor "validated".
   */
  lemma {:induction false} PollFailsAt(script: Script, k: nat, attempt: nat, j: nat)
    requires attempt <= MaxPromptChecks && k <= j < k + (MaxPromptChecks - attempt)
    requires forall i | k <= i < j :: IssuedCheck(Request(script, i))
    ensures Request(script, j).Failure? ==> Poll(script, k, attempt) == (PollFailed(PromptCheckFailed), j + 1)
    ensures Request(script, j).Success? && Request(script, j).value.status != StatusOK ==>
              Poll(script, k, attempt) == (PollFailed(PromptStatusNotOK(Request(script, j).value.status)), j + 1)
    ensures Request(script, j).Success? && Request(script, j).value.status == StatusOK
            && ChallengeStatus(Request(script, j).value.body) !in {"issued", "validated"} ==>
              Poll(script, k, attempt) == (PollFailed(UnexpectedChallengeStatus(ChallengeStatus(Request(script, j).value.body))), j + 1)
    decreases MaxPromptChecks - attempt
  {
    if k < j {
      assert IssuedCheck(Request(script, k));
      assert Poll(script, k, attempt) == Poll(script, k + 1, attempt + 1);
      PollFailsAt(script, k + 1, attempt + 1, j);
    }
  }


  /** A reply whose body is a single field. */
  function Single(key: string, value: Json): Result<Reply, string>
  {
    Success(Reply(StatusOK, map[key := value]))
  }

  /** The full workflow of the service's unit test: six replies give the final token, expiring in an hour. */
  lemma WorkflowScenario(now: int)
    ensures Login([Single("verification_workflow", JObject(map["id" := JString("workflow-123")])),
                   Single("id", JString("inquiry-123")),
                   Single("context", JObject(map["sheriff_challenge" := JObject(map["id" := JString("challenge-123")])])),
                   Single("challenge_status", JString("validated")),
                   Single("type_context", JObject(map["result" := JString("workflow_status_approved")])),
                   Success(Reply(StatusOK, map["access_token" := JString("test-token"), "expires_in" := JNumber(3600.0)]))],
                  now)
          == (Issued("test-token", now + 3600 * Second), 6)
  {
    var script := [Single("verification_workflow", JObject(map["id" := JString("workflow-123")])),
                   Single("id", JString("inquiry-123")),
                   Single("context", JObject(map["sheriff_challenge" := JObject(map["id" := JString("challenge-123")])])),
                   Single("challenge_status", JString("validated")),
                   Single("type_context", JObject(map["result" := JString("workflow_status_approved")])),
                   Success(Reply(StatusOK, map["access_token" := JString("test-token"), "expires_in" := JNumber(3600.0)]))];
    assert Login(script, now) == Finish(script, 4, now) by {
      PollValidated(script, 3, 0, 3);
      assert StringField(script[0].value.body, "access_token") == None;
    }
    assert Finish(script, 4, now) == (Issued("test-token", now + 3600 * Second), 6) by {
      assert WorkflowResult(script[4].value.body) == Some(Some("workflow_status_approved"));
      assert Expiry(script[5].value.body, now) == now + 3600 * Second;
    }
  }

  /**
   * The prompt poll as the service runs it: at most thirty checks from request `k`,
   * leaving the loop on "validated" and returning on any error.
   */
  method PollPrompt(script: Script, k: nat) returns (pollEnd: PollEnd, next: nat)
    ensures (pollEnd, next) == Poll(script, k, 0)
  {
    next := k;
    for attempt := 0 to MaxPromptChecks
      invariant next == k + attempt
      invariant Poll(script, next, attempt) == Poll(script, k, 0)
    {
      var response := Request(script, next);
      next := next + 1;
      if response.Failure? {
        return PollFailed(PromptCheckFailed), next;
      }
      if response.value.status != StatusOK {
        return PollFailed(PromptStatusNotOK(response.value.status)), next;
      }
      var status := ChallengeStatus(response.value.body);
      if status == "validated" {
        return Validated, next;
      } else if status != "issued" {
        return PollFailed(UnexpectedChallengeStatus(status)), next;
      }
    }
    pollEnd := StillIssued;
  }

  // ---------------------------------------------------------------------------------------
  // The token cache.

  datatype CachedToken = CachedToken(accessToken: string, expiresAt: int)

  datatype Credentials = Credentials(username: string, password: string)

  datatype TokenError = NoCredentials(accountType: string) | UnsupportedAccount(accountType: string) | FetchFailed(error: LoginError)

  /** What GetToken returns: a token and its expiry, an error, or the panic of a malformed reply. */
  datatype TokenOutcome = Token(accessToken: string, expiresAt: int) | TokenFailed(error: TokenError) | TokenPanic

  /** fetchNewToken: the Robinhood login; None for any other account type, for which no request is made. */
  function FetchNewToken(accountType: string, script: Script, now: int): (r: Option<(LoginOutcome, nat)>)
    ensures r.None? <==> accountType != Robinhood
    ensures r.Some? ==> r.value == Login(script, now)
  {
    if accountType == Robinhood then Some(Login(script, now)) else None
  }

  /**
   * GetToken at time `now`: the outcome, the cache afterwards and the number of requests
   * made. A cached token not yet expired is returned as it is without a request; otherwise,
   * given credentials, a new token is fetched and, only if that succeeds, replaces the entry.
   */
  function GetTokenSpec(cache: map<string, CachedToken>, credentials: map<string, Credentials>,
                        accountType: string, script: Script, now: int)
    : (r: (TokenOutcome, map<string, CachedToken>, nat))
    ensures accountType in cache && now < cache[accountType].expiresAt ==>
              r == (Token(cache[accountType].accessToken, cache[accountType].expiresAt), cache, 0)
    ensures !(accountType in cache && now < cache[accountType].expiresAt) && accountType !in credentials ==>
              r == (TokenFailed(NoCredentials(accountType)), cache, 0)
    ensures !(accountType in cache && now < cache[accountType].expiresAt) && accountType in credentials
            && accountType != Robinhood ==>
              r == (TokenFailed(UnsupportedAccount(accountType)), cache, 0)
    ensures !r.0.Token? ==> r.1 == cache
    ensures r.0.Token? ==> r.1 == cache[accountType := CachedToken(r.0.accessToken, r.0.expiresAt)]
    ensures r.0.Token? && r.2 > 0 ==>
              accountType == Robinhood && Login(script, now).0 == Issued(r.0.accessToken, r.0.expiresAt)
  {
    if accountType in cache && now < cache[accountType].expiresAt then
      (Token(cache[accountType].accessToken, cache[accountType].expiresAt), cache, 0)
    else if accountType !in credentials then (TokenFailed(NoCredentials(accountType)), cache, 0)
    else
      match FetchNewToken(accountType, script, now)
      case None => (TokenFailed(UnsupportedAccount(accountType)), cache, 0)
      case Some((outcome, used)) =>
        match outcome
        case Panicked => (TokenPanic, cache, used)
        case LoginFailed(e) => (TokenFailed(FetchFailed(e)), cache, used)
        case Issued(token, expiresAt) =>
          (Token(token, expiresAt), cache[accountType := CachedToken(token, expiresAt)], used)
  }

  /** A token just fetched is served from the cache, without a request, until it expires. */
  lemma FetchedTokenIsCached(cache: map<string, CachedToken>, credentials: map<string, Credentials>,
                             accountType: string, script: Script, now: int, later: int, other: Script)
    requires GetTokenSpec(cache, credentials, accountType, script, now).0.Token?
    requires later < GetTokenSpec(cache, credentials, accountType, script, now).0.expiresAt
    ensures var (first, cache1, _) := GetTokenSpec(cache, credentials, accountType, script, now);
            GetTokenSpec(cache1, credentials, accountType, other, later) == (first, cache1, 0)
  {
  }

  /** An expired entry is never served: the token comes from a new login or there is none. */
  lemma ExpiredTokenRefetched(cache: map<string, CachedToken>, credentials: map<string, Credentials>,
                              script: Script, now: int)
    requires Robinhood in cache && now >= cache[Robinhood].expiresAt && Robinhood in credentials
    ensures var r := GetTokenSpec(cache, credentials, Robinhood, script, now);
            && r.2 == Login(script, now).1 && r.2 >= 1
            && (r.0.Token? <==> Login(script, now).0.Issued?)
  {
  }

  class TokenService {
    var tokenCache: map<string, CachedToken>
    const credentials: map<string, Credentials>

    /** NewService with the Robinhood credentials of the configuration. */
    constructor (username: string, password: string)
      ensures tokenCache == map[] && credentials == map[Robinhood := Credentials(username, password)]
    {
      tokenCache := map[];
      credentials := map[Robinhood := Credentials(username, password)];
    }

    /** The login, with its prompt poll run as a loop. */
    static method FetchRobinhoodToken(script: Script, now: int) returns (outcome: LoginOutcome, used: nat)
      ensures (outcome, used) == Login(script, now)
    {
      var initial := Request(script, 0);
      if initial.Failure? {
        return LoginFailed(InitialRequestFailed), 1;
      }
      var body := initial.value.body;
      var token := StringField(body, "access_token");
      if token.Some? {
        return Issued(token.value, Expiry(body, now)), 1;
      }
      if "verification_workflow" !in body {
        return LoginFailed(MissingTokenAndWorkflow), 1;
      }
      if !body["verification_workflow"].JObject? {
        return LoginFailed(WorkflowNotAMap), 1;
      }
      if StringField(body["verification_workflow"].fields, "id").None? {
        return LoginFailed(WorkflowMissingId), 1;
      }
      var machine := Request(script, 1);
      if machine.Failure? {
        return LoginFailed(MachineVerificationFailed), 2;
      }
      if StringField(machine.value.body, "id").None? {
        return LoginFailed(NoInquiryId), 2;
      }
      var view := Request(script, 2);
      if view.Failure? {
        return LoginFailed(UserViewFailed), 3;
      }
      var challenge := ChallengeId(view.value.body);
      if challenge.None? {
        return Panicked, 3;
      }
      if challenge.value.None? {
        return LoginFailed(NoChallengeId), 3;
      }
      var pollEnd, k := PollPrompt(script, 3);
      if pollEnd.PollFailed? {
        return LoginFailed(pollEnd.error), k;
      }
      outcome, used := Finish(script, k, now).0, Finish(script, k, now).1;
    }

    method GetToken(accountType: string, script: Script, now: int) returns (outcome: TokenOutcome, requests: nat)
      modifies this`tokenCache
      ensures (outcome, tokenCache, requests) == GetTokenSpec(old(tokenCache), credentials, accountType, script, now)
    {
      if accountType in tokenCache && now < tokenCache[accountType].expiresAt {
        var cached := tokenCache[accountType];
        return Token(cached.accessToken, cached.expiresAt), 0;
      }
      if accountType !in credentials {
        return TokenFailed(NoCredentials(accountType)), 0;
      }
      if accountType != Robinhood {
        return TokenFailed(UnsupportedAccount(accountType)), 0;
      }
      var login, used := FetchRobinhoodToken(script, now);
      requests := used;
      match login
      case Panicked =>
        outcome := TokenPanic;
      case LoginFailed(e) =>
        outcome := TokenFailed(FetchFailed(e));
      case Issued(token, expiresAt) =>
        tokenCache := tokenCache[accountType := CachedToken(token, expiresAt)];
        outcome := Token(token, expiresAt);
    }
  }
}
