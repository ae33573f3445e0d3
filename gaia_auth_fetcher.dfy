/**
 * The Gaia authentication fetcher: classification of failed responses into
 * GoogleServiceAuthError values, the consumer call each completed fetch
 * leads to, and the pending-fetch state machine, including the two-step
 * exchange of an LSO token (or cookie) for an OAuth2 token pair.
 */
module GaiaAuth {
  import opened Wrappers
  import opened GaiaParsing
  import opened GoogleServiceAuthErrors

  /** Transport status of a finished request: success, or failure with a net error code. */
  datatype RequestStatus = Success | Failed(netError: int)

  /** Base URL a ClientLogin CaptchaUrl is relative to. */
  const CaptchaUrlPrefix: string := "http://www.google.com/accounts/"

  /** ClientLogin error codes and the states they stand for. */
  const ClientLoginErrorCodes: map<string, State> := map[
    "CaptchaRequired" := CaptchaRequired,
    "AccountDeleted" := AccountDeleted,
    "AccountDisabled" := AccountDisabled,
    "BadAuthentication" := InvalidGaiaCredentials,
    "ServiceUnavailable" := ServiceUnavailable]

  /** The short error codes of the OAuthLogin endpoint and the states they stand for. */
  const OAuthLoginErrorCodes: map<string, State> := map[
    "adel" := AccountDeleted,
    "adis" := AccountDisabled,
    "badauth" := InvalidGaiaCredentials,
    "ire" := ServiceUnavailable]

  /** The state a table gives an error code; a code it does not know is SERVICE_UNAVAILABLE. */
  function StateOfCode(table: map<string, State>, code: string): State
  {
    if code in table then table[code] else ServiceUnavailable
  }

  /** The state a ClientLogin Error code stands for, code by code. */
  function ClientLoginState(code: string): (s: State)
    ensures s == StateOfCode(ClientLoginErrorCodes, code)
  {
    if code == "CaptchaRequired" then CaptchaRequired
    else if code == "AccountDeleted" then AccountDeleted
    else if code == "AccountDisabled" then AccountDisabled
    else if code == "BadAuthentication" then InvalidGaiaCredentials
    else ServiceUnavailable  // ServiceUnavailable, and any code not recognised
  }

  /** The state an OAuthLogin short error code stands for, code by code. */
  function OAuthLoginState(code: string): (s: State)
    ensures s == StateOfCode(OAuthLoginErrorCodes, code)
  {
    if code == "adel" then AccountDeleted
    else if code == "adis" then AccountDisabled
    else if code == "badauth" then InvalidGaiaCredentials
    else ServiceUnavailable  // ire, and any code not recognised
  }

  /** The captcha challenge of a ClientLogin failure body; the image URL is resolved under CaptchaUrlPrefix. */
  function CaptchaErrorOf(failure: ClientLoginFailure): AuthError
  {
    FromClientLoginCaptchaChallenge(failure.captchaToken, CaptchaUrlPrefix + failure.captchaUrl, failure.url)
  }

  /**
   * The error a failed ClientLogin-style request reports: a connection
   * error for a transport failure, TWO_FACTOR when the body carries the
   * second-factor marker, and otherwise the state of the body's Error code.
   */
  function GenerateAuthError(data: string, status: RequestStatus): (e: AuthError)
    ensures status.Failed? ==> e == FromConnectionError(status.netError)
    ensures status.Success? && IsSecondFactorSuccess(data) ==> e == ErrorOf(TwoFactor)
    ensures status.Success? && !IsSecondFactorSuccess(data) ==>
      e.state == StateOfCode(ClientLoginErrorCodes, ParseClientLoginFailure(data).error)
    ensures e.state == CaptchaRequired ==> e == CaptchaErrorOf(ParseClientLoginFailure(data))
    ensures e.state != CaptchaRequired && e.state != ConnectionFailed ==> e == ErrorOf(e.state)
  {
    if status.Failed? then FromConnectionError(status.netError)
    else if IsSecondFactorSuccess(data) then ErrorOf(TwoFactor)
    else
      var failure := ParseClientLoginFailure(data);
      var state := ClientLoginState(failure.error);
      if state == CaptchaRequired then CaptchaErrorOf(failure) else ErrorOf(state)
  }

  /** As GenerateAuthError, for the OAuthLogin endpoint's short error codes. */
  function GenerateOAuthLoginError(data: string, status: RequestStatus): (e: AuthError)
    ensures status.Failed? ==> e == FromConnectionError(status.netError)
    ensures status.Success? && IsSecondFactorSuccess(data) ==> e == ErrorOf(TwoFactor)
    ensures status.Success? && !IsSecondFactorSuccess(data) ==>
      e == ErrorOf(StateOfCode(OAuthLoginErrorCodes, ParseClientLoginFailure(data).error))
  {
    if status.Failed? then FromConnectionError(status.netError)
    else if IsSecondFactorSuccess(data) then ErrorOf(TwoFactor)
    else ErrorOf(OAuthLoginState(ParseClientLoginFailure(data).error))
  }

  /**
   * For a body of distinct key=value lines in any order, with or without a
   * final newline and without the second-factor marker, GenerateAuthError
   * classifies the body's Error value by the ClientLogin table, and a
   * captcha challenge carries the body's token, image URL and unlock URL.
   */
  lemma GenerateAuthErrorOfLines(es: seq<KeyValue>, failure: ClientLoginFailure, data: string)
    requires WellFormedEntries(es) && UniqueKeys(es)
    requires KeyValue("Error", failure.error) in es || (!HasKey(es, "Error") && failure.error == "")
    requires KeyValue("Url", failure.url) in es || (!HasKey(es, "Url") && failure.url == "")
    requires KeyValue("CaptchaUrl", failure.captchaUrl) in es
          || (!HasKey(es, "CaptchaUrl") && failure.captchaUrl == "")
    requires KeyValue("CaptchaToken", failure.captchaToken) in es
          || (!HasKey(es, "CaptchaToken") && failure.captchaToken == "")
    requires data == Serialize(es) || data == Serialize(es) + "\n"
    requires !IsSecondFactorSuccess(data)
    ensures GenerateAuthError(data, Success).state == ClientLoginState(failure.error)
    ensures failure.error == "CaptchaRequired" ==>
      GenerateAuthError(data, Success)
        == FromClientLoginCaptchaChallenge(failure.captchaToken, CaptchaUrlPrefix + failure.captchaUrl, failure.url)
    ensures failure.error != "CaptchaRequired" ==>
      GenerateAuthError(data, Success) == ErrorOf(ClientLoginState(failure.error))
  {
    ParseClientLoginFailureOfLines(es, failure);
    assert ParseClientLoginFailure(data) == failure;
  }

  /** The same for GenerateOAuthLoginError and its short codes. */
  lemma GenerateOAuthLoginErrorOfLines(es: seq<KeyValue>, code: string, data: string)
    requires WellFormedEntries(es) && UniqueKeys(es)
    requires KeyValue("Error", code) in es || (!HasKey(es, "Error") && code == "")
    requires data == Serialize(es) || data == Serialize(es) + "\n"
    requires !IsSecondFactorSuccess(data)
    ensures GenerateOAuthLoginError(data, Success) == ErrorOf(OAuthLoginState(code))
  {
    FieldValueOfSerialize(es, "Error");
    FieldValueIgnoresTrailingNewline(Serialize(es), "Error");
  }

  /** Whatever else the body says, the second-factor marker makes both classifiers report TWO_FACTOR. */
  lemma SecondFactorBeatsErrorCode(before: string, after: string)
    ensures GenerateAuthError(before + SecondFactor + after, Success) == ErrorOf(TwoFactor)
    ensures GenerateOAuthLoginError(before + SecondFactor + after, Success) == ErrorOf(TwoFactor)
  {
    SecondFactorDetected(before, after);
  }

  // Completed fetches and the consumer calls they lead to.

  /** The endpoint a fetch went to. */
  datatype RequestKind =
    | ClientLogin
    | IssueAuthToken
    | ClientLoginToOAuth2
    | OAuth2TokenPair
    | TokenAuth
    | MergeSession
    | UberAuthToken
    | OAuthLogin

  /** What a finished fetch hands back: its endpoint, transport status, HTTP code, cookies and body. */
  datatype FetchResponse =
    FetchResponse(source: RequestKind, status: RequestStatus, responseCode: int, cookies: seq<string>, data: string)

  const HttpOk: int := 200

  /** A fetch succeeds when the transport succeeded and the server answered 200. */
  predicate Succeeded(r: FetchResponse)
  {
    r.status.Success? && r.responseCode == HttpOk
  }

  datatype ClientLoginResult = ClientLoginResult(sid: string, lsid: string, token: string, data: string)

  /** The consumer call a completed fetch makes, or none while the OAuth2 exchange goes on. */
  datatype Notification =
    | OnClientLoginSuccess(result: ClientLoginResult)
    | OnClientLoginFailure(error: AuthError)
    | OnIssueAuthTokenSuccess(service: string, authToken: string)
    | OnIssueAuthTokenFailure(service: string, error: AuthError)
    | OnClientOAuthSuccess(tokenPairBody: string)
    | OnClientOAuthFailure(error: AuthError)
    | OnTokenAuthSuccess(cookies: seq<string>, data: string)
    | OnTokenAuthFailure(error: AuthError)
    | OnMergeSessionSuccess(data: string)
    | OnMergeSessionFailure(error: AuthError)
    | OnUberAuthTokenSuccess(data: string)
    | OnUberAuthTokenFailure(error: AuthError)
    | ExchangeContinues

  predicate IsFailure(n: Notification)
  {
    n.OnClientLoginFailure? || n.OnIssueAuthTokenFailure? || n.OnClientOAuthFailure?
    || n.OnTokenAuthFailure? || n.OnMergeSessionFailure? || n.OnUberAuthTokenFailure?
  }

  /** The consumer callbacks, success and failure, that serve one endpoint. */
  predicate ServesEndpoint(n: Notification, kind: RequestKind)
  {
    match kind
    case ClientLogin => n.OnClientLoginSuccess? || n.OnClientLoginFailure?
    case OAuthLogin => n.OnClientLoginSuccess? || n.OnClientLoginFailure?
    case IssueAuthToken => n.OnIssueAuthTokenSuccess? || n.OnIssueAuthTokenFailure?
    case ClientLoginToOAuth2 => n.ExchangeContinues? || n.OnClientOAuthFailure?
    case OAuth2TokenPair => n.OnClientOAuthSuccess? || n.OnClientOAuthFailure?
    case TokenAuth => n.OnTokenAuthSuccess? || n.OnTokenAuthFailure?
    case MergeSession => n.OnMergeSessionSuccess? || n.OnMergeSessionFailure?
    case UberAuthToken => n.OnUberAuthTokenSuccess? || n.OnUberAuthTokenFailure?
  }

  /** The result of a ClientLogin or OAuthLogin success body. */
  function LoginResult(data: string): (result: ClientLoginResult)
    ensures result.data == data
    ensures ClientLoginTokens(result.sid, result.lsid, result.token) == ParseClientLoginResponse(data)
  {
    var tokens := ParseClientLoginResponse(data);
    ClientLoginResult(tokens.sid, tokens.lsid, tokens.token, data)
  }

  /**
   * The consumer call for a completed fetch. `service` is the service the
   * last IssueAuthToken request named.
   */
  function Completion(r: FetchResponse, service: string): (n: Notification)
    ensures ServesEndpoint(n, r.source)
    ensures IsFailure(n) <==> !Succeeded(r)
    ensures n.ExchangeContinues? <==> r.source == ClientLoginToOAuth2 && Succeeded(r)
    ensures IsFailure(n) && r.source == OAuthLogin ==> n.error == GenerateOAuthLoginError(r.data, r.status)
    ensures IsFailure(n) && r.source != OAuthLogin ==> n.error == GenerateAuthError(r.data, r.status)
    ensures n.OnClientLoginSuccess? ==> n.result == LoginResult(r.data)
    ensures n.OnIssueAuthTokenSuccess? || n.OnIssueAuthTokenFailure? ==> n.service == service
    ensures n.OnIssueAuthTokenSuccess? ==> n.authToken == r.data
  {
    var ok := Succeeded(r);
    match r.source
    case ClientLogin =>
      if ok then OnClientLoginSuccess(LoginResult(r.data))
      else OnClientLoginFailure(GenerateAuthError(r.data, r.status))
    case OAuthLogin =>
      if ok then OnClientLoginSuccess(LoginResult(r.data))
      else OnClientLoginFailure(GenerateOAuthLoginError(r.data, r.status))
    case IssueAuthToken =>
      if ok then OnIssueAuthTokenSuccess(service, r.data)
      else OnIssueAuthTokenFailure(service, GenerateAuthError(r.data, r.status))
    case ClientLoginToOAuth2 =>
      if ok then ExchangeContinues
      else OnClientOAuthFailure(GenerateAuthError(r.data, r.status))
    case OAuth2TokenPair =>
      if ok then OnClientOAuthSuccess(r.data)
      else OnClientOAuthFailure(GenerateAuthError(r.data, r.status))
    case TokenAuth =>
      if ok then OnTokenAuthSuccess(r.cookies, r.data)
      else OnTokenAuthFailure(GenerateAuthError(r.data, r.status))
    case MergeSession =>
      if ok then OnMergeSessionSuccess(r.data)
      else OnMergeSessionFailure(GenerateAuthError(r.data, r.status))
    case UberAuthToken =>
      if ok then OnUberAuthTokenSuccess(r.data)
      else OnUberAuthTokenFailure(GenerateAuthError(r.data, r.status))
  }

  /** A transport failure on any endpoint reaches the consumer as a connection error with its code. */
  lemma TransportFailureIsConnectionError(r: FetchResponse, service: string)
    requires r.status.Failed?
    ensures IsFailure(Completion(r, service))
    ensures Completion(r, service).error == FromConnectionError(r.status.netError)
  {
  }

  /** A non-200 answer carrying the second-factor marker reaches the consumer as TWO_FACTOR. */
  lemma RejectedSecondFactorIsTwoFactor(r: FetchResponse, service: string)
    requires r.status.Success? && r.responseCode != HttpOk && IsSecondFactorSuccess(r.data)
    ensures IsFailure(Completion(r, service))
    ensures Completion(r, service).error == ErrorOf(TwoFactor)
  {
  }

  // The fetcher object.

  class GaiaAuthFetcher {
    /** Whether a fetch has been started and has not yet completed. */
    var fetchPending: bool
    /** The endpoint of the most recently started fetch. */
    var pendingKind: RequestKind
    /** The service named by the last IssueAuthToken request. */
    var requestedService: string
    /** The authorization code the last token-pair fetch was started with. */
    var tokenPairAuthCode: string

    constructor ()
      ensures !HasPendingFetch()
      ensures requestedService == "" && tokenPairAuthCode == ""
    {
      fetchPending := false;
      pendingKind := ClientLogin;
      requestedService := "";
      tokenPairAuthCode := "";
    }

    predicate HasPendingFetch()
      reads this
    {
      fetchPending
    }

    /** Marks a fetch to `kind` as started; building and sending the request is not modelled. */
    method StartFetch(kind: RequestKind)
      modifies this
      ensures HasPendingFetch() && pendingKind == kind
      ensures requestedService == old(requestedService) && tokenPairAuthCode == old(tokenPairAuthCode)
    {
      fetchPending := true;
      pendingKind := kind;
    }

    method StartClientLogin()
      modifies this
      ensures HasPendingFetch() && pendingKind == ClientLogin
      ensures requestedService == old(requestedService) && tokenPairAuthCode == old(tokenPairAuthCode)
    {
      StartFetch(ClientLogin);
    }

    method StartIssueAuthToken(service: string)
      modifies this
      ensures HasPendingFetch() && pendingKind == IssueAuthToken
      ensures requestedService == service && tokenPairAuthCode == old(tokenPairAuthCode)
    {
      requestedService := service;
      StartFetch(IssueAuthToken);
    }

    /** First step of the OAuth2 exchange, authenticated by an LSO token. */
    method StartLsoForOAuthLoginTokenExchange()
      modifies this
      ensures HasPendingFetch() && pendingKind == ClientLoginToOAuth2
      ensures requestedService == old(requestedService) && tokenPairAuthCode == old(tokenPairAuthCode)
    {
      StartFetch(ClientLoginToOAuth2);
    }

    /** First step of the OAuth2 exchange, authenticated by the session's cookies. */
    method StartCookieForOAuthLoginTokenExchange()
      modifies this
      ensures HasPendingFetch() && pendingKind == ClientLoginToOAuth2
      ensures requestedService == old(requestedService) && tokenPairAuthCode == old(tokenPairAuthCode)
    {
      StartFetch(ClientLoginToOAuth2);
    }

    /** Second step of the OAuth2 exchange: trade the authorization code for a token pair. */
    method StartOAuth2TokenPairFetch(authCode: string)
      modifies this
      ensures HasPendingFetch() && pendingKind == OAuth2TokenPair
      ensures tokenPairAuthCode == authCode && requestedService == old(requestedService)
    {
      tokenPairAuthCode := authCode;
      StartFetch(OAuth2TokenPair);
    }

    method StartTokenAuth()
      modifies this
      ensures HasPendingFetch() && pendingKind == TokenAuth
      ensures requestedService == old(requestedService) && tokenPairAuthCode == old(tokenPairAuthCode)
    {
      StartFetch(TokenAuth);
    }

    method StartMergeSession()
      modifies this
      ensures HasPendingFetch() && pendingKind == MergeSession
      ensures requestedService == old(requestedService) && tokenPairAuthCode == old(tokenPairAuthCode)
    {
      StartFetch(MergeSession);
    }

    method StartTokenFetchForUberAuthExchange()
      modifies this
      ensures HasPendingFetch() && pendingKind == UberAuthToken
      ensures requestedService == old(requestedService) && tokenPairAuthCode == old(tokenPairAuthCode)
    {
      StartFetch(UberAuthToken);
    }

    method StartOAuthLogin()
      modifies this
      ensures HasPendingFetch() && pendingKind == OAuthLogin
      ensures requestedService == old(requestedService) && tokenPairAuthCode == old(tokenPairAuthCode)
    {
      StartFetch(OAuthLogin);
    }

    /**
     * A fetch has finished: the pending flag drops, and the consumer call
     * is made. A successful first step of the OAuth2 exchange instead
     * starts the token-pair fetch with the code found in its cookies, so
     * a fetch is pending again.
     */
    method OnURLFetchComplete(response: FetchResponse) returns (n: Notification)
      modifies this
      ensures n == Completion(response, old(requestedService))
      ensures HasPendingFetch() <==> n.ExchangeContinues?
      ensures n.ExchangeContinues? ==>
        pendingKind == OAuth2TokenPair
        && tokenPairAuthCode == ParseClientLoginToOAuth2Response(response.cookies).authCode
      ensures !n.ExchangeContinues? ==>
        pendingKind == old(pendingKind) && tokenPairAuthCode == old(tokenPairAuthCode)
      ensures requestedService == old(requestedService)
    {
      fetchPending := false;
      n := Completion(response, requestedService);
      if n.ExchangeContinues? {
        var code := ParseClientLoginToOAuth2Response(response.cookies);
        StartOAuth2TokenPairFetch(code.authCode);
      }
    }
  }

  /**
   * A fresh fetcher serving one single-step request: pending once started,
   * no longer pending once the response arrives.
   */
  method SingleFetch(kind: RequestKind, service: string, response: FetchResponse)
    returns (pendingAfterStart: bool, pendingAfterCompletion: bool, n: Notification)
    requires kind != ClientLoginToOAuth2 && kind != OAuth2TokenPair
    requires response.source == kind
    ensures pendingAfterStart && !pendingAfterCompletion
    ensures n == Completion(response, if kind == IssueAuthToken then service else "")
  {
    var auth := new GaiaAuthFetcher();
    match kind {
      case ClientLogin => auth.StartClientLogin();
      case IssueAuthToken => auth.StartIssueAuthToken(service);
      case TokenAuth => auth.StartTokenAuth();
      case MergeSession => auth.StartMergeSession();
      case UberAuthToken => auth.StartTokenFetchForUberAuthExchange();
      case OAuthLogin => auth.StartOAuthLogin();
    }
    pendingAfterStart := auth.HasPendingFetch();
    n := auth.OnURLFetchComplete(response);
    pendingAfterCompletion := auth.HasPendingFetch();
  }

  /**
   * A fresh fetcher running the two-step OAuth2 exchange: pending once
   * started, still pending after a successful first step (which sends the
   * cookie's authorization code on), and not pending after the second step
   * or after a failed first step, which reports OnClientOAuthFailure.
   */
  method TwoStepExchange(viaCookie: bool, first: FetchResponse, second: FetchResponse)
    returns (pendingAfterStart: bool, pendingAfterFirst: bool, pendingAfterSecond: bool,
             sentCode: string, n: Notification)
    requires first.source == ClientLoginToOAuth2 && second.source == OAuth2TokenPair
    ensures pendingAfterStart && !pendingAfterSecond
    ensures pendingAfterFirst <==> Succeeded(first)
    ensures Succeeded(first) ==>
      sentCode == ParseClientLoginToOAuth2Response(first.cookies).authCode
      && n == Completion(second, "")
      && (n.OnClientOAuthSuccess? <==> Succeeded(second))
    ensures !Succeeded(first) ==>
      n == OnClientOAuthFailure(GenerateAuthError(first.data, first.status))
  {
    var auth := new GaiaAuthFetcher();
    if viaCookie {
      auth.StartCookieForOAuthLoginTokenExchange();
    } else {
      auth.StartLsoForOAuthLoginTokenExchange();
    }
    pendingAfterStart := auth.HasPendingFetch();
    n := auth.OnURLFetchComplete(first);
    pendingAfterFirst := auth.HasPendingFetch();
    sentCode := auth.tokenPairAuthCode;
    if pendingAfterFirst {
      n := auth.OnURLFetchComplete(second);
    }
    pendingAfterSecond := auth.HasPendingFetch();
  }
}
