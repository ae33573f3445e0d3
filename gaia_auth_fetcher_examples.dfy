/**
 * The bodies, cookies and responses of the fetcher's unit tests, stated
 * for every value the tests fill in (the tests use "sid", "E", "CCTOKEN",
 * "test-code" and so on) and derived from the general lemmas of the
 * parsing and classification modules.
 */
module GaiaAuthExamples {
  import opened Wrappers
  import opened Strings
  import opened GaiaParsing
  import opened GoogleServiceAuthErrors
  import opened GaiaAuth

  /** One body line. */
  function Line(key: string, value: string): string
  {
    key + "=" + value
  }

  /** The body of three lines. */
  lemma SerializeThree(a: KeyValue, b: KeyValue, c: KeyValue)
    ensures Serialize([a, b, c]) == Line(a.key, a.value) + "\n" + Line(b.key, b.value) + "\n" + Line(c.key, c.value)
  {
    SerializeCons(a, [b, c]);
    assert [a] + [b, c] == [a, b, c];
  }

  /** The body of four lines. */
  lemma SerializeFour(a: KeyValue, b: KeyValue, c: KeyValue, d: KeyValue)
    ensures Serialize([a, b, c, d])
         == Line(a.key, a.value) + "\n" + Line(b.key, b.value) + "\n" + Line(c.key, c.value) + "\n" + Line(d.key, d.value)
  {
    SerializeThree(b, c, d);
    SerializeCons(a, [b, c, d]);
    assert [a] + [b, c, d] == [a, b, c, d];
  }

  /** The keys the tests write hold neither '=' nor a newline, so each may stand in a body line. */
  lemma KeysWellFormed()
    ensures '=' !in "SID" && '\n' !in "SID" && '=' !in "LSID" && '\n' !in "LSID"
    ensures '=' !in "Auth" && '\n' !in "Auth" && '=' !in "Error" && '\n' !in "Error"
    ensures '=' !in "Url" && '\n' !in "Url"
    ensures '=' !in "CaptchaUrl" && '\n' !in "CaptchaUrl" && '=' !in "CaptchaToken" && '\n' !in "CaptchaToken"
  {
  }

  // ParseClientLoginResponse.

  /** SID, LSID and Auth lines, with or without a final newline. */
  lemma ParseRequestAllKeys(sid: string, lsid: string, auth: string)
    requires '\n' !in sid && '\n' !in lsid && '\n' !in auth
    ensures ParseClientLoginResponse(Line("SID", sid) + "\n" + Line("LSID", lsid) + "\n" + Line("Auth", auth) + "\n")
         == ClientLoginTokens(sid, lsid, auth)
    ensures ParseClientLoginResponse(Line("SID", sid) + "\n" + Line("LSID", lsid) + "\n" + Line("Auth", auth))
         == ClientLoginTokens(sid, lsid, auth)
  {
    KeysWellFormed();
    var s, l, a := KeyValue("SID", sid), KeyValue("LSID", lsid), KeyValue("Auth", auth);
    SerializeThree(s, l, a);
    ParseClientLoginResponseOfLines([s, l, a], sid, lsid, auth);
  }

  /** The same lines with LSID first. */
  lemma ParseRequestLsidFirst(sid: string, lsid: string, auth: string)
    requires '\n' !in sid && '\n' !in lsid && '\n' !in auth
    ensures ParseClientLoginResponse(Line("LSID", lsid) + "\n" + Line("SID", sid) + "\n" + Line("Auth", auth) + "\n")
         == ClientLoginTokens(sid, lsid, auth)
  {
    KeysWellFormed();
    var s, l, a := KeyValue("SID", sid), KeyValue("LSID", lsid), KeyValue("Auth", auth);
    SerializeThree(l, s, a);
    ParseClientLoginResponseOfLines([l, s, a], sid, lsid, auth);
  }

  /** A missing LSID line reads as "". */
  lemma ParseRequestWithoutLsid(sid: string, auth: string)
    requires '\n' !in sid && '\n' !in auth
    ensures ParseClientLoginResponse(Line("SID", sid) + "\n" + Line("Auth", auth) + "\n") == ClientLoginTokens(sid, "", auth)
  {
    KeysWellFormed();
    var s, a := KeyValue("SID", sid), KeyValue("Auth", auth);
    SerializeCons(s, [a]);
    assert [s] + [a] == [s, a];
    ParseClientLoginResponseOfLines([s, a], sid, "", auth);
  }

  /** A missing SID line reads as "". */
  lemma ParseRequestWithoutSid(lsid: string, auth: string)
    requires '\n' !in lsid && '\n' !in auth
    ensures ParseClientLoginResponse(Line("LSID", lsid) + "\n" + Line("Auth", auth) + "\n") == ClientLoginTokens("", lsid, auth)
  {
    KeysWellFormed();
    var l, a := KeyValue("LSID", lsid), KeyValue("Auth", auth);
    SerializeCons(l, [a]);
    assert [l] + [a] == [l, a];
    ParseClientLoginResponseOfLines([l, a], "", lsid, auth);
  }

  /** A leading blank line is skipped. */
  lemma ParseRequestAfterBlankLine(auth: string)
    requires '\n' !in auth
    ensures ParseClientLoginResponse("\n" + Line("Auth", auth) + "\n") == ClientLoginTokens("", "", auth)
  {
    KeysWellFormed();
    ParseClientLoginResponseOfLines([KeyValue("Auth", auth)], "", "", auth);
    ParseClientLoginResponseIgnoresBlankLines("", Line("Auth", auth) + "\n");
    AppendAssoc("\n", Line("Auth", auth), "\n");
  }

  /** A lone SID line without a final newline. */
  lemma ParseRequestSidOnly(sid: string)
    requires '\n' !in sid
    ensures ParseClientLoginResponse(Line("SID", sid)) == ClientLoginTokens(sid, "", "")
  {
    KeysWellFormed();
    ParseClientLoginResponseOfLines([KeyValue("SID", sid)], sid, "", "");
  }

  // ParseClientLoginFailure.

  /** Url, Error, CaptchaToken and CaptchaUrl lines. */
  lemma ParseErrorRequestUrlFirst(e: string, u: string, c: string, t: string)
    requires '\n' !in e && '\n' !in u && '\n' !in c && '\n' !in t
    ensures ParseClientLoginFailure(
              Line("Url", u) + "\n" + Line("Error", e) + "\n" + Line("CaptchaToken", t) + "\n" + Line("CaptchaUrl", c) + "\n")
         == ClientLoginFailure(e, u, c, t)
  {
    var ke, ku, kc, kt := KeyValue("Error", e), KeyValue("Url", u), KeyValue("CaptchaUrl", c), KeyValue("CaptchaToken", t);
    SerializeFour(ku, ke, kt, kc);
    KeysWellFormed();
    ParseClientLoginFailureOfLines([ku, ke, kt, kc], ClientLoginFailure(e, u, c, t));
  }

  /** The same lines in another order. */
  lemma ParseErrorRequestTokenFirst(e: string, u: string, c: string, t: string)
    requires '\n' !in e && '\n' !in u && '\n' !in c && '\n' !in t
    ensures ParseClientLoginFailure(
              Line("CaptchaToken", t) + "\n" + Line("Error", e) + "\n" + Line("Url", u) + "\n" + Line("CaptchaUrl", c) + "\n")
         == ClientLoginFailure(e, u, c, t)
  {
    KeysWellFormed();
    var ke, ku, kc, kt := KeyValue("Error", e), KeyValue("Url", u), KeyValue("CaptchaUrl", c), KeyValue("CaptchaToken", t);
    SerializeFour(kt, ke, ku, kc);
    ParseClientLoginFailureOfLines([kt, ke, ku, kc], ClientLoginFailure(e, u, c, t));
  }

  /** The same lines again, behind blank lines. */
  lemma ParseErrorRequestBlankLines(e: string, u: string, c: string, t: string)
    requires '\n' !in e && '\n' !in u && '\n' !in c && '\n' !in t
    ensures ParseClientLoginFailure(
              "\n\n\n" + Line("CaptchaToken", t) + "\n\n" + Line("Error", e) + "\n\n" + Line("Url", u) + "\n" + Line("CaptchaUrl", c) + "\n")
         == ClientLoginFailure(e, u, c, t)
  {
    ParseErrorRequestTokenFirst(e, u, c, t);
    WithoutBlankLines(Line("CaptchaToken", t), Line("Error", e), Line("Url", u), Line("CaptchaUrl", c));
  }

  lemma ThreeNewlines()
    ensures "\n\n\n" == "\n" + ("\n" + "\n")
  {
  }

  /** Three leading blank lines do not change what ParseClientLoginFailure reads. */
  lemma LeadingBlankLines(s: string)
    ensures ParseClientLoginFailure("\n\n\n" + s) == ParseClientLoginFailure(s)
  {
    ParseClientLoginFailureIgnoresBlankLines("", s);
    ParseClientLoginFailureIgnoresBlankLines("", "\n" + s);
    ParseClientLoginFailureIgnoresBlankLines("", "\n" + ("\n" + s));
    ThreeNewlines();
    AppendAssoc("\n", "\n" + "\n", s);
    AppendAssoc("\n", "\n", s);
  }

  /** Nor do blank lines after the first two lines. */
  lemma InnerBlankLines(x: string, y: string, tail: string)
    ensures ParseClientLoginFailure(x + "\n\n" + y + "\n\n" + tail) == ParseClientLoginFailure(x + "\n" + y + "\n" + tail)
  {
    ParseClientLoginFailureIgnoresBlankLines(x + "\n\n" + y, tail);
    ParseClientLoginFailureIgnoresBlankLines(x, y + "\n" + tail);
    // x + "\n\n" + y + "\n" + tail, regrouped after the first blank line
    AppendAssoc(x + "\n\n" + y, "\n", tail);
    AppendAssoc(x + "\n\n", y, "\n" + tail);
    AppendAssoc(y, "\n", tail);
    // and x + "\n" + y + "\n" + tail likewise
    AppendAssoc(x + "\n" + y, "\n", tail);
    AppendAssoc(x + "\n", y, "\n" + tail);
  }

  /** Three leading blank lines and two inner ones do not change what ParseClientLoginFailure reads. */
  lemma WithoutBlankLines(x: string, y: string, z: string, w: string)
    ensures ParseClientLoginFailure("\n\n\n" + x + "\n\n" + y + "\n\n" + z + "\n" + w + "\n")
         == ParseClientLoginFailure(x + "\n" + y + "\n" + z + "\n" + w + "\n")
  {
    var tail := z + "\n" + w + "\n";
    var body := x + "\n\n" + y + "\n\n" + tail;
    LeadingBlankLines(body);
    InnerBlankLines(x, y, tail);
    // the blank-line body, regrouped as "\n\n\n" + body
    var b := x + "\n\n" + y;
    ChainRegroup("\n\n\n" + x + "\n\n" + y, "\n\n", z, w);
    AppendAssoc("\n\n\n", x, "\n\n");
    AppendAssoc("\n\n\n", x + "\n\n", y);
    AppendAssoc("\n\n\n", b, "\n\n" + tail);
    AppendAssoc(b, "\n\n", tail);
    // the plain body, regrouped as x + "\n" + y + "\n" + tail
    ChainRegroup(x + "\n" + y, "\n", z, w);
    AppendAssoc(x + "\n" + y, "\n", tail);
  }

  /** `p + q + z + "\n" + w + "\n"`, with what follows `p` grouped and `z + "\n" + w + "\n"` grouped. */
  lemma ChainRegroup(p: string, q: string, z: string, w: string)
    ensures p + q + z + "\n" + w + "\n" == p + (q + (z + "\n" + w + "\n"))
  {
    AppendAssoc(p + q + z + "\n", w, "\n");
    AppendAssoc(p + q + z, "\n", w + "\n");
    AppendAssoc(p + q, z, "\n" + (w + "\n"));
    AppendAssoc(p, q, z + ("\n" + (w + "\n")));
    AppendAssoc(z + "\n", w, "\n");
    AppendAssoc(z, "\n", w + "\n");
  }

  // The second-factor marker.

  /** A body with an error line and the marker line is a second-factor success; the error line alone is not. */
  lemma TwoFactorResponse()
    ensures IsSecondFactorSuccess("Error=BadAuthentication\n" + SecondFactor + "\n")
    ensures !IsSecondFactorSuccess("Error=BadAuthentication\n")
  {
    SecondFactorDetected("Error=BadAuthentication\n", "\n");
    NoSecondFactorWithoutI("Error=BadAuthentication\n");
  }

  /** A 403 ClientLogin answer carrying the marker is reported as TWO_FACTOR. */
  lemma TwoFactorLogin(cookies: seq<string>)
    ensures Completion(FetchResponse(ClientLogin, Success, 403, cookies, "Error=BadAuthentication\n" + SecondFactor + "\n"), "")
         == OnClientLoginFailure(ErrorOf(TwoFactor))
  {
    SecondFactorDetected("Error=BadAuthentication\n", "\n");
  }

  // GenerateAuthError and GenerateOAuthLoginError.

  /** A CaptchaRequired body yields the challenge: its token, the image URL under the accounts base, and the unlock URL. */
  lemma CaptchaParse(url: string, token: string, captchaUrl: string)
    requires '\n' !in url && '\n' !in token && '\n' !in captchaUrl
    requires 'I' !in url && 'I' !in token && 'I' !in captchaUrl
    ensures GenerateAuthError(
              Line("Url", url) + "\n" + Line("Error", "CaptchaRequired") + "\n"
              + Line("CaptchaToken", token) + "\n" + Line("CaptchaUrl", captchaUrl) + "\n",
              Success)
         == FromClientLoginCaptchaChallenge(token, CaptchaUrlPrefix + captchaUrl, url)
  {
    KeysWellFormed();
    var es := [KeyValue("Url", url), KeyValue("Error", "CaptchaRequired"),
               KeyValue("CaptchaToken", token), KeyValue("CaptchaUrl", captchaUrl)];
    SerializeFour(es[0], es[1], es[2], es[3]);
    var data := Serialize(es) + "\n";
    CaptchaBodyHasNoMarker(url, token, captchaUrl, data);
    GenerateAuthErrorOfLines(es, ClientLoginFailure("CaptchaRequired", url, captchaUrl, token), data);
  }

  lemma CaptchaBodyHasNoMarker(url: string, token: string, captchaUrl: string, data: string)
    requires 'I' !in url && 'I' !in token && 'I' !in captchaUrl
    requires data == Line("Url", url) + "\n" + Line("Error", "CaptchaRequired") + "\n"
                   + Line("CaptchaToken", token) + "\n" + Line("CaptchaUrl", captchaUrl) + "\n"
    ensures !IsSecondFactorSuccess(data)
  {
    var a, b, c, d := Line("Url", url), Line("Error", "CaptchaRequired"), Line("CaptchaToken", token), Line("CaptchaUrl", captchaUrl);
    assert 'I' !in a && 'I' !in b && 'I' !in c && 'I' !in d;
    NotInConcat(a + "\n" + b + "\n", c, 'I');
    NotInConcat(a + "\n" + b + "\n" + c + "\n", d, 'I');
    NoSecondFactorWithoutI(data);
  }

  /** A body holding only `Error=<code>` is classified by the ClientLogin table. */
  lemma ClientLoginErrorLine(code: string)
    requires '\n' !in code && 'I' !in code
    ensures GenerateAuthError("Error=" + code + "\n", Success).state == ClientLoginState(code)
    ensures GenerateAuthError("Error=" + code, Success).state == ClientLoginState(code)
  {
    KeysWellFormed();
    var es := [KeyValue("Error", code)];
    NoSecondFactorWithoutI("Error=" + code + "\n");
    GenerateAuthErrorOfLines(es, ClientLoginFailure(code, "", "", ""), "Error=" + code + "\n");
    NoSecondFactorWithoutI("Error=" + code);
    GenerateAuthErrorOfLines(es, ClientLoginFailure(code, "", "", ""), "Error=" + code);
  }

  /** A body holding only `Error=<code>` is classified by the OAuthLogin table. */
  lemma OAuthLoginErrorLine(code: string)
    requires '\n' !in code && 'I' !in code
    ensures GenerateOAuthLoginError("Error=" + code + "\n", Success) == ErrorOf(OAuthLoginState(code))
  {
    KeysWellFormed();
    var es := [KeyValue("Error", code)];
    NoSecondFactorWithoutI("Error=" + code + "\n");
    GenerateOAuthLoginErrorOfLines(es, code, "Error=" + code + "\n");
  }

  /** The codes the tests use, classified code by code. */
  lemma ErrorCodeTables()
    ensures ClientLoginState("AccountDeleted") == AccountDeleted
    ensures ClientLoginState("AccountDisabled") == AccountDisabled
    ensures ClientLoginState("BadAuthentication") == InvalidGaiaCredentials
    ensures ClientLoginState("Gobbledygook") == ServiceUnavailable
    ensures OAuthLoginState("ServiceUnavailable") == ServiceUnavailable
    ensures OAuthLoginState("adel") == AccountDeleted
    ensures OAuthLoginState("adis") == AccountDisabled
    ensures OAuthLoginState("badauth") == InvalidGaiaCredentials
    ensures OAuthLoginState("ire") == ServiceUnavailable
  {
  }

  // Error equality and the consumer calls of single fetches.

  /** net::ERR_CONNECTION_RESET. */
  const ErrConnectionReset: int := -101

  lemma ErrorComparator()
    ensures FromConnectionError(ErrConnectionReset) == FromConnectionError(ErrConnectionReset)
    ensures FromConnectionError(6) != FromConnectionError(ErrConnectionReset)
    ensures ErrorOf(NoError) != FromConnectionError(ErrConnectionReset)
  {
    ConnectionErrorsEqualIffCodesEqual(6, ErrConnectionReset);
    NoErrorIsNotAConnectionError(ErrConnectionReset);
  }

  lemma LoginNetFailure(cookies: seq<string>)
    ensures Completion(FetchResponse(ClientLogin, Failed(ErrConnectionReset), 0, cookies, ""), "")
         == OnClientLoginFailure(FromConnectionError(ErrConnectionReset))
  {
    TransportFailureIsConnectionError(FetchResponse(ClientLogin, Failed(ErrConnectionReset), 0, cookies, ""), "");
  }

  /** IssueAuthToken: a transport failure and a 200 answer, each reported with the requested service. */
  lemma IssueAuthTokenOutcomes(service: string, cookies: seq<string>, token: string)
    ensures Completion(FetchResponse(IssueAuthToken, Failed(ErrConnectionReset), 0, cookies, ""), service)
         == OnIssueAuthTokenFailure(service, FromConnectionError(ErrConnectionReset))
    ensures Completion(FetchResponse(IssueAuthToken, Success, 200, cookies, token), service)
         == OnIssueAuthTokenSuccess(service, token)
  {
  }

  /** TokenAuth: a 200 answer hands over the cookies and the page; a 401 or a transport failure is a failure. */
  lemma TokenAuthOutcomes(cookies: seq<string>, page: string, netError: int)
    ensures Completion(FetchResponse(TokenAuth, Success, 200, cookies, page), "") == OnTokenAuthSuccess(cookies, page)
    ensures Completion(FetchResponse(TokenAuth, Success, 401, cookies, ""), "").OnTokenAuthFailure?
    ensures Completion(FetchResponse(TokenAuth, Failed(netError), 200, cookies, ""), "")
         == OnTokenAuthFailure(FromConnectionError(netError))
  {
  }

  /** MergeSession and the uber-token fetch hand their 200 body to the consumer. */
  lemma SessionOutcomes(cookies: seq<string>, data: string)
    ensures Completion(FetchResponse(MergeSession, Success, 200, cookies, data), "") == OnMergeSessionSuccess(data)
    ensures Completion(FetchResponse(UberAuthToken, Success, 200, cookies, data), "") == OnUberAuthTokenSuccess(data)
  {
  }

  /** A 403 ClientLogin answer `Error=<code>` is reported with the code's state. */
  lemma LoginDenied(code: string, cookies: seq<string>)
    requires '\n' !in code && 'I' !in code && code != "CaptchaRequired"
    ensures Completion(FetchResponse(ClientLogin, Success, 403, cookies, "Error=" + code), "")
         == OnClientLoginFailure(ErrorOf(ClientLoginState(code)))
  {
    ClientLoginErrorLine(code);
  }

  /** A 200 from ClientLogin, or from OAuthLogin which answers alike, reports the parsed tokens and the body. */
  lemma OnlineLogin(sid: string, lsid: string, auth: string, cookies: seq<string>)
    requires '\n' !in sid && '\n' !in lsid && '\n' !in auth
    ensures var data := Line("SID", sid) + "\n" + Line("LSID", lsid) + "\n" + Line("Auth", auth) + "\n";
      Completion(FetchResponse(ClientLogin, Success, 200, cookies, data), "")
        == OnClientLoginSuccess(ClientLoginResult(sid, lsid, auth, data))
      && Completion(FetchResponse(OAuthLogin, Success, 200, cookies, data), "")
        == OnClientLoginSuccess(ClientLoginResult(sid, lsid, auth, data))
  {
    ParseRequestAllKeys(sid, lsid, auth);
  }

  // ParseClientLoginToOAuth2Response.

  /** The test cookies, for a code and a path. */
  function ValidCookie(code: string, path: string): string
  {
    CookieCodePrefix + code + "; Path=" + path + "; Secure; HttpOnly"
  }

  function CookieNoSecure(code: string, path: string): string
  {
    CookieCodePrefix + code + "; Path=" + path + "; HttpOnly"
  }

  function CookieNoHttpOnly(code: string, path: string): string
  {
    CookieCodePrefix + code + "; Path=" + path + "; Secure"
  }

  function CookieNoOAuthCode(path: string): string
  {
    "Path=" + path + "; Secure; HttpOnly"
  }

  lemma SplitThreeParts(a: string, b: string, c: string)
    requires ';' !in a && ';' !in b && ';' !in c
    ensures Split(a + ";" + b + ";" + c, ';') == [a, b, c]
  {
    assert a + ";" + b + ";" + c == a + [';'] + (b + [';'] + c);
    SplitConcat(a, b + [';'] + c, ';');
    SplitConcat(b, c, ';');
    SplitWithoutDelimiter(a, ';');
    SplitWithoutDelimiter(b, ';');
    SplitWithoutDelimiter(c, ';');
  }

  lemma TrimEachThree(a: string, b: string, c: string)
    ensures TrimEach([a, b, c]) == [Trim(a), Trim(b), Trim(c)]
  {
    var raw := [a, b, c];
    assert raw[1..] == [b, c] && raw[2..] == [c];
    assert TrimEach([c]) == [Trim(c)];
    assert TrimEach([b, c]) == [Trim(b)] + TrimEach([c]);
  }

  /** The trimmed parts of a three-part cookie. */
  lemma CookiePartsOfThree(a: string, b: string, c: string)
    requires ';' !in a && ';' !in b && ';' !in c
    ensures CookieParts(a + ";" + b + ";" + c) == [Trim(a), Trim(b), Trim(c)]
  {
    SplitThreeParts(a, b, c);
    TrimEachThree(a, b, c);
  }

  lemma CookieSeparators()
    ensures "; Path=" == ";" + " Path="
    ensures "; Secure" == ";" + " Secure" && "; HttpOnly" == ";" + " HttpOnly"
    ensures "; Secure; HttpOnly" == ";" + " Secure" + ";" + " HttpOnly"
  {
  }

  /** A code part, a path part and one flag, regrouped as three ';'-separated attributes. */
  lemma CookieWithOneFlag(first: string, path: string, flag: string)
    ensures first + "; Path=" + path + (";" + flag) == first + ";" + (" Path=" + path) + ";" + flag
  {
    CookieSeparators();
    AppendAssoc(first, ";", " Path=");
    AppendAssoc(first + ";", " Path=", path);
    AppendAssoc(first + ";" + (" Path=" + path), ";", flag);
  }

  /** A cookie lacking the Secure flag carries no code. */
  lemma CookieNoSecureCarriesNoCode(code: string, path: string)
    requires ';' !in code && ' ' !in code && ';' !in path && ' ' !in path
    ensures CookieAuthCode(CookieNoSecure(code, path)).None?
  {
    var first := CookieCodePrefix + code;
    var second := " Path=" + path;
    NotInConcat(CookieCodePrefix, code, ';');
    NotInConcat(" Path=", path, ';');
    TrimCookieValues(code, path);
    TrimCookieFlags();
    CookieSeparators();
    CookieWithOneFlag(first, path, " HttpOnly");
    CookiePartsOfThree(first, second, " HttpOnly");
    assert CookieSecure !in [first, "Path=" + path, CookieHttpOnly] by {
      assert first[0] == 'o';
      assert ("Path=" + path)[0] == 'P';
    }
  }

  /** A cookie lacking the HttpOnly flag carries no code. */
  lemma CookieNoHttpOnlyCarriesNoCode(code: string, path: string)
    requires ';' !in code && ' ' !in code && ';' !in path && ' ' !in path
    ensures CookieAuthCode(CookieNoHttpOnly(code, path)).None?
  {
    var first := CookieCodePrefix + code;
    var second := " Path=" + path;
    NotInConcat(CookieCodePrefix, code, ';');
    NotInConcat(" Path=", path, ';');
    TrimCookieValues(code, path);
    TrimCookieFlags();
    CookieSeparators();
    CookieWithOneFlag(first, path, " Secure");
    CookiePartsOfThree(first, second, " Secure");
    assert CookieHttpOnly !in [first, "Path=" + path, CookieSecure] by {
      assert first[0] == 'o';
      assert ("Path=" + path)[0] == 'P';
    }
  }

  /** The parts of a cookie without an `oauth_code=` part. */
  lemma CookieNoOAuthCodeParts(path: string)
    requires ';' !in path && ' ' !in path
    ensures CookieParts(CookieNoOAuthCode(path)) == ["Path=" + path, CookieSecure, CookieHttpOnly]
  {
    var pathPart := "Path=" + path;
    NotInConcat("Path=", path, ';');
    TrimCookieFlags();
    NoTrailingSpace("Path=", path);
    TrimUntouched(pathPart);
    CookieSeparators();
    AppendAssoc(pathPart, ";" + " Secure" + ";", " HttpOnly");
    AppendAssoc(pathPart, ";" + " Secure", ";");
    AppendAssoc(pathPart, ";", " Secure");
    CookiePartsOfThree(pathPart, " Secure", " HttpOnly");
  }

  /** A cookie without an `oauth_code=` part carries no code. */
  lemma CookieNoOAuthCodeCarriesNoCode(path: string)
    requires ';' !in path && ' ' !in path
    ensures CookieAuthCode(CookieNoOAuthCode(path)).None?
  {
    var pathPart := "Path=" + path;
    CookieNoOAuthCodeParts(path);
    assert !StartsWith(pathPart, CookieCodePrefix) by { assert pathPart[0] == 'P'; }
    assert !StartsWith(CookieSecure, CookieCodePrefix);
    assert !StartsWith(CookieHttpOnly, CookieCodePrefix);
    assert FirstCode([pathPart, CookieSecure, CookieHttpOnly]).None?;
  }

  /** No cookies: no code. */
  lemma ParseNoCookies()
    ensures ParseClientLoginToOAuth2Response([]) == AuthCodeResult(false, "")
  {
  }

  /** The three incomplete cookies of the test: no code. */
  lemma ParseIncompleteCookies(code: string, path: string)
    requires ';' !in code && ' ' !in code && ';' !in path && ' ' !in path
    ensures ParseClientLoginToOAuth2Response(
              [CookieNoSecure(code, path), CookieNoHttpOnly(code, path), CookieNoOAuthCode(path)])
         == AuthCodeResult(false, "")
  {
    CookieNoSecureCarriesNoCode(code, path);
    CookieNoHttpOnlyCarriesNoCode(code, path);
    CookieNoOAuthCodeCarriesNoCode(path);
    NoCookieCode([CookieNoSecure(code, path), CookieNoHttpOnly(code, path), CookieNoOAuthCode(path)]);
  }

  /** The incomplete cookies followed by a valid one: the valid one's code. */
  lemma ParseValidCookieLast(code: string, path: string)
    requires ';' !in code && ' ' !in code && ';' !in path && ' ' !in path
    ensures ParseClientLoginToOAuth2Response(
              [CookieNoSecure(code, path), CookieNoHttpOnly(code, path), CookieNoOAuthCode(path), ValidCookie(code, path)])
         == AuthCodeResult(true, code)
  {
    AuthCodeCookieRoundTrip(code, path);
    CookieNoSecureCarriesNoCode(code, path);
    CookieNoHttpOnlyCarriesNoCode(code, path);
    CookieNoOAuthCodeCarriesNoCode(path);
    var cookies := [CookieNoSecure(code, path), CookieNoHttpOnly(code, path), CookieNoOAuthCode(path), ValidCookie(code, path)];
    forall j | 0 <= j < 3 ensures CookieAuthCode(cookies[j]).None? {
      if j == 0 {
        assert cookies[j] == CookieNoSecure(code, path);
      } else if j == 1 {
        assert cookies[j] == CookieNoHttpOnly(code, path);
      } else {
        assert cookies[j] == CookieNoOAuthCode(path);
      }
    }
    FirstCookieCodeDecides(cookies, 3, code);
  }

  /** A valid cookie alone: its code. */
  lemma ParseValidCookieOnly(code: string, path: string)
    requires ';' !in code && ' ' !in code && ';' !in path && ' ' !in path
    ensures ParseClientLoginToOAuth2Response([ValidCookie(code, path)]) == AuthCodeResult(true, code)
  {
    AuthCodeCookieRoundTrip(code, path);
    FirstCookieCodeDecides([ValidCookie(code, path)], 0, code);
  }
}
