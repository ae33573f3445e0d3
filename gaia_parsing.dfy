/**
 * The static parsers of the Gaia authentication fetcher: ClientLogin bodies
 * are newline-separated `key=value` lines, from which a success response
 * yields SID, LSID and Auth, and a failure response yields Error, Url,
 * CaptchaUrl and CaptchaToken. The second-factor marker and the
 * `oauth_code` cookie of the ClientLogin-to-OAuth2 exchange are parsed here
 * too.
 */
module GaiaParsing {
  import opened Wrappers
  import opened Strings

  datatype KeyValue = KeyValue(key: string, value: string)

  /**
   * The pair a body line carries: the key runs up to the first '=', the
   * value is everything after it. A line without '=' (a blank line in
   * particular) carries none.
   */
  function LinePair(line: string): (r: Option<KeyValue>)
    ensures r.Some? <==> '=' in line
    ensures r.Some? ==> '=' !in r.value.key && line == r.value.key + "=" + r.value.value
  {
    match IndexOf(line, '=')
    case None => None
    case Some(i) =>
      assert line == line[..i] + "=" + line[i + 1..];
      Some(KeyValue(line[..i], line[i + 1..]))
  }

  /** `key=value` is read back as the pair it was written from. */
  lemma LinePairOfEntry(key: string, value: string)
    requires '=' !in key
    ensures LinePair(key + "=" + value) == Some(KeyValue(key, value))
  {
    var line := key + "=" + value;
    assert line[..|key|] == key;
    IndexOfFirst(line, '=', |key|);
  }

  /** The first occurrence is the one with none before it. */
  lemma IndexOfFirst(s: string, c: char, i: nat)
    requires i < |s| && s[i] == c && c !in s[..i]
    ensures IndexOf(s, c) == Some(i)
  {
  }

  function LinePairs(lines: seq<string>): seq<KeyValue>
  {
    if lines == [] then []
    else
      (match LinePair(lines[0]) case None => [] case Some(kv) => [kv]) + LinePairs(lines[1..])
  }

  lemma {:induction false} LinePairsConcat(x: seq<string>, y: seq<string>)
    ensures LinePairs(x + y) == LinePairs(x) + LinePairs(y)
  {
    if x != [] {
      assert (x + y)[0] == x[0];
      assert (x + y)[1..] == x[1..] + y;
      LinePairsConcat(x[1..], y);
      var head := match LinePair(x[0]) case None => [] case Some(kv) => [kv];
      AppendAssoc(head, LinePairs(x[1..]), LinePairs(y));
    } else {
      assert x + y == y;
    }
  }

  /** The key/value pairs of a body, in line order. */
  function BodyPairs(body: string): seq<KeyValue>
  {
    LinePairs(Split(body, '\n'))
  }

  /** Two bodies joined by a newline yield the pairs of the first, then those of the second. */
  lemma BodyPairsConcat(a: string, b: string)
    ensures BodyPairs(a + "\n" + b) == BodyPairs(a) + BodyPairs(b)
  {
    SplitConcat(a, b, '\n');
    LinePairsConcat(Split(a, '\n'), Split(b, '\n'));
  }

  lemma BodyPairsOfEmpty()
    ensures BodyPairs("") == []
  {
    assert Split("", '\n') == [""];
    assert LinePair("") == None;
  }

  lemma BodyPairsOfLine(line: string)
    requires '\n' !in line
    ensures BodyPairs(line) == match LinePair(line) case None => [] case Some(kv) => [kv]
  {
    SplitWithoutDelimiter(line, '\n');
    assert LinePairs([line])
        == (match LinePair(line) case None => [] case Some(kv) => [kv]) + LinePairs([]);
  }

  /**
   * The value of the last pair named `key`, or "" when there is none: what a
   * loop over the pairs leaves behind when it assigns every matching value.
   */
  function LastValue(pairs: seq<KeyValue>, key: string): string
  {
    if pairs == [] then ""
    else if pairs[|pairs| - 1].key == key then pairs[|pairs| - 1].value
    else LastValue(pairs[..|pairs| - 1], key)
  }

  predicate HasKey(pairs: seq<KeyValue>, key: string)
  {
    exists i :: 0 <= i < |pairs| && pairs[i].key == key
  }

  predicate UniqueKeys(pairs: seq<KeyValue>)
  {
    forall i, j :: 0 <= i < j < |pairs| ==> pairs[i].key != pairs[j].key
  }

  /** A non-empty answer is the value of some pair with that key. */
  lemma {:induction false} LastValueComesFromPair(pairs: seq<KeyValue>, key: string)
    requires LastValue(pairs, key) != ""
    ensures KeyValue(key, LastValue(pairs, key)) in pairs
  {
    if pairs[|pairs| - 1].key != key {
      LastValueComesFromPair(pairs[..|pairs| - 1], key);
    }
  }

  /** When only one pair carries `key`, its value is the answer, wherever it stands. */
  lemma {:induction false} LastValueOfUniqueKey(pairs: seq<KeyValue>, i: nat)
    requires i < |pairs|
    requires forall j :: 0 <= j < |pairs| && j != i ==> pairs[j].key != pairs[i].key
    ensures LastValue(pairs, pairs[i].key) == pairs[i].value
  {
    if i != |pairs| - 1 {
      var init := pairs[..|pairs| - 1];
      assert init[i] == pairs[i];
      LastValueOfUniqueKey(init, i);
    }
  }

  /** A key no pair carries reads as "". */
  lemma {:induction false} LastValueOfAbsentKey(pairs: seq<KeyValue>, key: string)
    requires !HasKey(pairs, key)
    ensures LastValue(pairs, key) == ""
  {
    if pairs != [] {
      var init := pairs[..|pairs| - 1];
      assert !HasKey(init, key) by {
        forall j | 0 <= j < |init| ensures init[j].key != key { assert init[j] == pairs[j]; }
      }
      LastValueOfAbsentKey(init, key);
    }
  }

  /** The value a body gives `key`: that of its last `key=` line, or "" when it has none. */
  function FieldValue(body: string, key: string): string
  {
    LastValue(BodyPairs(body), key)
  }

  /** A non-empty value is read from a line `key=value` of the body. */
  lemma FieldValueComesFromLine(body: string, key: string)
    requires FieldValue(body, key) != ""
    ensures key + "=" + FieldValue(body, key) in Split(body, '\n')
  {
    LastValueComesFromPair(BodyPairs(body), key);
    PairComesFromLine(Split(body, '\n'), KeyValue(key, FieldValue(body, key)));
  }

  lemma {:induction false} PairComesFromLine(lines: seq<string>, kv: KeyValue)
    requires kv in LinePairs(lines)
    ensures kv.key + "=" + kv.value in lines
  {
    var head := match LinePair(lines[0]) case None => [] case Some(p) => [p];
    assert LinePairs(lines) == head + LinePairs(lines[1..]);
    if kv !in head {
      PairComesFromLine(lines[1..], kv);
    }
  }

  // Writing bodies, for the round-trip statements.

  predicate WellFormedEntry(e: KeyValue)
  {
    '\n' !in e.key && '=' !in e.key && '\n' !in e.value
  }

  predicate WellFormedEntries(es: seq<KeyValue>)
  {
    forall i :: 0 <= i < |es| ==> WellFormedEntry(es[i])
  }

  /** The body whose lines are `key=value` for each entry in turn, without a final newline. */
  function Serialize(es: seq<KeyValue>): string
  {
    if |es| == 0 then ""
    else if |es| == 1 then es[0].key + "=" + es[0].value
    else es[0].key + "=" + es[0].value + "\n" + Serialize(es[1..])
  }

  /** Writing a body line by line. */
  lemma SerializeCons(e: KeyValue, es: seq<KeyValue>)
    requires |es| >= 1
    ensures Serialize([e] + es) == e.key + "=" + e.value + "\n" + Serialize(es)
  {
    assert ([e] + es)[1..] == es;
  }

  /** Parsing a written body gives back its entries, in order. */
  lemma {:induction false} BodyPairsOfSerialize(es: seq<KeyValue>)
    requires WellFormedEntries(es)
    ensures BodyPairs(Serialize(es)) == es
  {
    if |es| == 0 {
      BodyPairsOfEmpty();
    } else {
      var line := es[0].key + "=" + es[0].value;
      BodyPairsOfEntryLine(es[0]);
      if |es| > 1 {
        BodyPairsConcat(line, Serialize(es[1..]));
        BodyPairsOfSerialize(es[1..]);
        assert [es[0]] + es[1..] == es;
      }
    }
  }

  /** One written line is read back as its entry. */
  lemma BodyPairsOfEntryLine(e: KeyValue)
    requires WellFormedEntry(e)
    ensures BodyPairs(e.key + "=" + e.value) == [e]
  {
    NotInConcat(e.key, "=", '\n');
    NotInConcat(e.key + "=", e.value, '\n');
    BodyPairsOfLine(e.key + "=" + e.value);
    LinePairOfEntry(e.key, e.value);
  }

  /**
   * In a written body with one line per key, every key reads as the value
   * of its line, and a key without a line reads as "".
   */
  lemma FieldValueOfSerialize(es: seq<KeyValue>, key: string)
    requires WellFormedEntries(es) && UniqueKeys(es)
    ensures forall i :: 0 <= i < |es| && es[i].key == key ==> FieldValue(Serialize(es), key) == es[i].value
    ensures !HasKey(es, key) ==> FieldValue(Serialize(es), key) == ""
  {
    BodyPairsOfSerialize(es);
    forall i | 0 <= i < |es| && es[i].key == key
      ensures FieldValue(Serialize(es), key) == es[i].value
    {
      LastValueOfUniqueKey(es, i);
    }
    if !HasKey(es, key) {
      LastValueOfAbsentKey(es, key);
    }
  }

  /** Reordering the lines of a body with one line per key changes no value. */
  lemma FieldValueIgnoresLineOrder(es: seq<KeyValue>, reordered: seq<KeyValue>, key: string)
    requires WellFormedEntries(es) && UniqueKeys(es)
    requires WellFormedEntries(reordered) && UniqueKeys(reordered)
    requires multiset(es) == multiset(reordered)
    ensures FieldValue(Serialize(reordered), key) == FieldValue(Serialize(es), key)
  {
    FieldValueOfSerialize(es, key);
    FieldValueOfSerialize(reordered, key);
    if HasKey(es, key) {
      var i :| 0 <= i < |es| && es[i].key == key;
      assert es[i] in multiset(reordered);
      var j :| 0 <= j < |reordered| && reordered[j] == es[i];
    } else {
      assert !HasKey(reordered, key) by {
        forall j | 0 <= j < |reordered| ensures reordered[j].key != key {
          assert reordered[j] in multiset(es);
        }
      }
    }
  }

  /** A final newline is optional. */
  lemma FieldValueIgnoresTrailingNewline(body: string, key: string)
    ensures FieldValue(body + "\n", key) == FieldValue(body, key)
  {
    BodyPairsConcat(body, "");
    BodyPairsOfEmpty();
    assert body + "\n" + "" == body + "\n";
    assert BodyPairs(body) + [] == BodyPairs(body);
  }

  /** Blank lines before a body are ignored. */
  lemma FieldValueIgnoresLeadingNewline(body: string, key: string)
    ensures FieldValue("\n" + body, key) == FieldValue(body, key)
  {
    BodyPairsConcat("", body);
    BodyPairsOfEmpty();
    assert "" + "\n" + body == "\n" + body;
    assert [] + BodyPairs(body) == BodyPairs(body);
  }

  /** A blank line between two lines is ignored. */
  lemma FieldValueIgnoresBlankLine(before: string, after: string, key: string)
    ensures FieldValue(before + "\n\n" + after, key) == FieldValue(before + "\n" + after, key)
  {
    BodyPairsConcat(before, "\n" + after);
    BodyPairsConcat("", after);
    BodyPairsConcat(before, after);
    BodyPairsOfEmpty();
    TwoNewlines();
    AppendAssoc(before, "\n", "\n");
    AppendAssoc(before + "\n", "\n", after);
    assert before + "\n\n" + after == before + "\n" + ("\n" + after);
    assert "" + "\n" == "\n";
    assert BodyPairs("\n" + after) == BodyPairs(after);
    assert BodyPairs(before + "\n\n" + after) == BodyPairs(before + "\n" + after);
  }

  lemma TwoNewlines()
    ensures "\n\n" == "\n" + "\n"
  {
  }

  // ClientLogin success and failure bodies.

  datatype ClientLoginTokens = ClientLoginTokens(sid: string, lsid: string, token: string)

  /** SID, LSID and Auth of a ClientLogin success body; a missing key gives "". */
  function ParseClientLoginResponse(data: string): ClientLoginTokens
  {
    ClientLoginTokens(FieldValue(data, "SID"), FieldValue(data, "LSID"), FieldValue(data, "Auth"))
  }

  datatype ClientLoginFailure =
    ClientLoginFailure(error: string, url: string, captchaUrl: string, captchaToken: string)

  /** Error, Url, CaptchaUrl and CaptchaToken of a ClientLogin failure body; a missing key gives "". */
  function ParseClientLoginFailure(data: string): ClientLoginFailure
  {
    ClientLoginFailure(
      FieldValue(data, "Error"), FieldValue(data, "Url"),
      FieldValue(data, "CaptchaUrl"), FieldValue(data, "CaptchaToken"))
  }

  /**
   * A body with at most one line per key, in any order, yields for SID, LSID
   * and Auth the value of that key's line, or "" when it has none.
   */
  lemma ParseClientLoginResponseOfLines(es: seq<KeyValue>, sid: string, lsid: string, token: string)
    requires WellFormedEntries(es) && UniqueKeys(es)
    requires KeyValue("SID", sid) in es || (!HasKey(es, "SID") && sid == "")
    requires KeyValue("LSID", lsid) in es || (!HasKey(es, "LSID") && lsid == "")
    requires KeyValue("Auth", token) in es || (!HasKey(es, "Auth") && token == "")
    ensures ParseClientLoginResponse(Serialize(es)) == ClientLoginTokens(sid, lsid, token)
    ensures ParseClientLoginResponse(Serialize(es) + "\n") == ClientLoginTokens(sid, lsid, token)
  {
    FieldValueOfSerialize(es, "SID");
    FieldValueOfSerialize(es, "LSID");
    FieldValueOfSerialize(es, "Auth");
    FieldValueIgnoresTrailingNewline(Serialize(es), "SID");
    FieldValueIgnoresTrailingNewline(Serialize(es), "LSID");
    FieldValueIgnoresTrailingNewline(Serialize(es), "Auth");
  }

  /**
   * A body with at most one line per key, in any order, yields for Error,
   * Url, CaptchaUrl and CaptchaToken the value of that key's line, or "".
   */
  lemma ParseClientLoginFailureOfLines(es: seq<KeyValue>, failure: ClientLoginFailure)
    requires WellFormedEntries(es) && UniqueKeys(es)
    requires KeyValue("Error", failure.error) in es || (!HasKey(es, "Error") && failure.error == "")
    requires KeyValue("Url", failure.url) in es || (!HasKey(es, "Url") && failure.url == "")
    requires KeyValue("CaptchaUrl", failure.captchaUrl) in es
          || (!HasKey(es, "CaptchaUrl") && failure.captchaUrl == "")
    requires KeyValue("CaptchaToken", failure.captchaToken) in es
          || (!HasKey(es, "CaptchaToken") && failure.captchaToken == "")
    ensures ParseClientLoginFailure(Serialize(es)) == failure
    ensures ParseClientLoginFailure(Serialize(es) + "\n") == failure
  {
    FieldValueOfSerialize(es, "Error");
    FieldValueOfSerialize(es, "Url");
    FieldValueOfSerialize(es, "CaptchaUrl");
    FieldValueOfSerialize(es, "CaptchaToken");
    FieldValueIgnoresTrailingNewline(Serialize(es), "Error");
    FieldValueIgnoresTrailingNewline(Serialize(es), "Url");
    FieldValueIgnoresTrailingNewline(Serialize(es), "CaptchaUrl");
    FieldValueIgnoresTrailingNewline(Serialize(es), "CaptchaToken");
  }

  /** Leading blank lines and blank lines between lines do not change a success body's tokens. */
  lemma ParseClientLoginResponseIgnoresBlankLines(before: string, after: string)
    ensures ParseClientLoginResponse("\n" + after) == ParseClientLoginResponse(after)
    ensures ParseClientLoginResponse(before + "\n\n" + after) == ParseClientLoginResponse(before + "\n" + after)
  {
    FieldValueIgnoresLeadingNewline(after, "SID");
    FieldValueIgnoresLeadingNewline(after, "LSID");
    FieldValueIgnoresLeadingNewline(after, "Auth");
    FieldValueIgnoresBlankLine(before, after, "SID");
    FieldValueIgnoresBlankLine(before, after, "LSID");
    FieldValueIgnoresBlankLine(before, after, "Auth");
  }

  /** Leading blank lines and blank lines between lines do not change a failure body's fields. */
  lemma ParseClientLoginFailureIgnoresBlankLines(before: string, after: string)
    ensures ParseClientLoginFailure("\n" + after) == ParseClientLoginFailure(after)
    ensures ParseClientLoginFailure(before + "\n\n" + after) == ParseClientLoginFailure(before + "\n" + after)
  {
    FieldValueIgnoresLeadingNewline(after, "Error");
    FieldValueIgnoresLeadingNewline(after, "Url");
    FieldValueIgnoresLeadingNewline(after, "CaptchaUrl");
    FieldValueIgnoresLeadingNewline(after, "CaptchaToken");
    FieldValueIgnoresBlankLine(before, after, "Error");
    FieldValueIgnoresBlankLine(before, after, "Url");
    FieldValueIgnoresBlankLine(before, after, "CaptchaUrl");
    FieldValueIgnoresBlankLine(before, after, "CaptchaToken");
  }

  // The second-factor marker.

  /** The line Gaia adds to a failure body when the password was right but a second factor is needed. */
  const SecondFactor: string := "Info=InvalidSecondFactor"

  /** The body contains the second-factor marker anywhere. */
  predicate IsSecondFactorSuccess(data: string)
  {
    Find(data, SecondFactor).Some?
  }

  /** A body carrying the marker, wherever it stands, is a second-factor success. */
  lemma SecondFactorDetected(before: string, after: string)
    ensures IsSecondFactorSuccess(before + SecondFactor + after)
  {
    FindInserted(before, SecondFactor, after);
  }

  /** Only a body in which the marker occurs is a second-factor success. */
  lemma SecondFactorOnlyWithMarker(data: string)
    ensures IsSecondFactorSuccess(data) <==> exists i :: 0 <= i <= |data| && OccursAt(data, SecondFactor, i)
  {
  }

  /** A body without a capital 'I' cannot carry the marker. */
  lemma NoSecondFactorWithoutI(data: string)
    requires 'I' !in data
    ensures !IsSecondFactorSuccess(data)
  {
    FindAbsentFirstChar(data, SecondFactor);
  }

  // The ClientLogin-to-OAuth2 cookie.

  const CookieCodePrefix: string := "oauth_code="
  const CookieSecure: string := "Secure"
  const CookieHttpOnly: string := "HttpOnly"

  /** Each ';'-separated attribute of a cookie, without surrounding spaces. */
  function CookieParts(cookie: string): seq<string>
  {
    TrimEach(Split(cookie, ';'))
  }

  function TrimEach(raw: seq<string>): (trimmed: seq<string>)
    ensures |trimmed| == |raw|
  {
    if raw == [] then [] else [Trim(raw[0])] + TrimEach(raw[1..])
  }

  /** A cookie written as ';'-separated attributes yields those attributes, trimmed. */
  lemma CookiePartsOfJoin(attributes: seq<string>)
    requires |attributes| >= 1
    requires forall i :: 0 <= i < |attributes| ==> ';' !in attributes[i]
    ensures CookieParts(Join(attributes, ';')) == TrimEach(attributes)
  {
    SplitJoin(attributes, ';');
  }

  /** What follows the code prefix in the first part that starts with it. */
  function FirstCode(parts: seq<string>): (r: Option<string>)
    ensures r.Some? <==> exists i :: 0 <= i < |parts| && StartsWith(parts[i], CookieCodePrefix)
    ensures r.Some? ==> exists i :: 0 <= i < |parts| && parts[i] == CookieCodePrefix + r.value
  {
    if parts == [] then None
    else if StartsWith(parts[0], CookieCodePrefix) then
      assert parts[0] == CookieCodePrefix + parts[0][|CookieCodePrefix|..];
      Some(parts[0][|CookieCodePrefix|..])
    else
      var rest := FirstCode(parts[1..]);
      assert forall i :: 0 < i < |parts| ==> parts[i] == parts[1..][i - 1];
      rest
  }

  /**
   * The authorization code a single cookie carries: only a cookie marked
   * both Secure and HttpOnly counts, and its code is the value of its
   * `oauth_code=` part.
   */
  function CookieAuthCode(cookie: string): Option<string>
  {
    var parts := CookieParts(cookie);
    if CookieSecure !in parts || CookieHttpOnly !in parts then None
    else FirstCode(parts)
  }

  /**
   * A cookie carries a code exactly when it has the Secure and HttpOnly
   * parts and a part starting with the code prefix; the code follows the
   * prefix in such a part.
   */
  lemma CookieAuthCodeParts(cookie: string)
    ensures var parts := CookieParts(cookie);
      CookieAuthCode(cookie).Some? <==>
        (CookieSecure in parts && CookieHttpOnly in parts
         && exists i :: 0 <= i < |parts| && StartsWith(parts[i], CookieCodePrefix))
    ensures CookieAuthCode(cookie).Some? ==> CookieCodePrefix + CookieAuthCode(cookie).value in CookieParts(cookie)
  {
  }

  datatype AuthCodeResult = AuthCodeResult(found: bool, authCode: string)

  /** The code each cookie carries, in cookie order. */
  function CookieCodes(cookies: seq<string>): (codes: seq<Option<string>>)
    ensures |codes| == |cookies|
    ensures forall i :: 0 <= i < |cookies| ==> codes[i] == CookieAuthCode(cookies[i])
  {
    seq(|cookies|, i requires 0 <= i < |cookies| => CookieAuthCode(cookies[i]))
  }

  /** The first code present in `codes` at or after `from`; not found, with an empty code, when there is none. */
  function FirstCodeFrom(codes: seq<Option<string>>, from: nat): (r: AuthCodeResult)
    requires from <= |codes|
    ensures r.found <==> exists i :: from <= i < |codes| && codes[i].Some?
    ensures !r.found ==> r.authCode == ""
    ensures r.found ==> exists i :: from <= i < |codes| && codes[i] == Some(r.authCode)
                                   && forall j :: from <= j < i ==> codes[j].None?
    decreases |codes| - from
  {
    if from == |codes| then AuthCodeResult(false, "")
    else if codes[from].Some? then AuthCodeResult(true, codes[from].value)
    else FirstCodeFrom(codes, from + 1)
  }

  /**
   * Scans the cookies of a ClientLogin-to-OAuth2 response: it succeeds with
   * the code of the first cookie that carries one, and otherwise fails,
   * leaving the code empty.
   */
  function ParseClientLoginToOAuth2Response(cookies: seq<string>): (r: AuthCodeResult)
    ensures r.found <==> exists i :: 0 <= i < |cookies| && CookieAuthCode(cookies[i]).Some?
    ensures !r.found ==> r.authCode == ""
    ensures r.found ==> exists i :: 0 <= i < |cookies| && CookieAuthCode(cookies[i]) == Some(r.authCode)
                                   && forall j :: 0 <= j < i ==> CookieAuthCode(cookies[j]).None?
  {
    FirstCodeFrom(CookieCodes(cookies), 0)
  }

  /** When no cookie carries a code, the scan fails with an empty code. */
  lemma NoCookieCode(cookies: seq<string>)
    requires forall j :: 0 <= j < |cookies| ==> CookieAuthCode(cookies[j]).None?
    ensures ParseClientLoginToOAuth2Response(cookies) == AuthCodeResult(false, "")
  {
  }

  /** The first cookie carrying a code decides the result, whatever follows it. */
  lemma FirstCookieCodeDecides(cookies: seq<string>, i: nat, code: string)
    requires i < |cookies| && CookieAuthCode(cookies[i]) == Some(code)
    requires forall j :: 0 <= j < i ==> CookieAuthCode(cookies[j]).None?
    ensures ParseClientLoginToOAuth2Response(cookies) == AuthCodeResult(true, code)
  {
    var r := ParseClientLoginToOAuth2Response(cookies);
    var k :| 0 <= k < |cookies| && CookieAuthCode(cookies[k]) == Some(r.authCode)
             && forall j :: 0 <= j < k ==> CookieAuthCode(cookies[j]).None?;
    assert k == i;
  }

  /** Four delimiter-free pieces joined by ';' split back into those pieces. */
  lemma SplitFourParts(a: string, b: string, c: string, d: string)
    requires ';' !in a && ';' !in b && ';' !in c && ';' !in d
    ensures Split(a + ";" + b + ";" + c + ";" + d, ';') == [a, b, c, d]
  {
    assert a + ";" + b + ";" + c + ";" + d == a + [';'] + (b + [';'] + (c + [';'] + d));
    SplitConcat(a, b + [';'] + (c + [';'] + d), ';');
    SplitConcat(b, c + [';'] + d, ';');
    SplitConcat(c, d, ';');
    SplitWithoutDelimiter(a, ';');
    SplitWithoutDelimiter(b, ';');
    SplitWithoutDelimiter(c, ';');
    SplitWithoutDelimiter(d, ';');
  }

  /** A character absent from both halves is absent from their concatenation. */
  lemma NotInConcat(x: string, y: string, c: char)
    requires c !in x && c !in y
    ensures c !in x + y
  {
    forall i | 0 <= i < |x + y| ensures (x + y)[i] != c {
      if i >= |x| { assert (x + y)[i] == y[i - |x|]; }
    }
  }

  /** A string that does not end in a space still does not after a prefix is put before it. */
  lemma NoTrailingSpace(prefix: string, s: string)
    requires |prefix| > 0 && prefix[|prefix| - 1] != ' ' && ' ' !in s
    ensures (prefix + s)[|prefix + s| - 1] != ' '
  {
    if |s| > 0 { assert (prefix + s)[|prefix + s| - 1] == s[|s| - 1]; }
  }

  /** The cookie Gaia sets, split at ';'. */
  lemma GaiaCookieSplit(code: string, path: string)
    requires ';' !in code && ';' !in path
    ensures Split(CookieCodePrefix + code + "; Path=" + path + "; Secure; HttpOnly", ';')
         == [CookieCodePrefix + code, " Path=" + path, " Secure", " HttpOnly"]
  {
    var first := CookieCodePrefix + code;
    var second := " Path=" + path;
    assert CookieCodePrefix + code + "; Path=" + path + "; Secure; HttpOnly"
        == first + ";" + second + ";" + " Secure" + ";" + " HttpOnly";
    NotInConcat(CookieCodePrefix, code, ';');
    NotInConcat(" Path=", path, ';');
    SplitFourParts(first, second, " Secure", " HttpOnly");
  }

  lemma TrimEachFour(a: string, b: string, c: string, d: string)
    ensures TrimEach([a, b, c, d]) == [Trim(a), Trim(b), Trim(c), Trim(d)]
  {
    var raw := [a, b, c, d];
    assert raw[1..] == [b, c, d] && raw[2..] == [c, d] && raw[3..] == [d];
    assert TrimEach([d]) == [Trim(d)];
    assert TrimEach([c, d]) == [Trim(c)] + TrimEach([d]);
    assert TrimEach([b, c, d]) == [Trim(b)] + TrimEach([c, d]);
  }

  lemma TrimCookieFlags()
    ensures Trim(" Secure") == CookieSecure && Trim(" HttpOnly") == CookieHttpOnly
  {
    TrimUntouched("Secure");
    TrimUntouched("HttpOnly");
    assert " Secure" == [' '] + "Secure" && " HttpOnly" == [' '] + "HttpOnly";
  }

  lemma TrimCookieValues(code: string, path: string)
    requires ' ' !in code && ' ' !in path
    ensures Trim(CookieCodePrefix + code) == CookieCodePrefix + code
    ensures Trim(" Path=" + path) == "Path=" + path
  {
    NoTrailingSpace(CookieCodePrefix, code);
    TrimUntouched(CookieCodePrefix + code);
    NoTrailingSpace("Path=", path);
    TrimUntouched("Path=" + path);
    assert " Path=" + path == [' '] + ("Path=" + path);
  }

  /** The trimmed parts of the cookie Gaia sets. */
  lemma GaiaCookieParts(code: string, path: string)
    requires ';' !in code && ' ' !in code
    requires ';' !in path && ' ' !in path
    ensures CookieParts(CookieCodePrefix + code + "; Path=" + path + "; Secure; HttpOnly")
         == [CookieCodePrefix + code, "Path=" + path, CookieSecure, CookieHttpOnly]
  {
    GaiaCookieSplit(code, path);
    TrimEachFour(CookieCodePrefix + code, " Path=" + path, " Secure", " HttpOnly");
    TrimCookieFlags();
    TrimCookieValues(code, path);
  }

  /**
   * The cookie Gaia sets, `oauth_code=<code>; Path=<path>; Secure; HttpOnly`,
   * yields its code back.
   */
  lemma AuthCodeCookieRoundTrip(code: string, path: string)
    requires ';' !in code && ' ' !in code
    requires ';' !in path && ' ' !in path
    ensures CookieAuthCode(CookieCodePrefix + code + "; Path=" + path + "; Secure; HttpOnly") == Some(code)
  {
    var first := CookieCodePrefix + code;
    GaiaCookieParts(code, path);
    var parts := [first, "Path=" + path, CookieSecure, CookieHttpOnly];
    assert CookieSecure in parts && CookieHttpOnly in parts;
    assert StartsWith(first, CookieCodePrefix);
    assert first[|CookieCodePrefix|..] == code;
  }
}
