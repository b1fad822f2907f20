/**
 * The authentication middleware's decisions: whether a request must log
 * in, what a refused request gets back, and the redirect cookie written
 * on the way to the login page.
 *
 * The request context is a record of the flags the handlers read; the
 * response is a value instead of a write to the connection.
 */
module AuthMiddleware {
  import opened Wrappers
  import JsNumber

  datatype AuthOptions = AuthOptions(reqGrafanaAdmin: bool, reqSignedIn: bool, reqNoAnonymous: bool)

  datatype ReqContext = ReqContext(
    isApiRequest: bool, allowAnonymous: bool, isSignedIn: bool, isGrafanaAdmin: bool,
    orgId: int, orgRole: string, requestUri: string,
    /** The URL's query parameters, each with its values in order. */
    query: map<string, seq<string>>,
    /** `LookupTokenErr` is a `TokenRevokedError`, with its `MaxConcurrentSessions`. */
    tokenRevoked: Option<int>)

  /** What a handler does to the response. */
  datatype Response =
    | Pass
    | JsonError(status: int, message: string)
    | TokenRevokedJson(maxConcurrentSessions: int)
    | Redirect(location: string, redirectCookie: Option<string>)

  // ---------------------------------------------------------------------
  // Query parameters and Go's number parsing
  // ---------------------------------------------------------------------

  /** `URL.Query().Get(key)`: the first value, "" when there is none. */
  function QueryGet(query: map<string, seq<string>>, key: string): (v: string)
    ensures key !in query || |query[key]| == 0 ==> v == ""
    ensures key in query && |query[key]| > 0 ==> v == query[key][0]
  {
    if key in query && |query[key]| > 0 then query[key][0] else ""
  }

  /** `strconv.ParseBool`. */
  function ParseBool(s: string): (r: Option<bool>)
  {
    if s in {"1", "t", "T", "TRUE", "true", "True"} then Some(true)
    else if s in {"0", "f", "F", "FALSE", "false", "False"} then Some(false)
    else None
  }

  /** `strconv.FormatBool`. */
  function FormatBool(b: bool): string
  {
    if b then "true" else "false"
  }

  lemma ParseFormatBool(b: bool)
    ensures ParseBool(FormatBool(b)) == Some(b)
  {
  }

  const MinInt64: int := -0x8000_0000_0000_0000
  const MaxInt64: int := 0x7FFF_FFFF_FFFF_FFFF

  predicate AllDecimal(s: string)
  {
    forall i :: 0 <= i < |s| ==> JsNumber.IsDecimal(s[i])
  }

  /** `strconv.ParseInt(s, 10, 64)`: an optional sign and digits only, within `int64`. */
  function ParseInt64(s: string): (r: Option<int>)
    ensures r.Some? ==> MinInt64 <= r.value <= MaxInt64
  {
    var negative := |s| > 0 && s[0] == '-';
    var body := if |s| > 0 && (s[0] == '-' || s[0] == '+') then s[1..] else s;
    if |body| == 0 || !AllDecimal(body) then None
    else
      var v := JsNumber.RunValue(body);
      var n: int := if negative then -(v as int) else v;
      if MinInt64 <= n <= MaxInt64 then Some(n) else None
  }

  /** Every `int64` reads back from its decimal form. */
  lemma ParseInt64OfIntToString(i: int)
    requires MinInt64 <= i <= MaxInt64
    ensures ParseInt64(JsNumber.IntToString(i)) == Some(i)
  {
    var m: nat := if i < 0 then -i else i;
    var d := JsNumber.NatToString(m);
    assert AllDecimal(d) && |d| > 0;
    assert JsNumber.RunValue(d) == m by {
      JsNumber.DecimalValue(m);
    }
    var s := JsNumber.IntToString(i);
    if i < 0 {
      assert s == "-" + d;
      assert s[0] == '-' && s[1..] == d;
    } else {
      assert s == d;
      assert s[0] != '-' && s[0] != '+';
    }
  }

  /** A text with anything but digits after the sign is an error. */
  lemma ParseInt64RejectsNonDigits(s: string, k: nat)
    requires 0 < k < |s| && !JsNumber.IsDecimal(s[k])
    ensures ParseInt64(s).None?
  {
    var body := if s[0] == '-' || s[0] == '+' then s[1..] else s;
    if s[0] == '-' || s[0] == '+' {
      assert body[k - 1] == s[k];
    } else {
      assert body[k] == s[k];
    }
  }

  // ---------------------------------------------------------------------
  // forceLogin
  // ---------------------------------------------------------------------

  /** `shouldForceLogin(c)`: the parsed `forceLogin` parameter, false when it does not parse. */
  function ShouldForceLogin(c: ReqContext): (r: bool)
    ensures r <==> ParseBool(QueryGet(c.query, "forceLogin")) == Some(true)
  {
    match ParseBool(QueryGet(c.query, "forceLogin"))
    case Some(b) => b
    case None => false
  }

  /**
   * With anonymous access, a login is forced by `forceLogin`, or by an
   * `orgId` parameter naming another organisation.
   */
  predicate ForceLogin(c: ReqContext)
  {
    c.allowAnonymous
    && (ShouldForceLogin(c)
        || (var orgId := ParseInt64(QueryGet(c.query, "orgId"));
            orgId.Some? && orgId.value > 0 && orgId.value != c.orgId))
  }

  /** `requireLogin`. */
  predicate RequireLogin(c: ReqContext, options: AuthOptions)
  {
    !c.allowAnonymous || ForceLogin(c) || options.reqNoAnonymous
  }

  const ForceLoginParam: string := "forceLogin=true"
  const AmpForceLoginParam: string := "&forceLogin=true"

  predicate StartsWith(s: string, p: string)
  {
    |s| >= |p| && s[..|p|] == p
  }

  /**
   * `removeForceLoginParams(str)`: the matches of `&?forceLogin=true`,
   * leftmost first and not overlapping, replaced by nothing.
   */
  function RemoveForceLoginParams(s: string): (r: string)
    ensures |r| <= |s|
    decreases |s|
  {
    if |s| == 0 then ""
    else if StartsWith(s, AmpForceLoginParam) then RemoveForceLoginParams(s[|AmpForceLoginParam|..])
    else if StartsWith(s, ForceLoginParam) then RemoveForceLoginParams(s[|ForceLoginParam|..])
    else [s[0]] + RemoveForceLoginParams(s[1..])
  }

  /** Nothing to remove: the text stays as it is. */
  lemma {:induction false} RemoveNothing(s: string)
    requires forall i :: 0 <= i <= |s| ==> !StartsWith(s[i..], ForceLoginParam)
    ensures RemoveForceLoginParams(s) == s
  {
    if |s| > 0 {
      assert s[0..] == s;
      AmpThenPlain(s);
      assert s[1..] == s[1..][0..];
      forall i | 0 <= i <= |s[1..]| ensures !StartsWith(s[1..][i..], ForceLoginParam) {
        assert s[1..][i..] == s[i + 1..];
      }
      RemoveNothing(s[1..]);
    }
  }

  lemma AmpThenPlain(s: string)
    requires |s| > 0
    ensures StartsWith(s, AmpForceLoginParam) ==> StartsWith(s[1..], ForceLoginParam)
  {
    if StartsWith(s, AmpForceLoginParam) {
      assert s[1..][..|ForceLoginParam|] == s[..|AmpForceLoginParam|][1..];
    }
  }

  lemma RemoveStepAmp(u: string)
    requires StartsWith(u, AmpForceLoginParam)
    ensures RemoveForceLoginParams(u) == RemoveForceLoginParams(u[|AmpForceLoginParam|..])
  {
  }

  lemma RemoveStepPlain(u: string)
    requires !StartsWith(u, AmpForceLoginParam) && StartsWith(u, ForceLoginParam)
    ensures RemoveForceLoginParams(u) == RemoveForceLoginParams(u[|ForceLoginParam|..])
  {
  }

  lemma RemoveStepOther(u: string)
    requires |u| > 0 && !StartsWith(u, AmpForceLoginParam) && !StartsWith(u, ForceLoginParam)
    ensures RemoveForceLoginParams(u) == [u[0]] + RemoveForceLoginParams(u[1..])
  {
  }

  /**
   * No match runs across the start of a `&forceLogin=true` parameter: the
   * text before it and the text after it are cleaned separately and the
   * parameter itself disappears.
   */
  lemma RemoveDropsParam(s: string, t: string)
    ensures RemoveForceLoginParams(s + AmpForceLoginParam + t)
      == RemoveForceLoginParams(s) + RemoveForceLoginParams(t)
  {
    var x := AmpForceLoginParam + t;
    assert s + AmpForceLoginParam + t == s + x;
    assert x[..|AmpForceLoginParam|] == AmpForceLoginParam && x[|AmpForceLoginParam|..] == t;
    RemoveBeforeMatch(s, x);
  }

  /** The same, for any `x` that starts with the parameter. */
  lemma {:induction false} RemoveBeforeMatch(s: string, x: string)
    requires StartsWith(x, AmpForceLoginParam)
    ensures RemoveForceLoginParams(s + x)
      == RemoveForceLoginParams(s) + RemoveForceLoginParams(x[|AmpForceLoginParam|..])
    decreases |s|
  {
    var b := RemoveForceLoginParams(x[|AmpForceLoginParam|..]);
    if |s| == 0 {
      assert s + x == x;
      RemoveStepAmp(x);
    } else if StartsWith(s, AmpForceLoginParam) || StartsWith(s, ForceLoginParam) {
      var n := if StartsWith(s, AmpForceLoginParam) then |AmpForceLoginParam| else |ForceLoginParam|;
      assert RemoveForceLoginParams(s + x) == RemoveForceLoginParams(s[n..] + x) by {
        SkipStep(s, x, n);
      }
      assert RemoveForceLoginParams(s) == RemoveForceLoginParams(s[n..]) by {
        if StartsWith(s, AmpForceLoginParam) {
          RemoveStepAmp(s);
        } else {
          RemoveStepPlain(s);
        }
      }
      RemoveBeforeMatch(s[n..], x);
    } else {
      var a := RemoveForceLoginParams(s[1..]);
      assert RemoveForceLoginParams(s + x) == [s[0]] + RemoveForceLoginParams(s[1..] + x) by {
        KeepStep(s, x);
      }
      assert RemoveForceLoginParams(s) == [s[0]] + a by {
        RemoveStepOther(s);
      }
      RemoveBeforeMatch(s[1..], x);
      assert [s[0]] + (a + b) == ([s[0]] + a) + b;
    }
  }

  /** Skipping a match at the start of `s` also skips it at the start of `s + x`. */
  lemma SkipStep(s: string, x: string, n: nat)
    requires |s| > 0 && StartsWith(x, AmpForceLoginParam)
    requires n == (if StartsWith(s, AmpForceLoginParam) then |AmpForceLoginParam| else |ForceLoginParam|)
    requires StartsWith(s, AmpForceLoginParam) || StartsWith(s, ForceLoginParam)
    ensures RemoveForceLoginParams(s + x) == RemoveForceLoginParams(s[n..] + x)
  {
    SkipPrefix(s, x, n);
    if StartsWith(s, AmpForceLoginParam) {
      RemoveStepAmp(s + x);
    } else {
      NotAmpStart(s, x);
      RemoveStepPlain(s + x);
    }
  }

  /** Keeping the first character of `s` also keeps it at the start of `s + x`. */
  lemma KeepStep(s: string, x: string)
    requires |s| > 0 && StartsWith(x, AmpForceLoginParam)
    requires !StartsWith(s, AmpForceLoginParam) && !StartsWith(s, ForceLoginParam)
    ensures RemoveForceLoginParams(s + x) == [s[0]] + RemoveForceLoginParams(s[1..] + x)
  {
    NotAmpStart(s, x);
    NotPlainStart(s, x);
    SkipPrefix(s, x, 1);
    RemoveStepOther(s + x);
    assert (s + x)[0] == s[0];
  }

  lemma SkipPrefix(s: string, x: string, n: nat)
    requires n <= |s|
    ensures (s + x)[..n] == s[..n] && (s + x)[n..] == s[n..] + x
    ensures StartsWith(s, AmpForceLoginParam) ==> StartsWith(s + x, AmpForceLoginParam)
    ensures StartsWith(s, ForceLoginParam) ==> StartsWith(s + x, ForceLoginParam)
  {
    if StartsWith(s, AmpForceLoginParam) {
      assert (s + x)[..|AmpForceLoginParam|] == s[..|AmpForceLoginParam|];
    }
    if StartsWith(s, ForceLoginParam) {
      assert (s + x)[..|ForceLoginParam|] == s[..|ForceLoginParam|];
    }
  }

  /** A match at the start of `s + x`, where `x` begins the parameter, lies inside `s`. */
  lemma NotAmpStart(s: string, x: string)
    requires |s| > 0 && StartsWith(x, AmpForceLoginParam)
    requires !StartsWith(s, AmpForceLoginParam)
    ensures !StartsWith(s + x, AmpForceLoginParam)
  {
    if |s| < |AmpForceLoginParam| {
      assert (s + x)[|s|] == x[0] == '&';
      assert AmpForceLoginParam[|s|] != '&';
    } else {
      assert (s + x)[..|AmpForceLoginParam|] == s[..|AmpForceLoginParam|];
    }
  }

  lemma NotPlainStart(s: string, x: string)
    requires |s| > 0 && StartsWith(x, AmpForceLoginParam)
    requires !StartsWith(s, ForceLoginParam)
    ensures !StartsWith(s + x, ForceLoginParam)
  {
    if |s| < |ForceLoginParam| {
      assert (s + x)[|s|] == x[0] == '&';
      assert ForceLoginParam[|s|] != '&';
    } else {
      assert (s + x)[..|ForceLoginParam|] == s[..|ForceLoginParam|];
    }
  }

  // ---------------------------------------------------------------------
  // url.QueryEscape
  // ---------------------------------------------------------------------

  /** A byte of a Go string. */
  type Byte = b: int | 0 <= b < 256

  /** The UTF-8 encoding of one character: Go strings hold these bytes. */
  function Utf8Char(c: char): (bs: seq<Byte>)
    ensures 1 <= |bs| <= 4
    ensures (c as int < 0x80) <==> (|bs| == 1 && bs[0] == c as int)
  {
    var n := c as int;
    if n < 0x80 then [n]
    else if n < 0x800 then [0xC0 + n / 64, 0x80 + n % 64]
    else if n < 0x10000 then [0xE0 + n / 4096, 0x80 + (n / 64) % 64, 0x80 + n % 64]
    else [0xF0 + n / 262144, 0x80 + (n / 4096) % 64, 0x80 + (n / 64) % 64, 0x80 + n % 64]
  }

  /** The UTF-8 bytes of a string. */
  function Utf8(s: string): seq<Byte>
  {
    if s == [] then [] else Utf8Char(s[0]) + Utf8(s[1..])
  }

  /** The bytes `QueryEscape` writes as they are: letters, digits and `-`, `_`, `.`, `~`. */
  predicate Unreserved(b: Byte)
  {
    ('A' as int <= b <= 'Z' as int) || ('a' as int <= b <= 'z' as int) || ('0' as int <= b <= '9' as int)
    || b == '-' as int || b == '_' as int || b == '.' as int || b == '~' as int
  }

  const HexDigits: string := "0123456789ABCDEF"

  /** One byte escaped: itself when unreserved, `+` for a space, `%XX` in upper-case hex otherwise. */
  function EscapeByte(b: Byte): (s: string)
    ensures |s| == 1 || |s| == 3
  {
    if Unreserved(b) then [b as char]
    else if b == 0x20 then "+"
    else ['%', HexDigits[b / 16], HexDigits[b % 16]]
  }

  /** `url.QueryEscape` on the bytes of a string. */
  function QueryEscape(bs: seq<Byte>): (s: string)
    ensures forall i :: 0 <= i < |s| ==> CookieSafe(s[i])
  {
    if bs == [] then []
    else
      EscapeByteSafe(bs[0]);
      var r := QueryEscape(bs[1..]);
      var e := EscapeByte(bs[0]);
      assert forall i :: 0 <= i < |e + r| ==> (e + r)[i] == if i < |e| then e[i] else r[i - |e|];
      e + r
  }

  /** Characters an escaped value may hold: the unreserved ones, `%` and `+`; never `;`, a space or a quote. */
  predicate CookieSafe(c: char)
  {
    c == '%' || c == '+' || (c as int < 0x80 && Unreserved(c as int))
  }

  lemma EscapeByteSafe(b: Byte)
    ensures forall i :: 0 <= i < |EscapeByte(b)| ==> CookieSafe(EscapeByte(b)[i])
  {
  }

  /** The value of a hexadecimal digit, either case, or None. */
  function HexValue(c: char): (v: Option<nat>)
    ensures v.Some? ==> v.value < 16
  {
    if '0' <= c <= '9' then Some(c as int - '0' as int)
    else if 'A' <= c <= 'F' then Some(c as int - 'A' as int + 10)
    else if 'a' <= c <= 'f' then Some(c as int - 'a' as int + 10)
    else None
  }

  /**
   * `url.QueryUnescape`: `%XX` is the byte it names, `+` a space, any
   * other character its own UTF-8 bytes; a `%` without two hexadecimal
   * digits after it is an error.
   */
  function QueryUnescape(s: string): Option<seq<Byte>>
    decreases |s|
  {
    if s == [] then Some([])
    else if s[0] == '%' then
      if |s| >= 3 && HexValue(s[1]).Some? && HexValue(s[2]).Some? then
        match QueryUnescape(s[3..])
        case None => None
        case Some(rest) => Some([HexValue(s[1]).value * 16 + HexValue(s[2]).value] + rest)
      else None
    else
      match QueryUnescape(s[1..])
      case None => None
      case Some(rest) => Some((if s[0] == '+' then [0x20] else Utf8Char(s[0])) + rest)
  }

  lemma UnescapeEscapedByte(b: Byte, rest: string)
    ensures QueryUnescape(EscapeByte(b) + rest) ==
      match QueryUnescape(rest)
      case None => None
      case Some(r) => Some([b] + r)
  {
    var e := EscapeByte(b);
    if Unreserved(b) {
      assert (e + rest)[0] == b as char && (e + rest)[1..] == rest;
    } else if b == 0x20 {
      assert (e + rest)[0] == '+' && (e + rest)[1..] == rest;
    } else {
      assert (e + rest)[0] == '%' && (e + rest)[1] == HexDigits[b / 16] && (e + rest)[2] == HexDigits[b % 16];
      assert (e + rest)[3..] == rest;
      HexDigitValue(b / 16);
      HexDigitValue(b % 16);
    }
  }

  lemma HexDigitValue(d: nat)
    requires d < 16
    ensures HexValue(HexDigits[d]) == Some(d)
  {
  }

  /** Unescaping an escaped value gives back its bytes. */
  lemma {:induction false} QueryEscapeRoundTrip(bs: seq<Byte>)
    ensures QueryUnescape(QueryEscape(bs)) == Some(bs)
  {
    if bs != [] {
      QueryEscapeRoundTrip(bs[1..]);
      UnescapeEscapedByte(bs[0], QueryEscape(bs[1..]));
      assert [bs[0]] + bs[1..] == bs;
    }
  }

  // ---------------------------------------------------------------------
  // Responses
  // ---------------------------------------------------------------------

  /**
   * `writeRedirectCookie(c)`: the cookie value, None when nothing is
   * written. The value is the cleaned target, query-escaped.
   */
  function RedirectCookie(c: ReqContext, appSubUrl: string): (r: Option<string>)
    ensures r.None? <==> RedirectTarget(c, appSubUrl) == "/"
    ensures r.Some? ==> forall i :: 0 <= i < |r.value| ==> CookieSafe(r.value[i])
    ensures r.Some? ==>
      QueryUnescape(r.value) == Some(Utf8(RemoveForceLoginParams(RedirectTarget(c, appSubUrl))))
  {
    var redirectTo := RedirectTarget(c, appSubUrl);
    if redirectTo == "/" then None
    else
      var cleaned := RemoveForceLoginParams(redirectTo);
      QueryEscapeRoundTrip(Utf8(cleaned));
      Some(QueryEscape(Utf8(cleaned)))
  }

  /** The text `writeRedirectCookie` cleans: the request URI under the sub-path. */
  function RedirectTarget(c: ReqContext, appSubUrl: string): (to: string)
    ensures StartsWith(to, appSubUrl)
    ensures StartsWith(c.requestUri, appSubUrl) ==> to == c.requestUri
  {
    if appSubUrl != "" && !StartsWith(c.requestUri, appSubUrl) then
      var to := appSubUrl + c.requestUri;
      assert to[..|appSubUrl|] == appSubUrl;
      to
    else
      assert appSubUrl == "" ==> c.requestUri[..0] == appSubUrl;
      c.requestUri
  }

  /**
   * A target without a `forceLogin=true` is written escaped but otherwise
   * as it is: unescaping the cookie gives back the target's bytes.
   */
  lemma RedirectCookieKeepsCleanTarget(c: ReqContext, appSubUrl: string)
    requires RedirectTarget(c, appSubUrl) != "/"
    requires var to := RedirectTarget(c, appSubUrl);
      forall i :: 0 <= i <= |to| ==> !StartsWith(to[i..], ForceLoginParam)
    ensures RedirectCookie(c, appSubUrl) == Some(QueryEscape(Utf8(RedirectTarget(c, appSubUrl))))
    ensures QueryUnescape(RedirectCookie(c, appSubUrl).value) == Some(Utf8(RedirectTarget(c, appSubUrl)))
  {
    RemoveNothing(RedirectTarget(c, appSubUrl));
  }

  /** `/` is escaped as `%2F` and a space as `+`; letters are kept. */
  lemma EscapeExample()
    ensures QueryEscape(Utf8("/a b")) == "%2Fa+b"
  {
    var bs := Utf8("/a b");
    assert bs == [0x2F, 0x61, 0x20, 0x62];
    assert EscapeByte(0x2F) == "%2F";
    assert EscapeByte(0x61) == "a" && EscapeByte(0x20) == "+" && EscapeByte(0x62) == "b";
    assert QueryEscape(bs[3..]) == "b";
    assert QueryEscape(bs[2..]) == "+b";
    assert QueryEscape(bs[1..]) == "a+b";
  }

  /** `accessForbidden(c)`. */
  function AccessForbidden(c: ReqContext, appSubUrl: string): (r: Response)
    ensures c.isApiRequest ==> r == JsonError(403, "Permission denied")
    ensures !c.isApiRequest ==> r == Redirect(appSubUrl + "/", None)
  {
    if c.isApiRequest then JsonError(403, "Permission denied") else Redirect(appSubUrl + "/", None)
  }

  /** `notAuthorized(c)`. */
  function NotAuthorized(c: ReqContext, appSubUrl: string): (r: Response)
    ensures c.isApiRequest ==> r == JsonError(401, "Unauthorized")
    ensures !c.isApiRequest ==> r == Redirect(appSubUrl + "/login", RedirectCookie(c, appSubUrl))
  {
    if c.isApiRequest then JsonError(401, "Unauthorized")
    else Redirect(appSubUrl + "/login", RedirectCookie(c, appSubUrl))
  }

  /** `tokenRevoked(c, err)`. */
  function TokenRevoked(c: ReqContext, appSubUrl: string, maxSessions: int): (r: Response)
    ensures c.isApiRequest ==> r == TokenRevokedJson(maxSessions)
    ensures !c.isApiRequest ==> r == NotAuthorized(c, appSubUrl)
  {
    if c.isApiRequest then TokenRevokedJson(maxSessions)
    else Redirect(appSubUrl + "/login", RedirectCookie(c, appSubUrl))
  }

  // ---------------------------------------------------------------------
  // The handlers
  // ---------------------------------------------------------------------

  /** `Auth(options)` applied to a request: the local flags, then the two refusals. */
  method Auth(options: AuthOptions, c: ReqContext, appSubUrl: string) returns (r: Response)
    ensures !c.isSignedIn && options.reqSignedIn && RequireLogin(c, options) ==>
      r == (if c.tokenRevoked.Some? then TokenRevoked(c, appSubUrl, c.tokenRevoked.value)
            else NotAuthorized(c, appSubUrl))
    ensures !(!c.isSignedIn && options.reqSignedIn && RequireLogin(c, options)) ==>
      r == (if !c.isGrafanaAdmin && options.reqGrafanaAdmin then AccessForbidden(c, appSubUrl) else Pass)
  {
    var forceLogin := false;
    if c.allowAnonymous {
      forceLogin := ShouldForceLogin(c);
      if !forceLogin {
        var orgIdValue := QueryGet(c.query, "orgId");
        var orgId := ParseInt64(orgIdValue);
        if orgId.Some? && orgId.value > 0 && orgId.value != c.orgId {
          forceLogin := true;
        }
      }
    }
    var requireLogin := !c.allowAnonymous || forceLogin || options.reqNoAnonymous;
    if !c.isSignedIn && options.reqSignedIn && requireLogin {
      if c.tokenRevoked.Some? {
        return TokenRevoked(c, appSubUrl, c.tokenRevoked.value);
      }
      return NotAuthorized(c, appSubUrl);
    }
    if !c.isGrafanaAdmin && options.reqGrafanaAdmin {
      return AccessForbidden(c, appSubUrl);
    }
    return Pass;
  }

  /** `RoleAuth(roles...)` applied to a request: the search loop with its `break`. */
  method RoleAuth(roles: seq<string>, c: ReqContext, appSubUrl: string) returns (r: Response)
    ensures c.orgRole in roles ==> r == Pass
    ensures c.orgRole !in roles ==> r == AccessForbidden(c, appSubUrl)
  {
    var ok := false;
    for i := 0 to |roles|
      invariant !ok ==> c.orgRole !in roles[..i]
      invariant ok ==> c.orgRole in roles
    {
      if roles[i] == c.orgRole {
        ok := true;
        break;
      }
    }
    if !ok {
      assert roles[..|roles|] == roles;
      return AccessForbidden(c, appSubUrl);
    }
    return Pass;
  }
}
