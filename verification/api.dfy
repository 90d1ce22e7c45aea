/**
 The HTTP client's request interceptor (services/api.ts): before every request
 it reads the stored token and, when there is one, sends it as Bearer
 credentials in the `Authorization` header (section 2.1 of RFC 6750).
 */
module Api {
  import opened Wrappers
  import opened Text
  import opened Http
  import opened Storage

  const AuthorizationName := "Authorization"

  /** The request config the interceptor sees; `headers` may be missing. */
  datatype Config = Config(verb: string, url: string, headers: Option<map<string, string>>, data: Body)

  /** The interceptor's settled promise: the config to send, or the error that aborts the request. */
  datatype Intercepted = Forward(config: Config) | Abort(fault: Fault)

  /** The header value the interceptor writes for `token`. */
  function BearerCredentials(token: string): (h: string)
    ensures |h| == |token| + 7 && h[..7] == "Bearer " && h[7..] == token
  {
    "Bearer " + token
  }

  /** The header a request carries when the store holds `store` and its read completes. */
  function AuthorizationFor(store: Store): (h: Option<string>)
    ensures h.Some? <==> Truthy(Get(store, TokenKey))
    ensures h.Some? ==> h.value == BearerCredentials(store[TokenKey])
  {
    var t := Get(store, TokenKey);
    if Truthy(t) then Some(BearerCredentials(t.value)) else None
  }

  /** The request interceptor: only `headers.Authorization` may change. */
  function Intercept(config: Config, store: Store, read: IoOutcome): (r: Intercepted)
    ensures read.Throws? ==> r == Abort(Fault(None))
    ensures read.Completes? ==> r.Forward?
    ensures r.Forward? ==> r.config == config.(headers := r.config.headers)
    ensures r.Forward? ==> (r.config.headers.None? <==> config.headers.None?)
    ensures r.Forward? && config.headers.Some? ==>
      var before, after := config.headers.value, r.config.headers.value;
      && (forall k | k != AuthorizationName :: (k in after <==> k in before))
      && (forall k | k != AuthorizationName && k in before :: after[k] == before[k])
      && (Truthy(Get(store, TokenKey)) ==> AuthorizationName in after && after[AuthorizationName] == BearerCredentials(store[TokenKey]))
      && (!Truthy(Get(store, TokenKey)) ==> after == before)
  {
    if read.Throws? then Abort(Fault(None))
    else
      match (AuthorizationFor(store), config.headers)
      case (Some(h), Some(headers)) => Forward(config.(headers := Some(headers[AuthorizationName := h])))
      case _ => Forward(config)
  }

  /** `b64token` of section 2.1 of RFC 6750: `1*( ALPHA / DIGIT / "-" / "." / "_" / "~" / "+" / "/" ) *"="`. */
  predicate IsB64Char(c: char) {
    IsAsciiAlnum(c) || c == '-' || c == '.' || c == '_' || c == '~' || c == '+' || c == '/'
  }

  predicate IsB64Token(t: string) {
    && |t| > 0
    && IsB64Char(t[0])
    && (forall i | 0 <= i < |t| :: IsB64Char(t[i]) || t[i] == '=')
    && (forall i, j | 0 <= i < j < |t| :: t[i] == '=' ==> t[j] == '=')
  }

  /** Drops the leading run of spaces (`1*SP` after the scheme). */
  function DropSpaces(s: string): (r: string)
    ensures |r| <= |s| && r == s[|s| - |r|..]
    ensures r != [] ==> r[0] != ' '
    ensures forall i | 0 <= i < |s| - |r| :: s[i] == ' '
  {
    if s != [] && s[0] == ' ' then DropSpaces(s[1..]) else s
  }

  /**
   Reads `credentials = "Bearer" 1*SP b64token` (section 2.1 of RFC 6750), giving
   the token. Only the canonical casing `Bearer`, the one the interceptor writes,
   is read, although the scheme name is case-insensitive in the RFC.
   */
  function ParseBearer(h: string): (t: Option<string>)
    ensures t.Some? ==> && IsB64Token(t.value) && 7 + |t.value| <= |h| && h[..7] == "Bearer "
                        && h[|h| - |t.value|..] == t.value
                        && forall i | 6 <= i < |h| - |t.value| :: h[i] == ' '
  {
    if |h| > 6 && h[..6] == "Bearer" && h[6] == ' ' then
      var t := DropSpaces(h[6..]);
      if IsB64Token(t) then Some(t) else None
    else None
  }

  /** For a token of the RFC's syntax the header written is valid credentials, and reading it back gives the token. */
  lemma BearerRoundTrip(token: string)
    requires IsB64Token(token)
    ensures ParseBearer(BearerCredentials(token)) == Some(token)
  {
  }

  /** The token `"abc.DEF_1="` goes out as `"Bearer abc.DEF_1="`. */
  lemma InterceptExample()
    ensures var c := Config("get", "/auth/me", Some(map[]), map[]);
      Intercept(c, map[TokenKey := "abc.DEF_1="], Completes)
        == Forward(c.(headers := Some(map[AuthorizationName := "Bearer abc.DEF_1="])))
  {
    var store := map[TokenKey := "abc.DEF_1="];
    assert Get(store, TokenKey) == Some("abc.DEF_1=");
    assert BearerCredentials("abc.DEF_1=") == "Bearer abc.DEF_1=";
    assert AuthorizationFor(store) == Some("Bearer abc.DEF_1=");
  }
}
