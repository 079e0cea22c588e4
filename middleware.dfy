/** The HTTP middleware (backend/internal/middleware/middleware.go): the
    `Authorization` check in front of the protected API routes, which demands
    the Bearer scheme of section 2.1 of RFC 6750 and hands the token to the JWT
    parser, and the CORS policy applied to every request. The JWT parser is a
    parameter; headers and context keys are returned as values. */
module Middleware {
  import opened Wrappers

  /** The position of the first space in `s`, if there is one. */
  function FirstSpace(s: string): (r: Option<nat>)
    ensures r.None? <==> forall i :: 0 <= i < |s| ==> s[i] != ' '
    ensures r.Some? ==> r.value < |s| && s[r.value] == ' '
    ensures r.Some? ==> forall i :: 0 <= i < r.value ==> s[i] != ' '
    decreases |s|
  {
    if |s| == 0 then None
    else if s[0] == ' ' then Some(0)
    else match FirstSpace(s[1..])
      case None => None
      case Some(k) => Some(k + 1)
  }

  /** `strings.SplitN(s, " ", 2)`: the text before the first space and everything
      after it, or `[s]` when there is no space. */
  function SplitFirstSpace(s: string): (parts: seq<string>)
    ensures |parts| == 1 || |parts| == 2
    ensures |parts| == 1 <==> ' ' !in s
    ensures |parts| == 1 ==> parts[0] == s
    ensures |parts| == 2 ==> s == parts[0] + " " + parts[1] && ' ' !in parts[0]
  {
    match FirstSpace(s)
    case None => [s]
    case Some(k) =>
      assert s == s[..k] + " " + s[k + 1..];
      [s[..k], s[k + 1..]]
  }

  /** Splitting is the inverse of joining at a first space: a head without spaces,
      a space, then any tail, comes apart into exactly that head and that tail. */
  lemma SplitJoinRoundTrip(head: string, tail: string)
    requires ' ' !in head
    ensures SplitFirstSpace(head + " " + tail) == [head, tail]
  {
    var s := head + " " + tail;
    assert s[|head|] == ' ';
    assert forall i :: 0 <= i < |head| ==> s[i] == head[i];
    var k := FirstSpace(s).value;
    assert k == |head|;
    assert s[..k] == head && s[k + 1..] == tail;
  }

  /** The scheme an `Authorization` header must name. */
  const BearerScheme: string := "Bearer"

  /** A header that starts with "Bearer " splits into the scheme and the rest. */
  lemma BearerPrefixSplits(header: string)
    requires |header| >= 7 && header[..7] == "Bearer "
    ensures SplitFirstSpace(header) == [BearerScheme, header[7..]]
  {
    assert header == BearerScheme + " " + header[7..];
    assert forall i :: 0 <= i < |BearerScheme| ==> BearerScheme[i] != ' ';
    SplitJoinRoundTrip(BearerScheme, header[7..]);
  }

  /** What the middleware hands to the token parser: the text after the first
      space, when the header is non-empty and the text before that space is
      exactly "Bearer" (case-sensitive). */
  function BearerToken(header: string): (r: Option<string>)
    ensures r.Some? <==> |header| >= 7 && header[..7] == "Bearer "
    ensures r.Some? ==> header == "Bearer " + r.value
  {
    if header == "" then None
    else
      var parts := SplitFirstSpace(header);
      if |parts| == 2 && parts[0] == BearerScheme then
        assert header[..7] == "Bearer ";
        Some(parts[1])
      else
        assert !(|header| >= 7 && header[..7] == "Bearer ") by {
          if |header| >= 7 && header[..7] == "Bearer " {
            BearerPrefixSplits(header);
          }
        }
        None
  }

  /** Any header of the form "Bearer " followed by a token yields exactly that
      token, whatever it contains: it may be empty or hold further spaces. The web
      client builds such a header for every non-empty stored token. */
  lemma BearerRoundTrip(token: string)
    ensures BearerToken("Bearer " + token) == Some(token)
  {
    SplitJoinRoundTrip(BearerScheme, token);
    assert BearerScheme + " " + token == "Bearer " + token;
  }

  /** The scheme is compared case-sensitively, and a header without a space
      carries no token. */
  lemma SchemeIsExact(token: string)
    ensures BearerToken("bearer " + token) == None
    ensures BearerToken("Bearer") == None
  {
    assert ("bearer " + token)[0] == 'b';
  }

  /** What the JWT parser extracts from a valid token. */
  datatype Claims = Claims(userId: nat, role: string)

  /** Why a request was refused. */
  datatype AuthFailure = MissingHeader | MalformedHeader | InvalidToken

  /** The middleware's decision: abort with a status, or store `userID` and
      `role` in the request context and continue the chain. */
  datatype AuthDecision = Abort(status: nat, failure: AuthFailure) | Next(userId: nat, role: string)

  const StatusUnauthorized: nat := 401

  /** `AuthMiddleware` on a request whose `Authorization` header is `header`
      ("" when absent); `parse` is the JWT parser with the configured secret,
      `None` standing for its error. */
  function Authenticate(header: string, parse: string -> Option<Claims>): (d: AuthDecision)
    ensures d.Next? <==> BearerToken(header).Some? && parse(BearerToken(header).value).Some?
    ensures d.Next? ==> var c := parse(BearerToken(header).value).value;
      d.userId == c.userId && d.role == c.role
    ensures d.Abort? ==> d.status == StatusUnauthorized
    ensures header == "" ==> d == Abort(StatusUnauthorized, MissingHeader)
    ensures header != "" && BearerToken(header).None? ==> d == Abort(StatusUnauthorized, MalformedHeader)
    ensures BearerToken(header).Some? && parse(BearerToken(header).value).None? ==>
      d == Abort(StatusUnauthorized, InvalidToken)
  {
    if header == "" then Abort(StatusUnauthorized, MissingHeader)
    else match BearerToken(header)
      case None => Abort(StatusUnauthorized, MalformedHeader)
      case Some(token) =>
        match parse(token)
        case None => Abort(StatusUnauthorized, InvalidToken)
        case Some(c) => Next(c.userId, c.role)
  }

  /** Without a well-formed Bearer header the token parser is never consulted:
      the decision is the same whatever the parser would say. */
  lemma ParserOnlySeesBearerTokens(header: string, p: string -> Option<Claims>, q: string -> Option<Claims>)
    requires BearerToken(header).None?
    ensures Authenticate(header, p) == Authenticate(header, q)
    ensures Authenticate(header, p).Abort?
  {
  }

  /** A request from the web client carrying a token the parser accepts goes
      through with that token's claims. */
  lemma ClientTokenAccepted(token: string, parse: string -> Option<Claims>)
    requires parse(token).Some?
    ensures Authenticate("Bearer " + token, parse) == Next(parse(token).value.userId, parse(token).value.role)
  {
    BearerRoundTrip(token);
  }

  /** The request headers and the methods a cross-origin caller may use, as the
      policy lists them. */
  const AllowedHeaders: string := "Content-Type, Content-Length, Accept-Encoding, X-CSRF-Token, Authorization, accept, origin, Cache-Control, X-Requested-With"
  const AllowedMethods: string := "POST, OPTIONS, GET, PUT, DELETE"

  /** The four response headers `CORSMiddleware` sets on every request. */
  const CorsHeaders: map<string, string> := map[
    "Access-Control-Allow-Origin" := "*",
    "Access-Control-Allow-Credentials" := "true",
    "Access-Control-Allow-Headers" := AllowedHeaders,
    "Access-Control-Allow-Methods" := AllowedMethods]

  /** The outcome of `CORSMiddleware`: the headers set, and the status the request
      is aborted with, if it is. */
  datatype CorsDecision = CorsDecision(headers: map<string, string>, abortStatus: Option<nat>)

  const StatusNoContent: nat := 204

  /** `CORSMiddleware` on a request with method `verb`. */
  function Cors(verb: string): (d: CorsDecision)
    ensures d.headers == CorsHeaders
    ensures d.abortStatus.Some? <==> verb == "OPTIONS"
    ensures d.abortStatus.Some? ==> d.abortStatus.value == StatusNoContent
  {
    CorsDecision(CorsHeaders, if verb == "OPTIONS" then Some(StatusNoContent) else None)
  }

  /** How the middleware chain of a protected route ends: aborted with a status,
      or handed to the route's handler with the claims in the request context
      (the handler then sets the status). Either way the CORS headers are set
      (backend/internal/api/router.go). */
  datatype RouteResult =
    | Aborted(headers: map<string, string>, status: nat)
    | ToHandler(headers: map<string, string>, claims: Claims)

  /** A protected route: CORS runs first, then the `Authorization` check. */
  function ProtectedRoute(verb: string, header: string, parse: string -> Option<Claims>): (r: RouteResult)
    ensures r.headers == CorsHeaders
    ensures verb == "OPTIONS" ==> r == Aborted(CorsHeaders, StatusNoContent)
    ensures verb != "OPTIONS" ==> (r.ToHandler? <==> Authenticate(header, parse).Next?)
    ensures verb != "OPTIONS" && r.Aborted? ==> r.status == StatusUnauthorized
    ensures r.ToHandler? ==> Authenticate(header, parse) == Next(r.claims.userId, r.claims.role)
  {
    var cors := Cors(verb);
    if cors.abortStatus.Some? then Aborted(cors.headers, cors.abortStatus.value)
    else match Authenticate(header, parse)
      case Abort(status, _) => Aborted(cors.headers, status)
      case Next(userId, role) => ToHandler(cors.headers, Claims(userId, role))
  }

  /** A preflight is answered before the `Authorization` check, so it needs no
      token: its outcome is the same whatever header it carries and whatever the
      parser would say. */
  lemma PreflightNeedsNoToken(h1: string, h2: string, p: string -> Option<Claims>, q: string -> Option<Claims>)
    ensures ProtectedRoute("OPTIONS", h1, p) == ProtectedRoute("OPTIONS", h2, q)
    ensures ProtectedRoute("OPTIONS", h1, p).Aborted?
  {
  }
}
