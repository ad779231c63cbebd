/**
 * The bearer-token guard.  Process-wide options (a list of path substrings
 * exempt from authentication and the signing secret) are filled in by
 * functional options; the middleware then runs a fixed sequence of checks on
 * each request: skip list, presence of the Authorization header, its
 * "Bearer <token>" shape, and token decoding.
 *
 * JWT decoding itself (signature and expiry checking) belongs to the jwt-go
 * library; it is a parameter `parse` here, an oracle that answers for a token
 * and a key what `jwt.ParseWithClaims` would return.
 */
module Jwt {
  import opened Wrappers
  import opened Strings
  import opened Gin
  import Http
  import Errors

  // ---------------------------------------------------------------------------
  // Options

  /** The contents of an `Options` value. */
  datatype Settings = Settings(skipPaths: seq<string>, secret: string)

  /** An `Option` closure, by what it does to the options it is applied to. */
  datatype JwtOption = WithSecret(secret: string) | WithSkipPaths(path: string)

  /** The effect of applying one option. */
  function Configure(s: Settings, o: JwtOption): Settings {
    match o
    case WithSecret(k) => s.(secret := k)
    case WithSkipPaths(p) => s.(skipPaths := s.skipPaths + [p])
  }

  /** The effect of applying options one after another, in argument order. */
  function ApplyAll(s: Settings, opts: seq<JwtOption>): Settings
    decreases |opts|
  {
    if opts == [] then s else Configure(ApplyAll(s, opts[..|opts| - 1]), opts[|opts| - 1])
  }

  /** The paths of the `WithSkipPaths` options, in order. */
  function AddedSkipPaths(opts: seq<JwtOption>): seq<string> {
    if opts == [] then []
    else (if opts[0].WithSkipPaths? then [opts[0].path] else []) + AddedSkipPaths(opts[1..])
  }

  lemma {:induction false} AddedSkipPathsAppend(a: seq<JwtOption>, b: seq<JwtOption>)
    ensures AddedSkipPaths(a + b) == AddedSkipPaths(a) + AddedSkipPaths(b)
    decreases |a|
  {
    if a != [] {
      assert (a + b)[0] == a[0];
      assert (a + b)[1..] == a[1..] + b;
      AddedSkipPathsAppend(a[1..], b);
    } else {
      assert a + b == b;
    }
  }

  /** Calling `InitOption` twice is calling it once with both argument lists. */
  lemma {:induction false} ApplyAllAppend(s: Settings, a: seq<JwtOption>, b: seq<JwtOption>)
    ensures ApplyAll(s, a + b) == ApplyAll(ApplyAll(s, a), b)
    decreases |b|
  {
    if b == [] {
      assert a + b == a;
    } else {
      var ab := a + b;
      assert ab[..|ab| - 1] == a + b[..|b| - 1];
      assert ab[|ab| - 1] == b[|b| - 1];
      ApplyAllAppend(s, a, b[..|b| - 1]);
    }
  }

  /** Skip paths accumulate: earlier entries stay, new ones follow in argument order. */
  lemma {:induction false} ApplyAllSkipPaths(s: Settings, opts: seq<JwtOption>)
    ensures ApplyAll(s, opts).skipPaths == s.skipPaths + AddedSkipPaths(opts)
    decreases |opts|
  {
    if opts != [] {
      var init, last := opts[..|opts| - 1], opts[|opts| - 1];
      ApplyAllSkipPaths(s, init);
      assert init + [last] == opts;
      AddedSkipPathsAppend(init, [last]);
      assert AddedSkipPaths([last]) == (if last.WithSkipPaths? then [last.path] else []);
    }
  }

  /** Without any `WithSecret` option the secret stays what it was. */
  lemma {:induction false} SecretKeptWithoutWithSecret(s: Settings, opts: seq<JwtOption>)
    requires forall j | 0 <= j < |opts| :: !opts[j].WithSecret?
    ensures ApplyAll(s, opts).secret == s.secret
    decreases |opts|
  {
    if opts != [] {
      SecretKeptWithoutWithSecret(s, opts[..|opts| - 1]);
    }
  }

  /** The last `WithSecret` option wins. */
  lemma {:induction false} LastSecretWins(s: Settings, opts: seq<JwtOption>, i: nat)
    requires i < |opts| && opts[i].WithSecret?
    requires forall j | i < j < |opts| :: !opts[j].WithSecret?
    ensures ApplyAll(s, opts).secret == opts[i].secret
    decreases |opts|
  {
    if i < |opts| - 1 {
      LastSecretWins(s, opts[..|opts| - 1], i);
    }
  }

  /** The process-wide options (`defaultOpt`). */
  class Options {
    var skipPaths: seq<string>
    var secret: string

    /** `init()`: `defaultOpt = &Options{}` */
    constructor ()
      ensures Value() == Settings([], "")
    {
      skipPaths := [];
      secret := "";
    }

    function Value(): Settings
      reads this
    {
      Settings(skipPaths, secret)
    }

    /** Calls one option closure on these options. */
    method Apply(o: JwtOption)
      modifies this
      ensures Value() == Configure(old(Value()), o)
    {
      match o
      case WithSecret(k) =>
        secret := k;
      case WithSkipPaths(p) =>
        skipPaths := skipPaths + [p];
    }

    /** `InitOption(opts...)`: applies every option, in argument order. */
    method InitOption(opts: seq<JwtOption>)
      modifies this
      ensures Value() == ApplyAll(old(Value()), opts)
    {
      for i := 0 to |opts|
        invariant Value() == ApplyAll(old(Value()), opts[..i])
      {
        Apply(opts[i]);
        assert opts[..i + 1][..i] == opts[..i];
      }
      assert opts[..|opts|] == opts;
    }
  }

  // ---------------------------------------------------------------------------
  // Token decoding

  /** `jwt.StandardClaims` (RFC 7519, section 4.1). */
  datatype Claims = Claims(
    audience: string, expiresAt: int, id: string, issuedAt: int,
    issuer: string, notBefore: int, subject: string)

  /** A parsed `*jwt.Token`: its claims if they are `*jwt.StandardClaims`, and whether it is valid. */
  datatype Token = Token(claims: Option<Claims>, valid: bool)

  /** What `jwt.ParseWithClaims` returns: a token or nil, and an error or nil. */
  datatype Parsed = Parsed(token: Option<Token>, err: Option<string>)

  /** The decoder: for a token string and a verification key, what `jwt.ParseWithClaims` returns. */
  type Parser = (string, string) -> Parsed

  /** No error, a token, standard claims, and a valid token. */
  predicate Accepted(p: Parsed) {
    p.err.None? && p.token.Some? && p.token.value.claims.Some? && p.token.value.valid
  }

  /** What `parseToken` returns: claims or nil, and an error or nil. */
  datatype TokenResult = TokenResult(claims: Option<Claims>, err: Option<string>)

  /**
   * `parseToken(ctx, token)`: decodes with the configured secret as the key
   * and returns the claims only when the decoder accepted the token;
   * otherwise it returns the decoder's error, which may be nil.
   */
  function ParseToken(parse: Parser, secret: string, token: string): (r: TokenResult)
    ensures r.claims.Some? <==> Accepted(parse(token, secret))
    ensures r.claims.Some? ==> r.err.None? && r.claims == parse(token, secret).token.value.claims
    ensures r.claims.None? ==> r.err == parse(token, secret).err
  {
    var p := parse(token, secret);
    if Accepted(p) then
      TokenResult(p.token.value.claims, None)
    else
      TokenResult(None, p.err)
  }

  /** The decoder is consulted with the configured secret and nothing else. */
  lemma ParseTokenUsesSecret(parse: Parser, parse': Parser, secret: string, token: string)
    requires parse(token, secret) == parse'(token, secret)
    ensures ParseToken(parse, secret, token) == ParseToken(parse', secret, token)
  {
  }

  /** The text of the line `parseToken` logs when it returns no claims (the token's `%+v` rendering is not modelled). */
  function TokenInvalidText(token: string): string {
    "token invalid, token:" + token
  }

  /**
   * `parseToken(c, token)` as the middleware calls it: the result of
   * `ParseToken`, and one line through the request's logger whenever no
   * claims come back.
   */
  method ParseTokenLogged(c: Context, defaultLogger: Logger, parse: Parser, secret: string, token: string)
    returns (r: TokenResult)
    requires LoggerTag in c.keys ==> c.keys[LoggerTag].LoggerAttr?
    modifies c`logs
    ensures r == ParseToken(parse, secret, token)
    ensures r.claims.Some? ==> c.logs == old(c.logs)
    ensures r.claims.None? ==>
      c.logs == old(c.logs) + [LogLine(c.ContextLogger(defaultLogger).fields, TokenInvalidText(token), c.nextCalls)]
  {
    var p := parse(token, secret);
    if Accepted(p) {
      return TokenResult(p.token.value.claims, None);
    }
    c.InfoContext(defaultLogger, TokenInvalidText(token));
    return TokenResult(None, p.err);
  }

  /**
   * The assumption the middleware depends on: the decoder never rejects a
   * token without also reporting an error, so `parseToken` never returns two
   * nils.  (jwt-go's `ParseWithClaims` behaves so; the middleware would
   * dereference nil claims otherwise.)
   */
  ghost predicate ParserReportsFailures(parse: Parser) {
    forall token, key :: ParseToken(parse, key, token).err.None? ==> ParseToken(parse, key, token).claims.Some?
  }

  // ---------------------------------------------------------------------------
  // The middleware

  /** The header carrying the credential, its scheme keyword, and the attribute keys set on success. */
  const AuthField := "Authorization"
  const AuthBearerField := "Bearer"
  const HeadUid := "uid"
  const HeadUserName := "username"

  /** How the middleware ends for one request. */
  datatype Verdict =
    | Skip                            // the path is exempt; returns without touching the context
    | Reject(code: int, msg: string)  // writes {"code", "msg"} and aborts
    | Admit(claims: Claims)           // stores uid and username and calls Next
    | NilClaims                       // parseToken returned two nils: the Go code dereferences nil

  /** Some skip entry is a substring of the path. */
  predicate IsSkipped(skipPaths: seq<string>, path: string) {
    exists i | 0 <= i < |skipPaths| :: Contains(path, skipPaths[i])
  }

  /** The decision `JWTAuthMiddleware` takes for a path and an Authorization header value. */
  function Authorize(s: Settings, path: string, authHeader: string, parse: Parser): (v: Verdict)
    ensures v == Skip <==> IsSkipped(s.skipPaths, path)
    ensures v == Reject(Errors.CodeNoAuth, "没有认证信息") <==> !IsSkipped(s.skipPaths, path) && authHeader == ""
    ensures v.Reject? ==> v.code in {Errors.CodeNoAuth, 4001, 4002}
    ensures v == Reject(4001, "认证信息鉴权失败") <==>
      && !IsSkipped(s.skipPaths, path) && authHeader != ""
      && !(|Fields(authHeader)| == 2 && Fields(authHeader)[0] == AuthBearerField)
    ensures v == Reject(4002, "无效的认证信息") <==>
      && !IsSkipped(s.skipPaths, path) && authHeader != ""
      && |Fields(authHeader)| == 2 && Fields(authHeader)[0] == AuthBearerField
      && parse(Fields(authHeader)[1], s.secret).err.Some?
    ensures v.Admit? ==> |Fields(authHeader)| == 2 && Fields(authHeader)[0] == AuthBearerField
  {
    if IsSkipped(s.skipPaths, path) then Skip
    else if authHeader == "" then Reject(Errors.CodeNoAuth, "没有认证信息")
    else
      var parts := Fields(authHeader);
      if !(|parts| == 2 && parts[0] == AuthBearerField) then Reject(4001, "认证信息鉴权失败")
      else
        var mc := ParseToken(parse, s.secret, parts[1]);
        if mc.err.Some? then Reject(4002, "无效的认证信息")
        else if mc.claims.Some? then Admit(mc.claims.value)
        else NilClaims
  }

  /** The body written on a rejection: `gin.H{"code": code, "msg": msg}`, keys in sorted order. */
  function RejectBody(code: int, msg: string): Json {
    JObject([("code", JNumber(code)), ("msg", JString(msg))])
  }

  /** The decision for the request held by `c` under the options `opt`. */
  function Decide(c: Context, opt: Options, parse: Parser): Verdict
    reads opt
  {
    Authorize(opt.Value(), c.path, c.GetHeader(AuthField), parse)
  }

  /** The skip-list loop: is some entry a substring of the path? */
  method MatchSkipPaths(skipPaths: seq<string>, path: string) returns (skip: bool)
    ensures skip == IsSkipped(skipPaths, path)
  {
    for i := 0 to |skipPaths|
      invariant forall j | 0 <= j < i :: !Contains(path, skipPaths[j])
    {
      if Contains(path, skipPaths[i]) {
        return true;
      }
    }
    return false;
  }

  /** `JWTAuthMiddleware()`, the handler it returns, run on one request. */
  method JWTAuthMiddleware(c: Context, opt: Options, parse: Parser, defaultLogger: Logger)
    requires c.Valid()
    requires ParserReportsFailures(parse)
    requires LoggerTag in c.keys ==> c.keys[LoggerTag].LoggerAttr?
    modifies c
    ensures c.Valid()
    ensures Decide(c, opt, parse).Reject? ==> c.responseHeader == WithJsonContentType(old(c.responseHeader))
    ensures !Decide(c, opt, parse).Reject? ==> c.responseHeader == old(c.responseHeader)
    ensures Decide(c, opt, parse) == Reject(4002, "无效的认证信息") ==>
      var parts := Fields(c.GetHeader(AuthField));
      && |parts| == 2
      && c.logs == old(c.logs) + [LogLine(c.ContextLogger(defaultLogger).fields, TokenInvalidText(parts[1]), c.nextCalls)]
    ensures Decide(c, opt, parse) != Reject(4002, "无效的认证信息") ==> c.logs == old(c.logs)
    ensures Decide(c, opt, parse) != NilClaims
    ensures Decide(c, opt, parse).Skip? ==>
      && c.keys == old(c.keys) && c.written == old(c.written)
      && c.aborted == old(c.aborted) && c.nextCalls == old(c.nextCalls) && c.handoffs == old(c.handoffs)
    ensures Decide(c, opt, parse).Reject? ==>
      var v := Decide(c, opt, parse);
      && c.written == old(c.written) + [JsonReply(Http.StatusOK, RejectBody(v.code, v.msg))]
      && c.aborted == old(c.aborted) + 1
      && c.keys == old(c.keys) && c.nextCalls == old(c.nextCalls) && c.handoffs == old(c.handoffs)
    ensures Decide(c, opt, parse).Admit? ==>
      var v := Decide(c, opt, parse);
      && c.keys == old(c.keys)[HeadUid := Text(v.claims.id)][HeadUserName := Text(v.claims.audience)]
      && c.nextCalls == old(c.nextCalls) + 1 && c.handoffs == old(c.handoffs) + [c.keys]
      && c.written == old(c.written) && c.aborted == old(c.aborted)
  {
    var skip := MatchSkipPaths(opt.skipPaths, c.path);
    if skip {
      return;
    }

    var authHeader := c.GetHeader(AuthField);
    if authHeader == "" {
      c.JSON(Http.StatusOK, RejectBody(Errors.CodeNoAuth, "没有认证信息"));
      c.Abort();
      return;
    }

    var parts := Fields(authHeader);
    if !(|parts| == 2 && parts[0] == AuthBearerField) {
      c.JSON(Http.StatusOK, RejectBody(4001, "认证信息鉴权失败"));
      c.Abort();
      return;
    }

    var mc := ParseTokenLogged(c, defaultLogger, parse, opt.secret, parts[1]);
    if mc.err.Some? {
      c.JSON(Http.StatusOK, RejectBody(4002, "无效的认证信息"));
      c.Abort();
      return;
    }

    c.Set(HeadUid, Text(mc.claims.value.id));
    c.Set(HeadUserName, Text(mc.claims.value.audience));
    c.Next();
  }

  // ---------------------------------------------------------------------------
  // Properties of the decision

  /** An empty skip entry is a substring of every path, so it exempts every request. */
  lemma EmptySkipEntryExemptsAll(s: Settings, path: string, authHeader: string, parse: Parser)
    requires "" in s.skipPaths
    ensures Authorize(s, path, authHeader, parse) == Skip
  {
    var i :| 0 <= i < |s.skipPaths| && s.skipPaths[i] == "";
    ContainsEmpty(path);
  }

  /** Matching is by substring: an entry anywhere inside the path exempts it, whatever the header says. */
  lemma SkipEntryAnywhereInPath(s: Settings, pre: string, entry: string, post: string,
                                authHeader: string, parse: Parser)
    requires entry in s.skipPaths
    ensures Authorize(s, pre + entry + post, authHeader, parse) == Skip
  {
    var i :| 0 <= i < |s.skipPaths| && s.skipPaths[i] == entry;
    ContainsInfix(pre, entry, post);
  }

  /** A protected path with no Authorization header (or an empty one) is rejected with 1000. */
  lemma MissingCredentialRejected(s: Settings, path: string, parse: Parser)
    requires !IsSkipped(s.skipPaths, path)
    ensures Authorize(s, path, "", parse) == Reject(Errors.CodeNoAuth, "没有认证信息")
  {
  }

  /**
   * A well-formed "Bearer <token>" header, with any whitespace around and
   * between the two words, reaches the decoder with exactly that token: an
   * accepted token admits the request with its claims, a token the decoder
   * reports an error for is rejected with 4002.
   */
  lemma BearerTokenReachesDecoder(s: Settings, path: string, pre: string, mid: string, token: string,
                                  post: string, parse: Parser)
    requires !IsSkipped(s.skipPaths, path)
    requires AllSpace(pre) && AllSpace(mid) && AllSpace(post) && mid != []
    requires IsWord(token)
    ensures var v := Authorize(s, path, pre + AuthBearerField + mid + token + post, parse);
      && (Accepted(parse(token, s.secret)) ==> v == Admit(parse(token, s.secret).token.value.claims.value))
      && (parse(token, s.secret).err.Some? ==> v == Reject(4002, "无效的认证信息"))
  {
    var bearer := AuthBearerField;
    assert IsWord(bearer) by {
      assert forall k | 0 <= k < |bearer| :: !IsSpace(bearer[k]);
    }
    FieldsOfTwoWords(pre, bearer, mid, token, post);
  }

  /**
   * A credential with another scheme keyword ("Basic xyz", "bearer\txyz"),
   * with any whitespace around and between the two words, is rejected with 4001.
   */
  lemma WrongSchemeRejected(s: Settings, path: string, pre: string, scheme: string, mid: string,
                            token: string, post: string, parse: Parser)
    requires !IsSkipped(s.skipPaths, path)
    requires AllSpace(pre) && AllSpace(mid) && AllSpace(post) && mid != []
    requires IsWord(scheme) && IsWord(token) && scheme != AuthBearerField
    ensures Authorize(s, path, pre + scheme + mid + token + post, parse) == Reject(4001, "认证信息鉴权失败")
  {
    FieldsOfTwoWords(pre, scheme, mid, token, post);
  }

  /**
   * A credential of one word, or of three or more words joined by single
   * spaces, is rejected with 4001 (`Authorize`'s contract states the rule
   * for any whitespace).
   */
  lemma WrongWordCountRejected(s: Settings, path: string, words: seq<string>, parse: Parser)
    requires !IsSkipped(s.skipPaths, path)
    requires forall i | 0 <= i < |words| :: IsWord(words[i])
    requires |words| != 2 && words != []
    ensures Authorize(s, path, JoinSpaced(words), parse) == Reject(4001, "认证信息鉴权失败")
  {
    FieldsOfJoinSpaced(words);
    assert JoinSpaced(words) != "" by {
      if |words| == 1 {
        assert JoinSpaced(words) == words[0];
      }
    }
  }

  /** A credential made only of whitespace is present but malformed: 4001. */
  lemma BlankCredentialRejected(s: Settings, path: string, blank: string, parse: Parser)
    requires !IsSkipped(s.skipPaths, path)
    requires blank != [] && AllSpace(blank)
    ensures Authorize(s, path, blank, parse) == Reject(4001, "认证信息鉴权失败")
  {
    FieldsOfSpace(blank);
  }

  /**
   * A request is admitted only with a header that splits into "Bearer" and a
   * token the decoder accepted under the configured secret, and it carries
   * exactly that token's claims.
   */
  lemma AdmittedOnlyWithAcceptedToken(s: Settings, path: string, authHeader: string, parse: Parser)
    requires Authorize(s, path, authHeader, parse).Admit?
    ensures !IsSkipped(s.skipPaths, path)
    ensures |Fields(authHeader)| == 2 && Fields(authHeader)[0] == AuthBearerField
    ensures var token := Fields(authHeader)[1];
      && Accepted(parse(token, s.secret))
      && Authorize(s, path, authHeader, parse).claims == parse(token, s.secret).token.value.claims.value
  {
  }

  /** Rejections use the literal codes 1000, 4001 and 4002; none of them is the taxonomy's AuthFail code. */
  lemma RejectionCodes(s: Settings, path: string, authHeader: string, parse: Parser)
    requires Authorize(s, path, authHeader, parse).Reject?
    ensures Authorize(s, path, authHeader, parse).code in {Errors.CodeNoAuth, 4001, 4002}
    ensures Authorize(s, path, authHeader, parse).code != Errors.CodeAuthFail
  {
  }

  /** Under the decoder assumption the nil-claims case never arises. */
  lemma NoNilClaims(s: Settings, path: string, authHeader: string, parse: Parser)
    requires ParserReportsFailures(parse)
    ensures Authorize(s, path, authHeader, parse) != NilClaims
  {
    if !IsSkipped(s.skipPaths, path) && authHeader != "" {
      var parts := Fields(authHeader);
      if |parts| == 2 && parts[0] == AuthBearerField {
        var mc := ParseToken(parse, s.secret, parts[1]);
        assert mc.err.None? ==> mc.claims.Some?;
      }
    }
  }
}
