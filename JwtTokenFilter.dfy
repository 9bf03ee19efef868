/**
  The per-request token filter (JwtTokenFilter): find the token, load the
  user it names, check the token against that user, and record the
  authentication; the request is passed down the chain at least once on
  every path, and twice when a call made inside the `try` throws an
  unchecked exception. Reading the user name out of a token and validating a token
  are functions given to the filter; `None` stands for the exception they
  throw on a malformed, forged or expired token.
 */
module JwtFilter {
  import opened Wrappers
  import opened JavaStrings
  import opened Users
  import opened UserServices

  /** `TOKEN_IN_PARAM_URLS`: the URIs whose token comes in the query string. */
  const TokenInParamUrls: seq<string> := ["/api/v1/users/alarm/subscribe"]

  const BearerPrefix: string := "Bearer "

  /** What the filter reads of a request; an absent header or query string is `None`. */
  datatype Request = Request(uri: string, authorization: Option<string>, queryString: Option<string>)

  /** The outcome of the token-reading part of the `try` block. */
  datatype Extraction =
    | NoBearer                 // other URI, header missing or not "Bearer ": chain and return
    | Extracted(token: string)
    | Broken                   // a RuntimeException: null query string or no piece at index 1

  /** Piece 1 of `s.split(sep)`, trimmed; `Broken` when there is no such piece. */
  function SecondPiece(s: string, sep: char): Extraction {
    var parts := Split(s, sep);
    if |parts| < 2 then Broken else Extracted(Trim(parts[1]))
  }

  function ExtractToken(req: Request): Extraction {
    if req.uri in TokenInParamUrls then
      match req.queryString
      case None => Broken
      case Some(q) => SecondPiece(q, '=')
    else
      match req.authorization
      case None => NoBearer
      case Some(h) => if BearerPrefix <= h then SecondPiece(h, ' ') else NoBearer
  }

  /** The request is passed on untouched exactly for another URI whose header is missing or not a "Bearer " header. */
  lemma NoBearerExactly(req: Request)
    ensures ExtractToken(req) == NoBearer <==>
      && req.uri !in TokenInParamUrls
      && (req.authorization.None? || !(BearerPrefix <= req.authorization.value))
  {
  }

  /** On the subscribe URI, `name=value` yields the trimmed value; a missing query string is a failure. */
  lemma QueryTokenExtracted(req: Request, name: string, value: string)
    requires req.uri == "/api/v1/users/alarm/subscribe"
    ensures req.queryString.None? ==> ExtractToken(req) == Broken
    ensures req.queryString == Some(name + "=" + value) && '=' !in name && '=' !in value && value != "" ==>
      ExtractToken(req) == Extracted(Trim(value))
  {
    if req.queryString == Some(name + "=" + value) && '=' !in name && '=' !in value && value != "" {
      SplitPair(name, value, '=');
    }
  }

  /** On other URIs, `"Bearer " + t` yields `t` trimmed, and a bare `"Bearer "` is a failure. */
  lemma BearerTokenExtracted(req: Request, t: string)
    requires req.uri !in TokenInParamUrls
    ensures req.authorization == Some("Bearer " + t) && ' ' !in t && t != "" ==> ExtractToken(req) == Extracted(Trim(t))
    ensures req.authorization == Some("Bearer ") ==> ExtractToken(req) == Broken
  {
    if req.authorization == Some("Bearer " + t) && ' ' !in t && t != "" {
      assert "Bearer " + t == "Bearer" + [' '] + t;
      SplitPair("Bearer", t, ' ');
    }
    if req.authorization == Some("Bearer ") {
      assert "Bearer " == "Bearer" + [' '];
      SplitTrailingSeparator("Bearer", ' ');
    }
  }

  /** The Spring Security authentication object: the user and its authorities. */
  datatype Authentication = Authentication(principal: User, authorities: seq<Authority>)

  /** The authentication the filter stores, or `None` when it stores nothing. */
  function Authenticate(req: Request, cache: Cache, db: Table,
                        userNameOf: string -> Option<string>,
                        validate: (string, string) -> Option<bool>): Option<Authentication>
  {
    match ExtractToken(req)
    case NoBearer => None
    case Broken => None
    case Extracted(token) =>
      match userNameOf(token)
      case None => None
      case Some(name) =>
        match LoadUserByUserName(cache, db, name)
        case Failure(_) => None
        case Success(u) =>
          if validate(token, u.username) == Some(true) then Some(Authentication(u, GetAuthorities(u))) else None
  }

  /**
    Authentication is stored exactly when a token was found, it names a user
    who loads, and it validates for that user's name; what is stored is that
    user with its authorities.
   */
  lemma AuthenticatedExactly(req: Request, cache: Cache, db: Table,
                             userNameOf: string -> Option<string>,
                             validate: (string, string) -> Option<bool>)
    ensures Authenticate(req, cache, db, userNameOf, validate).Some? <==>
      && ExtractToken(req).Extracted?
      && userNameOf(ExtractToken(req).token).Some?
      && LoadUserByUserName(cache, db, userNameOf(ExtractToken(req).token).value).Success?
      && validate(ExtractToken(req).token,
                  LoadUserByUserName(cache, db, userNameOf(ExtractToken(req).token).value).value.username) == Some(true)
    ensures Authenticate(req, cache, db, userNameOf, validate).Some? ==>
      var u := LoadUserByUserName(cache, db, userNameOf(ExtractToken(req).token).value).value;
      Authenticate(req, cache, db, userNameOf, validate).value == Authentication(u, [Authority(u.role.name)])
  {
  }

  /** Any failure (no token, a broken request, an unreadable token, an unknown user) stores nothing. */
  lemma FailuresStoreNothing(req: Request, cache: Cache, db: Table,
                             userNameOf: string -> Option<string>,
                             validate: (string, string) -> Option<bool>)
    requires || ExtractToken(req) == NoBearer
             || ExtractToken(req) == Broken
             || (ExtractToken(req).Extracted? && userNameOf(ExtractToken(req).token).None?)
             || (ExtractToken(req).Extracted? && userNameOf(ExtractToken(req).token).Some?
                 && LoadUserByUserName(cache, db, userNameOf(ExtractToken(req).token).value).Failure?)
    ensures Authenticate(req, cache, db, userNameOf, validate) == None
  {
  }

  /** `SecurityContextHolder.getContext()`. */
  class SecurityContext {
    var authentication: Option<Authentication>

    constructor ()
      ensures authentication == None
    {
      authentication := None;
    }
  }

  /**
    Whether the filter passes the request on from inside its `try` block:
    for a request without a bearer header, and for a token that fails
    validation. Every other path passes it on from the `catch` or after it.
   */
  predicate ChainedInsideTry(req: Request, cache: Cache, db: Table,
                             userNameOf: string -> Option<string>,
                             validate: (string, string) -> Option<bool>)
  {
    match ExtractToken(req)
    case NoBearer => true
    case Broken => false
    case Extracted(token) =>
      match userNameOf(token)
      case None => false
      case Some(name) =>
        match LoadUserByUserName(cache, db, name)
        case Failure(_) => false
        case Success(u) => validate(token, u.username) == Some(false)
  }

  /** The two calls inside the `try` are on paths that store no authentication. */
  lemma InsideTryStoresNothing(req: Request, cache: Cache, db: Table,
                               userNameOf: string -> Option<string>,
                               validate: (string, string) -> Option<bool>)
    requires ChainedInsideTry(req, cache, db, userNameOf, validate)
    ensures Authenticate(req, cache, db, userNameOf, validate) == None
  {
  }

  /** How a call down the chain ends: normally, with an unchecked exception, or with a checked one (ServletException, IOException). */
  datatype ChainOutcome = Returns | ThrowsUnchecked | ThrowsChecked

  /** The rest of the filter chain; only how often it is invoked is observed. */
  class FilterChain {
    var invocations: nat

    constructor ()
      ensures invocations == 0
    {
      invocations := 0;
    }

    method DoFilter()
      modifies this
      ensures invocations == old(invocations) + 1
    {
      invocations := invocations + 1;
    }
  }

  /**
    One pass down the chain from the filter. When the call is made inside the
    `try` and ends with an unchecked exception, the `catch` makes a second one.
    `thrown` tells whether an exception leaves the filter.
   */
  method PassOn(chain: FilterChain, insideTry: bool, first: ChainOutcome, second: ChainOutcome) returns (thrown: bool)
    modifies chain
    ensures var again := insideTry && first == ThrowsUnchecked;
      && chain.invocations == old(chain.invocations) + (if again then 2 else 1)
      && thrown == (if again then second != Returns else first != Returns)
  {
    chain.DoFilter();
    if insideTry && first == ThrowsUnchecked {
      chain.DoFilter();
      return second != Returns;
    }
    thrown := first != Returns;
  }

  /**
    `doFilterInternal`. `first` is how the first call down the chain ends and
    `second` how a second one ends; `thrown` tells whether an exception leaves
    the filter. An unchecked exception from a call made inside the `try` is
    caught, and the `catch` passes the request on once more.
   */
  method DoFilterInternal(request: Request, userService: UserService, context: SecurityContext, chain: FilterChain,
                          userNameOf: string -> Option<string>, validate: (string, string) -> Option<bool>,
                          first: ChainOutcome, second: ChainOutcome)
    returns (thrown: bool)
    modifies context, chain
    ensures var again := ChainedInsideTry(request, userService.cache, userService.db, userNameOf, validate)
                         && first == ThrowsUnchecked;
      && chain.invocations == old(chain.invocations) + (if again then 2 else 1)
      && thrown == (if again then second != Returns else first != Returns)
    ensures context.authentication ==
      match Authenticate(request, userService.cache, userService.db, userNameOf, validate)
      case Some(a) => Some(a)
      case None => old(context.authentication)
  {
    ghost var insideTry := ChainedInsideTry(request, userService.cache, userService.db, userNameOf, validate);
    ghost var authentication := Authenticate(request, userService.cache, userService.db, userNameOf, validate);
    var header := request.authorization;
    var token: string;
    if request.uri in TokenInParamUrls {
      if request.queryString.None? {
        assert !insideTry && authentication == None;
        thrown := PassOn(chain, false, first, second);
        return;
      }
      var parts := Split(request.queryString.value, '=');
      if |parts| < 2 {
        assert !insideTry && authentication == None;
        thrown := PassOn(chain, false, first, second);
        return;
      }
      token := Trim(parts[1]);
    } else if header.None? || !(BearerPrefix <= header.value) {
      assert insideTry && authentication == None;
      thrown := PassOn(chain, true, first, second);
      return;
    } else {
      var parts := Split(header.value, ' ');
      if |parts| < 2 {
        assert !insideTry && authentication == None;
        thrown := PassOn(chain, false, first, second);
        return;
      }
      token := Trim(parts[1]);
    }
    assert ExtractToken(request) == Extracted(token);
    var userName := userNameOf(token);
    if userName.None? {
      assert !insideTry && authentication == None;
      thrown := PassOn(chain, false, first, second);
      return;
    }
    var loaded := LoadUserByUserName(userService.cache, userService.db, userName.value);
    if loaded.Failure? {
      assert !insideTry && authentication == None;
      thrown := PassOn(chain, false, first, second);
      return;
    }
    var userDetails := loaded.value;
    var valid := validate(token, userDetails.username);
    if valid.None? {
      assert !insideTry && authentication == None;
      thrown := PassOn(chain, false, first, second);
      return;
    }
    if !valid.value {
      assert insideTry && authentication == None;
      thrown := PassOn(chain, true, first, second);
      return;
    }
    assert !insideTry && authentication == Some(Authentication(userDetails, GetAuthorities(userDetails)));
    context.authentication := Some(Authentication(userDetails, GetAuthorities(userDetails)));
    thrown := PassOn(chain, false, first, second);
  }
}
