/**
 * The session object `AdobeRequest` (audiencemanager/connector.py): it exchanges a signed
 * assertion for an access token at construction, keeps the token, its deadline and the request
 * headers, and checks the deadline before every request.
 *
 * The clock is an integer number of milliseconds.  The RS256 signer and the token endpoint are
 * parameters: the signer maps a claim set and a key to an opaque string (or fails), the endpoint
 * maps the request to a reply.  The file system is a value.
 */
module Connector {
  import opened Wrappers
  import opened PyValues

  const TOKEN_ENDPOINT := "https://ims-na1.adobelogin.com/ims/exchange/jwt"
  const AUDIENCE_PREFIX := "https://ims-na1.adobelogin.com/c/"
  const ENTITLEMENT_CLAIM := "https://ims-na1.adobelogin.com/s/ent_audiencemanagerplatform_sdk"
  const DAY_SECONDS := 24 * 60 * 60
  /** The 500-second margin subtracted from the token's lifetime, in milliseconds. */
  const MARGIN_MS := 500 * 1000
  const NOT_CONFIGURED := "You have to upload the configuration file with importConfigFile method."

  /** The headers of the token exchange request. */
  const EXCHANGE_HEADERS: Fields :=
    [("cache-control", Str("no-cache")), ("content-type", Str("application/x-www-form-urlencoded"))]

  // ---------------------------------------------------------------------------
  // Files and the private key

  /** What the process sees of the disk: the paths `Path(p).exists()` holds for, and the text
      `open(p).read()` returns for those that can be read (a directory exists but cannot). */
  datatype FileSystem = FileSystem(present: set<string>, text: map<string, string>)

  predicate Exists(fs: FileSystem, path: string)
  {
    path in fs.present
  }

  predicate StartsWith(s: string, c: char)
  {
    |s| > 0 && s[0] == c
  }

  predicate LeadingSeparator(path: string)
  {
    StartsWith(path, '/') || StartsWith(path, '\\')
  }

  /** `find_path`: the path itself if it exists; else, for a path that starts with `/` or `\`,
      the same path under the working directory if that exists; else nothing. */
  function FindPath(fs: FileSystem, path: string): (r: Option<string>)
    ensures Exists(fs, path) ==> r == Some(path)
    ensures r.Some? ==> Exists(fs, r.value)
    ensures r.Some? && r.value != path ==> r.value == "." + path && LeadingSeparator(path)
    ensures r.None? <==> !Exists(fs, path) && !(LeadingSeparator(path) && Exists(fs, "." + path))
  {
    if Exists(fs, path) then Some(path)
    else if StartsWith(path, '/') && Exists(fs, "." + path) then Some("." + path)
    else if StartsWith(path, '\\') && Exists(fs, "." + path) then Some("." + path)
    else None
  }

  /** `open(path).read()` on a path `find_path` returned. */
  function ReadText(fs: FileSystem, path: string): Result<string, Error>
  {
    if path in fs.text then Success(fs.text[path]) else Failure(OSError(path))
  }

  /** `d[k]`. */
  function Lookup(d: Fields, k: string): (r: Result<Json, Error>)
    ensures r.Success? <==> HasKey(d, k)
    ensures r.Success? ==> Get(d, k) == Some(r.value)
    ensures r.Failure? ==> r.error == KeyError(k)
  {
    match Get(d, k)
    case Some(v) => Success(v)
    case None => Failure(KeyError(k))
  }

  /** `get_private_key_from_config`: an inline `private_key` that is not None, else the text of
      the file `pathToKey` names. */
  function PrivateKey(config: Fields, fs: FileSystem): Result<Json, Error>
  {
    var inline := GetOrDefault(config, "private_key", Null);
    if inline != Null then Success(inline)
    else
      var path :- Lookup(config, "pathToKey");
      match path
      case Str(p) =>
        (match FindPath(fs, p)
         case None => Failure(FileNotFoundError("Unable to find the private key under path `" + p + "`."))
         case Some(q) =>
           var text :- ReadText(fs, q);
           Success(Str(text)))
      case _ => Failure(TypeError("expected str, bytes or os.PathLike object"))
  }

  // ---------------------------------------------------------------------------
  // The assertion and the exchange

  /** The claim set of the signed assertion (`jwt_payload`): the registered claims `exp`, `iss`,
      `sub` and `aud` of section 4.1 of RFC 7519 and the platform entitlement claim. */
  function Claims(config: Fields, nowMs: nat): Result<Fields, Error>
  {
    var org :- Lookup(config, "org_id");
    var tech :- Lookup(config, "tech_id");
    var client :- Lookup(config, "client_id");
    Success([("exp", Int(nowMs / 1000 + DAY_SECONDS)),
             ("iss", org),
             ("sub", tech),
             (ENTITLEMENT_CLAIM, Bool(true)),
             ("aud", Str(AUDIENCE_PREFIX + PyStr(client)))])
  }

  /** The form posted to the token endpoint. */
  function ExchangeForm(config: Fields, jwt: string): Result<Fields, Error>
  {
    var client :- Lookup(config, "client_id");
    var secret :- Lookup(config, "secret");
    Success([("client_id", client), ("client_secret", secret), ("jwt_token", Str(jwt))])
  }

  /** `jwt.encode(claims, key, algorithm='RS256')`, as text; None when the key is unusable. */
  type Signer = (Fields, Json) -> Option<string>

  /** What `requests.post(...).json()` gives: no reply at all, a body that is not JSON, or a value. */
  datatype Reply = Unreachable | NotJson | Body(json: Json)

  /** The token endpoint: the URL, the headers and the form of the request, to the reply. */
  type TokenService = (Json, Fields, Fields) -> Reply

  datatype Grant = Grant(token: Json, expiry: Json)

  /** How lines 93-106 read the reply.  A missing `access_token` is caught and printed, which
      leaves `token` unbound: the call then fails on `expires_in` or on the unbound name. */
  function ReadGrant(body: Json): Result<Grant, Error>
  {
    match body
    case Dict(fields) =>
      var token := Get(fields, "access_token");
      var expiry :- Lookup(fields, "expires_in");
      if token.None? then Failure(UnboundLocalError("token"))
      else Success(Grant(token.value, expiry))
    case _ => Failure(TypeError("subscript of a non-dict"))
  }

  /** `get_token_and_expiry_for_config` (with `verbose` and `save` off). */
  function TokenAndExpiry(config: Fields, fs: FileSystem, nowMs: nat, sign: Signer, post: TokenService)
    : Result<Grant, Error>
  {
    var key :- PrivateKey(config, fs);
    var claims :- Claims(config, nowMs);
    var jwt :- match sign(claims, key)
               case Some(j) => Success(j)
               case None => Failure(SigningError);
    var form :- ExchangeForm(config, jwt);
    var endpoint :- Lookup(config, "tokenEndpoint");
    match post(endpoint, EXCHANGE_HEADERS, form)
    case Unreachable => Failure(ConnectionError)
    case NotJson => Failure(JSONDecodeError)
    case Body(json) => ReadGrant(json)
  }

  // ---------------------------------------------------------------------------
  // The session

  /** The state of an `AdobeRequest`: its copy of the configuration, its headers, its token. */
  datatype Session = Session(config: Fields, header: Fields, token: Json)

  function Bearer(token: Json): string
  {
    "Bearer " + PyStr(token)
  }

  /** `expiry / 1000` seconds, kept in milliseconds; only numbers divide. */
  function ExpiryMillis(expiry: Json): Result<int, Error>
  {
    match expiry
    case Int(e) => Success(e)
    case Bool(b) => Success(if b then 1 else 0)
    case _ => Failure(TypeError("unsupported operand type for /"))
  }

  /** What lines 23-31 make of a grant: the token and its deadline in the configuration, the
      bearer header, or the TypeError of a lifetime that does not divide. */
  function Establish(config: Fields, header: Fields, grant: Grant, limitClockMs: nat): Result<Session, Error>
  {
    var expiryMs :- ExpiryMillis(grant.expiry);
    var config' := Put(Put(config, "token", grant.token), "date_limit",
                       Int(limitClockMs + expiryMs - MARGIN_MS));
    Success(Session(config', Put(header, "Authorization", Str(Bearer(grant.token))), grant.token))
  }

  /** What `AdobeRequest.__init__` builds, or the exception it raises.  `jwtClockMs` is the clock
      read for the assertion, `limitClockMs` the one read for the deadline. */
  function StartSession(config: Fields, header: Fields, fs: FileSystem, jwtClockMs: nat, limitClockMs: nat,
                        sign: Signer, post: TokenService): Result<Session, Error>
  {
    var org :- Lookup(config, "org_id");
    if org == Str("") then Failure(Exception(NOT_CONFIGURED))
    else
      var grant :- TokenAndExpiry(config, fs, jwtClockMs, sign, post);
      Establish(config, header, grant, limitClockMs)
  }

  /** The session invariant: a numeric deadline, and the token agrees everywhere it is kept. */
  predicate ValidSession(s: Session)
  {
    && Get(s.config, "date_limit").Some? && Get(s.config, "date_limit").value.Int?
    && Get(s.config, "token") == Some(s.token)
    && Get(s.header, "Authorization") == Some(Str(Bearer(s.token)))
  }

  class AdobeRequest {
    var config: Fields
    var header: Fields
    var token: Json

    function State(): Session
      reads this
    {
      Session(config, header, token)
    }

    ghost predicate Valid()
      reads this
    {
      ValidSession(State())
    }

    function DateLimit(): int
      reads this
      requires Valid()
    {
      Get(config, "date_limit").value.i
    }

    /** Lines 23-31 once the token has been obtained. */
    constructor (config: Fields, header: Fields, token: Json, limitMs: int)
      ensures this.config == Put(Put(config, "token", token), "date_limit", Int(limitMs))
      ensures this.header == Put(header, "Authorization", Str(Bearer(token)))
      ensures this.token == token
      ensures Valid() && DateLimit() == limitMs
    {
      this.config := config;
      this.header := header;
      this.token := token;
      new;
      var withToken := Put(config, "token", token);
      GetPut(config, "token", token, "token");
      GetPut(withToken, "date_limit", Int(limitMs), "token");
      GetPut(withToken, "date_limit", Int(limitMs), "date_limit");
      GetPut(header, "Authorization", Str(Bearer(token)), "Authorization");
      this.config := withToken;
      this.config := Put(this.config, "date_limit", Int(limitMs));
      this.header := Put(this.header, "Authorization", Str(Bearer(token)));
    }

    /** `_checkingDate`: past the deadline it calls `self.retrieveToken()`, which this class
        does not define, so the call raises and nothing changes. */
    method CheckingDate(nowMs: int) returns (err: Option<Error>)
      requires Valid()
      ensures err.Some? <==> nowMs > DateLimit()
      ensures err.Some? ==> err.value == AttributeError("retrieveToken")
    {
      if nowMs > Get(config, "date_limit").value.i {
        return Some(AttributeError("retrieveToken"));
      }
      return None;
    }

    /** What `getData`, `postData`, `patchData`, `putData` and `deleteData` do before they send:
        check the deadline, then use the caller's headers or else the session's own. */
    method RequestHeaders(nowMs: int, headers: Option<Fields>) returns (r: Result<Fields, Error>)
      requires Valid()
      ensures r.Success? <==> nowMs <= DateLimit()
      ensures r.Failure? ==> r.error == AttributeError("retrieveToken")
      ensures r.Success? ==> r.value == headers.GetOr(header)
      ensures r.Success? && headers.None? ==> Get(r.value, "Authorization") == Some(Str(Bearer(token)))
    {
      var err := CheckingDate(nowMs);
      if err.Some? {
        return Failure(err.value);
      }
      match headers
      case Some(h) => return Success(h);
      case None => return Success(header);
    }

    /** `_checkingDate` as it is evidently meant to work: past the deadline, repeat the exchange
        of construction and replace token, deadline and header together, or nothing at all. */
    method EnsureValid(nowMs: nat, fs: FileSystem, sign: Signer, post: TokenService) returns (err: Option<Error>)
      requires Valid()
      modifies this
      ensures Valid()
      ensures old(nowMs <= DateLimit()) ==> err.None? && State() == old(State())
      ensures old(nowMs > DateLimit()) ==>
        var s := StartSession(old(config), old(header), fs, nowMs, nowMs, sign, post);
        if s.Success? then err.None? && State() == s.value
        else err == Some(s.error) && State() == old(State())
    {
      if nowMs <= Get(config, "date_limit").value.i {
        return None;
      }
      var s := StartSession(config, header, fs, nowMs, nowMs, sign, post);
      if s.Failure? {
        return Some(s.error);
      }
      StartSessionIsValid(config, header, fs, nowMs, nowMs, sign, post);
      config, header, token := s.value.config, s.value.header, s.value.token;
      return None;
    }
  }

  /** `AdobeRequest(config_object, header)`: the new object, or the exception construction raises. */
  method Connect(config: Fields, header: Fields, fs: FileSystem, jwtClockMs: nat, limitClockMs: nat,
                 sign: Signer, post: TokenService) returns (r: Result<AdobeRequest, Error>)
    ensures r.Failure? ==> StartSession(config, header, fs, jwtClockMs, limitClockMs, sign, post) == Failure(r.error)
    ensures r.Success? ==> fresh(r.value) && r.value.Valid()
    ensures r.Success? ==>
      StartSession(config, header, fs, jwtClockMs, limitClockMs, sign, post) == Success(r.value.State())
  {
    var org := Lookup(config, "org_id");
    if org.Failure? {
      return Failure(org.error);
    }
    if org.value == Str("") {
      return Failure(Exception(NOT_CONFIGURED));
    }
    var grant := TokenAndExpiry(config, fs, jwtClockMs, sign, post);
    if grant.Failure? {
      return Failure(grant.error);
    }
    var expiryMs := ExpiryMillis(grant.value.expiry);
    if expiryMs.Failure? {
      return Failure(expiryMs.error);
    }
    var conn := new AdobeRequest(config, header, grant.value.token, limitClockMs + expiryMs.value - MARGIN_MS);
    return Success(conn);
  }

  // ---------------------------------------------------------------------------
  // The reply of postData when the body is not JSON

  /** Python's `mask & x` for a non-negative `mask` and any int (two's complement). */
  function BitAnd(mask: nat, x: int): (r: nat)
    ensures r <= mask
    ensures x >= 0 ==> r <= x
  {
    if mask == 0 then 0
    else 2 * BitAnd(mask / 2, x / 2) + (if mask % 2 == 1 && x % 2 == 1 then 1 else 0)
  }

  /** `res.status_code >=200 & res.status_code <300` as Python parses it: `&` binds tighter than
      a comparison, so this is the chain `status >= (200 & status) < 300`. */
  predicate SuccessTestAsWritten(status: int)
  {
    status >= BitAnd(200, status) && BitAnd(200, status) < 300
  }

  /** The test the line evidently means: a 2xx status. */
  predicate SuccessTest(status: int)
  {
    200 <= status < 300
  }

  function NoJsonSuccess(status: int): Fields
  {
    [("success", Str("no json - status code : " + IntToDecimal(status)))]
  }

  const REQUEST_ERROR: Fields := [("error", Str("Request Error"))]

  /** Lines 179-182 as written. */
  function NoJsonReplyAsWritten(status: int): Fields
  {
    if SuccessTestAsWritten(status) then NoJsonSuccess(status) else REQUEST_ERROR
  }

  /** Lines 179-182 with the intended 2xx test. */
  function NoJsonReply(status: int): (r: Fields)
    ensures HasKey(r, "success") <==> 200 <= status < 300
    ensures HasKey(r, "error") <==> !(200 <= status < 300)
  {
    if SuccessTest(status) then
      var r := NoJsonSuccess(status);
      assert r[1..] == [];
      assert Get(r, "success").Some? && Get(r, "error").None?;
      r
    else
      assert !HasKey(REQUEST_ERROR, "success") && HasKey(REQUEST_ERROR, "error");
      REQUEST_ERROR
  }

  // ---------------------------------------------------------------------------
  // Lemmas

  /** The test as written accepts exactly the non-negative codes. */
  lemma SuccessTestAsWrittenIsNonNegative(status: int)
    ensures SuccessTestAsWritten(status) <==> status >= 0
  {
    var m := BitAnd(200, status);
    assert m <= 200;
  }

  /** So a 404 without a JSON body is reported as a success. */
  lemma NotFoundReportedAsSuccess()
    ensures NoJsonReplyAsWritten(404) == NoJsonSuccess(404)
    ensures NoJsonReply(404) == REQUEST_ERROR
  {
    SuccessTestAsWrittenIsNonNegative(404);
  }

  /** The fallback reply names the status: two statuses with the same reply are equal. */
  lemma NoJsonSuccessNamesStatus(s: int, t: int)
    requires NoJsonSuccess(s) == NoJsonSuccess(t)
    ensures s == t
  {
    var prefix := "no json - status code : ";
    var a, b := prefix + IntToDecimal(s), prefix + IntToDecimal(t);
    assert NoJsonSuccess(s)[0].1 == Str(a) && NoJsonSuccess(t)[0].1 == Str(b);
    assert a[|prefix|..] == IntToDecimal(s) && b[|prefix|..] == IntToDecimal(t);
    IntToDecimalInjective(s, t);
  }

  /** A 2xx status is reported the same way by both tests. */
  lemma TestsAgreeOnSuccess(status: int)
    requires 200 <= status < 300
    ensures NoJsonReplyAsWritten(status) == NoJsonReply(status)
  {
    SuccessTestAsWrittenIsNonNegative(status);
  }

  /** An inline key is used as it is: `pathToKey` and the files play no part. */
  lemma InlineKeyWins(config: Fields, fs: FileSystem, other: FileSystem)
    requires GetOrDefault(config, "private_key", Null) != Null
    ensures PrivateKey(config, fs) == PrivateKey(config, other) == Success(GetOrDefault(config, "private_key", Null))
  {
  }

  /** Without an inline key the key file is found as `find_path` finds it, and a path it cannot
      resolve raises FileNotFoundError. */
  lemma KeyFileResolution(config: Fields, fs: FileSystem, p: string)
    requires Get(config, "private_key").None? || Get(config, "private_key") == Some(Null)
    requires Get(config, "pathToKey") == Some(Str(p))
    ensures FindPath(fs, p).None? ==> PrivateKey(config, fs).Failure? && PrivateKey(config, fs).error.FileNotFoundError?
    ensures FindPath(fs, p).Some? && FindPath(fs, p).value in fs.text ==>
      PrivateKey(config, fs) == Success(Str(fs.text[FindPath(fs, p).value]))
  {
  }

  /** A path that does not exist but starts with a separator is retried under the working directory. */
  lemma {:induction false} FindPathRelativeFallback(fs: FileSystem, path: string)
    requires !Exists(fs, path) && LeadingSeparator(path)
    ensures FindPath(fs, path) == (if Exists(fs, "." + path) then Some("." + path) else None)
  {
  }

  /** The claim set carries the registered claims with the values the configuration gives. */
  lemma {:induction false} ClaimValues(config: Fields, nowMs: nat, org: Json, tech: Json, client: Json)
    requires Get(config, "org_id") == Some(org)
    requires Get(config, "tech_id") == Some(tech)
    requires Get(config, "client_id") == Some(client)
    ensures Claims(config, nowMs).Success?
    ensures var c := Claims(config, nowMs).value;
      && Get(c, "exp") == Some(Int(nowMs / 1000 + 86400))
      && Get(c, "iss") == Some(org)
      && Get(c, "sub") == Some(tech)
      && Get(c, "aud") == Some(Str("https://ims-na1.adobelogin.com/c/" + PyStr(client)))
      && Get(c, ENTITLEMENT_CLAIM) == Some(Bool(true))
      && |c| == 5
  {
    var c := Claims(config, nowMs).value;
    assert |ENTITLEMENT_CLAIM| > 3;
    GetAt(c, 1, "iss");
    GetAt(c, 2, "sub");
    GetAt(c, 3, ENTITLEMENT_CLAIM);
    GetAt(c, 4, "aud");
  }

  /** The claim set fails exactly on a missing identifier, in the order the literal reads them. */
  lemma ClaimsFailure(config: Fields, nowMs: nat)
    ensures Claims(config, nowMs).Failure? <==>
      !(HasKey(config, "org_id") && HasKey(config, "tech_id") && HasKey(config, "client_id"))
    ensures !HasKey(config, "org_id") ==> Claims(config, nowMs) == Failure(KeyError("org_id"))
  {
  }

  /** The exchange form carries the client id, the secret and the signed assertion. */
  lemma ExchangeFormValues(config: Fields, jwt: string, client: Json, secret: Json)
    requires Get(config, "client_id") == Some(client) && Get(config, "secret") == Some(secret)
    ensures ExchangeForm(config, jwt).Success?
    ensures var f := ExchangeForm(config, jwt).value;
      Get(f, "client_id") == Some(client) && Get(f, "client_secret") == Some(secret)
      && Get(f, "jwt_token") == Some(Str(jwt)) && |f| == 3
  {
    var f := ExchangeForm(config, jwt).value;
    GetAt(f, 2, "jwt_token");
  }

  /** A reply without `access_token` never yields a token. */
  lemma NoAccessTokenNoGrant(fields: Fields)
    requires !HasKey(fields, "access_token")
    ensures ReadGrant(Dict(fields)).Failure?
    ensures ReadGrant(Dict(fields)).error ==
      if HasKey(fields, "expires_in") then UnboundLocalError("token") else KeyError("expires_in")
  {
  }

  /** A grant is produced exactly from a dict holding both fields, and carries their values. */
  lemma GrantFields(body: Json)
    ensures ReadGrant(body).Success? <==>
      body.Dict? && HasKey(body.fields, "access_token") && HasKey(body.fields, "expires_in")
    ensures ReadGrant(body).Success? ==>
      Some(ReadGrant(body).value.token) == Get(body.fields, "access_token") &&
      Some(ReadGrant(body).value.expiry) == Get(body.fields, "expires_in")
  {
  }

  /** Construction is refused on an empty `org_id` before any key is read or any request made:
      the outcome depends on nothing else. */
  lemma EmptyOrgIdRejected(config: Fields, header: Fields, fs: FileSystem, jwtClockMs: nat, limitClockMs: nat,
                           sign: Signer, post: TokenService)
    requires Get(config, "org_id") == Some(Str(""))
    ensures StartSession(config, header, fs, jwtClockMs, limitClockMs, sign, post) == Failure(Exception(NOT_CONFIGURED))
  {
  }

  /** `org_id` is the only field checked up front: with any other `org_id`, construction
      succeeds or fails exactly as the exchange does. */
  lemma OnlyOrgIdChecked(config: Fields, header: Fields, fs: FileSystem, jwtClockMs: nat, limitClockMs: nat,
                         sign: Signer, post: TokenService)
    requires HasKey(config, "org_id") && Get(config, "org_id") != Some(Str(""))
    ensures var s := StartSession(config, header, fs, jwtClockMs, limitClockMs, sign, post);
      var g := TokenAndExpiry(config, fs, jwtClockMs, sign, post);
      (g.Failure? ==> s == Failure(g.error)) &&
      (g.Success? ==> (s.Success? <==> ExpiryMillis(g.value.expiry).Success?))
  {
  }

  /** What a grant leaves behind: the header carries the bearer form of the token, the token is
      kept in both places, the deadline is `now + expires_in - 500 s`, and every other
      configuration entry and header is the caller's. */
  lemma EstablishState(config: Fields, header: Fields, grant: Grant, limitClockMs: nat)
    ensures Establish(config, header, grant, limitClockMs).Success? <==> ExpiryMillis(grant.expiry).Success?
    ensures Establish(config, header, grant, limitClockMs).Success? ==>
      var s := Establish(config, header, grant, limitClockMs).value;
      && s.token == grant.token
      && Get(s.header, "Authorization") == Some(Str("Bearer " + PyStr(s.token)))
      && Get(s.config, "token") == Some(s.token)
      && Get(s.config, "date_limit") == Some(Int(limitClockMs + ExpiryMillis(grant.expiry).value - 500000))
      && (forall k :: k != "Authorization" ==> Get(s.header, k) == Get(header, k))
      && (forall k :: k != "token" && k != "date_limit" ==> Get(s.config, k) == Get(config, k))
  {
    var auth := Str(Bearer(grant.token));
    var withToken := Put(config, "token", grant.token);
    if e :| ExpiryMillis(grant.expiry) == Success(e) {
      var deadline := Int(limitClockMs + e - MARGIN_MS);
      GetPut(header, "Authorization", auth, "Authorization");
      GetPut(config, "token", grant.token, "token");
      GetPut(withToken, "date_limit", deadline, "token");
      GetPut(withToken, "date_limit", deadline, "date_limit");
      forall k | k != "Authorization"
        ensures Get(Put(header, "Authorization", auth), k) == Get(header, k)
      {
        GetPut(header, "Authorization", auth, k);
      }
      forall k | k != "token" && k != "date_limit"
        ensures Get(Put(withToken, "date_limit", deadline), k) == Get(config, k)
      {
        GetPut(withToken, "date_limit", deadline, k);
        GetPut(config, "token", grant.token, k);
      }
    }
  }

  /** Construction succeeds exactly when the exchange does and yields a lifetime that divides,
      and then builds what the grant leaves behind. */
  lemma StartSessionState(config: Fields, header: Fields, fs: FileSystem, jwtClockMs: nat, limitClockMs: nat,
                          sign: Signer, post: TokenService)
    requires HasKey(config, "org_id") && Get(config, "org_id") != Some(Str(""))
    ensures var s := StartSession(config, header, fs, jwtClockMs, limitClockMs, sign, post);
      var g := TokenAndExpiry(config, fs, jwtClockMs, sign, post);
      && (g.Failure? ==> s == Failure(g.error))
      && (g.Success? ==> s == Establish(config, header, g.value, limitClockMs))
      && (s.Success? <==> g.Success? && ExpiryMillis(g.value.expiry).Success?)
  {
    var g := TokenAndExpiry(config, fs, jwtClockMs, sign, post);
    if g.Success? {
      EstablishState(config, header, g.value, limitClockMs);
    }
  }

  /** A session built by construction satisfies the invariant. */
  lemma StartSessionIsValid(config: Fields, header: Fields, fs: FileSystem, jwtClockMs: nat, limitClockMs: nat,
                            sign: Signer, post: TokenService)
    requires StartSession(config, header, fs, jwtClockMs, limitClockMs, sign, post).Success?
    ensures ValidSession(StartSession(config, header, fs, jwtClockMs, limitClockMs, sign, post).value)
  {
    var g := TokenAndExpiry(config, fs, jwtClockMs, sign, post);
    EstablishState(config, header, g.value, limitClockMs);
  }

  /** A token `tok-123` valid for an hour gives the Bearer header and a deadline 3100 seconds
      after the clock reading. */
  lemma ExampleSession(config: Fields, header: Fields, now: nat)
    ensures var s := Establish(config, header, Grant(Str("tok-123"), Int(3600000)), now);
      s.Success?
      && Get(s.value.header, "Authorization") == Some(Str("Bearer tok-123"))
      && Get(s.value.config, "date_limit") == Some(Int(now + 3100000))
  {
    EstablishState(config, header, Grant(Str("tok-123"), Int(3600000)), now);
    assert Bearer(Str("tok-123")) == "Bearer tok-123";
  }

  /** The refresh the class evidently intends renews the session: after a successful exchange
      whose lifetime exceeds the margin, the token is current again at the time of the refresh. */
  lemma RefreshRenews(s: Session, fs: FileSystem, nowMs: nat, sign: Signer, post: TokenService)
    requires StartSession(s.config, s.header, fs, nowMs, nowMs, sign, post).Success?
    requires var g := TokenAndExpiry(s.config, fs, nowMs, sign, post);
      g.Success? && g.value.expiry.Int? && g.value.expiry.i >= MARGIN_MS
    ensures var s' := StartSession(s.config, s.header, fs, nowMs, nowMs, sign, post).value;
      ValidSession(s') && nowMs <= Get(s'.config, "date_limit").value.i
      && Get(s'.header, "Authorization") == Some(Str(Bearer(s'.token)))
  {
    var g := TokenAndExpiry(s.config, fs, nowMs, sign, post);
    StartSessionIsValid(s.config, s.header, fs, nowMs, nowMs, sign, post);
    EstablishState(s.config, s.header, g.value, nowMs);
  }
}
