/** The `APISession` of the Idealista client: lazily creates an HTTP session
    carrying a Bearer token (section 2.1 of RFC 6750), fetching the token
    through the OAuth client-credentials grant (section 4.4 of RFC 6749)
    with HTTP Basic credentials (section 2 of RFC 7617) when only an API key
    and secret were given. The token endpoint is an oracle. */
module IdealistaSession {
  import opened Wrappers
  import opened PyStrings
  import Base64

  const DefaultBaseUrl: string := "https://api.idealista.com"
  const TokenPath: string := "/oauth/token"
  const FormContentType: string := "application/x-www-form-urlencoded"
  const TokenForm: seq<(string, string)> := [("grant_type", "client_credentials"), ("scope", "read")]

  /** The POST the token request sends: URL, headers, and the form fields in order. */
  datatype TokenRequest = TokenRequest(url: string, headers: map<string, string>, form: seq<(string, string)>)

  /** What `response.json()` makes of the reply body. */
  datatype JsonBody =
    | Undecodable                              // the body is not JSON
    | JsonObject(accessToken: Option<string>)  // a JSON object; its "access_token" entry, if any
    | JsonNonObject                            // JSON, but not an object (list, number, null, ...)

  datatype TokenReply = Replied(status: int, body: JsonBody) | RequestFailed

  /** The token endpoint, answering each request deterministically. */
  type TokenEndpoint = TokenRequest -> TokenReply

  /** The exceptions session creation can raise. All but the last are a
      `ValueError` (`UnicodeEncodeError` is one); the last is an `AttributeError`. */
  datatype SessionError =
    | MissingCredentials      // neither a token nor a key and secret
    | NonAsciiCredentials     // `encode('ascii')` of "key:secret" failed
    | TokenRequestFailed      // HTTP error, transport error, undecodable or token-less reply
    | TokenResponseNotObject  // `.get` on a JSON value that is not an object

  predicate IsValueError(e: SessionError) {
    !e.TokenResponseNotObject?
  }

  /** `raise_for_status()` raises exactly for 4xx and 5xx codes. */
  predicate IsHttpError(status: int) {
    400 <= status < 600
  }

  /** `Bearer <token>` as the f-string formats it: the scheme, one space,
      then the token itself, or "None" when there is none. */
  function BearerValue(token: Option<string>): (r: string)
    ensures StartsWith(r, "Bearer ")
    ensures token.Some? ==> r[7..] == token.value
    ensures token.None? ==> r[7..] == "None"
  {
    "Bearer " + Format(token)
  }

  /** `"Basic " + base64(key + ":" + secret)`, or `None` when the
      credentials are not ASCII. */
  function BasicAuthorization(apiKey: string, apiSecret: string): (r: Option<string>)
    ensures r.Some? <==> forall k :: 0 <= k < |apiKey + ":" + apiSecret| ==> (apiKey + ":" + apiSecret)[k] as int < 128
    ensures r.Some? ==> StartsWith(r.value, "Basic ")
                        && |r.value| == 6 + 4 * ((|apiKey| + |apiSecret| + 3) / 3)
    ensures r.Some? ==> Base64.Decode(r.value[6..]) == Base64.AsciiEncode(apiKey + ":" + apiSecret)
  {
    match Base64.AsciiEncode(apiKey + ":" + apiSecret)
    case None => None
    case Some(octets) =>
      var header := "Basic " + Base64.Encode(octets);
      assert header[6..] == Base64.Encode(octets);
      Base64.DecodeEncode(octets);
      Some(header)
  }

  /** Splits a user-pass at its first colon, as section 2 of RFC 7617 reads it. */
  function SplitAtColon(s: string): Option<(string, string)> {
    if s == [] then None
    else if s[0] == ':' then Some(([], s[1..]))
    else match SplitAtColon(s[1..])
      case None => None
      case Some(parts) => Some(([s[0]] + parts.0, parts.1))
  }

  /** What a server reads out of a Basic `Authorization` header value. */
  function ParseBasicCredentials(header: string): Option<(string, string)> {
    if !StartsWith(header, "Basic ") then None
    else match Base64.Decode(header[6..])
      case None => None
      case Some(octets) => SplitAtColon(Base64.AsciiDecode(octets))
  }

  lemma {:induction false} SplitAtColonJoin(user: string, pass: string)
    requires forall k :: 0 <= k < |user| ==> user[k] != ':'
    ensures SplitAtColon(user + ":" + pass) == Some((user, pass))
    decreases |user|
  {
    var s := user + ":" + pass;
    if user == [] {
      assert s[0] == ':' && s[1..] == pass;
    } else {
      assert s[0] == user[0] && s[1..] == user[1..] + ":" + pass;
      SplitAtColonJoin(user[1..], pass);
      assert [user[0]] + user[1..] == user;
    }
  }

  /** The header built for the token request carries exactly the key and
      secret: a server splitting it at the first colon recovers both,
      provided the key has no colon (which RFC 7617 forbids in a user-id). */
  lemma BasicCredentialsRoundTrip(apiKey: string, apiSecret: string)
    requires forall k :: 0 <= k < |apiKey| ==> apiKey[k] != ':'
    requires BasicAuthorization(apiKey, apiSecret).Some?
    ensures ParseBasicCredentials(BasicAuthorization(apiKey, apiSecret).value) == Some((apiKey, apiSecret))
  {
    var userPass := apiKey + ":" + apiSecret;
    var octets := Base64.AsciiEncode(userPass).value;
    var header := "Basic " + Base64.Encode(octets);
    assert header[..6] == "Basic " && header[6..] == Base64.Encode(octets);
    Base64.DecodeEncode(octets);
    Base64.AsciiRoundTrip(userPass);
    SplitAtColonJoin(apiKey, apiSecret);
  }

  /** The request `_get_oauth_token` sends, or the `UnicodeEncodeError`
      raised before it is sent. */
  function BuildTokenRequest(baseUrl: string, apiKey: string, apiSecret: string): (r: Result<TokenRequest, SessionError>)
    ensures r.Failure? <==> exists k :: 0 <= k < |apiKey + ":" + apiSecret| && (apiKey + ":" + apiSecret)[k] as int >= 128
    ensures r.Failure? ==> r.error == NonAsciiCredentials
    ensures r.Success? ==> r.value.url == baseUrl + TokenPath && r.value.form == TokenForm
    ensures r.Success? ==> r.value.headers.Keys == {"Authorization", "Content-Type"}
                           && r.value.headers["Content-Type"] == FormContentType
                           && StartsWith(r.value.headers["Authorization"], "Basic ")
    ensures r.Success? ==> r.value.headers["Authorization"] == BasicAuthorization(apiKey, apiSecret).value
    ensures r.Success? && (forall k :: 0 <= k < |apiKey| ==> apiKey[k] != ':') ==>
              ParseBasicCredentials(r.value.headers["Authorization"]) == Some((apiKey, apiSecret))
  {
    match BasicAuthorization(apiKey, apiSecret)
    case None => Failure(NonAsciiCredentials)
    case Some(basic) =>
      assert (forall k :: 0 <= k < |apiKey| ==> apiKey[k] != ':') ==>
               ParseBasicCredentials(basic) == Some((apiKey, apiSecret)) by {
        if forall k :: 0 <= k < |apiKey| ==> apiKey[k] != ':' {
          BasicCredentialsRoundTrip(apiKey, apiSecret);
        }
      }
      var headers := map["Authorization" := basic, "Content-Type" := FormContentType];
      Success(TokenRequest(baseUrl + TokenPath, headers, TokenForm))
  }

  /** `_get_oauth_token`: the access token the endpoint grants, or the
      exception raised. Every failure of the exchange itself becomes a
      `ValueError`; only a reply that is JSON but not an object escapes as an
      `AttributeError`. */
  function GetOAuthToken(baseUrl: string, apiKey: string, apiSecret: string, endpoint: TokenEndpoint): (r: Result<string, SessionError>)
    ensures r.Success? ==> r.value != ""
    ensures r.Success? <==>
              BuildTokenRequest(baseUrl, apiKey, apiSecret).Success?
              && var reply := endpoint(BuildTokenRequest(baseUrl, apiKey, apiSecret).value);
                 reply.Replied? && !IsHttpError(reply.status) && reply.body.JsonObject?
                 && Truthy(reply.body.accessToken)
    ensures r.Success? ==> r.value == endpoint(BuildTokenRequest(baseUrl, apiKey, apiSecret).value).body.accessToken.value
    ensures r == Failure(TokenResponseNotObject) <==>
              BuildTokenRequest(baseUrl, apiKey, apiSecret).Success?
              && var reply := endpoint(BuildTokenRequest(baseUrl, apiKey, apiSecret).value);
                 reply.Replied? && !IsHttpError(reply.status) && reply.body.JsonNonObject?
    ensures r.Failure? && IsValueError(r.error) <==>
              BuildTokenRequest(baseUrl, apiKey, apiSecret).Failure?
              || var reply := endpoint(BuildTokenRequest(baseUrl, apiKey, apiSecret).value);
                 reply.RequestFailed? || IsHttpError(reply.status) || reply.body.Undecodable?
                 || (reply.body.JsonObject? && !Truthy(reply.body.accessToken))
  {
    match BuildTokenRequest(baseUrl, apiKey, apiSecret)
    case Failure(e) => Failure(e)
    case Success(request) =>
      match endpoint(request)
      case RequestFailed => Failure(TokenRequestFailed)
      case Replied(status, body) =>
        if IsHttpError(status) then Failure(TokenRequestFailed)
        else match body
          case Undecodable => Failure(TokenRequestFailed)
          case JsonNonObject => Failure(TokenResponseNotObject)
          case JsonObject(token) =>
            if Truthy(token) then Success(token.value) else Failure(TokenRequestFailed)
  }

  /** The token a newly created session is given, or the exception
      `_create_session` raises: the stored token if truthy, else one fetched
      with a truthy key and secret, else `MissingCredentials`. */
  function SessionToken(baseUrl: string, authToken: Option<string>, apiKey: Option<string>, apiSecret: Option<string>,
                        endpoint: TokenEndpoint): (r: Result<string, SessionError>)
    ensures r.Success? ==> r.value != ""
    ensures Truthy(authToken) ==> r == Success(authToken.value)
    ensures r == Failure(MissingCredentials) <==> !Truthy(authToken) && !(Truthy(apiKey) && Truthy(apiSecret))
    ensures !Truthy(authToken) && Truthy(apiKey) && Truthy(apiSecret) ==>
              r == GetOAuthToken(baseUrl, apiKey.value, apiSecret.value, endpoint)
  {
    if Truthy(authToken) then Success(authToken.value)
    else if Truthy(apiKey) && Truthy(apiSecret) then GetOAuthToken(baseUrl, apiKey.value, apiSecret.value, endpoint)
    else Failure(MissingCredentials)
  }

  /** A `requests.Session`, reduced to its header dictionary. */
  class HttpSession {
    var headers: map<string, string>

    constructor ()
      ensures headers == map[]
    {
      headers := map[];
    }
  }

  class APISession {
    var baseUrl: string
    var apiKey: Option<string>
    var apiSecret: Option<string>
    var authToken: Option<string>
    var current: HttpSession?  // `_session`

    /** Stores its arguments; it checks nothing and never raises. */
    constructor (baseUrl: string, authToken: Option<string>, apiKey: Option<string>, apiSecret: Option<string>)
      ensures this.baseUrl == baseUrl && this.authToken == authToken
      ensures this.apiKey == apiKey && this.apiSecret == apiSecret
      ensures current == null
    {
      this.baseUrl := baseUrl;
      this.apiKey := apiKey;
      this.apiSecret := apiSecret;
      this.authToken := authToken;
      current := null;
    }

    /** Holds while every session handed out carries the stored token. */
    ghost predicate Authenticated()
      reads this, current
    {
      current != null ==>
        Truthy(authToken) && "Authorization" in current.headers
        && current.headers["Authorization"] == BearerValue(authToken)
    }

    method UpdateSessionWithToken()
      requires current != null
      modifies current
      ensures current.headers == old(current.headers)["Authorization" := BearerValue(authToken)]
    {
      current.headers := current.headers["Authorization" := BearerValue(authToken)];
    }

    /** `_create_session`: the new session is stored before any exception is raised. */
    method CreateSession(endpoint: TokenEndpoint) returns (raised: Option<SessionError>)
      modifies this
      ensures fresh(current)
      ensures baseUrl == old(baseUrl) && apiKey == old(apiKey) && apiSecret == old(apiSecret)
      ensures match SessionToken(baseUrl, old(authToken), apiKey, apiSecret, endpoint)
              case Success(token) =>
                raised == None && authToken == Some(token)
                && current.headers == map["Authorization" := "Bearer " + token]
              case Failure(e) =>
                raised == Some(e) && authToken == old(authToken) && current.headers == map[]
    {
      current := new HttpSession();
      if Truthy(authToken) {
        UpdateSessionWithToken();
        raised := None;
      } else if Truthy(apiKey) && Truthy(apiSecret) {
        var token := GetOAuthToken(baseUrl, apiKey.value, apiSecret.value, endpoint);
        if token.Failure? {
          raised := Some(token.error);
          return;
        }
        authToken := Some(token.value);
        UpdateSessionWithToken();
        raised := None;
      } else {
        raised := Some(MissingCredentials);
      }
    }

    /** The `session` property as written: creates the session on first
        access, and on every later access returns the stored one, re-applying
        the Bearer header when a token is stored. */
    method Session(endpoint: TokenEndpoint) returns (r: Result<HttpSession, SessionError>)
      modifies this, current
      ensures baseUrl == old(baseUrl) && apiKey == old(apiKey) && apiSecret == old(apiSecret)
      ensures old(current) == null ==>
                fresh(current)
                && match SessionToken(baseUrl, old(authToken), apiKey, apiSecret, endpoint)
                   case Success(token) =>
                     r == Success(current) && authToken == Some(token)
                     && current.headers == map["Authorization" := "Bearer " + token]
                   case Failure(e) =>
                     r == Failure(e) && authToken == old(authToken) && current.headers == map[]
      ensures old(current) != null ==>
                current == old(current) && authToken == old(authToken) && r == Success(current)
                && current.headers == if Truthy(authToken)
                                      then old(current.headers)["Authorization" := BearerValue(authToken)]
                                      else old(current.headers)
    {
      if current == null {
        var raised := CreateSession(endpoint);
        if raised.Some? {
          return Failure(raised.value);
        }
      } else if Truthy(authToken) {
        UpdateSessionWithToken();
      }
      r := Success(current);
    }

    /** The `session` property as evidently intended: a session is stored
        only once it carries a token, so a failed creation is raised again on
        the next access instead of handing out an unauthenticated session. */
    method CheckedSession(endpoint: TokenEndpoint) returns (r: Result<HttpSession, SessionError>)
      requires Authenticated()
      modifies this, current
      ensures Authenticated()
      ensures baseUrl == old(baseUrl) && apiKey == old(apiKey) && apiSecret == old(apiSecret)
      ensures r.Success? ==> r.value == current && "Authorization" in current.headers
      ensures old(current) == null ==>
                match SessionToken(baseUrl, old(authToken), apiKey, apiSecret, endpoint)
                case Success(token) =>
                  fresh(current) && r == Success(current) && authToken == Some(token)
                  && current.headers == map["Authorization" := "Bearer " + token]
                case Failure(e) =>
                  current == null && r == Failure(e) && authToken == old(authToken)
      ensures old(current) != null ==>
                current == old(current) && authToken == old(authToken) && r == Success(current)
                && current.headers == old(current.headers)
    {
      if current == null {
        var token := SessionToken(baseUrl, authToken, apiKey, apiSecret, endpoint);
        if token.Failure? {
          return Failure(token.error);
        }
        var created := new HttpSession();
        authToken := Some(token.value);
        current := created;
        UpdateSessionWithToken();
      } else {
        UpdateSessionWithToken();
      }
      r := Success(current);
    }
  }

  /** With a token given, two accesses return the same session, whose
      Authorization header is exactly "Bearer " + token. */
  method RepeatedAccessWithToken(token: string, endpoint: TokenEndpoint)
    returns (first: Result<HttpSession, SessionError>, second: Result<HttpSession, SessionError>)
    requires token != ""
    ensures first.Success? && second.Success? && first.value == second.value
    ensures second.value.headers == map["Authorization" := "Bearer " + token]
  {
    var api := new APISession(DefaultBaseUrl, Some(token), None, None);
    first := api.Session(endpoint);
    second := api.Session(endpoint);
  }

  /** With a key and secret only, the first access stores the token the
      endpoint grants and installs it as the Bearer header. */
  method AccessWithKeyAndSecret(apiKey: string, apiSecret: string, endpoint: TokenEndpoint)
    returns (r: Result<HttpSession, SessionError>, stored: Option<string>)
    requires apiKey != "" && apiSecret != ""
    ensures r.Success? <==> GetOAuthToken(DefaultBaseUrl, apiKey, apiSecret, endpoint).Success?
    ensures r.Success? ==>
              stored == Some(GetOAuthToken(DefaultBaseUrl, apiKey, apiSecret, endpoint).value)
              && r.value.headers == map["Authorization" := BearerValue(stored)]
    ensures r.Failure? ==> stored == None && r.error == GetOAuthToken(DefaultBaseUrl, apiKey, apiSecret, endpoint).error
  {
    var api := new APISession(DefaultBaseUrl, None, Some(apiKey), Some(apiSecret));
    r := api.Session(endpoint);
    stored := api.authToken;
  }

  /** As written: without credentials the first access raises, but the
      session object was stored before raising, so the second access returns
      it, with no Authorization header and no exception. */
  method RetryWithoutCredentials(endpoint: TokenEndpoint)
    returns (first: Result<HttpSession, SessionError>, second: Result<HttpSession, SessionError>)
    ensures first == Failure(MissingCredentials)
    ensures second.Success? && "Authorization" !in second.value.headers
  {
    var api := new APISession(DefaultBaseUrl, None, None, None);
    first := api.Session(endpoint);
    second := api.Session(endpoint);
  }

  /** Corrected: every access without credentials raises. */
  method RetryWithoutCredentialsChecked(endpoint: TokenEndpoint)
    returns (first: Result<HttpSession, SessionError>, second: Result<HttpSession, SessionError>)
    ensures first == Failure(MissingCredentials) && second == Failure(MissingCredentials)
  {
    var api := new APISession(DefaultBaseUrl, None, None, None);
    first := api.CheckedSession(endpoint);
    second := api.CheckedSession(endpoint);
  }
}
