/** The Personio token authenticator of `source_personio/auth.py`: it keeps the
    client credentials read from the configuration, and on every read of its
    token it asks the token endpoint for a fresh one. The HTTP exchange is a
    parameter: a function from the request sent to the response received. */
module Auth {
  import opened JsonData

  /** The token endpoint `PersonioAuth` always uses. */
  const PersonioTokenEndpoint := "https://api.personio.de/v1/auth/"

  /** The connector configuration, as string entries. */
  type Config = map<string, string>

  /** A `config[key]` that failed: Python's `KeyError`. */
  datatype ConfigError = KeyError(key: string)

  /** `str(e)` of a `KeyError`: the key between single quotes. */
  function Message(e: ConfigError): string {
    "'" + e.key + "'"
  }

  /** Python's `config[key]`. */
  function ReadKey(config: Config, key: string): Result<string, ConfigError> {
    if key in config then Success(config[key]) else Failure(KeyError(key))
  }

  /** The two reads the constructor makes, in its order: the secret first,
      then the id. The pair is (secret, id). */
  function ReadCredentials(config: Config): (r: Result<(string, string), ConfigError>)
    ensures r.Success? <==> "client_secret" in config && "client_id" in config
    ensures r.Success? ==> r.value == (config["client_secret"], config["client_id"])
    ensures "client_secret" !in config ==> r == Failure(KeyError("client_secret"))
    ensures "client_secret" in config && "client_id" !in config ==> r == Failure(KeyError("client_id"))
  {
    var secret :- ReadKey(config, "client_secret");
    var id :- ReadKey(config, "client_id");
    Success((secret, id))
  }

  datatype HttpRequest = HttpRequest(verb: string, url: string, params: seq<(string, string)>, headers: seq<(string, string)>)

  datatype HttpResponse = HttpResponse(status: int, body: Json)

  /** Why a token read fails: `raise_for_status`, a missing key, or subscripting
      something that is not a dict. */
  datatype AuthError =
    | HttpError(status: int)
    | MissingKey(key: string)
    | NotSubscriptable(key: string)
    | TokenNotText

  /** `raise_for_status` raises for client and server errors. */
  predicate IsHttpError(status: int) {
    400 <= status < 600
  }

  /** Python's `j[key]` on a decoded JSON value. */
  function Subscript(j: Json, key: string): Result<Json, AuthError> {
    match j
    case JObj(fields) =>
      (match Lookup(fields, key)
       case Some(v) => Success(v)
       case None => Failure(MissingKey(key)))
    case _ => Failure(NotSubscriptable(key))
  }

  class PersonioOAuth {
    var config: Config
    var tokenRefreshEndpoint: string
    var clientSecret: string
    var clientId: string
    /** Set by the token-authenticator superclass, which is not part of this model. */
    var authMethod: string

    /** The stored credentials are the configuration's entries. */
    ghost predicate Valid()
      reads this
    {
      && "client_secret" in config && "client_id" in config
      && clientSecret == config["client_secret"] && clientId == config["client_id"]
    }

    /** Stores the configuration and the endpoint, then reads the secret and the id. */
    constructor (config: Config, tokenRefreshEndpoint: string, authMethod: string)
      requires ReadCredentials(config).Success?
      ensures Valid()
      ensures this.config == config && this.authMethod == authMethod
      ensures GetTokenRefreshEndpoint() == tokenRefreshEndpoint
      ensures (clientSecret, clientId) == ReadCredentials(config).value
    {
      this.config := config;
      this.tokenRefreshEndpoint := tokenRefreshEndpoint;
      this.authMethod := authMethod;
      new;
      clientSecret := GetClientSecret();
      clientId := GetClientId();
    }

    function GetTokenRefreshEndpoint(): string
      reads this
    {
      tokenRefreshEndpoint
    }

    function GetClientId(): string
      reads this
      requires "client_id" in config
    {
      config["client_id"]
    }

    function GetClientSecret(): string
      reads this
      requires "client_secret" in config
    {
      config["client_secret"]
    }

    function BuildRefreshRequestHeaders(): seq<(string, string)> {
      [("Content-Type", "application/json")]
    }

    function BuildRefreshRequestBody(): seq<(string, string)>
      reads this
      requires Valid()
    {
      [("client_id", GetClientId()), ("client_secret", GetClientSecret())]
    }

    /** The one request a token read sends: a POST to the endpoint with the
        credentials as parameters and a JSON content type. */
    function RefreshRequest(): (req: HttpRequest)
      reads this
      requires Valid()
      ensures req.verb == "POST" && req.url == tokenRefreshEndpoint
      ensures req.params == [("client_id", clientId), ("client_secret", clientSecret)]
      ensures req.headers == [("Content-Type", "application/json")]
    {
      HttpRequest("POST", GetTokenRefreshEndpoint(), BuildRefreshRequestBody(), BuildRefreshRequestHeaders())
    }

    /** `json["data"]["token"]` of the answer to the refresh request, unless
        that answer is a client or server error. */
    function GetRefreshToken(exchange: HttpRequest -> HttpResponse): (r: Result<Json, AuthError>)
      reads this
      requires Valid()
      ensures var response := exchange(RefreshRequest());
              && (IsHttpError(response.status) ==> r == Failure(HttpError(response.status)))
              && (r.Success? <==>
                    && !IsHttpError(response.status)
                    && response.body.JObj?
                    && Lookup(response.body.fields, "data").Some?
                    && Lookup(response.body.fields, "data").value.JObj?
                    && Lookup(Lookup(response.body.fields, "data").value.fields, "token").Some?)
              && (r.Success? ==> r.value == Lookup(Lookup(response.body.fields, "data").value.fields, "token").value)
    {
      var response := exchange(RefreshRequest());
      if IsHttpError(response.status) then Failure(HttpError(response.status))
      else
        var data :- Subscript(response.body, "data");
        Subscript(data, "token")
    }

    /** The authorization header value: the scheme, a space, and a freshly
        refreshed token. Nothing is cached: the value depends only on the
        answer the exchange gives to this read's refresh request. */
    function Token(exchange: HttpRequest -> HttpResponse): (r: Result<string, AuthError>)
      reads this
      requires Valid()
      ensures GetRefreshToken(exchange).Failure? ==> r == Failure(GetRefreshToken(exchange).error)
      ensures r.Success? <==> GetRefreshToken(exchange).Success? && GetRefreshToken(exchange).value.JStr?
      ensures r.Success? ==>
                && |r.value| > |authMethod|
                && r.value[..|authMethod|] == authMethod
                && r.value[|authMethod|] == ' '
                && r.value[|authMethod| + 1..] == GetRefreshToken(exchange).value.s
    {
      var refreshed :- GetRefreshToken(exchange);
      if refreshed.JStr? then Success(authMethod + " " + refreshed.s) else Failure(TokenNotText)
    }
  }

  /** Two reads whose refreshes bring back different tokens give different
      header values: no earlier token is reused. */
  lemma TokenNotCached(auth: PersonioOAuth, first: HttpRequest -> HttpResponse, second: HttpRequest -> HttpResponse)
    requires auth.Valid()
    requires auth.GetRefreshToken(first).Success? && auth.GetRefreshToken(first).value.JStr?
    requires auth.GetRefreshToken(second).Success? && auth.GetRefreshToken(second).value.JStr?
    requires auth.GetRefreshToken(first).value != auth.GetRefreshToken(second).value
    ensures auth.Token(first) != auth.Token(second)
  {
  }

  /** `PersonioOAuth(config, endpoint)`: construction either fails with the
      `KeyError` of the first missing credential or yields a new authenticator. */
  method NewPersonioOAuth(config: Config, tokenRefreshEndpoint: string, authMethod: string)
    returns (r: Result<PersonioOAuth, ConfigError>)
    ensures r.Failure? ==> ReadCredentials(config) == Failure(r.error)
    ensures r.Success? ==>
              && ReadCredentials(config).Success?
              && fresh(r.value) && r.value.Valid()
              && r.value.config == config && r.value.authMethod == authMethod
              && r.value.GetTokenRefreshEndpoint() == tokenRefreshEndpoint
  {
    match ReadCredentials(config)
    case Failure(e) =>
      r := Failure(e);
    case Success(_) =>
      var auth := new PersonioOAuth(config, tokenRefreshEndpoint, authMethod);
      r := Success(auth);
  }

  /** `PersonioAuth(config)`: the authenticator for the fixed Personio endpoint. */
  method PersonioAuth(config: Config, authMethod: string) returns (r: Result<PersonioOAuth, ConfigError>)
    ensures r.Failure? ==> ReadCredentials(config) == Failure(r.error)
    ensures r.Success? ==>
              && ReadCredentials(config).Success?
              && fresh(r.value) && r.value.Valid()
              && r.value.config == config && r.value.authMethod == authMethod
              && r.value.GetTokenRefreshEndpoint() == PersonioTokenEndpoint
  {
    r := NewPersonioOAuth(config, PersonioTokenEndpoint, authMethod);
  }
}
