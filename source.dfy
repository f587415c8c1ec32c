/** The stream and source declarations of `source_personio/source.py`: the one
    `Employees` stream, what it declares and sends, and the source that checks a
    configuration and lists its streams. Parsing a response is the `Flatten`
    module's `ParseResponse`, with the stream schema's property names as the
    allow-list. */
module Source {
  import opened JsonData
  import opened Auth

  const UrlBase := "https://api.personio.de/v1/"

  /** The streams of the source; `PersonioStream` members are shared by all. */
  datatype Stream = Employees(authenticator: PersonioOAuth) {

    function Path(): string {
      "company/employees"
    }

    function PrimaryKey(): string {
      "id"
    }

    function CursorField(): string {
      "updated_since"
    }

    /** No response ever leads to a further page: a read is a single page. */
    function NextPageToken(response: Json): (token: Option<Json>)
      ensures token.None?
    {
      None
    }

    /** The query parameters of every request: the app id, whatever the state,
        slice or page token. */
    function RequestParams(streamState: Json, streamSlice: Option<Json>, nextPageToken: Option<Json>)
      : (params: seq<(string, string)>)
      ensures |params| == 1 && params[0] == ("X-Personio-App-ID", "AIRBYTE")
    {
      [("X-Personio-App-ID", "AIRBYTE")]
    }
  }

  /** A stream's declarations do not depend on the authenticator it is bound to. */
  lemma EmployeesDeclaration(stream: Stream)
    ensures stream.Path() == "company/employees"
    ensures stream.PrimaryKey() == "id"
    ensures stream.CursorField() == "updated_since"
    ensures UrlBase + stream.Path() == "https://api.personio.de/v1/company/employees"
  {
  }

  /** `SourcePersonio.check_connection`: tries to build the authenticator and
      reports the outcome instead of raising. */
  method CheckConnection(config: Config, authMethod: string) returns (ok: bool, error: Option<string>)
    ensures ok <==> "client_secret" in config && "client_id" in config
    ensures ok ==> error == None
    ensures !ok && "client_secret" !in config ==> error == Some("'client_secret'")
    ensures !ok && "client_secret" in config ==> error == Some("'client_id'")
  {
    var auth := PersonioAuth(config, authMethod);
    match auth
    case Success(_) =>
      ok, error := true, None;
    case Failure(e) =>
      assert Message(KeyError("client_secret")) == "'client_secret'";
      assert Message(KeyError("client_id")) == "'client_id'";
      ok, error := false, Some(Message(e));
  }

  /** `SourcePersonio.streams`: one `Employees` stream bound to a new
      authenticator for the Personio endpoint; construction errors propagate. */
  method Streams(config: Config, authMethod: string) returns (r: Result<seq<Stream>, ConfigError>)
    ensures r.Success? <==> "client_secret" in config && "client_id" in config
    ensures r.Failure? ==> r.error == KeyError(if "client_secret" !in config then "client_secret" else "client_id")
    ensures r.Success? ==>
              && |r.value| == 1
              && r.value[0].Employees?
              && fresh(r.value[0].authenticator)
              && r.value[0].authenticator.Valid()
              && r.value[0].authenticator.config == config
              && r.value[0].authenticator.GetTokenRefreshEndpoint() == PersonioTokenEndpoint
  {
    var auth := PersonioAuth(config, authMethod);
    match auth
    case Failure(e) =>
      r := Failure(e);
    case Success(a) =>
      r := Success([Employees(a)]);
  }
}
