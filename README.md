# Personio source connector: record flattening and authentication

A Dafny model of the core of the Airbyte Personio connector
(`source_personio/source.py` and `source_personio/auth.py`).

- `json.dfy`, module `JsonData`: decoded JSON values. A JSON object stands for a
  Python dict: a list of entries with distinct keys, in insertion order. Also
  `d.get(key, default)` (`Get`), `d[key]` (`Lookup`) and `d[key] = v` (`Set`).
- `flatten.dfy`, module `Flatten`: `PersonioStream.parse_response`. The
  functions `FlattenAll`, `FlattenItem`, `FlattenAttributes`, `FlattenValue` and
  `UnwrapSubAttributes` say what the generator yields. The methods
  `ParseResponse`, `FlattenRecord` and `UnwrapInPlace` are its three nested
  loops. They build each record key by key and rewrite the nested attributes
  map entry by entry in place, and they are proved to compute exactly those
  functions. The allow-list is the set of property names of the stream schema.
  It is a parameter.
- `auth.dfy`, module `Auth`: `PersonioOAuth` is a class. Its constructor stores
  the configuration and the endpoint, then reads `client_secret` and then
  `client_id`. Construction that can fail is `NewPersonioOAuth` and
  `PersonioAuth`, which return a `Result` carrying the `KeyError`. The network
  exchange is a parameter `exchange: HttpRequest -> HttpResponse`. Each token
  read applies it once to the refresh request. The authorization scheme
  (`_auth_method`) comes from the token-authenticator superclass and is a
  constructor parameter.
- `source.dfy`, module `Source`: the `Employees` stream and what it declares:
  its path, primary key, cursor field, next-page token and request parameters.
  Also `check_connection` and `streams`.

`get_refresh_token` calls `raise_for_status`, which raises only for statuses
400 to 599. Any other status goes on to read the token.
The model follows it (`Auth.IsHttpError`). The code declares only the
`Employees` stream. It has no pagination (`next_page_token` always returns
`None`) and no request parameters beyond the app id.

## Model

| member | source | states |
|---|---|---|
| `Flatten.ParseResponse` | airbyte-integrations/connectors/source-personio/source_personio/source.py:67-83 | The generator loop over `data` yields exactly `Records(body, allow)`: one record per item, in order |
| `Flatten.FlattenRecord` | airbyte-integrations/connectors/source-personio/source_personio/source.py:69-82 | The loop that builds one record key by key, assigning each kept key and then reassigning it to the unwrapped map, yields exactly `FlattenAttributes` of the item's attributes |
| `Flatten.UnwrapInPlace` | airbyte-integrations/connectors/source-personio/source_personio/source.py:78-81 | Rewriting the nested map in place while walking it yields `UnwrapSubAttributes` of the original map |
| `Flatten.FlattenAll` | airbyte-integrations/connectors/source-personio/source_personio/source.py:67-83 | Exactly one record per element of `data`, the i-th record being the flattening of the i-th element |
| `Flatten.FlattenItem` | airbyte-integrations/connectors/source-personio/source_personio/source.py:69-70 | Every record is a dict, and an item without an `attributes` key yields the empty record |
| `Flatten.FlattenAttributesKeys` | airbyte-integrations/connectors/source-personio/source_personio/source.py:71-74 | The record's keys are the input attribute names filtered by the allow-list, in input order. This row and the next four speak for `Flatten.FlattenAttributes`, which has no contract of its own |
| `Flatten.FlattenAttributesKeySet` | airbyte-integrations/connectors/source-personio/source_personio/source.py:71-74 | A name is a record key if and only if it is allow-listed and an input attribute name. Names outside the schema never appear, and no allow-listed attribute is dropped |
| `Flatten.FlattenAttributesDistinct` | airbyte-integrations/connectors/source-personio/source_personio/source.py:70-74 | Record keys are distinct, as in a dict |
| `Flatten.FlattenAttributesLookup` | airbyte-integrations/connectors/source-personio/source_personio/source.py:71-82 | Reading the record by name gives the flattened value of the allow-listed attribute with that name, and nothing for any other name |
| `Flatten.FlattenAttributesEntry` | airbyte-integrations/connectors/source-personio/source_personio/source.py:71-82 | Every record entry is the flattened value of an allow-listed input attribute with the same name |
| `Flatten.FlattenValueCases` | airbyte-integrations/connectors/source-personio/source_personio/source.py:74-82 | A missing `"value"` gives null. A non-object `"value"` is kept unchanged. An object `"value"` gives a map with exactly the keys of its `attributes` (empty when it has none), so sibling keys such as `type` are dropped. This row speaks for `Flatten.FlattenValue`, which has no contract of its own |
| `Flatten.UnwrapSubAttributes` | airbyte-integrations/connectors/source-personio/source_personio/source.py:78-81 | Nested map: same keys in the same order, with no allow-list. An object entry is replaced by its `"value"` (null when absent), and any other entry is kept |
| `Flatten.OneLevelOnly` | airbyte-integrations/connectors/source-personio/source_personio/source.py:78-82 | Only one level is unwrapped: a nested entry whose `"value"` is itself an entity comes out as that entity, untouched |
| `Flatten.FlattenItemWellFormed` | airbyte-integrations/connectors/source-personio/source_personio/source.py:69-83 | A record built from a well-formed item is a well-formed dict at every depth |
| `Flatten.FlattenValueWellFormed` | airbyte-integrations/connectors/source-personio/source_personio/source.py:74-82 | The flattened value of a well-formed attribute is well formed |
| `Flatten.FixtureFlattens` | airbyte-integrations/connectors/source-personio/unit_tests/test_streams.py:36-41 | The unit-test fixture flattens to `[{"id": 1, "supervisor": {"id": 1}}]` under any allow-list containing `id` and `supervisor` |
| `JsonData.SetAbsentAppends` | airbyte-integrations/connectors/source-personio/source_personio/source.py:74 | Assigning a name the record does not yet hold appends it last |
| `JsonData.AssignFresh` | airbyte-integrations/connectors/source-personio/source_personio/source.py:74-82 | Assigning a name the record does not yet hold appends it last, reading it back gives the assigned value, and assigning it again replaces that value in place |
| `JsonData.SetLastReplaces` | airbyte-integrations/connectors/source-personio/source_personio/source.py:82 | Reassigning the name that was added last replaces its value in place |
| `Auth.ReadCredentials` | airbyte-integrations/connectors/source-personio/source_personio/auth.py:21-34 | Reading the credentials succeeds if and only if both keys are present, and then gives the configuration's entries. A missing `client_secret` is reported first, whatever `client_id` holds |
| `Auth.PersonioOAuth.constructor` | airbyte-integrations/connectors/source-personio/source_personio/auth.py:14-28 | After construction, the endpoint getter returns the endpoint argument, and the stored secret and id equal the configuration entries |
| `Auth.PersonioOAuth.RefreshRequest` | airbyte-integrations/connectors/source-personio/source_personio/auth.py:36-53 | The refresh request is a POST to the endpoint. Its parameters are exactly `{client_id, client_secret}` from the configuration, and its headers are exactly `{"Content-Type": "application/json"}`. This row speaks for `BuildRefreshRequestHeaders` and `BuildRefreshRequestBody`, which have no contract of their own |
| `Auth.PersonioOAuth.GetRefreshToken` | airbyte-integrations/connectors/source-personio/source_personio/auth.py:47-55 | A 4xx or 5xx answer fails before extraction. Otherwise the refresh succeeds if and only if `json["data"]["token"]` exists, and then it gives that value |
| `Auth.PersonioOAuth.Token` | airbyte-integrations/connectors/source-personio/source_personio/auth.py:57-59 | The header value is the scheme, a space, and the freshly refreshed token. A failed refresh fails with the same error |
| `Auth.TokenNotCached` | airbyte-integrations/connectors/source-personio/source_personio/auth.py:57-59 | Two reads whose refreshes return different tokens give different header values, so no token is cached |
| `Auth.NewPersonioOAuth` | airbyte-integrations/connectors/source-personio/source_personio/auth.py:14-34 | Construction fails with exactly the `KeyError` of the first missing credential, or yields a new valid authenticator for the given endpoint |
| `Auth.PersonioAuth` | airbyte-integrations/connectors/source-personio/source_personio/auth.py:62-64 | The factory always uses `https://api.personio.de/v1/auth/` |
| `Source.Stream.NextPageToken` | airbyte-integrations/connectors/source-personio/source_personio/source.py:20-28 | No response leads to a next page |
| `Source.Stream.RequestParams` | airbyte-integrations/connectors/source-personio/source_personio/source.py:30-38 | The parameters are exactly `{"X-Personio-App-ID": "AIRBYTE"}`, whatever the state, slice or page token |
| `Source.EmployeesDeclaration` | airbyte-integrations/connectors/source-personio/source_personio/source.py:86-91 | Path `company/employees` under the base URL, primary key `id`, cursor `updated_since` |
| `Source.CheckConnection` | airbyte-integrations/connectors/source-personio/source_personio/source.py:96-108 | Returns `(true, None)` exactly when construction succeeds. Otherwise it returns `(false, "'client_secret'")` or `(false, "'client_id'")`, naming the first missing key. It never raises |
| `Source.Streams` | airbyte-integrations/connectors/source-personio/source_personio/source.py:110-117 | Exactly one stream, an `Employees`, bound to a new authenticator for the Personio endpoint. Construction errors propagate |

## Left out

- The HTTP exchanges are not modelled: `requests.request`, the stream's GET and `response.json()`. The token exchange is a function parameter, and a response body is an input already decoded to JSON.
- The behaviour of the airbyte CDK superclasses is not modelled: `HttpStream`, `AbstractSource` and `TokenAuthenticator`. This covers retries, back-off, request headers, the HTTP method and the read loop that consults `next_page_token`. `_auth_method` is a parameter.
- `get_json_schema()` and the schema file are not modelled. The schema's property names are the `allow` parameter.
- JSON objects with duplicate keys are not modelled. `json.loads` keeps the last value for such a key, while the model requires distinct keys (`JsonData.WellFormed`).
- JSON floating-point numbers are not modelled. Numbers are integers.
- Malformed wire shapes are preconditions (`Flatten.ResponseShaped`), because the code raises on them. Examples: a body that is not a dict, a missing or non-list `data`, or an allow-listed attribute that is not a dict. This also excludes a `data` that is an empty dict or an empty string. Python iterates such a `data` without error and yields nothing.
- `Flatten.UnwrapInPlace` rewrites a copy of the nested map. The source rewrites the dict inside the parsed response itself. That mutation of the input is invisible to the records but is not captured.
- `Flatten.ParseResponse` returns all records as a list. The source yields them lazily.
- `Auth.PersonioOAuth.Token`: a token that is not a JSON string fails with `TokenNotText`, while Python would format it with `str()`.
- `Auth.PersonioOAuth` holds the configuration as an unchangeable map, and `Valid()` fixes the stored credentials to the values seen at construction. The source keeps a reference to the caller's dict and reads it again on every `build_refresh_request_body` call. A later change to that dict would change the refresh request or raise `KeyError`. No caller in the source changes the dict after construction.
- Configuration values are strings. A configuration that is not a mapping (such as the mock in the unit tests) is not modelled.
- Logging, the CLI entry point and the connector spec are not modelled.
