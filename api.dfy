/**
 * The request layer (`APIService`): header construction, URL and fetch
 * configuration, and the dispatch on the response status. `fetch` itself is
 * not modelled: what it returned enters `Request` as the input `fetched`.
 */
module Api {
  import opened Wrappers
  import opened Text
  import opened Json
  import opened BrowserStorage
  import opened Credentials

  /** A received response: `status`, `ok`, `statusText` and the body text. */
  datatype Response = Response(status: nat, ok: bool, statusText: string, body: string)

  /** What `fetch` produced: a response, or a rejection (network failure). */
  datatype Fetched = Received(response: Response) | NetworkFailure(reason: string)

  /** The caller's `options` as far as they meet the computed configuration. */
  datatype Options = Options(httpMethod: Option<string>, headers: Option<map<string, string>>, body: Option<string>)

  /** `options = {}`. */
  const NO_OPTIONS: Options := Options(None, None, None)

  /** The configuration object handed to `fetch`. */
  datatype Config = Config(httpMethod: string, headers: map<string, string>, body: Option<string>)

  /** Why a request rejects. */
  datatype ApiError =
    | AuthenticationFailed
    | HttpError(status: nat, statusText: string)
    | TransportFailure(reason: string)
    | InvalidJson
    | StorageFailure
  {
    /** The message of the thrown `Error`, for the two the request raises itself. */
    function Message(): string {
      match this
      case AuthenticationFailed => AUTH_FAILED_MESSAGE
      case HttpError(status, statusText) => "API Error: " + Decimal(status) + " " + statusText
      case TransportFailure(reason) => reason
      case InvalidJson => "Unexpected token in JSON"
      case StorageFailure => "Storage write failed"
    }
  }

  const AUTH_FAILED_MESSAGE: string := "Authentication failed. Please log in again."

  /** A string of decimal digits followed by anything: the digits are where the first space is. */
  lemma {:induction false} SplitAtFirstSpace(d1: string, t1: string, d2: string, t2: string)
    requires forall i | 0 <= i < |d1| :: '0' <= d1[i] <= '9'
    requires forall i | 0 <= i < |d2| :: '0' <= d2[i] <= '9'
    requires d1 + " " + t1 == d2 + " " + t2
    ensures d1 == d2 && t1 == t2
  {
    if d1 == [] || d2 == [] {
      assert (d1 + " " + t1)[0] == ' ' <==> d1 == [];
      assert (d2 + " " + t2)[0] == ' ' <==> d2 == [];
      assert d1 == [] && d2 == [];
      assert t1 == (d1 + " " + t1)[1..];
    } else {
      assert (d1 + " " + t1)[0] == d1[0] && (d2 + " " + t2)[0] == d2[0];
      assert (d1 + " " + t1)[1..] == d1[1..] + " " + t1;
      assert (d2 + " " + t2)[1..] == d2[1..] + " " + t2;
      SplitAtFirstSpace(d1[1..], t1, d2[1..], t2);
      assert d1 == [d1[0]] + d1[1..] && d2 == [d2[0]] + d2[1..];
    }
  }

  /** An `API Error` message determines the status and the status text. */
  lemma HttpMessageInjective(s1: nat, t1: string, s2: nat, t2: string)
    requires HttpError(s1, t1).Message() == HttpError(s2, t2).Message()
    ensures s1 == s2 && t1 == t2
  {
    var p := "API Error: ";
    assert (p + Decimal(s1) + " " + t1)[|p|..] == Decimal(s1) + " " + t1;
    assert (p + Decimal(s2) + " " + t2)[|p|..] == Decimal(s2) + " " + t2;
    SplitAtFirstSpace(Decimal(s1), t1, Decimal(s2), t2);
    DecimalInjective(s1, s2);
  }

  /** `apiService`. */
  class APIService {
    const baseURL: string
    /** `API_CONFIG.API_KEY`; `None` when the environment leaves it undefined. */
    const apiKey: Option<string>
    const tokens: TokenManager
    const json: Codec

    constructor (baseURL: string, apiKey: Option<string>, tokens: TokenManager, json: Codec)
      ensures this.baseURL == baseURL && this.apiKey == apiKey
      ensures this.tokens == tokens && this.json == json
    {
      this.baseURL, this.apiKey := baseURL, apiKey;
      this.tokens, this.json := tokens, json;
    }

    /** `isConfigured()`: `!!this.apiKey`. */
    predicate IsConfigured()
      ensures IsConfigured() <==> apiKey.Some? && apiKey.value != ""
    {
      match apiKey
      case None => false
      case Some(key) => key != ""
    }

    /**
     * The headers `getHeaders()` returns: always the JSON content type, the
     * API key when configured, the bearer token when one is stored, and
     * nothing else.
     */
    ghost predicate IsDefaultHeaders(headers: map<string, string>)
      reads tokens.storage
    {
      var token := tokens.GetToken();
      && headers.Keys == {"Content-Type"}
           + (if IsConfigured() then {"x-api-key"} else {})
           + (if TokenTruthy(token) then {"Authorization"} else {})
      && headers["Content-Type"] == "application/json"
      && (IsConfigured() ==> headers["x-api-key"] == apiKey.value)
      && (TokenTruthy(token) ==> headers["Authorization"] == "Bearer " + token.value)
    }

    /** `getHeaders()`, inserting the optional headers one after the other. */
    method GetHeaders() returns (headers: map<string, string>)
      ensures IsDefaultHeaders(headers)
      ensures "Content-Type" in headers && headers["Content-Type"] == "application/json"
      ensures "x-api-key" in headers <==> IsConfigured()
      ensures "Authorization" in headers <==> tokens.HasToken()
    {
      headers := map["Content-Type" := "application/json"];
      if IsConfigured() {
        headers := headers["x-api-key" := apiKey.value];
      }
      var token := tokens.GetToken();
      if TokenTruthy(token) {
        headers := headers["Authorization" := "Bearer " + token.value];
      }
    }

    /**
     * `{ method, headers: this.getHeaders(), ...options }`, then
     * `config.body = JSON.stringify(data)` when `data` is truthy: a method or
     * headers given in `options` win over the computed ones.
     */
    ghost predicate IsConfigFor(config: Config, httpMethod: string, data: Value, options: Options)
      reads tokens.storage
    {
      && config.httpMethod == (if options.httpMethod.Some? then options.httpMethod.value else httpMethod)
      && (if options.headers.Some? then config.headers == options.headers.value
          else IsDefaultHeaders(config.headers))
      && config.body == (if Truthy(data) then Some(json.serialize(data)) else options.body)
    }

    /** Lines `url` and `config` of `request`. */
    method BuildConfig(httpMethod: string, data: Value, options: Options) returns (config: Config)
      ensures IsConfigFor(config, httpMethod, data, options)
    {
      var headers := GetHeaders();
      config := Config(httpMethod, headers, None);
      if options.httpMethod.Some? {
        config := config.(httpMethod := options.httpMethod.value);
      }
      if options.headers.Some? {
        config := config.(headers := options.headers.value);
      }
      if options.body.Some? {
        config := config.(body := options.body);
      }
      if Truthy(data) {
        config := config.(body := Some(json.serialize(data)));
      }
    }

    /**
     * How a request settles once `fetch` has produced `fetched`, and the
     * storage map `after` it leaves behind, given the map `before`: a 401
     * removes the token (unless that removal throws) and rejects; any other
     * non-ok status rejects with its status; an ok response yields the
     * parsed body.
     */
    ghost predicate Settles(fetched: Fetched, clearThrows: bool, result: Result<Value, ApiError>,
                            before: map<string, string>, after: map<string, string>)
    {
      match fetched
      case NetworkFailure(reason) =>
        result == Failure(TransportFailure(reason)) && after == before
      case Received(r) =>
        if r.status == 401 then
          if clearThrows then result == Failure(StorageFailure) && after == before
          else result == Failure(AuthenticationFailed) && after == before - {AUTH_TOKEN}
        else if !r.ok then
          result == Failure(HttpError(r.status, r.statusText)) && after == before
        else
          after == before &&
          result == match json.parse(r.body) case Some(v) => Success(v) case None => Failure(InvalidJson)
    }

    /** `request(method, endpoint, data, options)`: what it sends and how it settles. */
    method Request(httpMethod: string, endpoint: string, data: Value, options: Options,
                   fetched: Fetched, clearThrows: bool)
      returns (url: string, config: Config, result: Result<Value, ApiError>)
      modifies tokens.storage
      ensures url == baseURL + endpoint
      ensures old(IsConfigFor(config, httpMethod, data, options))
      ensures Settles(fetched, clearThrows, result, old(tokens.storage.items), tokens.storage.items)
    {
      url := baseURL + endpoint;
      config := BuildConfig(httpMethod, data, options);
      match fetched
      case NetworkFailure(reason) =>
        result := Failure(TransportFailure(reason));
      case Received(response) =>
        if response.status == 401 {
          var cleared := tokens.ClearToken(clearThrows);
          result := if cleared.Fail? then Failure(StorageFailure) else Failure(AuthenticationFailed);
        } else if !response.ok {
          result := Failure(HttpError(response.status, response.statusText));
        } else {
          match json.parse(response.body)
          case Some(v) => result := Success(v);
          case None => result := Failure(InvalidJson);
        }
    }

    /** `get(endpoint, options)`. */
    method Get(endpoint: string, options: Options, fetched: Fetched, clearThrows: bool)
      returns (url: string, config: Config, result: Result<Value, ApiError>)
      modifies tokens.storage
      ensures url == baseURL + endpoint
      ensures old(IsConfigFor(config, "GET", Null, options))
      ensures Settles(fetched, clearThrows, result, old(tokens.storage.items), tokens.storage.items)
    {
      url, config, result := Request("GET", endpoint, Null, options, fetched, clearThrows);
    }

    /** `post(endpoint, data, options)`. */
    method Post(endpoint: string, data: Value, options: Options, fetched: Fetched, clearThrows: bool)
      returns (url: string, config: Config, result: Result<Value, ApiError>)
      modifies tokens.storage
      ensures url == baseURL + endpoint
      ensures old(IsConfigFor(config, "POST", data, options))
      ensures Settles(fetched, clearThrows, result, old(tokens.storage.items), tokens.storage.items)
    {
      url, config, result := Request("POST", endpoint, data, options, fetched, clearThrows);
    }

    /** `put(endpoint, data, options)`. */
    method Put(endpoint: string, data: Value, options: Options, fetched: Fetched, clearThrows: bool)
      returns (url: string, config: Config, result: Result<Value, ApiError>)
      modifies tokens.storage
      ensures url == baseURL + endpoint
      ensures old(IsConfigFor(config, "PUT", data, options))
      ensures Settles(fetched, clearThrows, result, old(tokens.storage.items), tokens.storage.items)
    {
      url, config, result := Request("PUT", endpoint, data, options, fetched, clearThrows);
    }

    /** `delete(endpoint, options)`. */
    method Delete(endpoint: string, options: Options, fetched: Fetched, clearThrows: bool)
      returns (url: string, config: Config, result: Result<Value, ApiError>)
      modifies tokens.storage
      ensures url == baseURL + endpoint
      ensures old(IsConfigFor(config, "DELETE", Null, options))
      ensures Settles(fetched, clearThrows, result, old(tokens.storage.items), tokens.storage.items)
    {
      url, config, result := Request("DELETE", endpoint, Null, options, fetched, clearThrows);
    }
  }

  /**
   * A `GET` with the default options while a token is stored and no API key
   * is configured, answered with 401: only the content type and the bearer
   * token are sent, the request rejects with the authentication error, and
   * only the token leaves storage.
   */
  method UnauthorizedGetScenario(json: Codec)
    returns (url: string, config: Config, result: Result<Value, ApiError>, stored: map<string, string>)
    ensures url == "https://api.example/todos"
    ensures config == Config("GET", map["Content-Type" := "application/json", "Authorization" := "Bearer abc"], None)
    ensures result == Failure(AuthenticationFailed)
    ensures stored == map[USER_DATA := "{}"]
  {
    var storage := new LocalStorage(map[AUTH_TOKEN := "abc", USER_DATA := "{}"]);
    var tokens := new TokenManager(storage, json);
    var api := new APIService("https://api.example", None, tokens, json);
    var unauthorized := Received(Response(401, false, "Unauthorized", ""));
    assert tokens.GetToken() == Some("abc") && !api.IsConfigured();
    url, config, result := api.Get("/todos", NO_OPTIONS, unauthorized, false);
    var expected := map["Content-Type" := "application/json", "Authorization" := "Bearer abc"];
    assert config.headers.Keys == expected.Keys;
    assert config.headers["Content-Type"] == expected["Content-Type"];
    assert config.headers["Authorization"] == expected["Authorization"];
    assert config.headers == expected;
    stored := storage.items;
    assert stored.Keys == {USER_DATA};
  }
}
