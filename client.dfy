/** The client-side state of the Groq model: the API key it settles on, the
    keyword arguments its SDK clients are built with, and the memoised
    synchronous client (Groq._get_client_params, get_client,
    get_async_client). Building a client is a constructor call into the SDK;
    a client is known here only by the arguments it was built with. */
module Client {
  import opened Values

  /** groq.Groq, built from `params`. */
  class GroqClient {
    const params: Dict

    constructor (params: Dict)
      ensures this.params == params
    {
      this.params := params;
    }
  }

  /** groq.AsyncGroq, built from `params`. */
  class AsyncGroqClient {
    const params: Dict

    constructor (params: Dict)
      ensures this.params == params
    {
      this.params := params;
    }
  }

  /** Connection limits of the HTTP client get_async_client creates. */
  const AsyncMaxConnections: nat := 1000
  const AsyncMaxKeepaliveConnections: nat := 100

  /** The key _get_client_params settles on, given the configured key and the
      GROQ_API_KEY environment variable. */
  function ResolveKey(configured: Option<string>, env: Option<string>): (k: Option<string>)
    // a non-empty configured key is kept
    ensures TruthyText(configured) ==> k == configured
    // otherwise the environment decides, even when it holds nothing usable
    ensures !TruthyText(configured) ==> k == env
    ensures TruthyText(k) <==> TruthyText(configured) || TruthyText(env)
  {
    if TruthyText(configured) then configured else env
  }

  /** Once a usable key is set, later lookups leave it alone whatever the
      environment says. */
  lemma ResolvedKeyIsStable(configured: Option<string>, env: Option<string>, laterEnv: Option<string>)
    requires TruthyText(ResolveKey(configured, env))
    ensures ResolveKey(ResolveKey(configured, env), laterEnv) == ResolveKey(configured, env)
  {
  }

  const ClientKeys: set<string> := {"api_key", "base_url", "timeout", "max_retries", "default_headers", "default_query"}

  class Groq {
    var apiKey: Option<string>
    var baseUrl: Value
    var timeout: Value
    var maxRetries: Value
    var defaultHeaders: Value
    var defaultQuery: Value
    var httpClient: Value
    var clientParams: Option<Dict>
    var client: GroqClient?
    var asyncClient: AsyncGroqClient?

    /** A model with no client built yet. */
    constructor (apiKey: Option<string>, baseUrl: Value, timeout: Value, maxRetries: Value,
                 defaultHeaders: Value, defaultQuery: Value, httpClient: Value, clientParams: Option<Dict>)
      ensures this.apiKey == apiKey && this.baseUrl == baseUrl && this.timeout == timeout
      ensures this.maxRetries == maxRetries && this.defaultHeaders == defaultHeaders
      ensures this.defaultQuery == defaultQuery && this.httpClient == httpClient
      ensures this.clientParams == clientParams
      ensures client == null && asyncClient == null
    {
      this.apiKey, this.baseUrl, this.timeout, this.maxRetries := apiKey, baseUrl, timeout, maxRetries;
      this.defaultHeaders, this.defaultQuery, this.httpClient := defaultHeaders, defaultQuery, httpClient;
      this.clientParams := clientParams;
      client, asyncClient := null, null;
    }

    /** The extra arguments `client_params` applies: none when it is None or empty. */
    function ExtraParams(): (r: Dict)
      reads this
      // an empty client_params applies nothing either, so only None matters
      ensures r == if clientParams.Some? then clientParams.value else map[]
    {
      if clientParams.Some? && clientParams.value != map[] then clientParams.value else map[]
    }

    /** The six client attributes under their names, None included. */
    function BaseParams(key: Option<string>): (p: Dict)
      reads this
      ensures p.Keys == ClientKeys
    {
      map[
        "api_key" := FromText(key),
        "base_url" := baseUrl,
        "timeout" := timeout,
        "max_retries" := maxRetries,
        "default_headers" := defaultHeaders,
        "default_query" := defaultQuery]
    }

    /** The dictionary _get_client_params returns once the key is `key`. */
    function ClientParams(key: Option<string>): (r: Dict)
      reads this
      // client_params entries override everything
      ensures forall k :: k in ExtraParams() ==> k in r && r[k] == ExtraParams()[k]
      // an attribute is passed exactly when it is not None, unless overridden
      ensures forall k :: k in ClientKeys && k !in ExtraParams() ==>
                (k in r <==> BaseParams(key)[k] != Null) && (k in r ==> r[k] == BaseParams(key)[k])
      ensures "api_key" !in ExtraParams() ==> ("api_key" in r <==> key.Some?)
      // nothing else is passed
      ensures forall k :: k in r ==> k in ClientKeys || k in ExtraParams()
    {
      DropNone(BaseParams(key)) + ExtraParams()
    }

    /** Groq._get_client_params: settles the key, writing it back, and
        returns the client arguments. */
    method GetClientParams(env: Option<string>) returns (params: Dict)
      modifies this`apiKey
      ensures apiKey == ResolveKey(old(apiKey), env)
      ensures params == ClientParams(apiKey)
    {
      if !TruthyText(apiKey) {
        apiKey := env;
      }
      params := DropNone(BaseParams(apiKey));
      if clientParams.Some? && clientParams.value != map[] {
        params := params + clientParams.value;
      }
    }

    /** The arguments of a new synchronous client: a configured HTTP client
        is passed on, replacing any from client_params. */
    function SyncClientParams(key: Option<string>): (r: Dict)
      reads this
      ensures httpClient != Null ==> "http_client" in r && r["http_client"] == httpClient
      ensures forall k :: k != "http_client" ==> (k in r <==> k in ClientParams(key)) && (k in r ==> r[k] == ClientParams(key)[k])
      ensures httpClient == Null ==> r == ClientParams(key)
    {
      if httpClient != Null then ClientParams(key)["http_client" := httpClient] else ClientParams(key)
    }

    /** The arguments of a new asynchronous client: a configured HTTP client,
        or else a new one with the fixed connection limits. */
    function AsyncClientParams(key: Option<string>): (r: Dict)
      reads this
      ensures "http_client" in r
      ensures r["http_client"] ==
                if Truthy(httpClient) then httpClient else AsyncHttpClient(AsyncMaxConnections, AsyncMaxKeepaliveConnections)
      ensures forall k :: k != "http_client" ==> (k in r <==> k in ClientParams(key)) && (k in r ==> r[k] == ClientParams(key)[k])
    {
      ClientParams(key)["http_client" :=
        if Truthy(httpClient) then httpClient else AsyncHttpClient(AsyncMaxConnections, AsyncMaxKeepaliveConnections)]
    }

    /** Groq.get_client: the stored client if there is one, otherwise a new
        client that is stored for later calls. */
    method GetClient(env: Option<string>) returns (c: GroqClient)
      modifies this`apiKey, this`client
      ensures client == c
      ensures old(client) != null ==> c == old(client) && apiKey == old(apiKey)
      ensures old(client) == null ==>
                fresh(c) && apiKey == ResolveKey(old(apiKey), env) && c.params == SyncClientParams(apiKey)
    {
      if client != null {
        return client;
      }
      var params := GetClientParams(env);
      if httpClient != Null {
        params := params["http_client" := httpClient];
      }
      c := new GroqClient(params);
      client := c;
    }

    /** Groq.get_async_client: the stored client if there is one, otherwise a
        new client, which is NOT stored, so each call builds another one. */
    method GetAsyncClient(env: Option<string>) returns (c: AsyncGroqClient)
      modifies this`apiKey
      ensures old(asyncClient) != null ==> c == asyncClient && apiKey == old(apiKey)
      ensures old(asyncClient) == null ==>
                fresh(c) && apiKey == ResolveKey(old(apiKey), env) && c.params == AsyncClientParams(apiKey)
    {
      if asyncClient != null {
        return asyncClient;
      }
      var params := GetClientParams(env);
      if Truthy(httpClient) {
        params := params["http_client" := httpClient];
      } else {
        params := params["http_client" := AsyncHttpClient(AsyncMaxConnections, AsyncMaxKeepaliveConnections)];
      }
      c := new AsyncGroqClient(params);
    }
  }

  /** Two calls of get_client give the same client, and the second builds
      nothing; two calls of get_async_client on a model without a stored
      async client give two different clients. */
  method ClientMemoisation(g: Groq, env: Option<string>, laterEnv: Option<string>)
    returns (c1: GroqClient, c2: GroqClient, a1: AsyncGroqClient, a2: AsyncGroqClient)
    requires g.asyncClient == null
    modifies g
    ensures c1 == c2 && g.client == c1
    ensures a1 != a2 && g.asyncClient == null
  {
    c1 := g.GetClient(env);
    c2 := g.GetClient(laterEnv);
    a1 := g.GetAsyncClient(env);
    a2 := g.GetAsyncClient(laterEnv);
  }
}
