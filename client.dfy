/** OpenRouterClient<State>: the type-state builder (Unconfigured, then NoAuth,
    then Ready) and the chat completion call of a Ready client. */
module Client {
  import opened Errors
  import opened Config
  import opened ChatTypes
  import opened Response

  /** The type-state markers. The source carries them as a zero-sized
      PhantomData, so the model keeps the stage in a ghost field and turns
      each `impl OpenRouterClient<S>` block into `requires stage == S`. */
  datatype Stage = Unconfigured | NoAuth | Ready

  /** The reqwest client a Ready client owns: built with the configured
      timeout and the configuration's headers as default headers. */
  datatype HttpClient = HttpClient(timeoutSecs: nat, defaultHeaders: HeaderMap)

  const InvalidBaseUrlPrefix := "Invalid base URL: "
  const UrlJoinErrorPrefix := "URL join error: "
  const ChatCompletionsPath := "chat/completions"

  /** The configuration `new` starts from. */
  const DefaultConfig := ClientConfig(None, DefaultBaseUrl, None, None, DefaultTimeoutSecs)

  class OpenRouterClient {
    var config: ClientConfig
    var httpClient: Option<HttpClient>
    ghost var stage: Stage

    /** What every client the builder produces satisfies at its stage: before
        Ready there is no HTTP client (and no key before NoAuth); a Ready
        client has an API key, header values build_headers accepts, and the
        HTTP client built from its config. The fields are public in the
        source, so a caller can assemble a client that breaks it; the methods
        demand only what they need. */
    ghost predicate Valid()
      reads this
    {
      match stage
      case Unconfigured => config.apiKey.None? && httpClient.None?
      case NoAuth => httpClient.None?
      case Ready =>
        config.apiKey.Some? && HeaderValuesValid(config)
        && httpClient == Some(HttpClient(config.timeoutSecs, Headers(config)))
    }

    /** OpenRouterClient::new. */
    constructor ()
      ensures stage == Unconfigured && Valid()
      ensures config.apiKey.None? && config.httpReferer.None? && config.siteTitle.None?
      ensures config.baseUrl == Url("https://openrouter.ai/api/v1/") && config.timeoutSecs == 30
      ensures httpClient.None?
    {
      config := DefaultConfig;
      httpClient := None;
      stage := Unconfigured;
    }

    /** The struct literal the transitions use to repackage a configuration
        under a new stage. */
    constructor Assemble(config: ClientConfig, httpClient: Option<HttpClient>, ghost stage: Stage)
      ensures this.config == config && this.httpClient == httpClient && this.stage == stage
    {
      this.config := config;
      this.httpClient := httpClient;
      this.stage := stage;
    }

    /** with_base_url: parses the URL (the `url` crate, given as `parse`). On a
        parse error the result is an ApiError with code 400 and no NoAuth client
        exists; otherwise only the base URL changes. */
    method WithBaseUrl(baseUrl: string, parse: string -> Fallible<Url>) returns (r: Result<OpenRouterClient>)
      requires stage == Unconfigured
      modifies this
      ensures parse(baseUrl).Failure? ==>
        r == Err(ApiError(400, InvalidBaseUrlPrefix + parse(baseUrl).reason)) && unchanged(this)
      ensures parse(baseUrl).Success? ==>
        r.Ok? && fresh(r.value) && r.value.stage == NoAuth && r.value.Valid()
        && r.value.config == old(config).(baseUrl := parse(baseUrl).value)
        && r.value.httpClient.None?
    {
      var parsed := parse(baseUrl);
      if parsed.Failure? {
        return Err(ApiError(400, InvalidBaseUrlPrefix + parsed.reason));
      }
      config := config.(baseUrl := parsed.value);
      var next := TransitionToNoAuth();
      return Ok(next);
    }

    /** transition_to_no_auth: the same configuration, no HTTP client, NoAuth. */
    method TransitionToNoAuth() returns (next: OpenRouterClient)
      requires stage == Unconfigured
      ensures fresh(next) && next.stage == NoAuth && next.Valid()
      ensures next.config == config && next.httpClient.None?
    {
      next := new OpenRouterClient.Assemble(config, None, NoAuth);
    }

    /** with_api_key: stores exactly Some(apiKey), with no check on the key,
        and moves to Ready; nothing else in the configuration changes. */
    method WithApiKey(apiKey: string) returns (ready: OpenRouterClient)
      requires stage == NoAuth
      requires HeaderValuesValid(config.(apiKey := Some(apiKey)))
      modifies this
      ensures config == old(config).(apiKey := Some(apiKey))
      ensures fresh(ready) && ready.stage == Ready && ready.Valid()
      ensures ready.config == old(config).(apiKey := Some(apiKey))
      ensures ready.config.apiKey == Some(apiKey) && ready.httpClient.Some?
    {
      config := config.(apiKey := Some(apiKey));
      ready := TransitionToReady();
    }

    /** with_timeout: sets the timeout and stays NoAuth. */
    method WithTimeout(timeoutSecs: nat)
      requires stage == NoAuth
      modifies this
      ensures config == old(config).(timeoutSecs := timeoutSecs)
      ensures httpClient == old(httpClient) && stage == NoAuth && Valid() == old(Valid())
    {
      config := config.(timeoutSecs := timeoutSecs);
    }

    /** with_http_referer: sets the referer and stays NoAuth. */
    method WithHttpReferer(referer: string)
      requires stage == NoAuth
      modifies this
      ensures config == old(config).(httpReferer := Some(referer))
      ensures httpClient == old(httpClient) && stage == NoAuth && Valid() == old(Valid())
    {
      config := config.(httpReferer := Some(referer));
    }

    /** with_site_title: sets the site title and stays NoAuth. */
    method WithSiteTitle(title: string)
      requires stage == NoAuth
      modifies this
      ensures config == old(config).(siteTitle := Some(title))
      ensures httpClient == old(httpClient) && stage == NoAuth && Valid() == old(Valid())
    {
      config := config.(siteTitle := Some(title));
    }

    /** transition_to_ready: builds the HTTP client from the timeout and the
        configuration's headers and repackages the configuration as Ready.
        Its one caller, with_api_key, has just stored the key. */
    method TransitionToReady() returns (next: OpenRouterClient)
      requires stage == NoAuth && config.apiKey.Some? && HeaderValuesValid(config)
      ensures fresh(next) && next.stage == Ready && next.Valid()
      ensures next.config == config
      ensures next.httpClient == Some(HttpClient(config.timeoutSecs, Headers(config)))
    {
      var headers := BuildHeaders(config);
      next := new OpenRouterClient.Assemble(config, Some(HttpClient(config.timeoutSecs, headers)), Ready);
    }

    /** chat_completion: joins the base URL with "chat/completions" (a join
        error is an ApiError with code 400), posts the request through `send`,
        rejects a non-2xx status with the body as message before anything is
        decoded, decodes through handle_response, and then validates the tool
        calls, reporting the first one whose kind is not "function". An Ok
        result is a decoded 2xx response whose tool calls all have kind
        "function". */
    method ChatCompletion(
      request: ChatCompletionRequest,
      join: (Url, string) -> Fallible<Url>,
      send: (HttpClient, Url, HeaderMap, ChatCompletionRequest) -> Fallible<HttpResponse>,
      decode: string -> Fallible<ChatCompletionResponse>)
      returns (r: Result<ChatCompletionResponse>)
      requires stage == Ready && httpClient.Some? && HeaderValuesValid(config)
      ensures var joined := join(config.baseUrl, ChatCompletionsPath);
        joined.Failure? ==> r == Err(ApiError(400, UrlJoinErrorPrefix + joined.reason))
      ensures var joined := join(config.baseUrl, ChatCompletionsPath);
        joined.Success? ==>
          var sent := send(httpClient.value, joined.value, Headers(config), request);
          sent.Failure? ==> r == Err(HttpError(sent.reason))
      ensures var joined := join(config.baseUrl, ChatCompletionsPath);
        joined.Success? ==>
          var sent := send(httpClient.value, joined.value, Headers(config), request);
          sent.Success? && !IsSuccess(sent.value.status) ==>
            r == (if sent.value.text.Success?
                  then Err(ApiError(sent.value.status, sent.value.text.value))
                  else Err(HttpError(sent.value.text.reason)))
      ensures var joined := join(config.baseUrl, ChatCompletionsPath);
        joined.Success? ==>
          var sent := send(httpClient.value, joined.value, Headers(config), request);
          sent.Success? && IsSuccess(sent.value.status) ==>
          var handled := HandleResponse(sent.value.status, sent.value.text, decode);
          r == if handled.Err? then handled
               else if AllToolCallsAreFunctions(handled.value.choices) then handled
               else Err(SchemaValidationError(InvalidKindMessage(FirstInvalidKind(handled.value.choices).value)))
      ensures r.Ok? ==> AllToolCallsAreFunctions(r.value.choices)
    {
      var joined := join(config.baseUrl, ChatCompletionsPath);
      if joined.Failure? {
        return Err(ApiError(400, UrlJoinErrorPrefix + joined.reason));
      }
      var headers := BuildHeaders(config);
      var sent := send(httpClient.value, joined.value, headers, request);
      if sent.Failure? {
        return Err(HttpError(sent.reason));
      }
      var response := sent.value;
      if !IsSuccess(response.status) {
        if response.text.Failure? {
          return Err(HttpError(response.text.reason));
        }
        return Err(ApiError(response.status, response.text.value));
      }
      var handled := HandleResponse(response.status, response.text, decode);
      if handled.Err? {
        return Err(handled.error);
      }
      var validated := ValidateToolCalls(handled.value);
      if validated.Err? {
        return Err(validated.error);
      }
      return Ok(handled.value);
    }
  }

  /** A Ready client's HTTP client sends the bearer token of its API key and
      the JSON content type by default. */
  lemma ReadyClientAuthenticates(client: OpenRouterClient)
    requires client.Valid() && client.stage == Ready
    ensures client.config.apiKey.Some? && client.httpClient.Some?
    ensures var headers := client.httpClient.value.defaultHeaders;
      AuthorizationHeader in headers
      && headers[AuthorizationHeader] == BearerPrefix + client.config.apiKey.value
      && ContentTypeHeader in headers && headers[ContentTypeHeader] == JsonContentType
  {
  }
}
