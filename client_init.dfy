/**
 * `initializeClient` of the Azure Assistants endpoint: where the API key and
 * base URL come from, the Azure overrides, the two key errors and the shape of
 * what is returned. The collaborators whose code is elsewhere (the user key
 * service, the Azure config mapper, URL and header helpers) are functions
 * passed in; the calls to the user key service are returned as a trace so
 * that their order can be stated.
 */
module ClientInit {
  import opened Results
  import Rest

  /** The environment variables read. */
  datatype Env = Env(proxy: Option<string>, organization: Option<string>, apiKey: Option<string>, baseURL: Option<string>)

  /** What is used of the request: the user's id and the `model` of body and query. */
  datatype Req = Req(userId: string, bodyModel: Option<string>, queryModel: Option<string>)

  /** The endpoint options, spread into the app client's options as they are. */
  datatype EndpointOption = EndpointOption(settings: map<string, string>)

  datatype ModelEntry = ModelEntry(group: string)

  datatype Group = Group(addParams: Option<map<string, string>>, dropParams: Option<seq<string>>, forcePrompt: Option<bool>)

  /** The Azure config snapshot of `req.app.locals`. */
  datatype AzureConfig = AzureConfig(
    assistants: bool,
    modelGroupMap: map<string, ModelEntry>,
    groupMap: map<string, Group>,
    assistantModels: seq<string>,
    titleConvo: Option<bool>,
    titleModel: Option<string>,
    titleMethod: Option<string>)

  datatype AzureOptions = AzureOptions(
    apiKey: Option<string>,
    apiVersion: Option<string>,
    deploymentName: Option<string>,
    instanceName: Option<string>)

  /** What `mapModelToAzureConfig` answers. */
  datatype MappedConfig = MappedConfig(
    azureOptions: AzureOptions,
    baseURL: Option<string>,
    headers: Option<map<string, string>>,
    serverless: Option<bool>)

  /** The values a user stored for the endpoint. */
  datatype UserValues = UserValues(apiKey: Option<string>, baseURL: Option<string>)

  /** Headers whose values may be `undefined`. */
  type HeaderRecord = map<string, Option<string>>

  /**
   * The collaborators. Every user key service call names the Azure Assistants
   * endpoint, fixed here. `checkUserKeyExpiry` is false when it raises;
   * `getUserKeyValues` and `mapModelToAzureConfig` answer None when they raise.
   */
  datatype Collaborators = Collaborators(
    isUserProvided: Option<string> -> bool,
    getUserKeyExpiry: string -> Option<string>,
    checkUserKeyExpiry: Option<string> -> bool,
    getUserKeyValues: string -> Option<UserValues>,
    mapModelToAzureConfig: (Option<string>, map<string, ModelEntry>, map<string, Group>) -> Option<MappedConfig>,
    constructAzureURL: (string, AzureOptions) -> string,
    resolveHeaders: (HeaderRecord, string) -> HeaderRecord)

  /** One call to the user key service. */
  datatype ServiceCall = ExpiryLookup(userId: string) | ExpiryCheck(expiresAt: Option<string>) | ValuesFetch(userId: string)

  /** `{ 'api-version': v }` */
  datatype ApiVersionQuery = ApiVersionQuery(apiVersion: Option<string>)

  /** `opts`, spread into the SDK client's options after `apiKey`. */
  datatype Opts = Opts(
    baseURL: Option<string>,
    proxyDispatcher: Option<string>,
    organization: Option<string>,
    defaultQuery: Option<ApiVersionQuery>,
    defaultHeaders: Option<HeaderRecord>,
    model: Option<string>)

  /** `clientOptions.azure`: not set, `false`, or the Azure options object. */
  datatype AzureFlag = Unset | Off | On(options: AzureOptions)

  /** `clientOptions`, the options of the app client. */
  datatype ClientOptions = ClientOptions(
    reverseProxyUrl: Option<string>,
    proxy: Option<string>,
    endpoint: Option<EndpointOption>,
    titleConvo: Option<bool>,
    titleModel: Option<string>,
    titleMethod: Option<string>,
    addParams: Option<map<string, string>>,
    dropParams: Option<seq<string>>,
    forcePrompt: Option<bool>,
    headers: Option<HeaderRecord>,
    azure: AzureFlag,
    defaultQuery: Option<ApiVersionQuery>)

  /** The SDK client: its key, its options and the `locals.azureOptions` attached to it. */
  datatype Sdk = Sdk(apiKey: string, options: Opts, azureOptions: Option<AzureOptions>)

  /** The app client, built from the key and `clientOptions`. */
  datatype AppClient = AppClient(apiKey: string, options: ClientOptions)

  /** `{ client?, openai, openAIApiKey }` */
  datatype Initialized = Initialized(openai: Sdk, client: Option<AppClient>, openAIApiKey: string)

  datatype ErrorType = NoUserKeyType

  /** The message of a thrown error: a JSON `{ type }` payload, or plain text. */
  datatype ErrorMessage = Typed(errorType: ErrorType) | Text(text: string)

  datatype InitError =
    | ExpiredUserKey          // raised by checkUserKeyExpiry
    | UserKeyUnavailable      // raised by getUserKeyValues
    | AzureConfigUnavailable  // raised by mapModelToAzureConfig
    | UnknownModelGroup       // the model or its group is missing from the maps
    | Thrown(message: ErrorMessage)

  const MissingKeyText := "Assistants API key not provided. Please provide it again."
  const DefaultAzureBaseURL := "https://${INSTANCE_NAME}.openai.azure.com/openai"
  const ApiKeyHeader := "api-key"
  const DefaultTitleMethod := "completion"

  /** JavaScript truthiness of an optional string. */
  predicate Truthy(v: Option<string>) {
    v.Some? && v.value != ""
  }

  /** `a ?? b` */
  function Coalesce<T>(a: Option<T>, b: Option<T>): Option<T> {
    if a.Some? then a else b
  }

  /** `models[0]` */
  function FirstModel(models: seq<string>): Option<string> {
    if |models| > 0 then Some(models[0]) else None
  }

  /** The model name: the first defined of the body's model, the query's model and the first assistant model. */
  function ModelName(req: Req, cfg: AzureConfig): (m: Option<string>)
    ensures req.bodyModel.Some? ==> m == req.bodyModel
    ensures req.bodyModel.None? && req.queryModel.Some? ==> m == req.queryModel
    ensures req.bodyModel.None? && req.queryModel.None? && |cfg.assistantModels| > 0 ==> m == Some(cfg.assistantModels[0])
    ensures m.None? <==> req.bodyModel.None? && req.queryModel.None? && cfg.assistantModels == []
  {
    Coalesce(req.bodyModel, Coalesce(req.queryModel, FirstModel(cfg.assistantModels)))
  }

  /**
   * `{ ...headers, 'api-key': apiKey, 'OpenAI-Beta': 'assistants=' + version }`:
   * here the computed headers win over the group's.
   */
  function AzureHeaders(group: map<string, string>, apiKey: Option<string>, version: string): (h: HeaderRecord)
    ensures h.Keys == group.Keys + {ApiKeyHeader, Rest.BetaHeader}
    ensures h[ApiKeyHeader] == apiKey && h[Rest.BetaHeader] == Some("assistants=" + version)
    ensures forall k :: k in group && k != ApiKeyHeader && k != Rest.BetaHeader ==> h[k] == Some(group[k])
  {
    (map k | k in group :: Some(group[k])) + map[ApiKeyHeader := apiKey, Rest.BetaHeader := Some("assistants=" + version)]
  }

  predicate NeedsUserValues(env: Env, lib: Collaborators) {
    lib.isUserProvided(env.apiKey) || lib.isUserProvided(env.baseURL)
  }

  predicate AzurePath(cfg: Option<AzureConfig>) {
    cfg.Some? && cfg.value.assistants
  }

  function Expiry(req: Req, lib: Collaborators): Option<string> {
    lib.getUserKeyExpiry(req.userId)
  }

  function StoredValues(req: Req, lib: Collaborators): UserValues {
    lib.getUserKeyValues(req.userId).GetOr(UserValues(None, None))
  }

  /** The key before the Azure path: the user's stored key if the key is user-provided, the environment's otherwise. */
  function SourcedApiKey(env: Env, req: Req, lib: Collaborators): Option<string> {
    if lib.isUserProvided(env.apiKey) then StoredValues(req, lib).apiKey else env.apiKey
  }

  /** The base URL before the Azure path, sourced the same way. */
  function SourcedBaseURL(env: Env, req: Req, lib: Collaborators): Option<string> {
    if lib.isUserProvided(env.baseURL) then StoredValues(req, lib).baseURL else env.baseURL
  }

  function Mapped(req: Req, cfg: AzureConfig, lib: Collaborators): Option<MappedConfig> {
    lib.mapModelToAzureConfig(ModelName(req, cfg), cfg.modelGroupMap, cfg.groupMap)
  }

  /** `groupMap[modelGroupMap[modelName].group]`, absent when either lookup misses. */
  function GroupOf(req: Req, cfg: AzureConfig): Option<Group> {
    var m := ModelName(req, cfg);
    if m.Some? && m.value in cfg.modelGroupMap && cfg.modelGroupMap[m.value].group in cfg.groupMap
    then Some(cfg.groupMap[cfg.modelGroupMap[m.value].group])
    else None
  }

  /** The user key service raised nothing (or was not needed). */
  predicate CredentialsPass(env: Env, req: Req, lib: Collaborators) {
    NeedsUserValues(env, lib) ==> lib.checkUserKeyExpiry(Expiry(req, lib)) && lib.getUserKeyValues(req.userId).Some?
  }

  /** The Azure path raised nothing (or was not taken). */
  predicate AzurePass(req: Req, cfg: Option<AzureConfig>, initAppClient: bool, lib: Collaborators) {
    AzurePath(cfg) ==> Mapped(req, cfg.value, lib).Some? && (initAppClient ==> GroupOf(req, cfg.value).Some?)
  }

  /** The key checked at the end: the Azure options' key on the Azure path, the sourced key otherwise. */
  function FinalApiKey(env: Env, req: Req, cfg: Option<AzureConfig>, lib: Collaborators): Option<string> {
    if AzurePath(cfg) && Mapped(req, cfg.value, lib).Some?
    then Mapped(req, cfg.value, lib).value.azureOptions.apiKey
    else SourcedApiKey(env, req, lib)
  }

  /** The default headers before the serverless branch touches them. */
  function ResolvedHeaders(m: MappedConfig, req: Req, version: string, lib: Collaborators): HeaderRecord {
    lib.resolveHeaders(AzureHeaders(m.headers.GetOr(map[]), m.azureOptions.apiKey, version), req.userId)
  }

  function AzureURL(m: MappedConfig, lib: Collaborators): string {
    lib.constructAzureURL(m.baseURL.GetOr(DefaultAzureBaseURL), m.azureOptions)
  }

  /** `apiKey` and `baseURL` once sourced. */
  datatype Credentials = Credentials(apiKey: Option<string>, baseURL: Option<string>)

  /**
   * Lines 183-200 of initialize.js: if the key or the URL is user-provided, the expiry is looked
   * up and checked before the stored values are fetched; then each of key and
   * URL comes from the user's values exactly when it is user-provided.
   */
  method SourceCredentials(env: Env, req: Req, lib: Collaborators)
    returns (r: Result<Credentials, InitError>, calls: seq<ServiceCall>)
    ensures NeedsUserValues(env, lib) <==> calls != []
    ensures calls != [] ==> 2 <= |calls| <= 3 && calls[0] == ExpiryLookup(req.userId)
                            && calls[1] == ExpiryCheck(Expiry(req, lib))
    ensures calls != [] ==> (|calls| == 3 <==> lib.checkUserKeyExpiry(Expiry(req, lib)))
    ensures |calls| == 3 ==> calls[2] == ValuesFetch(req.userId)
    ensures r == Err(ExpiredUserKey) <==> NeedsUserValues(env, lib) && !lib.checkUserKeyExpiry(Expiry(req, lib))
    ensures r == Err(UserKeyUnavailable) <==>
              NeedsUserValues(env, lib) && lib.checkUserKeyExpiry(Expiry(req, lib))
              && lib.getUserKeyValues(req.userId).None?
    ensures r.Ok? <==> CredentialsPass(env, req, lib)
    ensures r.Ok? ==> r.value == Credentials(SourcedApiKey(env, req, lib), SourcedBaseURL(env, req, lib))
  {
    var userProvidesKey := lib.isUserProvided(env.apiKey);
    var userProvidesURL := lib.isUserProvided(env.baseURL);

    calls := [];
    var userValues := UserValues(None, None);
    if userProvidesKey || userProvidesURL {
      var expiresAt := lib.getUserKeyExpiry(req.userId);
      calls := calls + [ExpiryLookup(req.userId)];
      calls := calls + [ExpiryCheck(expiresAt)];
      if !lib.checkUserKeyExpiry(expiresAt) {
        r := Err(ExpiredUserKey);
        return;
      }
      calls := calls + [ValuesFetch(req.userId)];
      var fetched := lib.getUserKeyValues(req.userId);
      if fetched.None? {
        r := Err(UserKeyUnavailable);
        return;
      }
      userValues := fetched.value;
    }

    var apiKey := if userProvidesKey then userValues.apiKey else env.apiKey;
    var baseURL := if userProvidesURL then userValues.baseURL else env.baseURL;
    r := Ok(Credentials(apiKey, baseURL));
  }

  /** What the Azure path leaves: the new key and URL, the Azure options, `opts` and `clientOptions`. */
  datatype AzureStage = AzureStage(
    apiKey: Option<string>,
    baseURL: Option<string>,
    azureOptions: AzureOptions,
    opts: Opts,
    clientOptions: ClientOptions)

  /**
   * Lines 218-271 of initialize.js, the Azure Assistants path: the mapped options replace the
   * key and the URL and give the query's `api-version`, the default headers
   * and the deployment as model; for an app client, the title policy and the
   * group's parameters are copied and the `azure` flag is set, `false` for a
   * serverless group, whose key then travels as the `api-key` header of the
   * headers object the SDK and the app client share.
   */
  method ApplyAzureConfig(
    req: Req, version: string, initAppClient: bool, cfg: AzureConfig, lib: Collaborators,
    clientOptions: ClientOptions)
    returns (r: Result<AzureStage, InitError>)
    ensures r == Err(AzureConfigUnavailable) <==> Mapped(req, cfg, lib).None?
    ensures r == Err(UnknownModelGroup) <==>
              Mapped(req, cfg, lib).Some? && initAppClient && GroupOf(req, cfg).None?
    ensures r.Ok? <==> Mapped(req, cfg, lib).Some? && (initAppClient ==> GroupOf(req, cfg).Some?)
    ensures r.Ok? ==>
              var m := Mapped(req, cfg, lib).value;
              var headers := ResolvedHeaders(m, req, version, lib);
              var serverless := initAppClient && m.serverless == Some(true);
              r.value.apiKey == m.azureOptions.apiKey
              && r.value.baseURL == Some(AzureURL(m, lib))
              && r.value.azureOptions == m.azureOptions
              && r.value.opts == Opts(None, None, None, Some(ApiVersionQuery(m.azureOptions.apiVersion)),
                                      Some(if serverless then headers[ApiKeyHeader := m.azureOptions.apiKey] else headers),
                                      m.azureOptions.deploymentName)
    ensures r.Ok? && !initAppClient ==> r.value.clientOptions == clientOptions
    ensures r.Ok? && initAppClient ==>
              var m := Mapped(req, cfg, lib).value;
              var g := GroupOf(req, cfg).value;
              var co := r.value.clientOptions;
              var apiVersion := m.azureOptions.apiVersion;
              co.proxy == clientOptions.proxy && co.endpoint == clientOptions.endpoint
              && co.titleConvo == cfg.titleConvo && co.titleModel == cfg.titleModel
              && co.titleMethod == Some(cfg.titleMethod.GetOr(DefaultTitleMethod))
              && co.addParams == g.addParams && co.dropParams == g.dropParams && co.forcePrompt == g.forcePrompt
              && co.reverseProxyUrl == Some(AzureURL(m, lib))
              && co.headers == r.value.opts.defaultHeaders
              && co.azure == (if m.serverless == Some(true) then Off else On(m.azureOptions))
              && co.defaultQuery ==
                   if m.serverless != Some(true) then clientOptions.defaultQuery
                   else if Truthy(apiVersion) then Some(ApiVersionQuery(apiVersion)) else None
  {
    var modelName := ModelName(req, cfg);
    var mapped := lib.mapModelToAzureConfig(modelName, cfg.modelGroupMap, cfg.groupMap);
    if mapped.None? {
      r := Err(AzureConfigUnavailable);
      return;
    }
    var m := mapped.value;
    var azureOptions := m.azureOptions;
    var baseURL := Some(lib.constructAzureURL(m.baseURL.GetOr(DefaultAzureBaseURL), azureOptions));
    var apiKey := azureOptions.apiKey;
    var opts := Opts(None, None, None, None, None, None);
    opts := opts.(defaultQuery := Some(ApiVersionQuery(azureOptions.apiVersion)));
    opts := opts.(defaultHeaders := Some(lib.resolveHeaders(AzureHeaders(m.headers.GetOr(map[]), apiKey, version), req.userId)));
    opts := opts.(model := azureOptions.deploymentName);

    var co := clientOptions;
    if initAppClient {
      co := co.(titleConvo := cfg.titleConvo, titleModel := cfg.titleModel);
      co := co.(titleMethod := Some(cfg.titleMethod.GetOr(DefaultTitleMethod)));
      if modelName.None? || modelName.value !in cfg.modelGroupMap
         || cfg.modelGroupMap[modelName.value].group !in cfg.groupMap {
        r := Err(UnknownModelGroup);
        return;
      }
      var group := cfg.groupMap[cfg.modelGroupMap[modelName.value].group];
      co := co.(addParams := group.addParams, dropParams := group.dropParams);
      co := co.(forcePrompt := group.forcePrompt);
      co := co.(reverseProxyUrl := Coalesce(baseURL, co.reverseProxyUrl));
      co := co.(headers := opts.defaultHeaders);
      co := co.(azure := if m.serverless == Some(true) then Off else On(azureOptions));
      if m.serverless == Some(true) {
        var apiVersion := azureOptions.apiVersion;
        co := co.(defaultQuery := if Truthy(apiVersion) then Some(ApiVersionQuery(apiVersion)) else None);
        // the app client's headers are the SDK's default headers object: both see the new key
        var shared := co.headers.value[ApiKeyHeader := apiKey];
        co := co.(headers := Some(shared));
        opts := opts.(defaultHeaders := Some(shared));
      }
    }
    r := Ok(AzureStage(apiKey, baseURL, azureOptions, opts, co));
  }

  /**
   * `initializeClient`: credentials, then the Azure path when the config
   * enables assistants, then the two key errors, then the SDK client with
   * URL, proxy and organization when set, and the app client only when
   * there are endpoint options and an app client is asked for.
   */
  method InitializeClient(
    env: Env, req: Req, version: string, endpointOption: Option<EndpointOption>,
    initAppClient: bool, azureConfig: Option<AzureConfig>, lib: Collaborators)
    returns (r: Result<Initialized, InitError>, calls: seq<ServiceCall>)
    // the user key service: expiry looked up and checked before the values are fetched
    ensures NeedsUserValues(env, lib) <==> calls != []
    ensures calls != [] ==> 2 <= |calls| <= 3 && calls[0] == ExpiryLookup(req.userId)
                            && calls[1] == ExpiryCheck(Expiry(req, lib))
    ensures calls != [] ==> (|calls| == 3 <==> lib.checkUserKeyExpiry(Expiry(req, lib)))
    ensures |calls| == 3 ==> calls[2] == ValuesFetch(req.userId)
    // the error outcomes; no client is returned with any of them
    ensures r == Err(ExpiredUserKey) <==> NeedsUserValues(env, lib) && !lib.checkUserKeyExpiry(Expiry(req, lib))
    ensures r == Err(UserKeyUnavailable) <==>
              NeedsUserValues(env, lib) && lib.checkUserKeyExpiry(Expiry(req, lib))
              && lib.getUserKeyValues(req.userId).None?
    ensures r == Err(AzureConfigUnavailable) <==>
              CredentialsPass(env, req, lib) && AzurePath(azureConfig) && Mapped(req, azureConfig.value, lib).None?
    ensures r == Err(UnknownModelGroup) <==>
              CredentialsPass(env, req, lib) && AzurePath(azureConfig) && Mapped(req, azureConfig.value, lib).Some?
              && initAppClient && GroupOf(req, azureConfig.value).None?
    ensures r == Err(Thrown(Typed(NoUserKeyType))) <==>
              CredentialsPass(env, req, lib) && AzurePass(req, azureConfig, initAppClient, lib)
              && lib.isUserProvided(env.apiKey) && !Truthy(FinalApiKey(env, req, azureConfig, lib))
    ensures r == Err(Thrown(Text(MissingKeyText))) <==>
              CredentialsPass(env, req, lib) && AzurePass(req, azureConfig, initAppClient, lib)
              && !lib.isUserProvided(env.apiKey) && !Truthy(FinalApiKey(env, req, azureConfig, lib))
    ensures r.Ok? <==>
              CredentialsPass(env, req, lib) && AzurePass(req, azureConfig, initAppClient, lib)
              && Truthy(FinalApiKey(env, req, azureConfig, lib))
    // the shape of the result
    ensures r.Ok? ==> Some(r.value.openAIApiKey) == FinalApiKey(env, req, azureConfig, lib)
                      && r.value.openai.apiKey == r.value.openAIApiKey
    ensures r.Ok? ==> (r.value.client.Some? <==> endpointOption.Some? && initAppClient)
    ensures r.Ok? && r.value.client.Some? ==>
              r.value.client.value.apiKey == r.value.openAIApiKey
              && r.value.client.value.options.proxy == env.proxy
              && r.value.client.value.options.endpoint == endpointOption
    ensures r.Ok? ==> r.value.openai.options.proxyDispatcher == (if Truthy(env.proxy) then env.proxy else None)
                      && r.value.openai.options.organization == (if Truthy(env.organization) then env.organization else None)
    // without the Azure path: key and URL as sourced, nothing Azure-specific
    ensures r.Ok? && !AzurePath(azureConfig) ==>
              var url := SourcedBaseURL(env, req, lib);
              Some(r.value.openAIApiKey) == SourcedApiKey(env, req, lib)
              && r.value.openai.options.baseURL == (if Truthy(url) then url else None)
              && r.value.openai.options.defaultQuery.None? && r.value.openai.options.defaultHeaders.None?
              && r.value.openai.options.model.None? && r.value.openai.azureOptions.None?
    ensures r.Ok? && !AzurePath(azureConfig) && r.value.client.Some? ==>
              r.value.client.value.options ==
                ClientOptions(SourcedBaseURL(env, req, lib), env.proxy, endpointOption,
                              None, None, None, None, None, None, None, Unset, None)
    // on the Azure path: the mapped options override key, URL, query, headers and model
    ensures r.Ok? && AzurePath(azureConfig) && Mapped(req, azureConfig.value, lib).Some? ==>
              var m := Mapped(req, azureConfig.value, lib).value;
              var url := AzureURL(m, lib);
              var headers := ResolvedHeaders(m, req, version, lib);
              var serverless := initAppClient && m.serverless == Some(true);
              Some(r.value.openAIApiKey) == m.azureOptions.apiKey
              && r.value.openai.azureOptions == Some(m.azureOptions)
              && r.value.openai.options.baseURL == (if url != "" then Some(url) else None)
              && r.value.openai.options.defaultQuery == Some(ApiVersionQuery(m.azureOptions.apiVersion))
              && r.value.openai.options.model == m.azureOptions.deploymentName
              && r.value.openai.options.defaultHeaders ==
                   Some(if serverless then headers[ApiKeyHeader := m.azureOptions.apiKey] else headers)
    ensures r.Ok? && AzurePath(azureConfig) && r.value.client.Some?
            && Mapped(req, azureConfig.value, lib).Some? && GroupOf(req, azureConfig.value).Some? ==>
              var cfg := azureConfig.value;
              var m := Mapped(req, cfg, lib).value;
              var g := GroupOf(req, cfg).value;
              var co := r.value.client.value.options;
              var apiVersion := m.azureOptions.apiVersion;
              co.titleConvo == cfg.titleConvo && co.titleModel == cfg.titleModel
              && co.titleMethod == Some(cfg.titleMethod.GetOr(DefaultTitleMethod))
              && co.addParams == g.addParams && co.dropParams == g.dropParams && co.forcePrompt == g.forcePrompt
              && co.reverseProxyUrl == Some(AzureURL(m, lib))
              && co.headers == r.value.openai.options.defaultHeaders
              && co.azure == (if m.serverless == Some(true) then Off else On(m.azureOptions))
              && co.defaultQuery ==
                   (if m.serverless == Some(true) && Truthy(apiVersion) then Some(ApiVersionQuery(apiVersion)) else None)
    // serverless: no structured Azure auth, the key travels as the `api-key` header
    ensures r.Ok? && AzurePath(azureConfig) && r.value.client.Some?
            && Mapped(req, azureConfig.value, lib).Some? && Mapped(req, azureConfig.value, lib).value.serverless == Some(true) ==>
              var co := r.value.client.value.options;
              co.azure == Off && co.headers.Some? && ApiKeyHeader in co.headers.value
              && co.headers.value[ApiKeyHeader] == Some(r.value.openAIApiKey)
  {
    var credentials;
    credentials, calls := SourceCredentials(env, req, lib);
    if credentials.Err? {
      r := Err(credentials.error);
      return;
    }
    var userProvidesKey := lib.isUserProvided(env.apiKey);
    var apiKey := credentials.value.apiKey;
    var baseURL := credentials.value.baseURL;

    var opts := Opts(None, None, None, None, None, None);
    var clientOptions := ClientOptions(baseURL, env.proxy, endpointOption,
                                       None, None, None, None, None, None, None, Unset, None);
    var azureOptions: Option<AzureOptions> := None;

    if azureConfig.Some? && azureConfig.value.assistants {
      var stage := ApplyAzureConfig(req, version, initAppClient, azureConfig.value, lib, clientOptions);
      if stage.Err? {
        r := Err(stage.error);
        return;
      }
      apiKey, baseURL := stage.value.apiKey, stage.value.baseURL;
      azureOptions := Some(stage.value.azureOptions);
      opts, clientOptions := stage.value.opts, stage.value.clientOptions;
    }

    if userProvidesKey && !Truthy(apiKey) {
      r := Err(Thrown(Typed(NoUserKeyType)));
      return;
    }
    if !Truthy(apiKey) {
      r := Err(Thrown(Text(MissingKeyText)));
      return;
    }

    if Truthy(baseURL) {
      opts := opts.(baseURL := baseURL);
    }
    if Truthy(env.proxy) {
      opts := opts.(proxyDispatcher := env.proxy);
    }
    if Truthy(env.organization) {
      opts := opts.(organization := env.organization);
    }

    var openai := Sdk(apiKey.value, opts, azureOptions);
    if endpointOption.Some? && initAppClient {
      r := Ok(Initialized(openai, Some(AppClient(apiKey.value, clientOptions)), apiKey.value));
    } else {
      r := Ok(Initialized(openai, None, apiKey.value));
    }
  }
}
