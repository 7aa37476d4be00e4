# Azure Assistants client initialisation, modelled in Dafny

This project models the Azure Assistants endpoint initialiser of the chat
server (`api/server/services/Endpoints/azureAssistants/initialize.js`). It has
three parts:

- **The REST wrappers** (`Files`, `VectorStoreFiles` and the requests of
  `VectorStore`). Each call sends one request. Its headers are
  `{ 'OpenAI-Beta': 'assistants=v1', ...options?.headers }`: the beta marker,
  overridden by any header the caller supplies (`rest.dfy`, module `Rest`).
- **The vector-store lookup cache** (`VectorStore`, `vector_store.dfy`,
  module `VectorStores`). The class keeps `_assistants`, a map from assistant
  id to `{ storeName: store }`, as a `map` field. The SDK's HTTP client is the
  `ApiClient` class. It forwards each request to a `Server` oracle, which may
  answer anything and may depend on how many requests came before. A ghost log
  records every request sent. Each method of the class is proved equal to a
  pure specification over `State` (cache and log). The lemmas about those
  specifications state the cache's promises:
  - each assistant is listed at most once;
  - a first lookup returns the first listed store with a matching name;
  - `create` is idempotent when it returns a store under the derived name;
  - a `retrieve` after such a `create` sends no request.
- **`initializeClient`** (`client_init.dfy`, module `ClientInit`). The source
  builds `apiKey`, `baseURL`, `opts` and `clientOptions` step by step. The
  model does the same with three methods, one per stage:
  - `SourceCredentials`: user key service or environment;
  - `ApplyAzureConfig`: the Azure Assistants overrides;
  - `InitializeClient`: key errors and assembly.

  The collaborators are fields of the `Collaborators` record: `isUserProvided`,
  the user key service, `mapModelToAzureConfig`, `constructAzureURL` and
  `resolveHeaders`. Their code is not part of this model, so they are
  uninterpreted functions. The calls to the user key service come back as a
  trace, so their order can be stated.

Three behaviours of the code are easy to miss:

- The `NO_USER_KEY` error carries only `{ type }`, not the endpoint name.
- A second `create` sends no request only when the first one returned a store
  under the assistant's derived name (`CreateIsIdempotent`). When the provider
  returns a store under another name, the second `create` posts again
  (`CreateRepostsOnForeignName`).
- A failed listing still marks the assistant as looked up. Later lookups never
  list again (`EmptyEntryIsFinal`).

## Model

| member | source | states |
|---|---|---|
| `Rest.WithBeta` | api/server/services/Endpoints/azureAssistants/initialize.js:25 | the merged headers are the caller's keys plus `OpenAI-Beta`; the caller's value wins on every key; otherwise `OpenAI-Beta` is `assistants=v1` |
| `Rest.WithBetaIdempotent` | api/server/services/Endpoints/azureAssistants/initialize.js:25 | merging the default into an already merged map changes nothing |
| `Rest.WrapperRequest` | api/server/services/Endpoints/azureAssistants/initialize.js:12-98 | every `Files`/`VectorStoreFiles` call sends the merged headers; only `create` posts a body; only `del` uses DELETE; only `list` asks for a page limit. For `VectorStoreFiles.list` it gives the corrected path `/vector_stores/{id}/files`, not the one at line 73 (see Findings) |
| `Rest.WrapperRequestsCarryBeta` | api/server/services/Endpoints/azureAssistants/initialize.js:12-98 | every wrapper request has an `OpenAI-Beta` header: the caller's value if it gives one, else `assistants=v1` |
| `Rest.VectorStoreFilesListAsWritten` | api/server/services/Endpoints/azureAssistants/initialize.js:71-77 | `VectorStoreFiles.list` as written: a GET with limit 100 and the merged headers, to the store's own path |
| `Rest.ListAsWrittenMissesFilesCollection` | api/server/services/Endpoints/azureAssistants/initialize.js:60-77 | for every id, that path is `/vector_stores/{id}`, not the files collection that `create` posts to |
| `Rest.ListAddressesFilesCollection` | api/server/services/Endpoints/azureAssistants/initialize.js:55-97 | with the corrected path, list and create share one collection path; retrieve and delete extend it with `/{fileId}` |
| `VectorStores.Name` | api/server/services/Endpoints/azureAssistants/initialize.js:130-132 | the store name is the assistant id followed by exactly `_vector_store` |
| `VectorStores.NameInjective` | api/server/services/Endpoints/azureAssistants/initialize.js:130-132 | different assistants get different store names, so different cache keys and paths |
| `VectorStores.RequestsUseStoreName` | api/server/services/Endpoints/azureAssistants/initialize.js:107-176 | the request builders `ListRequest`, `CreateRequest`, `RetrieveRequest` and `DeleteRequest` (lines 109-112, 144-147, 162-165, 172-175): `create` posts `{ name: id + "_vector_store" }`; the `retrieve` and `del` fallbacks address `/vector_stores/{name}`; the listing asks for 100 |
| `VectorStores.FirstNamed` | api/server/services/Endpoints/azureAssistants/initialize.js:119-121 | the index it returns is the first store with the name, or the length when none has it |
| `VectorStores.Find` | api/server/services/Endpoints/azureAssistants/initialize.js:119-121 | `find` returns a listed store with the name, and it is the first such store; it returns nothing iff no listed store has it |
| `VectorStores.RetrieveForAssistantSpec` | api/server/services/Endpoints/azureAssistants/initialize.js:115-128 | afterwards the assistant is in the cache; other entries are unchanged; a cached assistant costs no request and is answered with `_assistants[a][name(a)]`; an uncached one costs exactly one listing; entries stay keyed by store name |
| `VectorStores.CreateSpec` | api/server/services/Endpoints/azureAssistants/initialize.js:138-151 | a lookup error propagates with nothing more sent; a looked-up store is returned with nothing more sent; when the lookup finds nothing, exactly one POST for the derived name is sent, its answer is returned, and on success the entry becomes `{[returned.name]: returned}`; other assistants' entries are unchanged |
| `VectorStores.RetrieveSpec` | api/server/services/Endpoints/azureAssistants/initialize.js:156-166 | `retrieve` leaves the cache as its lookup left it; a lookup error propagates and a looked-up store is returned, with nothing more sent; when the lookup finds nothing, exactly one GET by name is sent and its answer is returned |
| `VectorStores.DelSpec` | api/server/services/Endpoints/azureAssistants/initialize.js:171-176 | `del` sends exactly one DELETE by name and leaves the cache untouched |
| `VectorStores.LookupListings` | api/server/services/Endpoints/azureAssistants/initialize.js:115-125 | a lookup sends one listing if the assistant is uncached, none if it is cached |
| `VectorStores.CreateListings` | api/server/services/Endpoints/azureAssistants/initialize.js:138-151 | `create` lists exactly as its lookup does |
| `VectorStores.RetrieveListings` | api/server/services/Endpoints/azureAssistants/initialize.js:156-166 | `retrieve` lists exactly as its lookup does |
| `VectorStores.ApplyListings` | api/server/services/Endpoints/azureAssistants/initialize.js:115-176 | one public call adds its assistant to the cache keys; it lists once if that assistant was not cached, and never otherwise |
| `VectorStores.ListingsPerAssistant` | api/server/services/Endpoints/azureAssistants/initialize.js:115-125 | over any sequence of calls, whatever the provider answers: the cache gains exactly the assistants consulted, and the listings sent equal the number of consulted assistants that were not cached |
| `VectorStores.FreshObjectListings` | api/server/services/Endpoints/azureAssistants/initialize.js:100-125 | a fresh object lists exactly once per distinct assistant consulted, for its whole lifetime |
| `VectorStores.FirstLookup` | api/server/services/Endpoints/azureAssistants/initialize.js:115-128 | a first lookup returns the first listed store with the derived name and caches exactly it under that name; with no match the entry is `{}` and nothing is returned; if the listing raises, the error propagates and the entry is still `{}` |
| `VectorStores.LookupIsStable` | api/server/services/Endpoints/azureAssistants/initialize.js:115-128 | after a lookup that answered, a second lookup of the same assistant sends nothing and answers exactly as the first |
| `VectorStores.EmptyEntryIsFinal` | api/server/services/Endpoints/azureAssistants/initialize.js:115-166 | an entry of `{}` answers absent with no request; `retrieve` then sends only the GET by name, and `create` only the POST |
| `VectorStores.CreateCaches` | api/server/services/Endpoints/azureAssistants/initialize.js:138-151 | after a `create` that returns a store under the derived name, the cache holds that store under that name |
| `VectorStores.CreateIsIdempotent` | api/server/services/Endpoints/azureAssistants/initialize.js:138-151 | if the first `create(a)` returns a store named `Name(a)`, a second `create(a)` sends nothing and returns the same store |
| `VectorStores.CreatePostsAtMostOnce` | api/server/services/Endpoints/azureAssistants/initialize.js:138-151 | one `create` sends at most one POST, and none when the lookup found a store |
| `VectorStores.CreateTwicePostsAtMostOnce` | api/server/services/Endpoints/azureAssistants/initialize.js:138-151 | two `create(a)` in a row send at most one POST, given the name proviso |
| `VectorStores.CreateRepostsOnForeignName` | api/server/services/Endpoints/azureAssistants/initialize.js:138-151 | if the POST returns a store under another name, the next `create(a)` posts again |
| `VectorStores.CreateThenRetrieve` | api/server/services/Endpoints/azureAssistants/initialize.js:138-166 | after `create(a)` returns a store named `Name(a)`, `retrieve(a)` returns that store and sends nothing |
| `VectorStores.ApiClient.constructor` | api/server/services/Endpoints/azureAssistants/initialize.js:102 | the client `_client` stands for starts with no requests sent |
| `VectorStores.ApiClient.List` | api/server/services/Endpoints/azureAssistants/initialize.js:109-112 | `_client.get` of the listing: the request is appended to the log and the provider's answer to it is returned |
| `VectorStores.ApiClient.Post` | api/server/services/Endpoints/azureAssistants/initialize.js:144-147 | `_client.post`: the request is appended to the log and the provider's answer to it is returned |
| `VectorStores.ApiClient.Get` | api/server/services/Endpoints/azureAssistants/initialize.js:162-165 | `_client.get` by name: the request is appended to the log and the provider's answer to it is returned |
| `VectorStores.ApiClient.Delete` | api/server/services/Endpoints/azureAssistants/initialize.js:172-175 | `_client.delete`: the request is appended to the log and the provider's answer to it is returned |
| `VectorStores.VectorStore.constructor` | api/server/services/Endpoints/azureAssistants/initialize.js:101-105 | a new object starts with an empty `_assistants` |
| `VectorStores.VectorStore.List` | api/server/services/Endpoints/azureAssistants/initialize.js:107-113 | `_list` sends one listing request with limit 100 and the merged headers, and returns the provider's answer |
| `VectorStores.VectorStore.RetrieveForAssistant` | api/server/services/Endpoints/azureAssistants/initialize.js:115-128 | the new cache, log and result equal `RetrieveForAssistantSpec` of the old ones; entries stay keyed by name |
| `VectorStores.VectorStore.Create` | api/server/services/Endpoints/azureAssistants/initialize.js:138-151 | the new cache, log and result equal `CreateSpec` of the old ones |
| `VectorStores.VectorStore.Retrieve` | api/server/services/Endpoints/azureAssistants/initialize.js:156-166 | the new cache, log and result equal `RetrieveSpec` of the old ones |
| `VectorStores.VectorStore.Del` | api/server/services/Endpoints/azureAssistants/initialize.js:171-176 | the new cache, log and result equal `DelSpec` of the old ones |
| `ClientInit.ModelName` | api/server/services/Endpoints/azureAssistants/initialize.js:220 | the model name is the first defined of the body's model, the query's model and the first assistant model; it is undefined only when all three are |
| `ClientInit.AzureHeaders` | api/server/services/Endpoints/azureAssistants/initialize.js:241-248 | the group's headers plus `api-key` = the Azure key and `OpenAI-Beta` = `assistants=<version>`; the computed two win |
| `ClientInit.SourceCredentials` | api/server/services/Endpoints/azureAssistants/initialize.js:183-200 | the user key service is used iff the key or the URL is user-provided; expiry is looked up, then checked, then values are fetched, and only if the check passes; a failed check or fetch returns no credentials; the key comes from the user's values iff it is user-provided, likewise the URL, otherwise from the environment |
| `ClientInit.ApplyAzureConfig` | api/server/services/Endpoints/azureAssistants/initialize.js:218-271 | key replaced by `azureOpenAIApiKey`; URL from `constructAzureURL` (default template when no group URL); query `api-version`; deployment as model; title method defaults to `completion`; group params copied; `azure` is `false` iff serverless, else the options; serverless puts the key in the shared `api-key` header; fails iff the mapper raises or the group is missing |
| `ClientInit.InitializeClient` | api/server/services/Endpoints/azureAssistants/initialize.js:179-329 | the lookups are ordered as above; `NO_USER_KEY` (a typed payload) iff the final key is falsy and user-provided; the plain "not provided" text iff it is falsy and not user-provided; no client with any error; URL, proxy and organization are set only when truthy; an app client iff endpoint options exist and one is asked for; every Azure override and the serverless rule hold of the result |

## Left out

- HTTP transport, the OpenAI SDK constructor and `ProxyAgent`. The SDK client
  is a record of the options it is built with. The proxy dispatcher is the
  proxy URL it would wrap.
- The provider's answers. `Server` answers every request arbitrarily. A
  listing answers with the page's `data` field, possibly missing. `post` and
  `get` answer with a store record. A response of another shape is not
  modelled.
- Pagination. The listing asks for 100 stores. What comes back is whatever
  the oracle answers, so truncation is covered but not named.
- Concurrency. The unsynchronised sharing of `_assistants` between callers
  and the check-then-create race are out; the model runs calls one at a time.
- A store whose `name` is null. `Store.name` is a string.
- Inherited object keys such as `constructor`, which JavaScript would treat as
  present in `_assistants`. The cache is a plain map.
- Request options other than headers. Anything else in `options` is spread
  into requests and not modelled. That includes a caller `body` that would
  override the one `Files.create` and `VectorStoreFiles.create` pass.
- `req` and `res` stored on the SDK client and on `clientOptions`. The
  `files` and `vector_store` namespaces attached to the SDK client are not
  part of the result record; their behaviour is modelled by `Rest` and by
  `VectorStores.VectorStore`, which starts with an empty cache.
- `ClientInit.InitializeClient`: `endpointOption` is assumed not to contain
  `reverseProxyUrl`, `proxy`, `req` or `res`. The spread would let it override
  those fields; the model carries it as one opaque value.
- `ClientInit.InitializeClient`: the collaborators' code is not part of this
  model. `isUserProvided`, the user key service, `mapModelToAzureConfig`,
  `constructAzureURL` and `resolveHeaders` are uninterpreted. So the
  substitution of `${INSTANCE_NAME}` and similar placeholders into the URL is
  not specified. `getUserKeyExpiry` is taken never to raise, and
  `checkUserKeyExpiry` is reduced to pass or raise.
- `ClientInit.ApplyAzureConfig`: `mapModelToAzureConfig` always answers with
  an `azureOptions` record. An answer without one would make the source throw
  a TypeError; that path is not modelled.
- The value of `ErrorTypes.NO_USER_KEY` and of the endpoint name
  `EModelEndpoint.azureAssistants` belong to a library that is not part of
  this model. The error is a tag, and the endpoint name is implicit in every
  user key service call.

## Findings

| source | as written | input that shows it | evidently intended | confidence | as-written member | corrected member |
|---|---|---|---|---|---|---|
| api/server/services/Endpoints/azureAssistants/initialize.js:71-77 | `VectorStoreFiles.list` ("Lists all vector store files") GETs `/vector_stores/{id}`, which is the vector store itself | any id, e.g. `vs_1`: the request goes to `/vector_stores/vs_1`, while `create` posts files to `/vector_stores/vs_1/files` | GET `/vector_stores/{id}/files`, the collection `create`, `retrieve` and `del` address | medium, not executed | `Rest.VectorStoreFilesListAsWritten`, `Rest.ListAsWrittenMissesFilesCollection` | `Rest.WrapperRequest`, `Rest.ListAddressesFilesCollection` |
