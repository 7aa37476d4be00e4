/**
 * The REST wrappers `Files` and `VectorStoreFiles` attached to the SDK client:
 * each call is one HTTP request whose headers are the beta marker merged with
 * the caller's own headers.
 */
module Rest {
  import opened Results

  /** HTTP header names to values. */
  type Headers = map<string, string>

  const BetaHeader := "OpenAI-Beta"
  const BetaVersion := "assistants=v1"

  /**
   * `{ 'OpenAI-Beta': 'assistants=v1', ...options?.headers }`: the beta marker
   * is always present, and a header the caller supplies wins over it. An absent
   * `options` or `options.headers` spreads nothing, which is the empty map here.
   */
  function WithBeta(caller: Headers): (h: Headers)
    ensures h.Keys == caller.Keys + {BetaHeader}
    ensures forall k :: k in caller ==> h[k] == caller[k]
    ensures BetaHeader !in caller ==> h[BetaHeader] == BetaVersion
  {
    map[BetaHeader := BetaVersion] + caller
  }

  /** Merging the default again changes nothing: every merged map already carries the marker. */
  lemma WithBetaIdempotent(caller: Headers)
    ensures WithBeta(WithBeta(caller)) == WithBeta(caller)
  {
  }

  /** A non-2xx answer of the provider, raised to the caller unchanged. */
  datatype HttpError = HttpError(status: int)

  datatype Verb = Get | Post | Delete

  /** The request body: none, `{ name }` for a new vector store, or one the caller supplies. */
  datatype Payload = NoPayload | StoreName(name: string) | Supplied(content: string)

  /** One outgoing request: verb, path, the `limit` query if any, body and headers. */
  datatype Request = Request(verb: Verb, path: string, limit: Option<nat>, payload: Payload, headers: Headers)

  /** The page size every listing call asks for; there is no pagination. */
  const PageLimit: nat := 100

  function AssistantFiles(assistantId: string): string {
    "/assistants/" + assistantId + "/files"
  }

  function VectorStorePath(vectorStoreId: string): string {
    "/vector_stores/" + vectorStoreId
  }

  function VectorStoreFilesPath(vectorStoreId: string): string {
    VectorStorePath(vectorStoreId) + "/files"
  }

  /** The calls of the two pass-through wrappers, with the caller's headers. */
  datatype WrapperCall =
    | FilesCreate(assistantId: string, body: string, caller: Headers)
    | FilesRetrieve(assistantId: string, fileId: string, caller: Headers)
    | FilesDel(assistantId: string, fileId: string, caller: Headers)
    | VectorStoreFilesCreate(vectorStoreId: string, body: string, caller: Headers)
    | VectorStoreFilesList(vectorStoreId: string, caller: Headers)
    | VectorStoreFilesRetrieve(vectorStoreId: string, fileId: string, caller: Headers)
    | VectorStoreFilesDel(vectorStoreId: string, fileId: string, caller: Headers)
  {
    predicate IsCreate() {
      FilesCreate? || VectorStoreFilesCreate?
    }
    predicate IsDel() {
      FilesDel? || VectorStoreFilesDel?
    }
  }

  /**
   * The request a wrapper call sends. Every one carries the merged beta header;
   * only the two `create` calls post a body, only the deletions use DELETE, and
   * only the listing asks for a page limit. The listing addresses the vector
   * store's files collection (see `VectorStoreFilesListAsWritten` for the path
   * the wrapper actually uses).
   */
  function WrapperRequest(c: WrapperCall): (r: Request)
    ensures r.headers == WithBeta(c.caller)
    ensures r.verb == (if c.IsCreate() then Post else if c.IsDel() then Delete else Get)
    ensures r.payload.NoPayload? <==> !c.IsCreate()
    ensures r.limit.Some? <==> c.VectorStoreFilesList?
  {
    var h := WithBeta(c.caller);
    match c
    case FilesCreate(a, body, _) => Request(Post, AssistantFiles(a), None, Supplied(body), h)
    case FilesRetrieve(a, f, _) => Request(Get, AssistantFiles(a) + "/" + f, None, NoPayload, h)
    case FilesDel(a, f, _) => Request(Delete, AssistantFiles(a) + "/" + f, None, NoPayload, h)
    case VectorStoreFilesCreate(v, body, _) => Request(Post, VectorStoreFilesPath(v), None, Supplied(body), h)
    case VectorStoreFilesList(v, _) => Request(Get, VectorStoreFilesPath(v), Some(PageLimit), NoPayload, h)
    case VectorStoreFilesRetrieve(v, f, _) => Request(Get, VectorStoreFilesPath(v) + "/" + f, None, NoPayload, h)
    case VectorStoreFilesDel(v, f, _) => Request(Delete, VectorStoreFilesPath(v) + "/" + f, None, NoPayload, h)
  }

  /** Every wrapper request carries the beta marker; the caller's value wins when it gives one. */
  lemma WrapperRequestsCarryBeta(c: WrapperCall)
    ensures BetaHeader in WrapperRequest(c).headers
    ensures WrapperRequest(c).headers[BetaHeader] ==
            if BetaHeader in c.caller then c.caller[BetaHeader] else BetaVersion
  {
  }

  /** `VectorStoreFiles.list` as written: it GETs the vector store itself, not its files. */
  function VectorStoreFilesListAsWritten(vectorStoreId: string, caller: Headers): (r: Request)
    ensures r.verb == Get && r.limit == Some(PageLimit) && r.headers == WithBeta(caller)
  {
    Request(Get, VectorStorePath(vectorStoreId), Some(PageLimit), NoPayload, WithBeta(caller))
  }

  /**
   * For every vector store id, the path the listing uses as written is the
   * store's own resource, different from the files collection that
   * `VectorStoreFiles.create` posts to.
   */
  lemma ListAsWrittenMissesFilesCollection(vectorStoreId: string, body: string, caller: Headers)
    ensures VectorStoreFilesListAsWritten(vectorStoreId, caller).path == VectorStorePath(vectorStoreId)
    ensures VectorStoreFilesListAsWritten(vectorStoreId, caller).path
            != WrapperRequest(VectorStoreFilesCreate(vectorStoreId, body, caller)).path
  {
  }

  /**
   * With the corrected path, listing, creating, retrieving and deleting vector
   * store files all address one collection: the list and create paths are
   * equal, and retrieve and delete extend that path with "/" and the file id.
   */
  lemma {:induction false} ListAddressesFilesCollection(vectorStoreId: string, fileId: string, body: string, caller: Headers)
    ensures WrapperRequest(VectorStoreFilesList(vectorStoreId, caller)).path
            == WrapperRequest(VectorStoreFilesCreate(vectorStoreId, body, caller)).path
    ensures var list := WrapperRequest(VectorStoreFilesList(vectorStoreId, caller)).path;
            var one := WrapperRequest(VectorStoreFilesRetrieve(vectorStoreId, fileId, caller)).path;
            one == list + "/" + fileId
            && WrapperRequest(VectorStoreFilesDel(vectorStoreId, fileId, caller)).path == one
  {
  }
}
