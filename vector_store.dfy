/**
 * The `VectorStore` namespace attached to the SDK client: a per-assistant
 * lookup cache in front of the provider's vector-store endpoints. The
 * provider is an oracle (`Server`) that answers each request arbitrarily,
 * possibly depending on how many requests came before; the requests sent are
 * kept in a ghost log so that the number of calls can be stated and bounded.
 */
module VectorStores {
  import opened Results
  import opened Rest

  /** A vector store as the provider returns it. */
  datatype Store = Store(id: string, name: string)

  /** The provider's answer to a deletion. */
  datatype Deleted = Deleted(id: string, deleted: bool)

  /**
   * The provider, one answer per kind of request, given the request and the
   * number of requests sent before it. A listing answers with the page's
   * `data` field, which may be missing.
   */
  datatype Server = Server(
    list: (Request, nat) -> Result<Option<seq<Store>>, HttpError>,
    post: (Request, nat) -> Result<Store, HttpError>,
    get: (Request, nat) -> Result<Store, HttpError>,
    delete: (Request, nat) -> Result<Deleted, HttpError>)

  /** `_assistants`: assistant id to `{ storeName: store }`. */
  type Cache = map<string, map<string, Store>>

  const Suffix := "_vector_store"
  const StoresPath := "/vector_stores"

  /** The deterministic store name of an assistant. */
  function Name(assistantId: string): (n: string)
    ensures |n| == |assistantId| + |Suffix|
    ensures n[..|assistantId|] == assistantId && n[|assistantId|..] == Suffix
  {
    assistantId + Suffix
  }

  /** Different assistants get different store names, hence different paths and cache keys. */
  lemma NameInjective(a: string, b: string)
    ensures Name(a) == Name(b) ==> a == b
  {
  }

  /** The requests the class sends; all carry the merged beta header. */
  function ListRequest(caller: Headers): Request {
    Request(Get, StoresPath, Some(PageLimit), NoPayload, WithBeta(caller))
  }

  function CreateRequest(assistantId: string, caller: Headers): Request {
    Request(Post, StoresPath, None, StoreName(Name(assistantId)), WithBeta(caller))
  }

  function RetrieveRequest(assistantId: string, caller: Headers): Request {
    Request(Get, StoresPath + "/" + Name(assistantId), None, NoPayload, WithBeta(caller))
  }

  function DeleteRequest(assistantId: string, caller: Headers): Request {
    Request(Delete, StoresPath + "/" + Name(assistantId), None, NoPayload, WithBeta(caller))
  }

  /**
   * `create` asks for a store named after the assistant, and the `retrieve`
   * and `del` fallbacks address the store by that name.
   */
  lemma RequestsUseStoreName(assistantId: string, caller: Headers)
    ensures CreateRequest(assistantId, caller).payload == StoreName(assistantId + "_vector_store")
    ensures RetrieveRequest(assistantId, caller).path == "/vector_stores/" + assistantId + "_vector_store"
    ensures DeleteRequest(assistantId, caller).path == RetrieveRequest(assistantId, caller).path
    ensures ListRequest(caller).limit == Some(100)
  {
  }

  /** `vectorStores?.data || []` */
  function Listing(data: Option<seq<Store>>): seq<Store> {
    data.GetOr([])
  }

  /** The index of the first store named `n`, or `|stores|` when there is none. */
  function FirstNamed(stores: seq<Store>, n: string): (i: nat)
    ensures i <= |stores|
    ensures i < |stores| ==> stores[i].name == n
    ensures forall j :: 0 <= j < i ==> stores[j].name != n
    decreases |stores|
  {
    if stores == [] then 0
    else if stores[0].name == n then 0
    else 1 + FirstNamed(stores[1..], n)
  }

  /** `Array.prototype.find` on the name: the first store with that name. */
  function Find(stores: seq<Store>, n: string): (r: Option<Store>)
    ensures r.Some? ==> r.value in stores && r.value.name == n
    ensures r.Some? ==> exists i :: 0 <= i < |stores| && stores[i] == r.value
                          && forall j :: 0 <= j < i ==> stores[j].name != n
    ensures r.None? <==> forall s :: s in stores ==> s.name != n
  {
    var i := FirstNamed(stores, n);
    if i < |stores| then Some(stores[i]) else None
  }

  /** `this._assistants[a][this.name(a)]` */
  function Lookup(entry: map<string, Store>, key: string): Option<Store> {
    if key in entry then Some(entry[key]) else None
  }

  /** Every cached store sits under its own name. */
  ghost predicate WellKeyed(cache: Cache) {
    forall a, k :: a in cache && k in cache[a] ==> cache[a][k].name == k
  }

  /** The state the class and the provider share: the cache and the requests sent so far. */
  datatype State = State(cache: Cache, log: seq<Request>)

  datatype Outcome<+T> = Outcome(state: State, result: Result<T, HttpError>)

  /**
   * `_retrieveForAssistant`. An assistant already in the cache is answered from
   * it with no request. Otherwise its entry is set to `{}` BEFORE the listing,
   * so that it stays marked as looked up whatever the listing answers; the
   * first listed store with the assistant's name replaces the entry.
   */
  function RetrieveForAssistantSpec(s: State, srv: Server, a: string, caller: Headers): (o: Outcome<Option<Store>>)
    ensures o.state.cache.Keys == s.cache.Keys + {a}
    ensures forall b :: b in s.cache && b != a ==> o.state.cache[b] == s.cache[b]
    ensures a in s.cache ==> o.state == s && o.result == Ok(Lookup(s.cache[a], Name(a)))
    ensures a !in s.cache ==> o.state.log == s.log + [ListRequest(caller)]
    ensures WellKeyed(s.cache) ==> WellKeyed(o.state.cache)
  {
    if a in s.cache then
      Outcome(s, Ok(Lookup(s.cache[a], Name(a))))
    else
      var req := ListRequest(caller);
      var marked := State(s.cache[a := map[]], s.log + [req]);
      match srv.list(req, |s.log|)
      case Err(e) => Outcome(marked, Err(e))
      case Ok(data) =>
        var found := Find(Listing(data), Name(a));
        var cache := if found.Some? then marked.cache[a := map[found.value.name := found.value]] else marked.cache;
        Outcome(State(cache, marked.log), Ok(Lookup(cache[a], Name(a))))
  }

  /** `create`: the cached or listed store if there is one, else one POST whose answer replaces the entry. */
  function CreateSpec(s: State, srv: Server, a: string, caller: Headers): (o: Outcome<Store>)
    ensures var lk := RetrieveForAssistantSpec(s, srv, a, caller);
            o.state.log == lk.state.log || o.state.log == lk.state.log + [CreateRequest(a, caller)]
    ensures var lk := RetrieveForAssistantSpec(s, srv, a, caller);
            lk.result.Err? ==> o == Outcome(lk.state, Err(lk.result.error))
    ensures var lk := RetrieveForAssistantSpec(s, srv, a, caller);
            lk.result.Ok? && lk.result.value.Some? ==> o == Outcome(lk.state, Ok(lk.result.value.value))
    ensures var lk := RetrieveForAssistantSpec(s, srv, a, caller);
            lk.result == Ok(None) ==>
              o.state.log == lk.state.log + [CreateRequest(a, caller)]
              && o.result == srv.post(CreateRequest(a, caller), |lk.state.log|)
              && (o.result.Ok? ==> o.state.cache == lk.state.cache[a := map[o.result.value.name := o.result.value]])
              && (o.result.Err? ==> o.state.cache == lk.state.cache)
    ensures o.state.cache.Keys == s.cache.Keys + {a}
    ensures forall b :: b in s.cache && b != a ==> o.state.cache[b] == s.cache[b]
    ensures WellKeyed(s.cache) ==> WellKeyed(o.state.cache)
  {
    var lk := RetrieveForAssistantSpec(s, srv, a, caller);
    match lk.result
    case Err(e) => Outcome(lk.state, Err(e))
    case Ok(Some(existing)) => Outcome(lk.state, Ok(existing))
    case Ok(None) =>
      var req := CreateRequest(a, caller);
      var log := lk.state.log + [req];
      match srv.post(req, |lk.state.log|)
      case Err(e) => Outcome(State(lk.state.cache, log), Err(e))
      case Ok(created) => Outcome(State(lk.state.cache[a := map[created.name := created]], log), Ok(created))
  }

  /** `retrieve`: the cached or listed store if there is one, else a GET by the store name; the cache is not updated from the GET. */
  function RetrieveSpec(s: State, srv: Server, a: string, caller: Headers): (o: Outcome<Store>)
    ensures var lk := RetrieveForAssistantSpec(s, srv, a, caller);
            o.state.cache == lk.state.cache
            && (o.state.log == lk.state.log || o.state.log == lk.state.log + [RetrieveRequest(a, caller)])
    ensures var lk := RetrieveForAssistantSpec(s, srv, a, caller);
            lk.result.Err? ==> o == Outcome(lk.state, Err(lk.result.error))
    ensures var lk := RetrieveForAssistantSpec(s, srv, a, caller);
            lk.result.Ok? && lk.result.value.Some? ==> o == Outcome(lk.state, Ok(lk.result.value.value))
    ensures var lk := RetrieveForAssistantSpec(s, srv, a, caller);
            lk.result == Ok(None) ==>
              o.state.log == lk.state.log + [RetrieveRequest(a, caller)]
              && o.result == srv.get(RetrieveRequest(a, caller), |lk.state.log|)
  {
    var lk := RetrieveForAssistantSpec(s, srv, a, caller);
    match lk.result
    case Err(e) => Outcome(lk.state, Err(e))
    case Ok(Some(existing)) => Outcome(lk.state, Ok(existing))
    case Ok(None) =>
      var req := RetrieveRequest(a, caller);
      Outcome(State(lk.state.cache, lk.state.log + [req]), srv.get(req, |lk.state.log|))
  }

  /** `del`: one DELETE by the store name; the cache is neither read nor updated. */
  function DelSpec(s: State, srv: Server, a: string, caller: Headers): (o: Outcome<Deleted>)
    ensures o.state.cache == s.cache && o.state.log == s.log + [DeleteRequest(a, caller)]
  {
    var req := DeleteRequest(a, caller);
    Outcome(State(s.cache, s.log + [req]), srv.delete(req, |s.log|))
  }

  /** The number of requests in a log that satisfy `p`. */
  function Count(log: seq<Request>, p: Request -> bool): nat {
    if log == [] then 0
    else Count(log[..|log| - 1], p) + (if p(log[|log| - 1]) then 1 else 0)
  }

  lemma CountSnoc(log: seq<Request>, r: Request, p: Request -> bool)
    ensures Count(log + [r], p) == Count(log, p) + (if p(r) then 1 else 0)
  {
  }

  predicate IsList(r: Request) {
    r.verb == Get && r.path == StoresPath
  }

  predicate IsPost(r: Request) {
    r.verb == Post
  }

  /** A public call on the object. */
  datatype Op =
    | CreateOp(assistantId: string, caller: Headers)
    | RetrieveOp(assistantId: string, caller: Headers)
    | DelOp(assistantId: string, caller: Headers)

  function Apply(s: State, srv: Server, op: Op): State {
    match op
    case CreateOp(a, h) => CreateSpec(s, srv, a, h).state
    case RetrieveOp(a, h) => RetrieveSpec(s, srv, a, h).state
    case DelOp(a, h) => DelSpec(s, srv, a, h).state
  }

  /** The calls one after another; a call that raises leaves its effects and the next call still runs. */
  function Run(s: State, srv: Server, ops: seq<Op>): State
    decreases |ops|
  {
    if ops == [] then s else Run(Apply(s, srv, ops[0]), srv, ops[1..])
  }

  /** The assistants whose cache entry a call consults. */
  function LookedUp(op: Op): set<string> {
    if op.DelOp? then {} else {op.assistantId}
  }

  function AllLookedUp(ops: seq<Op>): set<string>
    decreases |ops|
  {
    if ops == [] then {} else LookedUp(ops[0]) + AllLookedUp(ops[1..])
  }

  lemma RetrieveRequestIsNotList(a: string, caller: Headers)
    ensures !IsList(RetrieveRequest(a, caller)) && !IsList(DeleteRequest(a, caller))
  {
  }

  /** A lookup lists once when the assistant is not cached, and not at all otherwise. */
  lemma LookupListings(s: State, srv: Server, a: string, caller: Headers)
    ensures var lk := RetrieveForAssistantSpec(s, srv, a, caller);
            Count(lk.state.log, IsList) == Count(s.log, IsList) + (if a in s.cache then 0 else 1)
  {
  }

  /** `create` and `retrieve` list exactly as their lookup does: their own request is never a listing. */
  lemma CreateListings(s: State, srv: Server, a: string, caller: Headers)
    ensures Count(CreateSpec(s, srv, a, caller).state.log, IsList)
            == Count(s.log, IsList) + (if a in s.cache then 0 else 1)
  {
  }

  lemma RetrieveListings(s: State, srv: Server, a: string, caller: Headers)
    ensures Count(RetrieveSpec(s, srv, a, caller).state.log, IsList)
            == Count(s.log, IsList) + (if a in s.cache then 0 else 1)
  {
  }

  /** One call lists exactly when it consults an assistant not yet in the cache, and then once. */
  lemma ApplyListings(s: State, srv: Server, op: Op)
    ensures Apply(s, srv, op).cache.Keys == s.cache.Keys + LookedUp(op)
    ensures Count(Apply(s, srv, op).log, IsList) == Count(s.log, IsList) + |LookedUp(op) - s.cache.Keys|
  {
    var a, h := op.assistantId, op.caller;
    assert LookedUp(op) - s.cache.Keys == if op.DelOp? || a in s.cache then {} else {a};
    match op
    case DelOp(_, _) =>
      RetrieveRequestIsNotList(a, h);
      CountSnoc(s.log, DeleteRequest(a, h), IsList);
    case CreateOp(_, _) =>
      CreateListings(s, srv, a, h);
    case RetrieveOp(_, _) =>
      RetrieveListings(s, srv, a, h);
  }

  lemma SplitFresh(t: set<string>, rest: set<string>, k: set<string>)
    ensures |(t + rest) - k| == |t - k| + |rest - (k + t)|
  {
    assert (t + rest) - k == (t - k) + (rest - (k + t));
    assert (t - k) !! (rest - (k + t));
  }

  /**
   * At most one listing per assistant for the object's lifetime: over any
   * sequence of calls, the cache gains exactly the assistants consulted, and
   * the listings sent are exactly one per consulted assistant that was not
   * already cached, whatever the provider answered.
   */
  lemma {:induction false} ListingsPerAssistant(s: State, srv: Server, ops: seq<Op>)
    ensures Run(s, srv, ops).cache.Keys == s.cache.Keys + AllLookedUp(ops)
    ensures Count(Run(s, srv, ops).log, IsList) == Count(s.log, IsList) + |AllLookedUp(ops) - s.cache.Keys|
    decreases |ops|
  {
    if ops != [] {
      var s1 := Apply(s, srv, ops[0]);
      ApplyListings(s, srv, ops[0]);
      ListingsPerAssistant(s1, srv, ops[1..]);
      SplitFresh(LookedUp(ops[0]), AllLookedUp(ops[1..]), s.cache.Keys);
    }
  }

  /** From a fresh object, exactly one listing per distinct assistant consulted. */
  lemma FreshObjectListings(log: seq<Request>, srv: Server, ops: seq<Op>)
    ensures Count(Run(State(map[], log), srv, ops).log, IsList) == Count(log, IsList) + |AllLookedUp(ops)|
  {
    ListingsPerAssistant(State(map[], log), srv, ops);
    assert AllLookedUp(ops) - {} == AllLookedUp(ops);
  }

  /**
   * A first lookup answers with the first listed store named after the
   * assistant and caches exactly that store under that name; when no store
   * matches, or the listing raises, the entry is `{}`.
   */
  lemma FirstLookup(s: State, srv: Server, a: string, caller: Headers)
    requires a !in s.cache
    ensures var o := RetrieveForAssistantSpec(s, srv, a, caller);
            match srv.list(ListRequest(caller), |s.log|)
            case Err(e) => o.result == Err(e) && o.state.cache[a] == map[]
            case Ok(data) =>
              var stores := Listing(data);
              var i := FirstNamed(stores, Name(a));
              if i < |stores| then o.result == Ok(Some(stores[i])) && o.state.cache[a] == map[Name(a) := stores[i]]
              else o.result == Ok(None) && o.state.cache[a] == map[]
  {
  }

  /**
   * Once an assistant has been looked up, even when the listing raised or found
   * nothing, its entry is `{}` and stays so: a later lookup answers absent with
   * no request at all, `retrieve` falls back to one GET by name, and `create`
   * posts without listing again.
   */
  lemma EmptyEntryIsFinal(s: State, srv: Server, a: string, caller: Headers)
    requires a in s.cache && s.cache[a] == map[]
    ensures RetrieveForAssistantSpec(s, srv, a, caller) == Outcome(s, Ok(None))
    ensures RetrieveSpec(s, srv, a, caller).state.log == s.log + [RetrieveRequest(a, caller)]
    ensures CreateSpec(s, srv, a, caller).state.log == s.log + [CreateRequest(a, caller)]
  {
  }

  /**
   * The cache's promise: once a lookup has answered, a second lookup of the
   * same assistant, with any headers, sends nothing and answers as the first.
   */
  lemma LookupIsStable(s: State, srv: Server, a: string, caller: Headers, caller2: Headers)
    requires RetrieveForAssistantSpec(s, srv, a, caller).result.Ok?
    ensures var first := RetrieveForAssistantSpec(s, srv, a, caller);
            RetrieveForAssistantSpec(first.state, srv, a, caller2) == Outcome(first.state, first.result)
  {
  }

  /** A `create` whose store came back under the assistant's name leaves exactly that store cached. */
  lemma {:induction false} CreateCaches(s: State, srv: Server, a: string, caller: Headers)
    requires WellKeyed(s.cache)
    requires CreateSpec(s, srv, a, caller).result.Ok?
    requires CreateSpec(s, srv, a, caller).result.value.name == Name(a)
    ensures var o := CreateSpec(s, srv, a, caller);
            a in o.state.cache && Name(a) in o.state.cache[a] && o.state.cache[a][Name(a)] == o.result.value
  {
  }

  /**
   * Two `create(a)` calls in a row: when the first returns a store named after
   * the assistant, the second sends no request and returns the same store.
   */
  lemma CreateIsIdempotent(s: State, srv: Server, a: string, h1: Headers, h2: Headers)
    requires CreateSpec(s, srv, a, h1).result.Ok?
    requires CreateSpec(s, srv, a, h1).result.value.name == Name(a)
    ensures var first := CreateSpec(s, srv, a, h1);
            CreateSpec(first.state, srv, a, h2) == first
  {
  }

  /** A single `create` sends at most one POST, and none when the lookup found a store. */
  lemma CreatePostsAtMostOnce(s: State, srv: Server, a: string, caller: Headers)
    ensures var lk := RetrieveForAssistantSpec(s, srv, a, caller);
            var o := CreateSpec(s, srv, a, caller);
            Count(o.state.log, IsPost) <= Count(s.log, IsPost) + 1
            && (lk.result.Ok? && lk.result.value.Some? ==> o.state.log == lk.state.log)
  {
  }

  /** Hence two `create(a)` calls in a row send at most one POST, given the name proviso. */
  lemma CreateTwicePostsAtMostOnce(s: State, srv: Server, a: string, h1: Headers, h2: Headers)
    requires WellKeyed(s.cache)
    requires CreateSpec(s, srv, a, h1).result.Ok?
    requires CreateSpec(s, srv, a, h1).result.value.name == Name(a)
    ensures var first := CreateSpec(s, srv, a, h1);
            Count(CreateSpec(first.state, srv, a, h2).state.log, IsPost) <= Count(s.log, IsPost) + 1
  {
  }

  /**
   * The proviso matters: when the POST answers with a store under another
   * name, the entry holds that store under that other name, so the next
   * `create(a)` finds nothing and posts again.
   */
  lemma {:induction false} CreateRepostsOnForeignName(s: State, srv: Server, a: string, h1: Headers, h2: Headers)
    requires WellKeyed(s.cache)
    requires CreateSpec(s, srv, a, h1).result.Ok?
    requires CreateSpec(s, srv, a, h1).result.value.name != Name(a)
    ensures var first := CreateSpec(s, srv, a, h1);
            CreateSpec(first.state, srv, a, h2).state.log == first.state.log + [CreateRequest(a, h2)]
  {
  }

  /** After a successful `create(a)` under the assistant's name, `retrieve(a)` returns that store with no request. */
  lemma CreateThenRetrieve(s: State, srv: Server, a: string, h1: Headers, h2: Headers)
    requires WellKeyed(s.cache)
    requires CreateSpec(s, srv, a, h1).result.Ok?
    requires CreateSpec(s, srv, a, h1).result.value.name == Name(a)
    ensures var first := CreateSpec(s, srv, a, h1);
            RetrieveSpec(first.state, srv, a, h2) == first
  {
  }

  /** The HTTP client of the SDK, as an oracle: it forwards each request to the provider and counts it. */
  class ApiClient {
    const server: Server
    var sent: nat
    ghost var log: seq<Request>

    ghost predicate Valid()
      reads this
    {
      sent == |log|
    }

    constructor (server: Server)
      ensures Valid() && this.server == server && log == []
    {
      this.server := server;
      sent := 0;
      log := [];
    }

    method List(req: Request) returns (r: Result<Option<seq<Store>>, HttpError>)
      requires Valid()
      modifies this
      ensures Valid() && log == old(log) + [req]
      ensures r == server.list(req, |old(log)|)
    {
      r := server.list(req, sent);
      sent, log := sent + 1, log + [req];
    }

    method Post(req: Request) returns (r: Result<Store, HttpError>)
      requires Valid()
      modifies this
      ensures Valid() && log == old(log) + [req]
      ensures r == server.post(req, |old(log)|)
    {
      r := server.post(req, sent);
      sent, log := sent + 1, log + [req];
    }

    method Get(req: Request) returns (r: Result<Store, HttpError>)
      requires Valid()
      modifies this
      ensures Valid() && log == old(log) + [req]
      ensures r == server.get(req, |old(log)|)
    {
      r := server.get(req, sent);
      sent, log := sent + 1, log + [req];
    }

    method Delete(req: Request) returns (r: Result<Deleted, HttpError>)
      requires Valid()
      modifies this
      ensures Valid() && log == old(log) + [req]
      ensures r == server.delete(req, |old(log)|)
    {
      r := server.delete(req, sent);
      sent, log := sent + 1, log + [req];
    }
  }

  /** The `VectorStore` class: its `_assistants` dictionary and its calls through the client. */
  class VectorStore {
    const client: ApiClient
    var assistants: Cache

    ghost function Snapshot(): State
      reads this, client
    {
      State(assistants, client.log)
    }

    ghost predicate Valid()
      reads this, client
    {
      client.Valid() && WellKeyed(assistants)
    }

    constructor (client: ApiClient)
      requires client.Valid()
      ensures Valid() && this.client == client && assistants == map[]
    {
      this.client := client;
      assistants := map[];
    }

    /** `_list` */
    method List(caller: Headers) returns (r: Result<Option<seq<Store>>, HttpError>)
      requires Valid()
      modifies client
      ensures Valid() && client.log == old(client.log) + [ListRequest(caller)]
      ensures r == client.server.list(ListRequest(caller), |old(client.log)|)
    {
      r := client.List(ListRequest(caller));
    }

    /** `_retrieveForAssistant` */
    method RetrieveForAssistant(a: string, caller: Headers) returns (r: Result<Option<Store>, HttpError>)
      requires Valid()
      modifies this, client
      ensures Valid()
      ensures Outcome(Snapshot(), r) == RetrieveForAssistantSpec(old(Snapshot()), client.server, a, caller)
    {
      if a !in assistants {
        assistants := assistants[a := map[]];
        var listed := List(caller);
        match listed
        case Err(e) =>
          return Err(e);
        case Ok(data) =>
          var found := Find(Listing(data), Name(a));
          if found.Some? {
            assistants := assistants[a := map[found.value.name := found.value]];
          }
      }
      r := Ok(Lookup(assistants[a], Name(a)));
    }

    /** `create` */
    method Create(a: string, caller: Headers) returns (r: Result<Store, HttpError>)
      requires Valid()
      modifies this, client
      ensures Valid()
      ensures Outcome(Snapshot(), r) == CreateSpec(old(Snapshot()), client.server, a, caller)
    {
      var existing := RetrieveForAssistant(a, caller);
      match existing
      case Err(e) =>
        return Err(e);
      case Ok(Some(store)) =>
        return Ok(store);
      case Ok(None) =>
        var created := client.Post(CreateRequest(a, caller));
        match created
        case Err(e) =>
          return Err(e);
        case Ok(store) =>
          assistants := assistants[a := map[store.name := store]];
          return Ok(store);
    }

    /** `retrieve` */
    method Retrieve(a: string, caller: Headers) returns (r: Result<Store, HttpError>)
      requires Valid()
      modifies this, client
      ensures Valid()
      ensures Outcome(Snapshot(), r) == RetrieveSpec(old(Snapshot()), client.server, a, caller)
    {
      var existing := RetrieveForAssistant(a, caller);
      match existing
      case Err(e) =>
        return Err(e);
      case Ok(Some(store)) =>
        return Ok(store);
      case Ok(None) =>
        r := client.Get(RetrieveRequest(a, caller));
    }

    /** `del` */
    method Del(a: string, caller: Headers) returns (r: Result<Deleted, HttpError>)
      requires Valid()
      modifies client
      ensures Valid()
      ensures Outcome(Snapshot(), r) == DelSpec(old(Snapshot()), client.server, a, caller)
    {
      r := client.Delete(DeleteRequest(a, caller));
    }
  }
}
