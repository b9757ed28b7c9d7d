/** The process-definition cache and the start of a process instance.

    Every call into code outside the model (loading a definition, the two SQL
    statements, variable encoding, start-node handling) is represented by the answer
    it gives, taken from a `Responses` value the caller supplies: the properties below
    hold whatever those answers are. The calls actually made are recorded, in order,
    as a list of `Call`s. */
module ProcessInstance {
  import opened Model
  import opened Definitions

  /** The shape of the process-wide `ProcCache`: process ID to its node map. */
  type Cache = map<int, ProcNodes>

  /** Every cached definition files each node under its own node ID. */
  predicate CacheKeyed(cache: Cache) {
    forall p :: p in cache ==> Keyed(cache[p])
  }

  /** The outcome of one cache lookup: the returned map and error, the cache
      afterwards, and the external calls made. */
  datatype Fetched = Fetched(nodes: ProcNodes, err: Option<Error>, cache: Cache, calls: seq<Call>)

  /** The outcome of instance initialisation. */
  datatype Initialized = Initialized(instanceID: int, startNode: Node, err: Option<Error>,
                                     cache: Cache, calls: seq<Call>)

  /** The outcome of starting an instance. */
  datatype Started = Started(instanceID: int, err: Option<Error>, cache: Cache, calls: seq<Call>)

  /** Reference definition of the cache lookup. `loaded` is what the loader returns if
      it is called. A hit is served from the cache; a miss calls the loader once, and
      on success stores the folded node map under the process ID. A failed load
      returns the empty (nil) map with the loader's error and caches nothing. */
  function GetDefinition(cache: Cache, processID: int, loaded: Result<seq<Node>>): (r: Fetched)
    ensures processID in cache ==> r == Fetched(cache[processID], None, cache, [])
    ensures processID !in cache ==> r.calls == [LoadDefinition(processID)]
    ensures processID !in cache && loaded.Err? ==> r.nodes == map[] && r.err == Some(loaded.error) && r.cache == cache
    ensures processID !in cache && loaded.Ok? ==>
              && r.err == None
              && r.nodes == ProcNodesOf(loaded.value)
              && r.nodes.Keys == NodeIDs(loaded.value)
              && r.cache == cache[processID := r.nodes]
    ensures r.err == None ==> processID in r.cache && r.cache[processID] == r.nodes
    ensures r.err != None ==> r.cache == cache
    ensures forall p :: p in cache ==> p in r.cache && r.cache[p] == cache[p]
    ensures r.cache.Keys <= cache.Keys + {processID}
    ensures CacheKeyed(cache) ==> CacheKeyed(r.cache) && Keyed(r.nodes)
  {
    if processID in cache then
      Fetched(cache[processID], None, cache, [])
    else
      match loaded
      case Err(e) => Fetched(map[], Some(e), cache, [LoadDefinition(processID)])
      case Ok(nodes) =>
        var pn := ProcNodesOf(nodes);
        Fetched(pn, None, cache[processID := pn], [LoadDefinition(processID)])
  }

  /** Reference definition of instance initialisation: fetch the definition, query
      the start node ID, reject an empty one, then call the stored procedure with the
      start node taken from the definition (the zero Node when the ID is absent). */
  function InitializeInstance(cache: Cache, processID: int, businessID: string,
                              variableJson: string, w: Responses): (r: Initialized)
    ensures var f := GetDefinition(cache, processID, w.definition);
      && r.cache == f.cache
      && (f.err != None ==> r == Initialized(0, ZeroNode, f.err, f.cache, f.calls))
      && (f.err == None && w.startQuery.Err? ==>
            r == Initialized(0, ZeroNode, Some(w.startQuery.error), f.cache, f.calls + [QueryStartNode(processID)]))
      && (f.err == None && w.startQuery == Ok("") ==>
            r == Initialized(0, ZeroNode, Some(NoStartNode(processID)), f.cache, f.calls + [QueryStartNode(processID)]))
      && (f.err == None && w.startQuery.Ok? && w.startQuery.value != "" ==>
            var start := NodeAt(f.nodes, w.startQuery.value);
            && r.calls == f.calls + [QueryStartNode(processID),
                                     InitProcedure(processID, businessID, start.nodeID, variableJson)]
            && (w.initProc.Err? ==> r.err == Some(w.initProc.error))
            && (w.initProc.Ok? && w.initProc.value.error != "" ==> r.err == Some(Rejected(w.initProc.value.error)))
            && (w.initProc.Ok? && w.initProc.value.error == "" ==>
                  r.instanceID == w.initProc.value.id && r.startNode == start && r.err == None))
    ensures r.err != None ==> r.instanceID == 0 && r.startNode == ZeroNode
    ensures r.err == None <==>
              && GetDefinition(cache, processID, w.definition).err == None
              && w.startQuery.Ok? && w.startQuery.value != ""
              && w.initProc.Ok? && w.initProc.value.error == ""
  {
    var f := GetDefinition(cache, processID, w.definition);
    if f.err != None then
      Initialized(0, ZeroNode, f.err, f.cache, f.calls)
    else
      var queried := f.calls + [QueryStartNode(processID)];
      match w.startQuery
      case Err(e) => Initialized(0, ZeroNode, Some(e), f.cache, queried)
      case Ok(startID) =>
        if startID == "" then
          Initialized(0, ZeroNode, Some(NoStartNode(processID)), f.cache, queried)
        else
          var start := NodeAt(f.nodes, startID);
          var called := queried + [InitProcedure(processID, businessID, start.nodeID, variableJson)];
          match w.initProc
          case Err(e) => Initialized(0, ZeroNode, Some(e), f.cache, called)
          case Ok(row) =>
            if row.error != "" then Initialized(0, ZeroNode, Some(Rejected(row.error)), f.cache, called)
            else Initialized(row.id, start, None, f.cache, called)
  }

  /** Reference definition of starting an instance: encode the variables, initialise
      the instance, then hand the start node on. A failure of start-node handling
      still reports the new instance ID. */
  function StartInstance(cache: Cache, processID: int, businessID: string, comment: string,
                         variables: map<string, string>, w: Responses): (r: Started)
    ensures w.encoding.Err? ==> r == Started(0, Some(w.encoding.error), cache, [EncodeVariables(variables)])
    ensures w.encoding.Ok? ==>
      var i := InitializeInstance(cache, processID, businessID, w.encoding.value, w);
      && r.cache == i.cache
      && (i.err != None ==> r == Started(0, i.err, i.cache, [EncodeVariables(variables)] + i.calls))
      && (i.err == None ==>
            && r.instanceID == i.instanceID
            && r.err == w.handling
            && r.calls == [EncodeVariables(variables)] + i.calls
                          + [HandleStartNode(i.instanceID, i.startNode, comment, w.encoding.value)])
    ensures r.err == None <==>
              w.encoding.Ok? && w.handling == None
              && InitializeInstance(cache, processID, businessID, w.encoding.value, w).err == None
  {
    match w.encoding
    case Err(e) => Started(0, Some(e), cache, [EncodeVariables(variables)])
    case Ok(json) =>
      var i := InitializeInstance(cache, processID, businessID, json, w);
      if i.err != None then
        Started(0, i.err, i.cache, [EncodeVariables(variables)] + i.calls)
      else
        var handled := [EncodeVariables(variables)] + i.calls + [HandleStartNode(i.instanceID, i.startNode, comment, json)];
        match w.handling
        case Some(e) => Started(i.instanceID, Some(e), i.cache, handled)
        case None => Started(i.instanceID, None, i.cache, handled)
  }

  /** The engine's process-wide state: the definition cache, plus a record of the
      external calls made so far. */
  class Engine {
    var procCache: Cache
    ghost var calls: seq<Call>

    /** Cached definitions are keyed by node ID, and each was loaded by a recorded call. */
    ghost predicate Valid()
      reads this
    {
      && CacheKeyed(procCache)
      && forall p :: p in procCache ==> LoadDefinition(p) in calls
    }

    /** The cache starts empty. */
    constructor ()
      ensures Valid() && procCache == map[] && calls == []
    {
      procCache := map[];
      calls := [];
    }

    /** Fill-on-miss lookup of a process definition. */
    method GetProcCache(processID: int, loaded: Result<seq<Node>>) returns (nodes: ProcNodes, err: Option<Error>)
      requires Valid()
      modifies this
      ensures Valid()
      ensures var f := GetDefinition(old(procCache), processID, loaded);
        nodes == f.nodes && err == f.err && procCache == f.cache && calls == old(calls) + f.calls
    {
      if processID in procCache {
        return procCache[processID], None;
      }
      calls := calls + [LoadDefinition(processID)];
      if loaded.Err? {
        return map[], Some(loaded.error);
      }
      var pn := BuildProcNodes(loaded.value);
      procCache := procCache[processID := pn];
      return procCache[processID], None;
    }

    /** Creates the instance record; returns its ID and the start node. */
    method InstanceInit(processID: int, businessID: string, variableJson: string, w: Responses)
      returns (instanceID: int, startNode: Node, err: Option<Error>)
      requires Valid()
      modifies this
      ensures Valid()
      ensures var r := InitializeInstance(old(procCache), processID, businessID, variableJson, w);
        && instanceID == r.instanceID && startNode == r.startNode && err == r.err
        && procCache == r.cache && calls == old(calls) + r.calls
    {
      var nodes;
      nodes, err := GetProcCache(processID, w.definition);
      if err != None {
        return 0, ZeroNode, err;
      }
      calls := calls + [QueryStartNode(processID)];
      if w.startQuery.Err? {
        return 0, ZeroNode, Some(w.startQuery.error);
      }
      var startID := w.startQuery.value;
      if startID == "" {
        return 0, ZeroNode, Some(NoStartNode(processID));
      }
      var start := NodeAt(nodes, startID);
      calls := calls + [InitProcedure(processID, businessID, start.nodeID, variableJson)];
      if w.initProc.Err? {
        return 0, ZeroNode, Some(w.initProc.error);
      }
      var row := w.initProc.value;
      if row.error != "" {
        return 0, ZeroNode, Some(Rejected(row.error));
      }
      return row.id, start, None;
    }

    /** Starts an instance of a process; returns the new instance ID. */
    method InstanceStart(processID: int, businessID: string, comment: string,
                         variables: map<string, string>, w: Responses)
      returns (instanceID: int, err: Option<Error>)
      requires Valid()
      modifies this
      ensures Valid()
      ensures var r := StartInstance(old(procCache), processID, businessID, comment, variables, w);
        instanceID == r.instanceID && err == r.err && procCache == r.cache && calls == old(calls) + r.calls
    {
      calls := calls + [EncodeVariables(variables)];
      if w.encoding.Err? {
        return 0, Some(w.encoding.error);
      }
      var variableJson := w.encoding.value;
      var startNode;
      instanceID, startNode, err := InstanceInit(processID, businessID, variableJson, w);
      if err != None {
        return 0, err;
      }
      calls := calls + [HandleStartNode(instanceID, startNode, comment, variableJson)];
      if w.handling.Some? {
        return instanceID, w.handling;
      }
      return instanceID, None;
    }
  }
}
