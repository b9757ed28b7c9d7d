/** Properties of the definition cache and of instance start over several calls. */
module CacheProperties {
  import opened Model
  import opened Definitions
  import opened ProcessInstance

  /** One lookup request: the process ID asked for and what the loader would answer. */
  datatype Lookup = Lookup(processID: int, loaded: Result<seq<Node>>)

  /** A sequence of lookups run one after the other against the same cache: the
      outcome of each, and the cache at the end. */
  function GetDefinitions(cache: Cache, lookups: seq<Lookup>): (r: (seq<Fetched>, Cache))
    ensures |r.0| == |lookups|
    decreases |lookups|
  {
    if lookups == [] then ([], cache)
    else
      var f := GetDefinition(cache, lookups[0].processID, lookups[0].loaded);
      var rest := GetDefinitions(f.cache, lookups[1..]);
      ([f] + rest.0, rest.1)
  }

  /** Once a definition is cached it is never evicted or replaced: every later lookup
      of it is a hit that returns the cached map and calls no loader. */
  lemma {:induction false} CachedStaysCached(cache: Cache, lookups: seq<Lookup>, p: int)
    requires p in cache
    ensures p in GetDefinitions(cache, lookups).1
    ensures GetDefinitions(cache, lookups).1[p] == cache[p]
    ensures forall i :: 0 <= i < |lookups| && lookups[i].processID == p ==>
              var f := GetDefinitions(cache, lookups).0[i];
              f.nodes == cache[p] && f.err == None && f.calls == []
    decreases |lookups|
  {
    if lookups != [] {
      var f := GetDefinition(cache, lookups[0].processID, lookups[0].loaded);
      CachedStaysCached(f.cache, lookups[1..], p);
      var r := GetDefinitions(cache, lookups);
      forall i | 0 <= i < |lookups| && lookups[i].processID == p
        ensures r.0[i].nodes == cache[p] && r.0[i].err == None && r.0[i].calls == []
      {
        if i > 0 {
          assert lookups[1..][i - 1] == lookups[i];
          assert r.0[i] == GetDefinitions(f.cache, lookups[1..]).0[i - 1];
        }
      }
    }
  }

  /** The first successful load of a definition is the only load of it: whatever
      lookups follow, none of them calls the loader for it again, and each returns
      the map that first load built. */
  lemma LoadedOnce(cache: Cache, p: int, loaded: Result<seq<Node>>, lookups: seq<Lookup>)
    requires p !in cache && loaded.Ok?
    ensures var first := GetDefinition(cache, p, loaded);
      && first.calls == [LoadDefinition(p)]
      && var later := GetDefinitions(first.cache, lookups);
      forall i :: 0 <= i < |lookups| && lookups[i].processID == p ==>
        later.0[i].calls == [] && later.0[i].err == None && later.0[i].nodes == ProcNodesOf(loaded.value)
  {
    var first := GetDefinition(cache, p, loaded);
    CachedStaysCached(first.cache, lookups, p);
  }

  /** With a well-formed cache, the stored procedure receives the queried start node
      ID when the definition holds it, and the empty ID (that of the zero Node) when it
      does not; a successful initialisation then returns the zero Node. */
  lemma StartNodeArgument(cache: Cache, processID: int, businessID: string, variableJson: string, w: Responses)
    requires CacheKeyed(cache)
    requires GetDefinition(cache, processID, w.definition).err == None
    requires w.startQuery.Ok? && w.startQuery.value != ""
    ensures var nodes := GetDefinition(cache, processID, w.definition).nodes;
            var id := w.startQuery.value;
            var r := InitializeInstance(cache, processID, businessID, variableJson, w);
      && r.calls[|r.calls| - 1] == InitProcedure(processID, businessID, if id in nodes then id else "", variableJson)
      && (r.err == None ==> r.startNode.nodeID == (if id in nodes then id else "")
                            && (id !in nodes ==> r.startNode == ZeroNode))
  {
  }

  /** Initialising a second instance of a process whose definition the first one
      fetched successfully loads nothing: the definition comes from the cache. */
  lemma SecondInitIsServedFromCache(cache: Cache, processID: int, businessID1: string, json1: string, w1: Responses,
                                    businessID2: string, json2: string, w2: Responses)
    requires GetDefinition(cache, processID, w1.definition).err == None
    ensures var first := InitializeInstance(cache, processID, businessID1, json1, w1);
            var second := InitializeInstance(first.cache, processID, businessID2, json2, w2);
      && second.cache == first.cache
      && LoadDefinition(processID) !in second.calls
  {
  }
}
