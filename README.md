# easy-workflow: process-definition cache and instance start

This project models the core of the easy-workflow engine's instance start
(`pkg/workflow/engine/ProcessInstance.go`) and proves what it does.

- **The definition cache (`ProcCache`, `GetProcCache`).** The engine keeps a
  process-wide map from process ID to that process's nodes, keyed by node ID
  (`ProcNodes`). The map is filled the first time an ID is asked for and never
  emptied. A hit returns the stored map and loads nothing. A miss calls the
  definition loader. If the loader fails, the error is returned and nothing is
  cached. If it succeeds, the node list is folded into a node-ID map, stored and
  returned. In the fold, a later node with a repeated ID replaces an earlier one.
- **Instance initialisation (`InstanceInit`).** Get the definition from the cache.
  Query the start node ID, and reject an empty one. Take the start node from the
  definition. Go yields the zero `Node` for an absent ID. Call the stored
  procedure that creates the instance. Its own non-empty error text becomes the
  returned error, word for word. Every failure returns instance ID 0 and the zero
  `Node`.
- **Instance start (`InstanceStart`).** Encode the variables, initialise the
  instance, then hand the start node on. If start-node handling fails, the new
  instance ID is still returned, together with the error.

Every call into code outside the model is represented by the answer it gives,
read from a `Responses` value that the caller passes in. These calls are the
definition loader, the two SQL statements, the variable encoder and start-node
handling. All properties hold for every possible answer. The calls the engine
actually makes are recorded in order, with their arguments, as a list of `Call`
values. So "the stored procedure is not invoked" is stated as "no
`InitProcedure` call is in the list".

Layout:

- `model.dfy` (module `Model`): nodes, errors, external calls and their answers.
- `proc_nodes.dfy` (module `Definitions`): folding a node list into `ProcNodes`.
  `ProcNodesOf` is the reference definition of the fold, and `BuildProcNodes` is
  the loop.
- `process_instance.dfy` (module `ProcessInstance`): three reference functions,
  `GetDefinition`, `InitializeInstance` and `StartInstance`. Each returns the
  result, the cache afterwards and the calls made. The class `Engine` holds the
  cache as a field and runs the same steps imperatively, with Go's early returns.
  Each of its methods is proved equal to the matching reference function.
- `cache_properties.dfy` (module `CacheProperties`): properties that span several
  calls.

Points of the code's behaviour that the model keeps as they are:

- The start node ID comes from a database query on the `proc_execution` table
  (`ProcessInstance.go:48`). It is not found by searching the loaded nodes by
  type. The ID is then looked up in the cached map (line 56), and an ID missing
  from that map gives the zero `Node`.
- If start-node handling fails, the new instance ID is still returned together
  with the error (lines 94-97).
- A node list that loads without error but is empty is cached as an empty map.
  Whether a definition with no nodes fails to load is up to the loader, which is
  not part of this model.

## Model

| member | source | states |
|---|---|---|
| `Definitions.ProcNodesOf` | pkg/workflow/engine/ProcessInstance.go:25-28 | the folded map's keys are exactly the node IDs in the loaded list; every entry is filed under its own node ID; every entry is one of the loaded nodes |
| `Definitions.LastOccurrenceWins` | pkg/workflow/engine/ProcessInstance.go:26-28 | a node whose ID does not occur later in the list is the entry stored under that ID (the last node with a repeated ID wins) |
| `Definitions.EntryIsLastOccurrence` | pkg/workflow/engine/ProcessInstance.go:26-28 | conversely, every entry is the node at some position carrying that ID, and no later position carries the same ID |
| `Definitions.BuildProcNodes` | pkg/workflow/engine/ProcessInstance.go:25-28 | the loop over the loaded nodes builds exactly the map `ProcNodesOf` describes |
| `ProcessInstance.GetDefinition` | pkg/workflow/engine/ProcessInstance.go:17-33 | hit: returns the cached map, makes no call and leaves the cache unchanged, whatever the loader would answer; miss: exactly one loader call; failed load: empty (nil) map, the loader's error, cache unchanged; successful load: the folded map, no error, stored under the process ID with every other entry unchanged; a success leaves the returned map in the cache; no entry is ever removed or replaced; well-keyed caches stay well-keyed |
| `ProcessInstance.InitializeInstance` | pkg/workflow/engine/ProcessInstance.go:36-77 | the start node is the cached node under the queried ID, or the zero Node when the ID is absent (line 56); a cache failure returns (0, zero Node, that error) and the stored procedure is not called; a failed or empty start-node query returns 0, the zero Node and the query error or the no-start-node error, again without the stored procedure; otherwise the stored procedure is called once with the process ID, business ID, the start node's ID and the variables; its failure or its non-empty error text (verbatim) returns 0 and the zero Node; every failure returns 0 and the zero Node; success holds exactly when the lookup, the query (non-empty ID) and the procedure (empty error text) all succeed, and then returns the procedure's ID and the start node (the zero Node if absent); only the cache lookup changes the cache |
| `ProcessInstance.StartInstance` | pkg/workflow/engine/ProcessInstance.go:80-101 | an encoding failure returns 0 and that error, with no further call and the cache unchanged; an initialisation failure returns 0 and that error, and start-node handling is not called; otherwise start-node handling is called with the new ID, the start node, the comment and the encoded variables, and its error is returned together with the new instance ID; success holds exactly when encoding, initialisation and handling all succeed |
| `ProcessInstance.Engine.constructor` | pkg/workflow/engine/ProcessInstance.go:14 | the process-wide cache starts empty |
| `ProcessInstance.Engine.GetProcCache` | pkg/workflow/engine/ProcessInstance.go:17-33 | the imperative lookup returns what `GetDefinition` describes, leaves the cache as `GetDefinition` describes, and appends its calls to the record; keeps the invariant that every cached definition is well keyed and was loaded by a recorded call |
| `ProcessInstance.Engine.InstanceInit` | pkg/workflow/engine/ProcessInstance.go:36-77 | the imperative initialisation returns, and leaves the cache and the call record, as `InitializeInstance` describes; keeps the invariant |
| `ProcessInstance.Engine.InstanceStart` | pkg/workflow/engine/ProcessInstance.go:80-101 | the imperative start returns, and leaves the cache and the call record, as `StartInstance` describes; keeps the invariant |
| `CacheProperties.CachedStaysCached` | pkg/workflow/engine/ProcessInstance.go:18-19 | once a definition is cached, any sequence of later lookups leaves it cached unchanged, and each lookup of it returns that map with no error and no call |
| `CacheProperties.LoadedOnce` | pkg/workflow/engine/ProcessInstance.go:21-32 | the first successful load of a definition makes one loader call, and no later lookup of it calls the loader again; each later lookup returns the map that load built |
| `CacheProperties.StartNodeArgument` | pkg/workflow/engine/ProcessInstance.go:56-67 | with a well-keyed cache, the stored procedure receives the queried start node ID when the definition holds it, and the empty ID of the zero Node when it does not; a successful initialisation then returns the zero Node |
| `CacheProperties.SecondInitIsServedFromCache` | pkg/workflow/engine/ProcessInstance.go:38 | a second initialisation of a process whose definition the first one fetched makes no loader call and leaves the cache as it was |

## Left out

- Concurrency: the cache is modelled sequentially. Unsynchronised access to the Go
  global map from concurrent requests is not modelled.
- The loader `GetProcessDefine`, the SQL layer `dao.ExecSQL` with its two
  statements, `VariablesMap2Json` and `StartNodeHandle` are not part of this model.
  Only their possible answers are modelled, as arbitrary values, and nothing is
  assumed about them. In particular, an empty node list is not assumed to be a
  load failure.
- The text of the error built when no start node ID is found is not modelled. The
  model keeps the process ID it mentions (`NoStartNode(processID)`).
- The `Node` struct belongs to the workflow model package, which is not part of
  this model. Only `nodeID` matters to the engine. `nodeType` and `outgoing` stand
  for the rest of the record, and the zero `Node` has all of them empty or zero.
- ProcessInstance.GetDefinition: in Go a map is a reference, and GetProcCache
  returns the cached map object itself, so a caller that writes into the returned
  map changes the cached entry. The model returns a copy. Its promises that a
  cached entry is never replaced (also in CacheProperties.CachedStaysCached and
  CacheProperties.LoadedOnce) hold only while no caller writes into a returned map.
  InstanceInit only reads from it.
- Go's `nil` map, returned when a load fails, is modelled as the empty map. Both
  read the same.
- The database's own effects (the instance and variable rows that the stored
  procedure writes) are outside the model. Only the procedure's returned row is
  modelled.
- The HTTP handlers in `api/service/service.go` only decode form fields and
  encode replies, so they are not modelled.
- Task pass and reject, guard evaluation and graph traversal are not in the
  modelled source file, so they are not modelled.
