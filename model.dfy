/** Value types the engine works with: process-definition nodes, the errors the engine
    returns, and the external calls it makes. The struct `Node` lives in the workflow
    model package, which is not part of this model; only the fields the engine touches
    are given a meaning here. */
module Model {

  /** Go's `(value, error)` convention for a call that may fail. */
  datatype Result<T> = Ok(value: T) | Err(error: Error)

  datatype Option<T> = None | Some(value: T)

  /** A node of a process definition. `nodeID` is the key the engine indexes by;
      `nodeType` and `outgoing` stand for the rest of the record, which the engine
      never reads and only carries along. */
  datatype Node = Node(nodeID: string, nodeType: int, outgoing: seq<string>)

  /** Go's zero value `Node{}`: what indexing a map with an absent key yields. */
  const ZeroNode: Node := Node("", 0, [])

  /** The errors an engine operation can return. */
  datatype Error =
    | Cause(text: string)           // an error returned by an external call, passed on as it is
    | NoStartNode(processID: int)   // the start-node query found no start node ID
    | Rejected(text: string)        // the stored procedure's own non-empty `Error` column

  /** The row `sp_proc_inst_init` returns: the new instance ID and an error text ("" for none). */
  datatype InitRow = InitRow(id: int, error: string)

  /** One call from the engine into code outside the model, with its arguments. */
  datatype Call =
    | LoadDefinition(processID: int)                        // GetProcessDefine
    | QueryStartNode(processID: int)                        // SELECT node_id FROM proc_execution
    | InitProcedure(processID: int, businessID: string,
                    startNodeID: string, variableJson: string)  // call sp_proc_inst_init
    | EncodeVariables(variables: map<string, string>)       // VariablesMap2Json
    | HandleStartNode(instanceID: int, node: Node,
                      comment: string, variableJson: string)    // StartNodeHandle

  /** What the outside world answers to each call, should the engine make it. */
  datatype Responses = Responses(
    definition: Result<seq<Node>>,  // GetProcessDefine(ProcessID)
    startQuery: Result<string>,     // the Node_ID the start-node query scans ("" when it finds none)
    initProc: Result<InitRow>,      // the stored procedure's row
    encoding: Result<string>,       // VariablesMap2Json(Variables)
    handling: Option<Error>         // StartNodeHandle's error, if any
  )

  /** `ProcNodes`: the definition of one process, keyed by node ID. */
  type ProcNodes = map<string, Node>

  /** Every entry of a ProcNodes map is filed under its own node ID. */
  predicate Keyed(pn: ProcNodes) {
    forall k :: k in pn ==> pn[k].nodeID == k
  }

  /** The set of node IDs that occur in a list of nodes. */
  function NodeIDs(nodes: seq<Node>): set<string> {
    set n | n in nodes :: n.nodeID
  }

  /** Go's `pn[id]`: the stored node, or the zero Node when `id` is absent. */
  function NodeAt(pn: ProcNodes, id: string): Node {
    if id in pn then pn[id] else ZeroNode
  }
}
