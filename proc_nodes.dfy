/** Folding a loaded node list into the node-ID-keyed map `ProcNodes`. */
module Definitions {
  import opened Model

  /** The map the fold over `nodes` builds: each node stored under its ID, in list
      order, so that a later node with the same ID replaces an earlier one. */
  function ProcNodesOf(nodes: seq<Node>): (pn: ProcNodes)
    ensures pn.Keys == NodeIDs(nodes)
    ensures Keyed(pn)
    ensures forall k :: k in pn ==> pn[k] in nodes
    decreases |nodes|
  {
    if nodes == [] then map[]
    else
      var init, last := nodes[..|nodes| - 1], nodes[|nodes| - 1];
      assert nodes == init + [last];
      ProcNodesOf(init)[last.nodeID := last]
  }

  /** The node stored under an ID is the last node in the list carrying that ID. */
  lemma {:induction false} LastOccurrenceWins(nodes: seq<Node>, i: nat)
    requires i < |nodes|
    requires forall j :: i < j < |nodes| ==> nodes[j].nodeID != nodes[i].nodeID
    ensures nodes[i].nodeID in ProcNodesOf(nodes)
    ensures ProcNodesOf(nodes)[nodes[i].nodeID] == nodes[i]
  {
    if i < |nodes| - 1 {
      LastOccurrenceWins(nodes[..|nodes| - 1], i);
    }
  }

  /** Conversely, every entry is the last occurrence of its ID in the list; `i` is its position. */
  lemma {:induction false} EntryIsLastOccurrence(nodes: seq<Node>, k: string) returns (i: nat)
    requires k in ProcNodesOf(nodes)
    ensures i < |nodes| && nodes[i].nodeID == k && ProcNodesOf(nodes)[k] == nodes[i]
    ensures forall j :: i < j < |nodes| ==> nodes[j].nodeID != k
    decreases |nodes|
  {
    var init := nodes[..|nodes| - 1];
    if nodes[|nodes| - 1].nodeID == k {
      i := |nodes| - 1;
    } else {
      i := EntryIsLastOccurrence(init, k);
    }
  }

  /** The loop GetProcCache runs on a cache miss: start from an empty map and store
      every loaded node under its node ID, in list order. */
  method BuildProcNodes(nodes: seq<Node>) returns (pn: ProcNodes)
    ensures pn == ProcNodesOf(nodes)
  {
    pn := map[];
    for i := 0 to |nodes|
      invariant pn == ProcNodesOf(nodes[..i])
    {
      assert nodes[..i + 1][..i] == nodes[..i];
      pn := pn[nodes[i].nodeID := nodes[i]];
    }
    assert nodes[..|nodes|] == nodes;
  }
}
