/** A bank node: its id and host, one balance register, one snapshot recorder,
    and the topology of every node it knows, itself included. */
module Nodes {
  import opened Items
  import opened Recording

  class Node {
    const id: int
    const host: string
    const item: Item
    const snapshot: Snapshot
    /** The topology: node id to host. */
    var nodes: map<int, string>

    /** The topology always contains the node itself. */
    ghost predicate Valid()
      reads this
    {
      id in nodes
    }

    /** A node with topology exactly `{id -> host}`, a register holding the
        configured initial balance and an idle recorder. */
    constructor (id: int, host: string, initialBalance: int)
      ensures Valid()
      ensures this.id == id && this.host == host
      ensures nodes == map[id := host]
      ensures fresh(item) && fresh(snapshot)
      ensures item.balance == initialBalance && snapshot.State() == Idle
    {
      this.id := id;
      this.host := host;
      item := new Item(initialBalance);
      snapshot := new Snapshot();
      nodes := map[id := host];
    }

    /** The placeholder node: id 0 and an empty host. */
    constructor Placeholder(initialBalance: int)
      ensures Valid()
      ensures id == 0 && host == ""
      ensures nodes == map[0 := ""]
      ensures fresh(item) && fresh(snapshot)
      ensures item.balance == initialBalance && snapshot.State() == Idle
    {
      id := 0;
      host := "";
      item := new Item(initialBalance);
      snapshot := new Snapshot();
      nodes := map[0 := ""];
    }

    /** Starts an epoch with this node's id, its current balance and its current topology. */
    method StartSnapshotRecording()
      requires Valid()
      modifies snapshot
      ensures snapshot.State() == Start(old(snapshot.State()), id, item.balance, nodes)
      ensures !Active(old(snapshot.State())) ==> snapshot.unrecordedNodes == nodes.Keys - {id}
    {
      snapshot.StartSnapshotRecording(id, item.balance, nodes);
    }

    /** Merges `m` into the topology; on a shared id the entry of `m` wins. */
    method PutNodes(m: map<int, string>)
      requires Valid()
      modifies this
      ensures Valid()
      ensures nodes == old(nodes) + m
      ensures id !in m ==> nodes[id] == old(nodes)[id]
    {
      nodes := nodes + m;
    }

    /** Sets the host of `i`, leaving every other entry as it was. */
    method PutNode(i: int, h: string)
      requires Valid()
      modifies this
      ensures Valid()
      ensures nodes == old(nodes)[i := h]
      ensures forall k :: k in old(nodes) && k != i ==> k in nodes && nodes[k] == old(nodes)[k]
    {
      nodes := nodes[i := h];
    }

    method GetNodes() returns (m: map<int, string>)
      requires Valid()
      ensures m == nodes && id in m
    {
      m := nodes;
    }

    /** Two nodes are equal exactly when their ids are. */
    method Equals(other: Node?) returns (eq: bool)
      ensures eq <==> other != null && other.id == id
    {
      if other == this {
        return true;
      }
      if other == null {
        return false;
      }
      return other.id == id;
    }
  }

  /** Merging any map into a topology that contains `id` keeps `id`, and keeps
      its host unless the merged map names `id` itself. */
  lemma MergeKeepsSelf(t: map<int, string>, m: map<int, string>, id: int)
    requires id in t
    ensures id in t + m
    ensures id !in m ==> (t + m)[id] == t[id]
  {
  }
}
