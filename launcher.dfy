/** The connection-state machine of a bank server process: the node it runs
    (if any) and whether it is connected. `create` bootstraps the first node,
    `join` enters through an existing node, `cut` views the topology and
    `leave` tears the node down. Registry binding and remote lookup are not
    modelled: the existing node's topology is an input of `join`, and the
    `addNode` calls that announce a join are returned as values. */
module Launcher {
  import opened Nodes
  import Recording

  datatype NodeState = Connected | Disconnected | Crashed

  /** The bank transfer settings: transfer amounts are drawn from
      [minAmount, maxAmount]; every node starts with initialBalance. */
  datatype Config = Config(minAmount: int, maxAmount: int, initialBalance: int)

  /** The startup condition on the settings: MIN_AMOUNT < MAX_AMOUNT < INITIAL_BALANCE. */
  predicate ConfigOk(c: Config)
  {
    c.minAmount < c.maxAmount < c.initialBalance
  }

  /** Startup refuses to run unless the settings satisfy `ConfigOk`. */
  method CheckConfig(c: Config) returns (proceed: bool)
    ensures proceed <==> ConfigOk(c)
  {
    if c.minAmount >= c.maxAmount || c.maxAmount >= c.initialBalance {
      return false;
    }
    return true;
  }

  /** Which branch an operator command took: `Done`, or the warning it stopped at. */
  datatype Outcome = Done | WrongState | NonPositiveId | Unreachable | NotOperational | DuplicateId

  /** What looking up the existing node yields: its topology, or a failed lookup. */
  datatype Lookup = Found(topology: map<int, string>) | LookupFailed

  /** One `addNode(id, host)` call sent to the node `target` at `targetHost`. */
  datatype AddNodeCall = AddNodeCall(target: int, targetHost: string, id: int, host: string)

  /** The guards of `create`, in the order they are checked. */
  function CreateGuard(state: NodeState, nodeId: int): (o: Outcome)
    ensures o == Done <==> state == Disconnected && nodeId > 0
    ensures o == WrongState <==> state != Disconnected
    ensures o in {Done, WrongState, NonPositiveId}
  {
    if state != Disconnected then WrongState
    else if nodeId <= 0 then NonPositiveId
    else Done
  }

  /** The guards of `join`, in the order they are checked. */
  function JoinGuard(state: NodeState, nodeId: int, lookup: Lookup): (o: Outcome)
    ensures o == Done <==> state == Disconnected && nodeId > 0 && lookup.Found?
                           && lookup.topology != map[] && nodeId !in lookup.topology
    ensures o == WrongState <==> state != Disconnected
    ensures state == Disconnected && nodeId > 0 && lookup.Found? && nodeId in lookup.topology
            ==> o == DuplicateId
  {
    if state != Disconnected then WrongState
    else if nodeId <= 0 then NonPositiveId
    else match lookup
      case LookupFailed => Unreachable
      case Found(t) =>
        if t == map[] then NotOperational
        else if nodeId in t then DuplicateId
        else Done
  }

  /** The nodes that `calls` are sent to. */
  ghost function Targets(calls: seq<AddNodeCall>): set<int>
  {
    set i | 0 <= i < |calls| :: calls[i].target
  }

  lemma TargetsSnoc(calls: seq<AddNodeCall>, c: AddNodeCall)
    ensures Targets(calls + [c]) == Targets(calls) + {c.target}
  {
    var t := calls + [c];
    forall q | q in Targets(t) ensures q in Targets(calls) + {c.target} {
      var i :| 0 <= i < |t| && t[i].target == q;
      if i < |calls| {
        assert calls[i] == t[i];
      }
    }
    forall q | q in Targets(calls) ensures q in Targets(t) {
      var i :| 0 <= i < |calls| && calls[i].target == q;
      assert t[i] == calls[i];
    }
    assert t[|calls|] == c;
  }

  /** `calls` sends `addNode(id, host)` once to every node of `topology` other
      than `id`, at its host, and to no one else. */
  ghost predicate AnnouncesExactly(calls: seq<AddNodeCall>, id: int, host: string, topology: map<int, string>)
  {
    && (forall i :: 0 <= i < |calls| ==>
          && calls[i].target in topology && calls[i].target != id
          && calls[i].targetHost == topology[calls[i].target]
          && calls[i].id == id && calls[i].host == host)
    && Targets(calls) == topology.Keys - {id}
    && (forall i, j :: 0 <= i < j < |calls| ==> calls[i].target != calls[j].target)
  }

  /** An announcement to the topology with `id` added is an announcement to the topology without it. */
  lemma AnnounceIgnoresSelf(calls: seq<AddNodeCall>, id: int, host: string, t: map<int, string>)
    requires AnnouncesExactly(calls, id, host, t[id := host])
    ensures AnnouncesExactly(calls, id, host, t)
  {
  }

  class ServerLauncher {
    const config: Config
    var node: Node?
    var nodeState: NodeState

    /** The configuration passed the startup check; a node exists exactly
        when connected; a connected node has a positive id and a topology
        containing itself. */
    ghost predicate Valid()
      reads this, node
    {
      && ConfigOk(config)
      && nodeState != Crashed
      && (node == null <==> nodeState == Disconnected)
      && (node != null ==> node.Valid() && node.id > 0)
    }

    /** The state of a process whose startup check passed; the operator
        commands are only reachable after it. */
    constructor (config: Config)
      requires ConfigOk(config)
      ensures Valid()
      ensures this.config == config && node == null && nodeState == Disconnected
    {
      this.config := config;
      node := null;
      nodeState := Disconnected;
    }

    /** Bootstraps the first node of the network. */
    method Create(nodeHost: string, nodeId: int) returns (outcome: Outcome)
      requires Valid()
      modifies this
      ensures Valid()
      ensures outcome == CreateGuard(old(nodeState), nodeId)
      ensures outcome != Done ==> node == old(node) && nodeState == old(nodeState)
      ensures outcome == Done ==> && fresh(node) && fresh(node.item) && fresh(node.snapshot)
                                  && nodeState == Connected
                                  && node.id == nodeId && node.host == nodeHost
                                  && node.nodes == map[nodeId := nodeHost]
                                  && node.item.balance == config.initialBalance
                                  && node.snapshot.State() == Recording.Idle
    {
      if nodeState != Disconnected {
        return WrongState;
      }
      if nodeId <= 0 {
        return NonPositiveId;
      }
      node := new Node(nodeId, nodeHost, config.initialBalance);
      nodeState := Connected;
      return Done;
    }

    /** Joins the network through an existing node whose lookup gave `lookup`,
        copies its topology and announces the new node to every other node. */
    method Join(nodeHost: string, nodeId: int, lookup: Lookup) returns (outcome: Outcome, calls: seq<AddNodeCall>)
      requires Valid()
      modifies this
      ensures Valid()
      ensures outcome == JoinGuard(old(nodeState), nodeId, lookup)
      ensures outcome != Done ==> node == old(node) && nodeState == old(nodeState) && calls == []
      ensures outcome == Done ==> && fresh(node) && fresh(node.item) && fresh(node.snapshot)
                                  && nodeState == Connected
                                  && node.id == nodeId && node.host == nodeHost
                                  && node.nodes == lookup.topology[nodeId := nodeHost]
                                  && node.item.balance == config.initialBalance
                                  && node.snapshot.State() == Recording.Idle
                                  && AnnouncesExactly(calls, nodeId, nodeHost, lookup.topology)
    {
      calls := [];
      if nodeState != Disconnected {
        return WrongState, calls;
      }
      if nodeId <= 0 {
        return NonPositiveId, calls;
      }
      if lookup.LookupFailed? {
        return Unreachable, calls;
      }
      var existing := lookup.topology;
      if |existing| == 0 {
        return NotOperational, calls;
      }
      if nodeId in existing {
        return DuplicateId, calls;
      }
      var n := new Node(nodeId, nodeHost, config.initialBalance);
      n.PutNodes(existing);
      assert n.nodes == existing[nodeId := nodeHost];
      node := n;
      calls := AnnounceJoin();
      AnnounceIgnoresSelf(calls, nodeId, nodeHost, existing);
      nodeState := Connected;
      return Done, calls;
    }

    /** The `addNode` calls that announce this node to every other node of its topology. */
    method AnnounceJoin() returns (calls: seq<AddNodeCall>)
      requires node != null
      ensures AnnouncesExactly(calls, node.id, node.host, node.nodes)
    {
      var topology, self, selfHost := node.nodes, node.id, node.host;
      var pending := topology.Keys;
      calls := [];
      while exists k :: k in pending
        invariant pending <= topology.Keys
        invariant forall i :: 0 <= i < |calls| ==>
                    && calls[i].target in topology && calls[i].target !in pending
                    && calls[i].target != self
                    && calls[i].targetHost == topology[calls[i].target]
                    && calls[i].id == self && calls[i].host == selfHost
        invariant Targets(calls) == topology.Keys - pending - {self}
        invariant forall i, j :: 0 <= i < j < |calls| ==> calls[i].target != calls[j].target
        decreases pending
      {
        var k :| k in pending;
        if k != self {
          TargetsSnoc(calls, AddNodeCall(k, topology[k], self, selfHost));
          calls := calls + [AddNodeCall(k, topology[k], self, selfHost)];
        }
        pending := pending - {k};
      }
    }

    /** Views the topology: when connected, every known node is visited once. */
    method Cut() returns (outcome: Outcome, viewed: seq<int>)
      requires Valid()
      ensures outcome == (if nodeState == Connected then Done else WrongState)
      ensures outcome == WrongState ==> viewed == []
      ensures outcome == Done ==> && (forall i :: 0 <= i < |viewed| ==> viewed[i] in node.nodes)
                                  && (forall k :: k in node.nodes ==> k in viewed)
                                  && (forall i, j :: 0 <= i < j < |viewed| ==> viewed[i] != viewed[j])
    {
      viewed := [];
      if nodeState != Connected {
        return WrongState, viewed;
      }
      var topology := node.nodes;
      var pending := topology.Keys;
      while exists k :: k in pending
        invariant pending <= topology.Keys
        invariant forall i :: 0 <= i < |viewed| ==> viewed[i] in topology && viewed[i] !in pending
        invariant forall k :: k in topology && k !in pending ==> k in viewed
        invariant forall i, j :: 0 <= i < j < |viewed| ==> viewed[i] != viewed[j]
        decreases pending
      {
        var k :| k in pending;
        viewed := viewed + [k];
        pending := pending - {k};
      }
      return Done, viewed;
    }

    /** Tears the node down and disconnects. */
    method Leave()
      requires Valid() && node != null
      modifies this
      ensures Valid()
      ensures node == null && nodeState == Disconnected
    {
      node := null;
      nodeState := Disconnected;
    }
  }
}
