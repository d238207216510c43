# Global-Snapshot bank node, modelled in Dafny

A network of bank nodes sends money to each other. Each node can record a
Chandy–Lamport distributed snapshot (Chandy & Lamport, 1985) of its balance
and of the money in transit towards it. This project models the sequential
core of one node and of the process that runs it:

- `Items` (items.dfy): the balance register `Item`. It has an unconditional
  credit and a guarded debit. The pure functions `Debit` and `Credit` are the
  specification of its two methods. A `BalanceOp` trace lets lemmas reason
  about any sequence of calls.
- `Recording` (recording.dfy): the per-node recorder `Snapshot`. It holds a
  sequence id, the captured balance, the in-transit accumulator and the set
  of peers whose marker has not arrived yet. `Recorder` is the value of those
  four fields. `Start`, `Receive` and `Mark` are the step functions that the
  class's methods are proved against. Any interleaving of credits and markers
  within an epoch is an `Event` trace, replayed by `Run`. `InTransit` is an
  independent definition of Chandy–Lamport channel state: the money received
  on a channel before that channel's marker. `RunClosedForm` proves that the
  accumulator grows by exactly that amount.
- `Nodes` (nodes.dfy): the aggregate `Node`. It has an id and a host, one
  `Item`, one `Snapshot` and a topology map from id to host. `Valid()` says
  that the topology contains the node itself, and every operation keeps it.
- `Launcher` (launcher.dfy): the connection-state machine of the server
  process, with operations `create`, `join`, `cut` and `leave`. It also models
  the startup check on the configuration. The process-wide static `node` and
  `nodeState` become the fields of the class `ServerLauncher`.

Inputs and abstractions:

- `join` looks up the existing node over the network. That lookup becomes the
  input `Lookup`. It is either `Found(topology)`, the existing node's
  topology, or `LookupFailed`. A failed lookup throws in the source, so the
  model then aborts the join with nothing changed.
- Binding the node in the registry and installing the shutdown hook are
  no-ops.
- `announceJoin` sends `addNode` calls one after the other in a plain loop
  (ServerLauncher.java:193-198). The model returns them, in that order, as a
  list of `AddNodeCall` values.
- The constants of the transfer configuration are inputs: `Config`, and the
  `initialBalance` argument of the `Node` constructors.
- `create`, `join` and `cut` return nothing in the source and only log a
  warning on each refused guard. The model returns an `Outcome` value that
  names the branch taken.

Points where the code departs from the textbook algorithm, or from its own
comments, are modelled as the code has them:

- Unlike the textbook Chandy–Lamport algorithm, `cut` does not record a
  snapshot. It only visits the topology (ServerLauncher.java:135-148).
- `startSnapshotRecording` adds the topology's peers to the set of awaited
  peers with `addAll` (Snapshot.java:52). It does not replace that set, so
  peers left over from an unfinished epoch stay in it. `Recording.Start` and
  `Recording.EpochCompletes` state this: the new epoch ends only once those
  left-over peers have sent their markers too.
- NullNodeRemote.java:10 describes that class as a stand-in for a crashed
  node or a network error. But `RemoteUtil.getRemoteNode` throws instead of
  returning it (RemoteUtil.java:34). So a failed lookup in `join` aborts the
  command.

## Model

| member | source | states |
|---|---|---|
| `Items.Debit` | src/main/java/nl/tue/ds/entity/Item.java:39-45 | the debit succeeds iff the balance covers the amount; on success the balance drops by exactly the amount, on failure it is unchanged |
| `Items.Item.constructor` | src/main/java/nl/tue/ds/entity/Item.java:20-22 | the given balance is stored verbatim |
| `Items.Item.GetBalance` | src/main/java/nl/tue/ds/entity/Item.java:24-26 | returns the current balance and changes nothing |
| `Items.Item.IncrementBalance` | src/main/java/nl/tue/ds/entity/Item.java:28-30 | the balance grows by exactly the amount |
| `Items.Item.DecrementBalance` | src/main/java/nl/tue/ds/entity/Item.java:39-45 | returns true iff the old balance covered the amount; the new balance is the one `Debit` gives; a non-negative balance debited by a non-negative amount stays non-negative |
| `Items.Item.Equals` | src/main/java/nl/tue/ds/entity/Item.java:47-59 | two items are equal iff the other is non-null and the balances are equal |
| `Items.FailedDebitChangesNothing` | src/main/java/nl/tue/ds/entity/Item.java:40-44 | a refused debit leaves the balance as it was |
| `Items.CompensationRestores` | src/main/java/nl/tue/ds/entity/Item.java:28-45 | crediting back the amount of a successful debit restores the original balance |
| `Items.DebitKeepsNonNegative` | src/main/java/nl/tue/ds/entity/Item.java:40-41 | with a non-negative balance and amount, the balance after a debit is non-negative whatever the outcome |
| `Items.ReplayNonNegative` | src/main/java/nl/tue/ds/entity/Item.java:28-45 | any sequence of credits and debits of non-negative amounts keeps a non-negative balance non-negative |
| `Items.ReplayBoundedByDeposits` | src/main/java/nl/tue/ds/entity/Item.java:28-45 | after any sequence of calls with non-negative amounts, the balance is at most the start plus all credits: debits never create money |
| `Recording.Start` | src/main/java/nl/tue/ds/entity/Snapshot.java:48-53 | starting an epoch raises the id by one, captures the given balance and zeroes the accumulator; the awaited set becomes the old set united with `nodes.Keys - {nodeId}` (what the stream filter of line 52 collects), and contains the node's own id only if it did before |
| `Recording.Receive` | src/main/java/nl/tue/ds/entity/Snapshot.java:73-82 | a credit adds to the accumulator iff its sender is still awaited; otherwise nothing changes; the id, captured balance and awaited set never change |
| `Recording.Mark` | src/main/java/nl/tue/ds/entity/Snapshot.java:84-91 | a marker removes its sender from the awaited set and nothing else; the set only shrinks and every other field is kept |
| `Recording.Snapshot.constructor` | src/main/java/nl/tue/ds/entity/Snapshot.java:17-46 | a new recorder has id 0, balance 0, accumulator 0 and no awaited peers |
| `Recording.Snapshot.StartSnapshotRecording` | src/main/java/nl/tue/ds/entity/Snapshot.java:48-53 | the new state is `Start` of the old state |
| `Recording.Snapshot.GetId` | src/main/java/nl/tue/ds/entity/Snapshot.java:55-57 | returns the sequence id and changes nothing |
| `Recording.Snapshot.GetLocalBalance` | src/main/java/nl/tue/ds/entity/Snapshot.java:59-61 | returns the captured balance and changes nothing |
| `Recording.Snapshot.GetMoneyInTransfer` | src/main/java/nl/tue/ds/entity/Snapshot.java:63-65 | returns the accumulator and changes nothing |
| `Recording.Snapshot.IncrementMoneyInTransfer` | src/main/java/nl/tue/ds/entity/Snapshot.java:73-82 | the new state is `Receive` of the old state |
| `Recording.Snapshot.MarkRecorded` | src/main/java/nl/tue/ds/entity/Snapshot.java:84-91 | the new state is `Mark` of the old state |
| `Recording.Snapshot.IsRecording` | src/main/java/nl/tue/ds/entity/Snapshot.java:93-100 | returns true iff some peer is still awaited, and changes no state |
| `Recording.Snapshot.Equals` | src/main/java/nl/tue/ds/entity/Snapshot.java:102-116 | equal iff the other is non-null and id, captured balance and accumulator agree; the awaited set is ignored |
| `Recording.MarkIdempotent` | src/main/java/nl/tue/ds/entity/Snapshot.java:84-91 | a duplicate marker is a no-op |
| `Recording.ReceiveAfterMarkIgnored` | src/main/java/nl/tue/ds/entity/Snapshot.java:73-91 | once a sender's marker is in, a credit from that sender leaves the recorder unchanged |
| `Recording.RunClosedForm` | src/main/java/nl/tue/ds/entity/Snapshot.java:73-91 | after any interleaving of credits and markers, the id and captured balance are kept, the awaited set is the old set minus the senders of the markers, and the accumulator has grown by exactly the channel state `InTransit` |
| `Recording.RunAppend` | src/main/java/nl/tue/ds/entity/Snapshot.java:73-91 | replaying two traces in turn equals replaying their concatenation |
| `Recording.UnrecordedShrinks` | src/main/java/nl/tue/ds/entity/Snapshot.java:73-91 | the awaited set never grows within an epoch, and the id and captured balance never change |
| `Recording.MarkedSenderNeverCounted` | src/main/java/nl/tue/ds/entity/Snapshot.java:73-91 | once a sender is no longer awaited, because it never was or because its marker arrived earlier in the trace, its credits change nothing |
| `Recording.DuplicateMarkerHarmless` | src/main/java/nl/tue/ds/entity/Snapshot.java:84-91 | a second marker from the same sender anywhere later in an epoch leaves the final state as if it had not arrived |
| `Recording.EpochCompletes` | src/main/java/nl/tue/ds/entity/Snapshot.java:48-100 | after a start and any trace, recording has stopped iff a marker has arrived from every peer of the start topology and from every peer that was still awaited when the epoch started, since `addAll` keeps those |
| `Recording.FreshEpochCompletes` | src/main/java/nl/tue/ds/entity/Snapshot.java:48-100 | started from an idle recorder, recording has stopped after a trace iff a marker has arrived from every peer of the topology the epoch was started with |
| `Nodes.Node.constructor` | src/main/java/nl/tue/ds/entity/Node.java:52-58 | the topology is exactly `{id -> host}`, the register holds the initial balance and the recorder is fresh and idle |
| `Nodes.Node.Placeholder` | src/main/java/nl/tue/ds/entity/Node.java:48-50 | the placeholder node has id 0, host "" and topology `{0 -> ""}` |
| `Nodes.Node.StartSnapshotRecording` | src/main/java/nl/tue/ds/entity/Node.java:77-79 | the recorder starts an epoch with the node's own id, current balance and current topology; from an idle recorder the awaited set becomes the topology's ids minus the node's own |
| `Nodes.Node.PutNodes` | src/main/java/nl/tue/ds/entity/Node.java:81-83 | the topology becomes the old one merged with the argument, the argument winning on shared ids; the self entry survives, with its host unchanged when the argument does not name the node |
| `Nodes.Node.PutNode` | src/main/java/nl/tue/ds/entity/Node.java:85-87 | the topology maps the given id to the given host; every other entry is unchanged and the node stays in its own topology |
| `Nodes.Node.GetNodes` | src/main/java/nl/tue/ds/entity/Node.java:94-96 | returns the topology, which contains the node itself, and changes nothing |
| `Nodes.Node.Equals` | src/main/java/nl/tue/ds/entity/Node.java:98-110 | two nodes are equal iff the other is non-null and the ids agree; host, balance, recorder and topology are ignored |
| `Nodes.MergeKeepsSelf` | src/main/java/nl/tue/ds/entity/Node.java:81-83 | merging any map into a topology that holds the node keeps the node, with its host unchanged unless the map names the node |
| `Launcher.CheckConfig` | src/main/java/nl/tue/ds/ServerLauncher.java:54-57 | startup proceeds iff MIN_AMOUNT < MAX_AMOUNT < INITIAL_BALANCE |
| `Launcher.CreateGuard` | src/main/java/nl/tue/ds/ServerLauncher.java:80-88 | `create` proceeds iff the state is DISCONNECTED and the id is positive; the state guard is checked first |
| `Launcher.JoinGuard` | src/main/java/nl/tue/ds/ServerLauncher.java:106-125 | `join` proceeds iff the state is DISCONNECTED, the id is positive, the lookup succeeded and the existing topology is non-empty and does not hold the id; a taken id is reported as a duplicate |
| `Launcher.ServerLauncher.constructor` | src/main/java/nl/tue/ds/ServerLauncher.java:34-71 | the process starts with no node, DISCONNECTED; it exists only for a configuration that passed the startup check (MIN_AMOUNT < MAX_AMOUNT < INITIAL_BALANCE), since the command loop is reached only after that check, and `Valid()` carries the check to every command |
| `Launcher.ServerLauncher.Create` | src/main/java/nl/tue/ds/ServerLauncher.java:80-94 | on a refused guard nothing changes; otherwise a fresh node with topology `{nodeId -> host}` is installed, with a newly allocated register holding the initial balance and a newly allocated idle recorder, and the state becomes CONNECTED |
| `Launcher.ServerLauncher.Join` | src/main/java/nl/tue/ds/ServerLauncher.java:106-131 | on a refused guard, a failed lookup, an empty topology or a taken id, nothing changes and nothing is sent; otherwise a fresh node is installed, with a newly allocated register holding the initial balance and a newly allocated idle recorder; its topology is the existing one plus `{nodeId -> host}`, `addNode` goes once to each existing node, and the state becomes CONNECTED |
| `Launcher.ServerLauncher.AnnounceJoin` | src/main/java/nl/tue/ds/ServerLauncher.java:191-199 | `addNode(id, host)` is sent exactly once to every known id other than the node's own, at that id's host, and to nobody else |
| `Launcher.AnnounceIgnoresSelf` | src/main/java/nl/tue/ds/ServerLauncher.java:126-128 | announcing to the merged topology is announcing to exactly the existing node's topology, since the joining id is skipped |
| `Launcher.ServerLauncher.Cut` | src/main/java/nl/tue/ds/ServerLauncher.java:135-148 | nothing happens unless CONNECTED; when connected every node of the topology is visited exactly once |
| `Launcher.ServerLauncher.Leave` | src/main/java/nl/tue/ds/ServerLauncher.java:179-186 | the node is cleared and the state becomes DISCONNECTED |

## Left out

- Locks: the static `channelLock` of `Snapshot` and the `nodesLock` of `NodeRemote` are not modelled. Each operation is one atomic sequential step.
- Items.Item.IncrementBalance: does not model the 32-bit wrap-around of the Java `int` balance. Balances are unbounded integers.
- Items.Item.DecrementBalance: does not model the 32-bit wrap-around of the Java `int` (a debit of a very negative amount can overflow in the source).
- Recording.Snapshot.StartSnapshotRecording: does not model the wrap-around of the `int` sequence id.
- Recording.Snapshot.IncrementMoneyInTransfer: does not model the wrap-around of the `int` accumulator.
- Nodes.Node.GetNodes: returns the topology as a value. The source returns a read-only live view, so later changes to the topology show through it. That aliasing is not modelled.
- Launcher.ServerLauncher.Cut: returns the ids it visits, read from the launcher's own `node.nodes`. The source instead looks its own node up remotely and calls `getNodes()` on the result (ServerLauncher.java:141), a method the `NodeServer` interface does not declare (NodeServer.java:14-22); the model reads that as the node's topology. Fetching each peer's node remotely and logging it are not modelled, and neither is a failed lookup: in the source any failed lookup throws and aborts the loop before anything is logged.
- Launcher.ServerLauncher.Join: assumes every `addNode` announcement is delivered. In the source, a failed remote lookup during `announceJoin` throws, and the node stays assigned while the state stays DISCONNECTED. The existing node's host and id are not modelled separately: the `Lookup` input stands for the result of looking them up.
- Launcher.ServerLauncher.Leave: unbinding from the registry and deleting the node's CSV file are not modelled. The source dereferences `node` first, so the model requires a node to be present.
- Registry startup (`startRMIRegistry`), registry binding in `register`, the shutdown hook and the `java.rmi.server.hostname` property are external plumbing. Binding is a no-op here.
- The REPL and the informational logging of `main`, and `StorageUtil.init`, are I/O.
- The bodies of `transferMoney`, `acceptMoney` and `receiveMarker` are not part of this model: only their signatures exist (NodeServer.java:18-22). The `Event` traces of `Recording` cover any order in which such handlers call `incrementMoneyInTransfer` and `markRecorded`.
- `NodeRemote` is a locked delegation to `Node.putNode` and `Node.getNodes`. It also calls a `removeNode` that `Node` does not have. `NullNodeRemote` is never used. Neither is modelled.
- `RemoteUtil.getRandomNode` is unused, uses a random source and is not modelled.
- `StorageUtil.write` (CSV output), `ServiceConfiguration` (properties file) and `Replication` are not part of this model.
- The `CRASHED` value of `NodeState` is declared but no modelled operation enters it.
- `toString`, `hashCode` and logging are not modelled.
