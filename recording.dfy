/** The per-node Chandy-Lamport recorder: a sequence id, the balance captured
    when recording starts, the money counted as in transit, and the peers whose
    marker has not yet arrived. Recording is active exactly while that set of
    peers is non-empty. */
module Recording {

  /** The value of a recorder's four fields. */
  datatype Recorder = Recorder(id: int, localBalance: int, moneyInTransfer: int, unrecorded: set<int>)

  /** A freshly constructed recorder: every field at its default. */
  const Idle := Recorder(0, 0, 0, {})

  predicate Active(r: Recorder)
  {
    r.unrecorded != {}
  }

  /** The ids of a topology other than `nodeId`: the peers whose channels are to be recorded. */
  function Peers(nodes: map<int, string>, nodeId: int): (p: set<int>)
    ensures p == nodes.Keys - {nodeId}
  {
    set k | k in nodes && k != nodeId
  }

  /** Starting an epoch: the next sequence id, the captured balance, an empty
      accumulator, and every peer of the topology added to the peers still awaited. */
  function Start(r: Recorder, nodeId: int, balance: int, nodes: map<int, string>): (s: Recorder)
    ensures s.id == r.id + 1 && s.localBalance == balance && s.moneyInTransfer == 0
    ensures s.unrecorded == r.unrecorded + (nodes.Keys - {nodeId})
    ensures nodeId in s.unrecorded <==> nodeId in r.unrecorded
  {
    Recorder(r.id + 1, balance, 0, r.unrecorded + Peers(nodes, nodeId))
  }

  /** A credit of `amount` from `nodeId`: counted as in transit only while that
      sender's marker has not arrived. */
  function Receive(r: Recorder, nodeId: int, amount: int): (s: Recorder)
    ensures s.id == r.id && s.localBalance == r.localBalance && s.unrecorded == r.unrecorded
    ensures nodeId in r.unrecorded ==> s.moneyInTransfer == r.moneyInTransfer + amount
    ensures nodeId !in r.unrecorded ==> s == r
  {
    if nodeId in r.unrecorded then r.(moneyInTransfer := r.moneyInTransfer + amount) else r
  }

  /** The marker from `nodeId` arrived: it is no longer awaited. */
  function Mark(r: Recorder, nodeId: int): (s: Recorder)
    ensures s.id == r.id && s.localBalance == r.localBalance && s.moneyInTransfer == r.moneyInTransfer
    ensures nodeId !in s.unrecorded && s.unrecorded <= r.unrecorded
    ensures forall k :: k in r.unrecorded && k != nodeId ==> k in s.unrecorded
  {
    r.(unrecorded := r.unrecorded - {nodeId})
  }

  class Snapshot {
    var id: int
    var localBalance: int
    var moneyInTransfer: int
    var unrecordedNodes: set<int>

    function State(): Recorder
      reads this
    {
      Recorder(id, localBalance, moneyInTransfer, unrecordedNodes)
    }

    constructor ()
      ensures State() == Idle
    {
      id, localBalance, moneyInTransfer, unrecordedNodes := 0, 0, 0, {};
    }

    method StartSnapshotRecording(nodeId: int, balance: int, nodes: map<int, string>)
      modifies this
      ensures State() == Start(old(State()), nodeId, balance, nodes)
    {
      id := id + 1;
      localBalance := balance;
      moneyInTransfer := 0;
      unrecordedNodes := unrecordedNodes + Peers(nodes, nodeId);
    }

    method GetId() returns (r: int)
      ensures r == id
    {
      r := id;
    }

    method GetLocalBalance() returns (r: int)
      ensures r == localBalance
    {
      r := localBalance;
    }

    method GetMoneyInTransfer() returns (r: int)
      ensures r == moneyInTransfer
    {
      r := moneyInTransfer;
    }

    method IncrementMoneyInTransfer(nodeId: int, amount: int)
      modifies this
      ensures State() == Receive(old(State()), nodeId, amount)
    {
      if nodeId in unrecordedNodes {
        moneyInTransfer := moneyInTransfer + amount;
      }
    }

    method MarkRecorded(nodeId: int)
      modifies this
      ensures State() == Mark(old(State()), nodeId)
    {
      unrecordedNodes := unrecordedNodes - {nodeId};
    }

    method IsRecording() returns (recording: bool)
      ensures recording <==> Active(State())
    {
      recording := |unrecordedNodes| != 0;
    }

    /** Equality looks at the id, the captured balance and the accumulator, not at the awaited peers. */
    method Equals(other: Snapshot?) returns (eq: bool)
      ensures eq <==> other != null && other.id == id && other.localBalance == localBalance
                      && other.moneyInTransfer == moneyInTransfer
    {
      if other == this {
        return true;
      }
      if other == null {
        return false;
      }
      return other.id == id && other.localBalance == localBalance && other.moneyInTransfer == moneyInTransfer;
    }
  }

  /** A duplicate marker is a no-op. */
  lemma MarkIdempotent(r: Recorder, nodeId: int)
    ensures Mark(Mark(r, nodeId), nodeId) == Mark(r, nodeId)
  {
  }

  /** Once a sender's marker is in, its credits are never counted. */
  lemma ReceiveAfterMarkIgnored(r: Recorder, nodeId: int, amount: int)
    ensures Receive(Mark(r, nodeId), nodeId, amount) == Mark(r, nodeId)
  {
  }

  /** What reaches a recorder within one epoch: a credit or a marker, from a sender. */
  datatype Event = Money(sender: int, amount: int) | Marker(sender: int)

  function Apply(r: Recorder, e: Event): Recorder
  {
    match e
    case Money(p, a) => Receive(r, p, a)
    case Marker(p) => Mark(r, p)
  }

  /** The recorder after the events `es`, applied in order. */
  function Run(r: Recorder, es: seq<Event>): Recorder
    decreases |es|
  {
    if es == [] then r else Apply(Run(r, es[..|es| - 1]), es[|es| - 1])
  }

  /** The senders whose marker occurs in `es`. */
  function MarkedIn(es: seq<Event>): set<int>
  {
    set i | 0 <= i < |es| && es[i].Marker? :: es[i].sender
  }

  /** Chandy-Lamport channel state: the money received on a channel in
      `channels` before that channel's marker, summed over `es`. */
  function InTransit(channels: set<int>, es: seq<Event>): int
    decreases |es|
  {
    if es == [] then 0
    else
      var pre, e := es[..|es| - 1], es[|es| - 1];
      InTransit(channels, pre)
        + (if e.Money? && e.sender in channels && e.sender !in MarkedIn(pre) then e.amount else 0)
  }

  lemma MarkedInSnoc(es: seq<Event>, e: Event)
    ensures MarkedIn(es + [e]) == MarkedIn(es) + (if e.Marker? then {e.sender} else {})
  {
    var t := es + [e];
    assert t[..|es|] == es;
    forall p | p in MarkedIn(t)
      ensures p in MarkedIn(es) + (if e.Marker? then {e.sender} else {})
    {
      var i :| 0 <= i < |t| && t[i].Marker? && t[i].sender == p;
      if i < |es| {
        assert es[i] == t[i];
      }
    }
    forall p | p in MarkedIn(es) ensures p in MarkedIn(t) {
      var i :| 0 <= i < |es| && es[i].Marker? && es[i].sender == p;
      assert t[i] == es[i];
    }
    if e.Marker? {
      assert t[|es|] == e;
    }
  }

  /** Over any sequence of credits and markers, the recorder keeps its id and
      captured balance, the awaited peers lose exactly the senders whose marker
      arrived, and the accumulator grows by exactly the channel state. */
  lemma {:induction false} RunClosedForm(r: Recorder, es: seq<Event>)
    ensures Run(r, es) == r.(moneyInTransfer := r.moneyInTransfer + InTransit(r.unrecorded, es),
                             unrecorded := r.unrecorded - MarkedIn(es))
    decreases |es|
  {
    if es == [] {
      assert MarkedIn(es) == {};
    } else {
      var pre, e := es[..|es| - 1], es[|es| - 1];
      assert es == pre + [e];
      RunClosedForm(r, pre);
      MarkedInSnoc(pre, e);
    }
  }

  /** Running two traces one after the other is running their concatenation. */
  lemma {:induction false} RunAppend(r: Recorder, a: seq<Event>, b: seq<Event>)
    ensures Run(r, a + b) == Run(Run(r, a), b)
    decreases |b|
  {
    if b == [] {
      assert a + b == a;
    } else {
      assert (a + b)[..|a + b| - 1] == a + b[..|b| - 1];
      RunAppend(r, a, b[..|b| - 1]);
    }
  }

  /** The set of awaited peers only shrinks within an epoch, and no credit or
      marker touches the sequence id or the captured balance. */
  lemma {:induction false} UnrecordedShrinks(r: Recorder, es: seq<Event>)
    ensures Run(r, es).unrecorded <= r.unrecorded
    ensures Run(r, es).id == r.id && Run(r, es).localBalance == r.localBalance
  {
    RunClosedForm(r, es);
  }

  /** A credit from a sender whose marker has already arrived leaves the recorder unchanged. */
  lemma MarkedSenderNeverCounted(r: Recorder, es: seq<Event>, p: int, amount: int)
    requires p !in r.unrecorded || p in MarkedIn(es)
    ensures Run(r, es + [Money(p, amount)]) == Run(r, es)
  {
    RunClosedForm(r, es);
    assert (es + [Money(p, amount)])[..|es|] == es;
  }

  /** A second marker from the same sender within an epoch changes nothing:
      it neither shrinks the awaited set again nor alters what is counted later. */
  lemma DuplicateMarkerHarmless(r: Recorder, pre: seq<Event>, mid: seq<Event>, post: seq<Event>, p: int)
    ensures Run(r, pre + [Marker(p)] + mid + [Marker(p)] + post) == Run(r, pre + [Marker(p)] + mid + post)
  {
    var first := pre + [Marker(p)] + mid;
    var s := Run(r, first);
    MarkedInSnoc(pre, Marker(p));
    RunAppend(r, pre + [Marker(p)], mid);
    RunClosedForm(Run(r, pre + [Marker(p)]), mid);
    assert p !in s.unrecorded by {
      RunClosedForm(r, pre + [Marker(p)]);
    }
    RunAppend(r, first, [Marker(p)] + post);
    RunAppend(s, [Marker(p)], post);
    assert Run(s, [Marker(p)]) == s by {
      assert [Marker(p)][..0] == [];
    }
    assert first + [Marker(p)] + post == first + ([Marker(p)] + post);
    RunAppend(r, first, post);
  }

  /** An epoch is over exactly when a marker has arrived from every peer of the
      topology it was started with and from every peer still awaited when it
      started: starting adds to the awaited set instead of replacing it. */
  lemma EpochCompletes(r: Recorder, nodeId: int, balance: int, nodes: map<int, string>, es: seq<Event>)
    ensures !Active(Run(Start(r, nodeId, balance, nodes), es))
            <==> r.unrecorded + (nodes.Keys - {nodeId}) <= MarkedIn(es)
  {
    var awaited := r.unrecorded + (nodes.Keys - {nodeId});
    RunClosedForm(Start(r, nodeId, balance, nodes), es);
    assert Run(Start(r, nodeId, balance, nodes), es).unrecorded == awaited - MarkedIn(es);
    if awaited - MarkedIn(es) == {} {
      forall p | p in awaited ensures p in MarkedIn(es) {
        assert p !in awaited - MarkedIn(es);
      }
    }
  }

  /** Started from an idle recorder, an epoch is over exactly when a marker has
      arrived from every peer of the topology it was started with. */
  lemma FreshEpochCompletes(r: Recorder, nodeId: int, balance: int, nodes: map<int, string>, es: seq<Event>)
    requires !Active(r)
    ensures !Active(Run(Start(r, nodeId, balance, nodes), es)) <==> nodes.Keys - {nodeId} <= MarkedIn(es)
  {
    EpochCompletes(r, nodeId, balance, nodes, es);
  }
}
