/** The configuration of a replica as the object the other components share: node list with its
    derived fields, watermarks, views, sealing marks and the log of what left the replica. */
module Config {
  import opened Types
  import opened Weights
  import opened ConfigModel
  import opened ReplicaModel
  import opened Sealing

  class PBFTConfig {
    const id: NodeId
    const limit: int
    var nodes: seq<Node>
    var nodesNum: nat
    var nodeIndex: nat
    var nodeUpdated: bool
    var totalQuorum: nat
    var maxFaultyQuorum: nat
    var minRequiredQuorum: nat
    var committedProposal: Option<Proposal>
    var progressedIndex: int
    var expectedCheckPoint: int
    var lowWaterMark: int
    var syncingHighestNumber: int
    var syncingState: bool
    var leaderSwitchPeriod: Period
    var view: nat
    var toView: nat
    var timeoutState: bool
    var startRecovered: bool
    var seals: Seals
    var resettingProposals: nat
    var connected: set<NodeId>
    var env: Env

    constructor (id: NodeId, limit: int)
      ensures this.id == id && this.limit == limit && nodes == [] && committedProposal.None?
      ensures Derived() && SealsOk(seals)
    {
      this.id, this.limit := id, limit;
      nodes, nodesNum, nodeIndex, nodeUpdated := [], 0, 0, false;
      totalQuorum, maxFaultyQuorum, minRequiredQuorum := 0, 0, 0;
      committedProposal, progressedIndex, expectedCheckPoint, lowWaterMark := None, 0, 0, 0;
      syncingHighestNumber, syncingState := 0, false;
      leaderSwitchPeriod, view, toView, timeoutState, startRecovered := 1, 0, 0, false, false;
      seals, resettingProposals, connected := Seals(0, 0, 0, 0, []), 0, {};
      env := Env([], [], [], [], [], [], [], []);
    }

    /** The fields computed from the node list agree with it. */
    predicate Derived()
      reads `nodes, `nodesNum, `nodeIndex, `totalQuorum, `maxFaultyQuorum, `minRequiredQuorum
    {
      nodes != [] ==>
        && nodesNum == |nodes|
        && nodeIndex == IndexOf(nodes, id)
        && totalQuorum == Total(nodes) % UINT64
        && maxFaultyQuorum == MaxFaulty(totalQuorum)
        && minRequiredQuorum == MinQuorum(totalQuorum)
    }

    /** The node list is known and the last block of the ledger is loaded. */
    predicate Ready()
      reads `nodes, `committedProposal
    {
      nodes != [] && committedProposal.Some? && 0 <= committedProposal.value.index
    }

    /** Ready, and the total weight fits its word. */
    predicate Sound()
      reads `nodes, `nodesNum, `nodeIndex, `totalQuorum, `maxFaultyQuorum, `minRequiredQuorum, `committedProposal
      ensures Sound() ==> Ready() && Derived()
    {
      Ready() && Derived() && Total(nodes) < UINT64
    }

    lemma QuorumIs()
      requires Sound()
      ensures minRequiredQuorum == QuorumOf(nodes) == Abs().Quorum()
    {
      hide Total, MaxFaulty, MinQuorum, IndexOf;
      assert Total(nodes) % UINT64 == Total(nodes);
    }

    function Abs(): Cfg
      requires Ready()
      reads `nodes, `nodeIndex, `leaderSwitchPeriod, `committedProposal, `progressedIndex, `expectedCheckPoint,
        `lowWaterMark, `syncingHighestNumber, `view, `toView, `timeoutState, `startRecovered
    {
      Cfg(nodes, nodeIndex, id, leaderSwitchPeriod, limit, committedProposal.value, progressedIndex,
          expectedCheckPoint, lowWaterMark, syncingHighestNumber, view, toView, timeoutState, startRecovered)
    }

    // ---- Node list ----

    function NodeByIndex(n: nat): (r: Option<Node>)
      reads this
      ensures r == if n < |nodes| then Some(nodes[n]) else None
    {
      if n < |nodes| then Some(nodes[n]) else None
    }

    method CompareConsensusNode(left: seq<Node>, right: seq<Node>) returns (same: bool)
      ensures same <==> left == right
    {
      if |left| != |right| {
        return false;
      }
      for i := 0 to |left|
        invariant left[..i] == right[..i]
      {
        if left[i].id != right[i].id || left[i].weight != right[i].weight {
          return false;
        }
      }
      return true;
    }

    method NodeIndexById(id: NodeId) returns (index: nat)
      ensures index == IndexOf(nodes, id)
    {
      index := NON_CONSENSUS_NODE;
      var i := 0;
      while i < |nodes|
        invariant i <= |nodes| && index == NON_CONSENSUS_NODE
        invariant IndexOf(nodes, id) == IndexFrom(nodes, id, i)
      {
        if nodes[i].id == id {
          return i;
        }
        i := i + 1;
      }
    }

    method UpdateQuorum()
      modifies `totalQuorum, `maxFaultyQuorum, `minRequiredQuorum
      ensures totalQuorum == Total(nodes) % UINT64
      ensures maxFaultyQuorum == MaxFaulty(totalQuorum) && minRequiredQuorum == MinQuorum(totalQuorum)
      ensures 1 <= totalQuorum ==>
        3 * maxFaultyQuorum + 1 <= totalQuorum <= 3 * maxFaultyQuorum + 3
        && minRequiredQuorum + maxFaultyQuorum == totalQuorum
    {
      totalQuorum := 0;
      for i := 0 to |nodes|
        invariant totalQuorum == Total(nodes[..i]) % UINT64
      {
        assert nodes[..i + 1][..i] == nodes[..i];
        totalQuorum := (totalQuorum + nodes[i].weight) % UINT64;
      }
      assert nodes[..|nodes|] == nodes;
      maxFaultyQuorum := MaxFaulty(totalQuorum);
      minRequiredQuorum := (totalQuorum - maxFaultyQuorum) % UINT64;
    }

    /** An empty list throws. Otherwise the stored list is the given one in canonical order and
        the derived fields agree with it, also when the list is recognized as unchanged. */
    method SetConsensusNodeList(list: seq<Node>) returns (accepted: bool)
      requires Derived() && (committedProposal.Some? ==> 0 <= committedProposal.value.index)
      modifies `nodes, `nodesNum, `nodeIndex, `nodeUpdated, `totalQuorum, `maxFaultyQuorum, `minRequiredQuorum, `seals
      ensures accepted <==> list != []
      ensures accepted ==> nodes == SortNodes(list) && nodeUpdated == (SortNodes(list) != old(nodes))
      ensures !accepted ==> nodes == old(nodes) && nodeUpdated == old(nodeUpdated)
      ensures Derived()
      ensures accepted ==> nodes != []
      ensures seals == if accepted && nodeUpdated && Ready() then Clear(Abs(), old(seals)) else old(seals)
      ensures old(SealsOk(seals)) ==> SealsOk(seals)
    {
      hide SealsOk, SortNodes, IndexOf, Total, MaxFaulty, MinQuorum, Clear;
      if list == [] {
        return false;
      }
      var sorted := SortNodes(list);
      SortNodesSorts(list);
      accepted := true;
      var same := CompareConsensusNode(sorted, nodes);
      if same {
        nodeUpdated := false;
        return;
      }
      nodes := sorted;
      nodeUpdated := true;
      nodesNum := |nodes|;
      nodeIndex := NodeIndexById(id);
      UpdateQuorum();
      if committedProposal.Some? {
        NotifyResetSealing();
      }
    }

    // ---- Leaders ----

    function LeaderInPeriod(index: int, v: nat): (n: nat)
      requires Ready() && Derived()
      reads this
      ensures n == Abs().LeaderIn(index, v)
    {
      ((index % UINT64) / leaderSwitchPeriod + v) % nodesNum
    }

    // ---- Watermarks and views ----

    method SetCommittedProposal(p: Proposal)
      requires nodes != [] && 0 <= p.index
      modifies `committedProposal, `progressedIndex, `expectedCheckPoint, `lowWaterMark
      ensures Ready() && committedProposal == Some(p)
      ensures progressedIndex == MaxInt(old(progressedIndex), p.index + 1)
      ensures expectedCheckPoint == MaxInt(old(expectedCheckPoint), p.index + 1)
      ensures lowWaterMark == MaxInt(old(lowWaterMark), p.index + 1)
      ensures old(Ready()) ==> Abs() == old(Abs()).SetCommitted(p)
    {
      committedProposal := Some(p);
      var progressed := p.index + 1;
      if progressedIndex < progressed {
        progressedIndex := progressed;
      }
      if progressed > expectedCheckPoint {
        expectedCheckPoint := progressed;
      }
      if progressed > lowWaterMark {
        lowWaterMark := progressed;
      }
    }

    method SetExpectedCheckPoint(e: int)
      requires Ready()
      modifies `expectedCheckPoint
      ensures Abs() == old(Abs()).SetExpected(e)
    {
      expectedCheckPoint := MaxInt(committedProposal.value.index + 1, e);
    }

    method ResetTimeoutState()
      requires Ready()
      modifies `timeoutState, `toView
      ensures Abs() == old(Abs()).ResetTimeout()
    {
      timeoutState := true;
      toView := toView + 1;
    }

    method ResetNewViewState(v: nat)
      requires Ready()
      modifies `startRecovered, `view, `toView, `timeoutState
      ensures Abs() == old(Abs()).ResetNewView(v)
    {
      if view > v {
        return;
      }
      if !startRecovered {
        startRecovered := true;
      }
      view := v;
      toView := v;
      timeoutState := false;
    }

    method ResetToView()
      requires Ready()
      modifies `toView
      ensures Abs() == old(Abs()).ResetToView()
    {
      toView := view;
    }

    // ---- Sealing ----

    method SetWaitSealUntil(index: int)
      modifies `seals
      ensures seals == old(seals).(waitSeal := MaxInt(old(seals).waitSeal, index))
    {
      seals := seals.(waitSeal := MaxInt(seals.waitSeal, index));
    }

    method SetWaitResealUntil(index: int)
      modifies `seals
      ensures seals == old(seals).(waitReseal := index)
    {
      seals := seals.(waitReseal := index);
    }

    /** Ask the sealer for blocks from `p` on, if this node leads them. */
    method NotifySealer(p: nat, enforce: bool)
      requires Ready() && Derived()
      modifies `seals
      ensures seals == Notify(Abs(), old(seals), p, enforce, resettingProposals)
      ensures old(SealsOk(seals)) ==> SealsOk(seals)
    {
      hide SealsOk, Cfg.LeaderIn;
      if SealsOk(seals) {
        NotifyKeeps(Abs(), seals, p, enforce, resettingProposals);
      }
      var leader := LeaderInPeriod(p, view);
      if leader != nodeIndex {
        return;
      }
      var committed := committedProposal.value.index;
      if seals.waitSeal > committed || seals.waitReseal > committed {
        return;
      }
      if enforce {
        seals := seals.(end := MaxInt(p, seals.end), start := MinInt(p, seals.start),
                        log := seals.log + [Enforced(p)]);
        return;
      }
      var last := AsInt64((p / leaderSwitchPeriod + 1) * leaderSwitchPeriod - 1);
      last := MinInt(last, progressedIndex + limit - 1);
      if seals.end >= last {
        return;
      }
      var first := MaxInt(seals.end + 1, p);
      if first > last {
        return;
      }
      if resettingProposals > 0 && first > committed + 1 {
        return;
      }
      seals := seals.(start := first, end := last, log := seals.log + [Sealed(first, last)]);
    }

    /** Tell the sealer to drop what it sealed. */
    method NotifyResetSealing()
      requires Ready()
      modifies `seals
      ensures seals == Clear(Abs(), old(seals))
      ensures old(SealsOk(seals)) ==> SealsOk(seals)
    {
      if SealsOk(seals) {
        ClearKeeps(Abs(), seals);
      }
      var index := MaxInt(expectedCheckPoint, committedProposal.value.index + 1);
      seals := seals.(end := index - 1, start := index - 1, log := seals.log + [Cleared]);
    }

    method ReNotifySealer(index: int)
      requires Ready() && Derived()
      modifies `seals
      ensures seals == Renotify(Abs(), old(seals), index, resettingProposals)
      ensures old(SealsOk(seals)) ==> SealsOk(seals)
    {
      if SealsOk(seals) {
        RenotifyKeeps(Abs(), seals, index, resettingProposals);
      }
      if index >= progressedIndex + limit || index < committedProposal.value.index {
        return;
      }
      seals := seals.(start := index - 1, end := index - 1, log := seals.log + [Cleared]);
      NotifySealer(index, false);
    }

    method SetLeaderSwitchPeriod(period: Period)
      requires Ready()
      modifies `leaderSwitchPeriod, `seals
      ensures leaderSwitchPeriod == period
      ensures seals == if period == old(leaderSwitchPeriod) then old(seals) else Clear(Abs(), old(seals))
      ensures old(SealsOk(seals)) ==> SealsOk(seals)
    {
      if period == leaderSwitchPeriod {
        return;
      }
      leaderSwitchPeriod := period;
      NotifyResetSealing();
    }

    // ---- A block reached the ledger ----

    /** The first half of `ResetConfig`: adopt block, node list and leader period. */
    method Adopt(number: nat, hash: Hash, list: seq<Node>, period: Period)
      requires nodes != [] && Derived() && list != []
      modifies `committedProposal, `progressedIndex, `expectedCheckPoint, `lowWaterMark, `nodes, `nodesNum, `nodeIndex,
        `nodeUpdated, `totalQuorum, `maxFaultyQuorum, `minRequiredQuorum, `leaderSwitchPeriod, `timeoutState, `seals
      ensures Ready() && Derived() && nodes == SortNodes(list)
      ensures committedProposal.value == BareProposal(number, hash) && leaderSwitchPeriod == period && !timeoutState
      ensures nodeUpdated == (nodes != old(nodes))
      ensures seals == Adopted(Abs(), old(seals), nodes != old(nodes), period != old(leaderSwitchPeriod))
      ensures old(SealsOk(seals)) ==> SealsOk(seals)
      ensures old(Ready()) ==> Abs() == old(Abs()).SetCommitted(BareProposal(number, hash))
        .(nodes := SortNodes(list), self := IndexOf(SortNodes(list), id), period := period, timeout := false)
    {
      hide SealsOk, Clear, SortNodes, IndexOf, Total, MaxFaulty, MinQuorum;
      SetCommittedProposal(BareProposal(number, hash));
      var accepted := SetConsensusNodeList(list);
      hide Derived;
      AdoptPeriod(period);
    }

    method AdoptPeriod(period: Period)
      requires Ready() && Derived()
      modifies `leaderSwitchPeriod, `timeoutState, `seals
      ensures Ready() && Derived() && Abs() == old(Abs()).(period := period, timeout := false)
      ensures forall s :: Clear(Abs(), s) == Clear(old(Abs()), s)
      ensures seals == if period == old(leaderSwitchPeriod) then old(seals) else Clear(Abs(), old(seals))
      ensures old(SealsOk(seals)) ==> SealsOk(seals)
    {
      hide SealsOk, Clear, Derived;
      SetLeaderSwitchPeriod(period);
      ClearAlike(old(Abs()), Abs());
      timeoutState := false;
      ClearAlike(old(Abs()), Abs());
    }

    /** Take over the ledger's latest block and configuration; old news changes nothing. With an
        empty node list this throws, after the committed proposal has been replaced. */
    method ResetConfig(number: nat, hash: Hash, list: seq<Node>, period: Period) returns (ok: bool)
      requires Ready() && Derived()
      modifies `committedProposal, `progressedIndex, `expectedCheckPoint, `lowWaterMark, `nodes, `nodesNum, `nodeIndex,
        `nodeUpdated, `totalQuorum, `maxFaultyQuorum, `minRequiredQuorum, `leaderSwitchPeriod, `timeoutState, `seals,
        `syncingState
      ensures Ready() && Derived()
      ensures old(SealsOk(seals)) ==> SealsOk(seals)
      ensures var stale := number <= old(committedProposal).value.index && old(committedProposal).value.index > 0;
        && ok == (stale || list != [])
        && if stale then Abs() == old(Abs()) && seals == old(seals)
           else if list == [] then Abs() == old(Abs()).SetCommitted(BareProposal(number, hash)) && seals == old(seals)
           else Abs() == old(Abs()).ResetConfig(number, hash)
                  .(nodes := SortNodes(list), self := IndexOf(SortNodes(list), id), period := period)
      ensures ok && !(number <= old(committedProposal).value.index && old(committedProposal).value.index > 0) ==>
        var adopted := Adopted(Abs(), old(seals), nodes != old(nodes), period != old(leaderSwitchPeriod));
        seals == if syncingHighestNumber > number then Clear(Abs(), adopted)
                 else Resealed(Abs(), adopted, number, resettingProposals)
    {
      hide SealsOk, Clear, SortNodes, IndexOf, Total, MaxFaulty, MinQuorum, Derived;
      ok := true;
      if number <= committedProposal.value.index && committedProposal.value.index > 0 {
        return;
      }
      if list == [] {
        SetCommittedProposal(BareProposal(number, hash));
        return false;
      }
      Adopt(number, hash, list, period);
      if syncingHighestNumber > number {
        ghost var g := Abs();
        timeoutState := true;
        syncingState := true;
        NotifyResetSealing();
        ClearAlike(g, Abs());
        return;
      }
      if syncingState {
        syncingState := false;
      }
      Reseal(number);
    }

    /** After a new block: hand out the blocks held back until it, or the next range. */
    method Reseal(number: nat)
      requires Ready() && Derived() && committedProposal.value.index == number
      modifies `seals
      ensures seals == Resealed(Abs(), old(seals), number, resettingProposals)
      ensures old(SealsOk(seals)) ==> SealsOk(seals)
    {
      var start := MaxInt(expectedCheckPoint, committedProposal.value.index + 1);
      if seals.waitReseal == number {
        ReNotifySealer(MaxInt(start, seals.waitReseal + 1));
      }
      NotifySealer(start, false);
    }
  }
}
