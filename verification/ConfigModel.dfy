/** The part of a replica's configuration that consensus decisions read, as a value:
    node list, watermarks, views and the committed proposal. */
module ConfigModel {
  import opened Types
  import opened Weights

  type NodeList = s: seq<Node> | |s| > 0 witness [Node(0, 1)]
  type Period = n: nat | n > 0 witness 1

  /** The index of a node that is not in the consensus list. */
  const NON_CONSENSUS_NODE: nat := UINT64 - 1

  function MaxInt(a: int, b: int): int {
    if a < b then b else a
  }

  function MinInt(a: int, b: int): int {
    if a < b then a else b
  }

  datatype Cfg = Cfg(
    nodes: NodeList,
    self: nat,
    id: NodeId,
    period: Period,
    limit: int,
    committed: Proposal,
    progressed: int,
    expected: int,
    low: int,
    syncing: int,
    view: nat,
    toView: nat,
    timeout: bool,
    recovered: bool)
  {
    function Quorum(): nat {
      QuorumOf(nodes)
    }

    function Faulty(): nat {
      MaxFaulty(Total(nodes))
    }

    function High(): int {
      progressed + limit
    }

    /** The leader of an index in a view: leadership moves on every `period` indices and
        with every view. The signed index is divided as a 64-bit unsigned word. */
    function LeaderIn(index: int, v: nat): nat {
      ((index % UINT64) / period + v) % |nodes|
    }

    function Leader(index: int): nat {
      LeaderIn(index, view)
    }

    /** The first index to seal. */
    function SealStart(): int {
      MaxInt(expected, committed.index + 1)
    }

    predicate LeaderAfterViewChange() {
      self == LeaderIn(progressed, toView)
    }

    predicate SyncingHigher() {
      syncing >= committed.index + limit
    }

    predicate SignedBy(from: nat, signer: NodeId) {
      from < |nodes| && nodes[from].id == signer
    }

    predicate SignatureOk(m: Msg) {
      SignedBy(m.from, m.signer)
    }

    predicate ProposalSignatureOk(from: nat, p: Option<Proposal>) {
      && p.Some?
      && p.value.sig.Some?
      && from < |nodes|
      && p.value.sig.value == Sig(nodes[from].id, p.value.hash)
    }

    /** Window and view checks common to pre-prepare, prepare and commit messages. */
    predicate MsgStateOk(m: Msg) {
      && m.proposal.Some?
      && !(m.index < low || m.index < expected || m.index >= High() || m.index <= syncing)
      && m.view >= view
    }

    function SetCommitted(p: Proposal): Cfg {
      var next := p.index + 1;
      this.(committed := p,
            progressed := if progressed < next then next else progressed,
            expected := if next > expected then next else expected,
            low := if next > low then next else low)
    }

    function SetExpected(e: int): Cfg {
      this.(expected := MaxInt(committed.index + 1, e))
    }

    function ResetTimeout(): Cfg {
      this.(timeout := true, toView := toView + 1)
    }

    function ResetNewView(v: nat): Cfg {
      if view > v then this
      else this.(recovered := true, view := v, toView := v, timeout := false)
    }

    function ResetToView(): Cfg {
      this.(toView := view)
    }

    /** A block reached the ledger: advance, unless it is not news. */
    function ResetConfig(number: int, hash: Hash): Cfg {
      if number <= committed.index && committed.index > 0 then this
      else SetCommitted(BareProposal(number, hash)).(timeout := syncing > number)
    }

    /** The message of this node for a proposal, signed in header and proposal. */
    function Own(kind: Kind, index: int, hash: Hash): Msg {
      Msg(kind, view, index, hash, self, id,
          Some(Proposal(index, hash, false, "", Some(Sig(id, hash)), [])))
    }
  }
}
