/** The checks a synchronized block has to pass: sealer list, weights and signature list. */
module BlockValidator {
  import opened Types
  import opened Weights
  import opened ConfigModel
  import opened Config
  import opened CacheModel

  datatype Header = Header(
    number: int,
    hash: Hash,
    sealer: nat,
    sealerList: seq<NodeId>,
    weights: seq<nat>,
    proofs: seq<Proof>)

  /** The header lists exactly the consensus nodes with their weights, in order. */
  predicate ListsNodes(nodes: seq<Node>, h: Header) {
    && h.sealer < |nodes|
    && |h.sealerList| == |nodes| && |h.weights| == |nodes|
    && forall i :: 0 <= i < |nodes| ==> nodes[i] == Node(h.sealerList[i], h.weights[i])
  }

  predicate BlockOk(nodes: seq<Node>, committed: int, h: Header, transactions: nat) {
    || h.number == 0
    || (h.number > committed
        && (transactions == 0 || (ListsNodes(nodes, h) && Certified(nodes, h.hash, h.proofs))))
  }

  /** What an accepted signature list means: every listed node is a consensus node that signed
      this very hash, and these nodes are a quorum if no node with weight is listed twice. The
      weight that was checked is that of the signers exactly in that case. */
  lemma CertifiedBlockHasQuorum(nodes: seq<Node>, h: Header)
    requires Certified(nodes, h.hash, h.proofs)
    ensures forall n :: n in Signers(h.proofs) ==> n < |nodes| && Proof(n, Sig(nodes[n].id, h.hash)) in h.proofs
    ensures RepeatsWeighNothing(nodes, Listed(h.proofs)) ==> Weight(nodes, Signers(h.proofs)) >= QuorumOf(nodes)
    ensures ListWeight(nodes, h.proofs) == Weight(nodes, Signers(h.proofs)) <==> RepeatsWeighNothing(nodes, Listed(h.proofs))
  {
    hide Weight, QuorumOf, ListWeight, RepeatsWeighNothing;
    ListWeightExact(nodes, h.proofs);
    forall n | n in Signers(h.proofs) ensures n < |nodes| && Proof(n, Sig(nodes[n].id, h.hash)) in h.proofs {
      var p :| p in h.proofs && p.node == n;
      var k :| 0 <= k < |h.proofs| && h.proofs[k] == p;
    }
  }

  /** A block passes exactly if it is the genesis block, or above the committed block and either without
      transactions or sealed by a known node, with the nodes and weights of the consensus list in
      order, and signed: each listed signature is that of a consensus node over the block hash and the
      listed weights add up to a quorum. */
  lemma {:induction false} BlockAccepted(nodes: seq<Node>, committed: int, h: Header, transactions: nat)
    ensures BlockOk(nodes, committed, h, transactions) <==>
      || h.number == 0
      || (h.number > committed && transactions == 0)
      || (&& h.number > committed && h.sealer < |nodes|
          && h.sealerList == seq(|nodes|, i requires 0 <= i < |nodes| => nodes[i].id)
          && h.weights == seq(|nodes|, i requires 0 <= i < |nodes| => nodes[i].weight)
          && (forall k :: 0 <= k < |h.proofs| ==>
                h.proofs[k].node < |nodes| && h.proofs[k].sig == Sig(nodes[h.proofs[k].node].id, h.hash))
          && Sum(nodes, Listed(h.proofs)) >= QuorumOf(nodes))
  {
    hide Sum, QuorumOf;
    ListsExactly(nodes, h);
    hide ListsNodes;
  }

  lemma ListsExactly(nodes: seq<Node>, h: Header)
    ensures ListsNodes(nodes, h) <==>
      && h.sealer < |nodes|
      && h.sealerList == seq(|nodes|, i requires 0 <= i < |nodes| => nodes[i].id)
      && h.weights == seq(|nodes|, i requires 0 <= i < |nodes| => nodes[i].weight)
  {
    if |h.sealerList| == |nodes| && |h.weights| == |nodes| {
      assert forall i :: 0 <= i < |nodes| ==>
        (nodes[i] == Node(h.sealerList[i], h.weights[i]) <==> h.sealerList[i] == nodes[i].id && h.weights[i] == nodes[i].weight);
    }
  }

  /** A block whose list names one of four equal nodes three times is accepted. */
  lemma RepeatedSignerBlock(h: Header, committed: int, transactions: nat)
    requires h.number > committed && ListsNodes(FOUR, h)
    requires var p := Proof(0, Sig(0, h.hash)); h.proofs == [p, p, p]
    ensures BlockOk(FOUR, committed, h, transactions) && Weight(FOUR, Signers(h.proofs)) < QuorumOf(FOUR)
  {
    hide Weight, QuorumOf, Certified, ListsNodes;
    RepeatedSignerPasses(h.hash);
  }

  class BlockValidator {
    const config: PBFTConfig

    constructor (config: PBFTConfig)
      ensures this.config == config
    {
      this.config := config;
    }

    method CheckBlock(h: Header, transactions: nat) returns (ok: bool)
      requires config.Sound()
      ensures ok == BlockOk(config.nodes, config.committedProposal.value.index, h, transactions)
    {
      if h.number == 0 {
        return true;
      }
      if h.number <= config.committedProposal.value.index {
        return false;
      }
      if transactions == 0 {
        return true;
      }
      ok := CheckSealerListAndWeightList(h);
      if !ok {
        return false;
      }
      ok := CheckSignatureList(h);
    }

    method CheckSealerListAndWeightList(h: Header) returns (ok: bool)
      ensures ok == ListsNodes(config.nodes, h)
    {
      var sealer := config.NodeByIndex(h.sealer);
      if sealer.None? {
        return false;
      }
      if |h.sealerList| != |config.nodes| || |h.weights| != |config.nodes| {
        return false;
      }
      var i := 0;
      for k := 0 to |h.sealerList|
        invariant i == k
        invariant forall j :: 0 <= j < k ==> config.nodes[j] == Node(h.sealerList[j], h.weights[j])
      {
        var node := config.nodes[i];
        if node.id != h.sealerList[k] {
          return false;
        }
        if node.weight != h.weights[i] {
          return false;
        }
        i := i + 1;
      }
      return true;
    }

    /** Each signature verifies over the block hash, and the weights add up to a quorum. */
    method CheckSignatureList(h: Header) returns (ok: bool)
      requires config.Sound()
      ensures ok == Certified(config.nodes, h.hash, h.proofs)
    {
      hide *;
      config.QuorumIs();
      ProofsStep(config.nodes, h.hash, h.proofs, 0);
      var weight := 0;
      for k := 0 to |h.proofs|
        invariant ProofsValid(config.nodes, h.hash, h.proofs[..k])
        invariant weight == ListWeight(config.nodes, h.proofs[..k])
      {
        ProofsStep(config.nodes, h.hash, h.proofs, k);
        ProofsStep(config.nodes, h.hash, h.proofs, k + 1);
        var node := config.NodeByIndex(h.proofs[k].node);
        if node.None? || h.proofs[k].sig != Sig(node.value.id, h.hash) {
          return false;
        }
        weight := weight + node.value.weight;
      }
      ProofsStep(config.nodes, h.hash, h.proofs, |h.proofs|);
      if weight < config.minRequiredQuorum {
        return false;
      }
      return true;
    }
  }
}
