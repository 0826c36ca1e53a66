/** The values replicas exchange: nodes, proposals and consensus messages.
    Hashes and keys are opaque numbers; a signature names the key that produced it and the
    hash it covers, so verifying one is a comparison. */
module Types {
  type Hash = nat
  type NodeId = nat

  datatype Option<+T> = None | Some(value: T)

  datatype Node = Node(id: NodeId, weight: nat)

  datatype Sig = Sig(signer: NodeId, hash: Hash)

  /** One entry of a signature list: the index of the signing node and its signature. */
  datatype Proof = Proof(node: nat, sig: Sig)

  datatype Proposal = Proposal(
    index: int,
    hash: Hash,
    system: bool,
    data: string,
    sig: Option<Sig>,
    proofs: seq<Proof>)

  datatype Kind = PrePrepare | Prepare | Commit | CheckPoint | RecoverResponse

  /** A consensus message. `signer` is the key that verifies the signature over the header
      fields (view, index, hash, from). Neither the kind, which is the type of the packet around
      the message, nor the carried proposal is covered by it. */
  datatype Msg = Msg(
    kind: Kind,
    view: nat,
    index: int,
    hash: Hash,
    from: nat,
    signer: NodeId,
    proposal: Option<Proposal>)
  {
    predicate SameHeader(other: Msg) {
      && view == other.view
      && index == other.index
      && hash == other.hash
      && from == other.from
      && signer == other.signer
    }

    /** The carried proposal, if any, is the one the header names. */
    predicate WellFormed() {
      proposal.Some? ==> proposal.value.index == index && proposal.value.hash == hash
    }
  }

  datatype ViewChange = ViewChange(
    view: nat,
    index: int,
    hash: Hash,
    from: nat,
    signer: NodeId,
    committed: Proposal,
    prepared: seq<Msg>)

  datatype NewView = NewView(
    view: nat,
    index: int,
    hash: Hash,
    from: nat,
    signer: NodeId,
    viewChanges: seq<ViewChange>,
    prePrepares: seq<Msg>)

  /** One call of the state machine: execute `proposal` on top of `last`. */
  datatype ApplyCall = ApplyCall(last: Proposal, proposal: Proposal)

  /** Received votes of one kind: by hash, then by the index of the sender. */
  type VoteBook = map<Hash, map<nat, Msg>>

  function BareProposal(index: int, hash: Hash): Proposal {
    Proposal(index, hash, false, "", None, [])
  }

  lemma Pick<T>(s: set<T>) returns (k: T)
    requires |s| > 0
    ensures k in s
  {
    k :| k in s;
  }

  lemma {:induction false} MinExists(s: set<int>)
    requires |s| > 0
    ensures exists m :: m in s && forall x :: x in s ==> m <= x
    decreases |s|
  {
    var k := Pick(s);
    var rest := s - {k};
    assert s == rest + {k};
    if |rest| == 0 {
      forall x | x in s ensures k <= x {
        assert x in rest || x == k;
      }
    } else {
      MinExists(rest);
      var m :| m in rest && forall x :: x in rest ==> m <= x;
      var least := if k < m then k else m;
      forall x | x in s ensures least <= x {
        assert x in rest || x == k;
      }
      assert least in s;
    }
  }

  /** The least element: where the iteration over a `std::map` starts. */
  function Min(s: set<int>): (m: int)
    requires |s| > 0
    ensures m in s && forall x :: x in s ==> m <= x
  {
    MinExists(s);
    var m :| m in s && forall x :: x in s ==> m <= x;
    m
  }

  /** The keys of a `std::map` in iteration order. */
  function Ascending(s: set<int>): (ks: seq<int>)
    ensures forall k :: k in ks <==> k in s
    ensures forall i, j :: 0 <= i < j < |ks| ==> ks[i] < ks[j]
  {
    if |s| == 0 then [] else var m := Min(s); [m] + Ascending(s - {m})
  }
}
