/** The consensus state of one index as a value: votes, lock and checkpoint, with the
    transitions of `PBFTCache`. Vote weights are not stored here: a quorum is a statement
    about the set of distinct senders. */
module CacheModel {
  import opened Types
  import opened Weights
  import opened ConfigModel

  datatype Cache = Cache(
    index: int,
    submitted: bool,
    stable: bool,
    precommitted: bool,
    prepares: VoteBook,
    commits: VoteBook,
    checkpoints: VoteBook,
    prePrepare: Option<Msg>,
    precommit: Option<Msg>,
    bare: Option<Msg>,
    checkpoint: Option<Proposal>)

  function EmptyCache(index: int): Cache {
    Cache(index, false, false, false, map[], map[], map[], None, None, None, None)
  }

  function Senders(book: VoteBook, h: Hash): set<nat> {
    if h in book then book[h].Keys else {}
  }

  /** Enough weight of distinct senders voted for `h`. */
  predicate HasQuorum(nodes: seq<Node>, book: VoteBook, h: Hash) {
    h in book && Weight(nodes, book[h].Keys) >= QuorumOf(nodes)
  }

  /** The first vote of each known sender counts; later ones are ignored. */
  function AddVote(nodes: seq<Node>, index: int, book: VoteBook, m: Msg): VoteBook {
    if m.index != index || m.from in Senders(book, m.hash) || m.from >= |nodes| then book
    else book[m.hash := (if m.hash in book then book[m.hash] else map[])[m.from := m]]
  }

  /** The votes that survive a change to view `v`. */
  function Surviving(votes: map<nat, Msg>, v: nat): map<nat, Msg> {
    map n | n in votes && votes[n].view >= v :: votes[n]
  }

  function SurvivingBook(book: VoteBook, v: nat): VoteBook {
    map h | h in book && Surviving(book[h], v) != map[] :: Surviving(book[h], v)
  }

  // ---- Certificates ----

  function SigOf(m: Msg): Sig {
    if m.proposal.Some? && m.proposal.value.sig.Some? then m.proposal.value.sig.value
    else Sig(0, 0)
  }

  /** The sender indices of a vote map in iteration order. */
  function Voters<V>(votes: map<nat, V>): (ks: seq<nat>)
    ensures ks == Ascending(votes.Keys)
    ensures forall k :: k in ks <==> k in votes
  {
    var ks := Ascending(votes.Keys);
    assert forall i :: 0 <= i < |ks| ==> ks[i] in ks;
    ks
  }

  /** The signatures of all votes for one hash, in the order of the sender indices. */
  function SignatureList(votes: map<nat, Msg>): seq<Proof> {
    var ks := Voters(votes);
    seq(|ks|, i requires 0 <= i < |ks| => Proof(ks[i], SigOf(votes[ks[i]])))
  }

  /** The node indices of a signature list. */
  function Listed(proofs: seq<Proof>): (ks: seq<nat>)
    ensures |ks| == |proofs| && forall k :: 0 <= k < |ks| ==> ks[k] == proofs[k].node
  {
    seq(|proofs|, k requires 0 <= k < |proofs| => proofs[k].node)
  }

  /** What a consumer of a signature list adds up. */
  function ListWeight(nodes: seq<Node>, proofs: seq<Proof>): nat {
    Sum(nodes, Listed(proofs))
  }

  predicate ProofsValid(nodes: seq<Node>, hash: Hash, proofs: seq<Proof>) {
    forall k :: 0 <= k < |proofs| ==>
      proofs[k].node < |nodes| && proofs[k].sig == Sig(nodes[proofs[k].node].id, hash)
  }

  /** What every consumer of a signature list checks: each entry verifies against the hash
      and the listed weights add up to a quorum. */
  predicate Certified(nodes: seq<Node>, hash: Hash, proofs: seq<Proof>) {
    ProofsValid(nodes, hash, proofs) && ListWeight(nodes, proofs) >= QuorumOf(nodes)
  }

  /** One entry more of a list: it has to verify, and its weight counts. */
  lemma ProofsStep(nodes: seq<Node>, hash: Hash, proofs: seq<Proof>, k: nat)
    requires k <= |proofs|
    ensures k == 0 ==> ProofsValid(nodes, hash, proofs[..k]) && ListWeight(nodes, proofs[..k]) == 0
    ensures k < |proofs| ==>
      var p := proofs[k];
      && (ProofsValid(nodes, hash, proofs[..k + 1]) <==>
            ProofsValid(nodes, hash, proofs[..k]) && p.node < |nodes| && p.sig == Sig(nodes[p.node].id, hash))
      && ListWeight(nodes, proofs[..k + 1])
         == ListWeight(nodes, proofs[..k]) + if p.node < |nodes| then nodes[p.node].weight else 0
    ensures ProofsValid(nodes, hash, proofs) ==> ProofsValid(nodes, hash, proofs[..k])
    ensures k == |proofs| ==> proofs[..k] == proofs
    ensures Certified(nodes, hash, proofs) <==>
      ProofsValid(nodes, hash, proofs) && ListWeight(nodes, proofs) >= QuorumOf(nodes)
  {
    if k < |proofs| {
      assert proofs[..k + 1][..k] == proofs[..k];
      assert Listed(proofs[..k + 1])[..k] == Listed(proofs[..k]);
    }
  }

  predicate DistinctSigners(proofs: seq<Proof>) {
    forall i, j :: 0 <= i < j < |proofs| ==> proofs[i].node != proofs[j].node
  }

  function Signers(proofs: seq<Proof>): set<nat> {
    set p | p in proofs :: p.node
  }

  /** The listed weight is at least that of the set of signers, and equal to it exactly if no
      signer with weight is listed twice. */
  lemma ListWeightExact(nodes: seq<Node>, proofs: seq<Proof>)
    ensures ListWeight(nodes, proofs) >= Weight(nodes, Signers(proofs))
    ensures ListWeight(nodes, proofs) == Weight(nodes, Signers(proofs)) <==> RepeatsWeighNothing(nodes, Listed(proofs))
  {
    SumIsWeight(nodes, Listed(proofs));
    hide Sum, Weight, RepeatsWeighNothing;
    forall n | n in Signers(proofs) ensures n in Listed(proofs) {
      var p :| p in proofs && p.node == n;
      var k :| 0 <= k < |proofs| && proofs[k] == p;
      assert Listed(proofs)[k] == n;
    }
    assert Members(Listed(proofs)) == Signers(proofs);
  }

  /** With distinct signers the listed weight is the weight of the set of signers. */
  lemma DistinctListWeight(nodes: seq<Node>, proofs: seq<Proof>)
    requires DistinctSigners(proofs)
    ensures ListWeight(nodes, proofs) == Weight(nodes, Signers(proofs))
  {
    hide ListWeight, Weight;
    ListWeightExact(nodes, proofs);
  }

  /** Four nodes of one unit of weight each. */
  const FOUR: seq<Node> := [Node(0, 1), Node(1, 1), Node(2, 1), Node(3, 1)]

  lemma FourFacts(q: set<nat>)
    ensures QuorumOf(FOUR) == 3
    ensures q == {0} ==> Weight(FOUR, q) == 1
  {
    assert FOUR[..3][..2] == FOUR[..2] && FOUR[..2][..1] == FOUR[..1] && FOUR[..1][..0] == [];
    assert Total(FOUR[..1]) == 1 && Total(FOUR[..2]) == 2 && Total(FOUR[..3]) == 3 && Total(FOUR) == 4;
    if q == {0} {
      assert WeightUpTo(FOUR, q, 1) == 1 && WeightUpTo(FOUR, q, 2) == 1 && WeightUpTo(FOUR, q, 3) == 1;
    }
  }

  /** The check does not look for repeated signers: one signature, listed three times, passes for
      a quorum of four equal nodes. */
  lemma RepeatedSignerPasses(h: Hash)
    ensures var p := Proof(0, Sig(0, h)); var proofs := [p, p, p];
      && Certified(FOUR, h, proofs)
      && Weight(FOUR, Signers(proofs)) == 1 < QuorumOf(FOUR) == 3
  {
    var p := Proof(0, Sig(0, h));
    var proofs := [p, p, p];
    FourFacts({0});
    assert Signers(proofs) == {0};
    var ks := Listed(proofs);
    assert ks == [0, 0, 0] && ks[..2] == [0, 0] && ks[..2][..1] == [0] && [0][..0] == [];
    assert Sum(FOUR, [0]) == 1 && Sum(FOUR, ks[..2]) == 2 && Sum(FOUR, ks) == 3;
    hide Weight, QuorumOf;
  }

  /** Votes that each carry a valid signature of their sender over `h`. */
  predicate SignedVotes(nodes: seq<Node>, h: Hash, votes: map<nat, Msg>) {
    forall n :: n in votes ==> n < |nodes| && SigOf(votes[n]) == Sig(nodes[n].id, h)
  }

  /** A quorum of signed votes yields a list that passes every consumer's check, with each
      signer once. */
  lemma SignatureListCertifies(nodes: seq<Node>, h: Hash, votes: map<nat, Msg>)
    requires SignedVotes(nodes, h, votes) && Weight(nodes, votes.Keys) >= QuorumOf(nodes)
    ensures Certified(nodes, h, SignatureList(votes))
    ensures DistinctSigners(SignatureList(votes))
    ensures Signers(SignatureList(votes)) == votes.Keys
  {
    hide Ascending, ListWeight, Weight, QuorumOf;
    var ks, proofs := Voters(votes), SignatureList(votes);
    assert forall k :: 0 <= k < |ks| ==> ks[k] in votes && proofs[k].node == ks[k];
    forall n | n in votes.Keys ensures n in Signers(proofs) {
      assert n in ks;
      var i :| 0 <= i < |ks| && ks[i] == n;
      assert proofs[i] in proofs;
    }
    assert Signers(proofs) == votes.Keys;
    DistinctListWeight(nodes, proofs);
  }

  // ---- Transitions ----

  predicate ExistPrePrepare(c: Cache, m: Msg) {
    c.prePrepare.Some? && m.hash == c.prePrepare.value.hash && c.prePrepare.value.view >= m.view
  }

  predicate ConflictWithProcessed(c: Cache, g: Cfg, m: Msg) {
    m.view < g.view
    || (c.prePrepare.Some?
        && (m.view < c.prePrepare.value.view
            || (m.view == c.prePrepare.value.view && m.hash != c.prePrepare.value.hash)))
  }

  predicate ConflictWithPrecommit(c: Cache, g: Cfg, m: Msg) {
    && c.precommit.Some?
    && c.precommit.value.index >= g.progressed
    && m.index == c.precommit.value.index
    && m.hash != c.precommit.value.hash
  }

  /** The hash of the carried proposal. */
  function CarriedHash(m: Msg): Hash {
    if m.proposal.Some? then m.proposal.value.hash else m.hash
  }

  function AddPrePrepare(c: Cache, m: Msg): Cache {
    if c.stable then c
    else if c.checkpoint.Some? && c.prePrepare.Some? && CarriedHash(m) != CarriedHash(c.prePrepare.value) then c
    else c.(prePrepare := Some(m))
  }

  /** The proposal accepted in the current view has a quorum in `book`. */
  predicate Enough(c: Cache, g: Cfg, book: VoteBook) {
    && c.prePrepare.Some?
    && c.prePrepare.value.view == g.view
    && HasQuorum(g.nodes, book, c.prePrepare.value.hash)
  }

  /** The accepted proposal with its prepare certificate attached. */
  function Locked(c: Cache, g: Cfg, m: Msg): Msg {
    if m.hash in c.prepares && m.proposal.Some? then
      m.(from := g.self,
         proposal := Some(m.proposal.value.(proofs := SignatureList(c.prepares[m.hash]))))
    else m
  }

  /** Lock the accepted proposal. The lock and the accepted message are one object, so both
      carry the certificate; a copy without the payload is kept for view changes. */
  function IntoPrecommit(c: Cache, g: Cfg): Cache
    requires c.prePrepare.Some?
  {
    var m := c.prePrepare.value;
    var locked := Locked(c, g, m);
    var bare := if locked.proposal.Some?
      then m.(proposal := Some(BareProposal(locked.proposal.value.index, locked.proposal.value.hash)
                                 .(proofs := locked.proposal.value.proofs)))
      else m;
    c.(prePrepare := Some(locked), precommit := Some(locked), bare := Some(bare))
  }

  function CheckCommit(c: Cache, g: Cfg): (Cache, bool) {
    if c.submitted || c.precommit.None? || !Enough(c, g, c.commits) then (c, false)
    else (c.(submitted := true), true)
  }

  predicate WillPrecommit(c: Cache, g: Cfg) {
    && !c.precommitted
    && !(c.precommit.Some? && c.prePrepare.Some? && c.precommit.value.view >= c.prePrepare.value.view)
    && Enough(c, g, c.prepares)
  }

  /** The votes that checking for a precommit broadcasts. */
  function VotesCast(c: Cache, g: Cfg): seq<Msg> {
    if WillPrecommit(c, g) then [g.Own(Commit, c.prePrepare.value.index, c.prePrepare.value.hash)] else []
  }

  /** Lock the accepted proposal and count the own vote to commit it. */
  function LockAndVote(c: Cache, g: Cfg): Cache
    requires c.prePrepare.Some?
  {
    var m := c.prePrepare.value;
    var c1 := IntoPrecommit(c, g);
    c1.(commits := AddVote(g.nodes, c.index, c1.commits, g.Own(Commit, m.index, m.hash)), precommitted := true)
  }

  /** Lock and vote if the prepare quorum is there; the result says whether the votes already
      suffice to commit. */
  function CheckPrecommit(c: Cache, g: Cfg): (Cache, bool) {
    if !WillPrecommit(c, g) then (c, false) else CheckCommit(LockAndVote(c, g), g)
  }

  function ResetView(c: Cache, v: nat): Cache {
    c.(submitted := false, precommitted := false,
       prepares := SurvivingBook(c.prepares, v), commits := SurvivingBook(c.commits, v))
  }

  function SetCheckPoint(c: Cache, g: Cfg, p: Proposal): Cache {
    if p.index <= g.committed.index || p.index != c.index then c
    else c.(checkpoint := Some(p))
  }

  predicate WillStabilize(c: Cache, g: Cfg) {
    !c.stable && c.checkpoint.Some? && HasQuorum(g.nodes, c.checkpoints, c.checkpoint.value.hash)
  }

  /** The checkpoint collected a quorum: attach the signatures; report it unless expired. */
  function CheckStable(c: Cache, g: Cfg): (Cache, bool) {
    if !WillStabilize(c, g) then (c, false)
    else
      var p := c.checkpoint.value;
      (c.(stable := true,
          checkpoint := Some(p.(proofs := SignatureList(c.checkpoints[p.hash])))),
       g.committed.index < p.index)
  }
}
