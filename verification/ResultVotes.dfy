/** Why ordering agreement needs results that are apart from proposals, where the signature of a
    vote does not bind its kind: the vote for a result then counts as a vote for a proposal. */
module ResultVotes {
  import opened Types
  import opened Weights
  import opened ConfigModel
  import opened CacheModel
  import opened ReplicaModel
  import opened ReplicaInvariant
  import opened Monotone
  import opened Network
  import opened Safety
  import opened OrderedRuns
  import opened Collecting
  import opened LightRuns
  import opened LightNodes

  // ---- A replica that has decided enters view 3 and finishes its execution there ----

  /** Node `a` after entering view 3. */
  function Moved(r: Replica): Replica {
    ReachNewView(r, 3)
  }

  lemma MovedFacts(r: Replica)
    requires r.cfg.view < 3
    ensures Moved(r).cfg == r.cfg.ResetNewView(3) && Moved(r).env == r.env
  {
    hide ResetAfterViewChange;
    var r1 := r.(cfg := r.cfg.ResetNewView(3));
    ResetAfterLater(r1, 3, r1.cfg.committed.index);
  }

  lemma VotesForResult(r: Replica, p: Proposal)
    requires r.cfg.committed.index == 0 && r.cfg.expected == 1 && p.index == 1
    ensures var r' := OnApplied(r, p, BareProposal(1, 2));
      r.cfg.Own(CheckPoint, 1, 2) in r'.env.sent && r'.cfg.id == r.cfg.id && r.env.decided <= r'.env.decided
  {
    hide RecordExecuted, CheckAndCommitStable, TryApply;
    var executed := BareProposal(1, 2);
    var r1 := RecordExecuted(r, executed);
    RecordSends(r);
    StableLater(r1);
    TryApplyLater(CheckAndCommitStable(r1));
    OnAppliedLater(r, p, executed);
  }

  lemma RecordSends(r: Replica)
    ensures r.cfg.Own(CheckPoint, 1, 2) in RecordExecuted(r, BareProposal(1, 2)).env.sent
  {
    hide AddVote, SetCheckPoint;
  }

  /** After its execution has ended with the hash of block 2. */
  function Finished(r: Replica): Replica {
    React(Moved(r), Executed(0, BareProposal(1, 2)))
  }

  lemma FinishedIs(r: Replica)
    requires Busy(r, 1) && r.cfg.view < 3
    ensures var r1 := Moved(r);
      Finished(r) == OnApplied(r1.(env := r1.env.(running := [])), r.env.running[0].proposal, BareProposal(1, 2))
  {
    hide Moved, React, OnApplied, HasDecided;
    MovedFacts(r);
    ExecutedReaction(Moved(r), 0, BareProposal(1, 2));
    assert Without(r.env.running, 0) == [];
  }

  lemma FinishedFacts(nodes: NodeList, a: nat, r: Replica)
    requires a < |nodes| && Busy(r, 1) && r.cfg == Start(nodes, a).cfg
    ensures Keeps(nodes, a, Finished(r)) && HasDecided(Finished(r), 1)
    ensures HasSigned(Finished(r), VoteOf(nodes, Prepare, 3, a, 2))
  {
    hide Moved, OnApplied, Finished;
    MovedFacts(r);
    FinishedIs(r);
    var r1 := Moved(r);
    var r0 := r1.(env := r1.env.(running := []));
    VotesForResult(r0, r.env.running[0].proposal);
    assert r0.cfg.Own(CheckPoint, 1, 2).SameHeader(VoteOf(nodes, Prepare, 3, a, 2));
  }

  lemma MovesOn(s: Setting, nodes: NodeList, honest: set<nat>, a: nat, net: Net) returns (net': Net)
    requires 1 <= Total(nodes) < UINT64 && Reachable(s, nodes, honest, net)
    requires a in net && a < |nodes| && net[a].cfg == Start(nodes, a).cfg
    ensures net' == net[a := Moved(net[a])] && Reachable(s, nodes, honest, net')
  {
    hide Reachable, React, Enabled, JudgeNewView, ReachNewView, Total, NewViewOf, ProposalOf;
    var m := ProposalOf(nodes, 3, 1);
    StartFacts(nodes, a);
    PlainStays(nodes, Start(nodes, a), net[a]);
    NewViewValid(nodes, net[a], 3, m);
    NewViewIs(nodes, 3, m);
    NewViewReaction(net[a], NewViewOf(nodes, 3, m));
    ProposalEnabled(s, nodes, net, net[a], 3, 3, 1, true);
    Go(s, nodes, honest, net, a, NewViewIn(NewViewOf(nodes, 3, m)));
    net' := net[a := Moved(net[a])];
  }

  lemma NewViewIs(nodes: NodeList, v: nat, m: Msg)
    ensures NewViewOf(nodes, v, m).view == v
  {
  }

  lemma ResultEnabled(s: Setting, net: Net, r: Replica)
    requires Busy(r, 1) && r.cfg.view < 3 && s.results(0, 1, 2)
    ensures Enabled(s, net, Moved(r), Executed(0, BareProposal(1, 2)))
  {
    hide Moved, HasDecided;
    MovedFacts(r);
  }

  /** The first node has decided block 1 and signed its result. */
  lemma ResultSigned(s: Setting, nodes: NodeList, honest: set<nat>, a: nat) returns (net: Net, first: Replica)
    requires Setup(nodes, honest, a) && !s.typed && s.results(0, 1, 2)
    ensures FirstDone(nodes, honest, a, first, net) && Reachable(s, nodes, honest, net)
    ensures HasDecided(first, 1) && HasSigned(first, VoteOf(nodes, Prepare, 3, a, 2))
  {
    hide Reachable, SignedOne, React, Enabled, Busy, HasDecided, HasSigned, Weight, Total, MaxFaulty, DistinctIds, Moved, Finished,
      VoteOf;
    var net0 := LightDecides(s, nodes, honest, a);
    var r := net0[a];
    StartFacts(nodes, a);
    var net1 := MovesOn(s, nodes, honest, a, net0);
    FinishedFacts(nodes, a, r);
    ResultEnabled(s, net1, r);
    Go(s, nodes, honest, net1, a, Executed(0, BareProposal(1, 2)));
    FinishedReacts(r);
    first := Finished(r);
    net := net1[a := first];
  }

  lemma FinishedReacts(r: Replica)
    ensures Finished(r) == React(Moved(r), Executed(0, BareProposal(1, 2)))
  {
    hide React, Moved;
  }

  lemma {:induction false} AllReach(nodes: NodeList, b: nat)
    requires b < |nodes| && 1 <= Total(nodes) < UINT64
    ensures Weight(nodes, All(nodes) - {b} + {b}) >= QuorumOf(nodes)
  {
    hide Weight, Total;
    assert All(nodes) - {b} + {b} == All(nodes);
    WeightOfAll(nodes);
    QuorumArithmetic(Total(nodes));
  }

  /** Any two honest nodes can be made to decide differently if a result has the hash of another
      proposal. */
  lemma ResultDisagrees(s: Setting, nodes: NodeList, honest: set<nat>, a: nat, b: nat)
    returns (run: seq<Net>, steps: seq<Step>, p: Proposal, q: Proposal)
    requires Setup(nodes, honest, a) && b in honest && b != a && !s.typed && s.results(0, 1, 2)
    ensures |run| > 0 && run[0].Keys == honest
    ensures DecidedIn(s, nodes, run, steps, |run| - 1, a, p) && DecidedIn(s, nodes, run, steps, |run| - 1, b, q)
    ensures p.index == q.index && p.hash != q.hash
  {
    hide Weight, Total, MaxFaulty, QuorumOf, DistinctIds, Reachable, DecidedIn, FirstDone, HasSigned;
    var net0, first := ResultSigned(s, nodes, honest, a);
    AllReach(nodes, b);
    var net := LastDecides(s, nodes, honest, a, first, b, {b}, net0);
    run, steps := DecidedWhere(s, nodes, honest, net);
    p :| p in net[a].env.decided && p.index == 1 && p.hash == 1;
    q :| q in net[b].env.decided && q.index == 1 && q.hash == 2;
  }

  // ---- The exact condition ----

  lemma OneReplicaAgrees(s: Setting, nodes: NodeList, run: seq<Net>, steps: seq<Step>, j: nat, k: nat, a: nat, p: Proposal, q: Proposal)
    requires DecidedIn(s, nodes, run, steps, j, a, p) && DecidedIn(s, nodes, run, steps, k, a, q) && p.index == q.index
    ensures p.hash == q.hash
  {
    hide NetInv, Tolerable, IsRun, Cast, Evidence, Certified, WorldOf;
    var m: nat := MaxInt(j, k);
    StillLogged(s, nodes, run, steps, j, m, a);
    StillLogged(s, nodes, run, steps, k, m, a);
    Reached(s, nodes, run, steps, m);
    DecisionEvidence(s, nodes, run[0], run[m], a, p);
    DecisionEvidence(s, nodes, run[0], run[m], a, q);
    OneCommitVote(s, nodes, run[0], run[m], a);
  }

  /** In every run with these nodes, of which these are honest, no two honest replicas decide
      differently, whatever results there are. */
  ghost predicate OrderingAlwaysAgrees(s: Setting, nodes: NodeList, honest: set<nat>) {
    forall run: seq<Net>, steps, j: nat, k: nat, a: nat, b: nat, p, q ::
      DecidedIn(s, nodes, run, steps, j, a, p) && DecidedIn(s, nodes, run, steps, k, b, q) && StartedBy(run, honest)
      && p.index == q.index
      ==> p.hash == q.hash
  }

  predicate StartedBy(run: seq<Net>, honest: set<nat>) {
    |run| > 0 && run[0].Keys == honest
  }

  /** Without any condition on results, ordering agreement holds exactly if the signature of a vote
      binds its kind or there is at most one honest node, as long as executing block 1 may result
      in the hash of block 2. */
  lemma {:induction false} OrderingAlwaysAgreesIff(s: Setting, nodes: NodeList, honest: set<nat>)
    requires Prepare in s.signed && Commit in s.signed && DistinctIds(nodes) && 1 <= Total(nodes) < UINT64
    requires forall n :: n in honest ==> n < |nodes|
    requires Weight(nodes, All(nodes) - honest) <= MaxFaulty(Total(nodes)) && s.results(0, 1, 2)
    ensures OrderingAlwaysAgrees(s, nodes, honest) <==> s.typed || forall a, b :: a in honest && b in honest ==> a == b
  {
    hide Weight, Total, MaxFaulty, DistinctIds, DecidedIn;
    if s.typed || forall a, b :: a in honest && b in honest ==> a == b {
      forall run: seq<Net>, steps, j: nat, k: nat, a: nat, b: nat, p, q |
        DecidedIn(s, nodes, run, steps, j, a, p) && DecidedIn(s, nodes, run, steps, k, b, q) && StartedBy(run, honest)
        && p.index == q.index
        ensures p.hash == q.hash
      {
        AgreesThere(s, nodes, honest, run, steps, j, k, a, b, p, q);
      }
    } else {
      var a, b :| a in honest && b in honest && a != b;
      var run, steps, p, q := ResultDisagrees(s, nodes, honest, a, b);
    }
  }

  lemma AgreesThere(s: Setting, nodes: NodeList, honest: set<nat>, run: seq<Net>, steps: seq<Step>, j: nat, k: nat, a: nat, b: nat,
                    p: Proposal, q: Proposal)
    requires DecidedIn(s, nodes, run, steps, j, a, p) && DecidedIn(s, nodes, run, steps, k, b, q) && StartedBy(run, honest)
    requires p.index == q.index && Commit in s.signed
    requires s.typed || forall a, b :: a in honest && b in honest ==> a == b
    ensures p.hash == q.hash
  {
    hide IsRun, HonestHeavy, ResultsApart;
    Reached(s, nodes, run, steps, j);
    Reached(s, nodes, run, steps, k);
    if s.typed {
      OrderingAgreement(s, nodes, run, steps, j, k, a, b, p, q);
    } else {
      OneReplicaAgrees(s, nodes, run, steps, j, k, a, p, q);
    }
  }
}
