/** For which nodes ordering agreement holds although the signature of a vote does not bind its
    kind: exactly if every honest node outweighs the faulty ones. Otherwise some honest node is
    left out of a quorum, and a run lets it and another one decide differently. */
module LightNodes {
  import opened Types
  import opened Weights
  import opened ConfigModel
  import opened Network
  import opened Safety
  import opened Collecting
  import opened LightRuns

  /** Without the light node the rest still decides, on another block. */
  lemma LightNet(s: Setting, nodes: NodeList, honest: set<nat>, a: nat) returns (net: Net, b: nat)
    requires Setup(nodes, honest, a) && nodes[a].weight <= MaxFaulty(Total(nodes)) && !s.typed
    ensures Reachable(s, nodes, honest, net) && a in net && b in net && HasDecided(net[a], 1) && HasDecided(net[b], 2)
    ensures forall n :: n in net ==> NoResults(net[n])
  {
    b := OtherHonest(nodes, honest, a);
    InAll(nodes, honest, a, b);
    assert All(nodes) - {a, b} + {b} == All(nodes) - {a};
    hide Setup, Weight, Total, MaxFaulty, QuorumOf, FirstDone, Reachable, HasDecided, NoResults;
    var net0 := LightDecides(s, nodes, honest, a);
    net := LastDecides(s, nodes, honest, a, net0[a], b, {a, b}, net0);
  }

  lemma DecidedWhere(s: Setting, nodes: NodeList, honest: set<nat>, net: Net) returns (run: seq<Net>, steps: seq<Step>)
    requires Reachable(s, nodes, honest, net)
    ensures |run| > 0 && run[0].Keys == honest && run[|run| - 1] == net
    ensures forall n, p :: n in net && p in net[n].env.decided ==> DecidedIn(s, nodes, run, steps, |run| - 1, n, p)
  {
    hide IsRun;
    run, steps :| EndsIn(s, nodes, run, steps, honest, net);
    RunIsNotEmpty(s, nodes, run, steps);
  }

  /** If a light node and another one are honest, there is a run in which they decide different
      blocks. */
  lemma LightDisagrees(s: Setting, nodes: NodeList, honest: set<nat>, a: nat)
    returns (run: seq<Net>, steps: seq<Step>, b: nat, p: Proposal, q: Proposal)
    requires Setup(nodes, honest, a) && nodes[a].weight <= MaxFaulty(Total(nodes)) && !s.typed
    ensures |run| > 0 && run[0].Keys == honest && ResultsApart(run[|run| - 1])
    ensures DecidedIn(s, nodes, run, steps, |run| - 1, a, p) && DecidedIn(s, nodes, run, steps, |run| - 1, b, q)
    ensures p.index == q.index && p.hash != q.hash
  {
    hide Setup, Weight, Total, MaxFaulty, Reachable, DecidedIn;
    var net;
    net, b := LightNet(s, nodes, honest, a);
    run, steps := DecidedWhere(s, nodes, honest, net);
    p :| p in net[a].env.decided && p.index == 1 && p.hash == 1;
    q :| q in net[b].env.decided && q.index == 1 && q.hash == 2;
  }

  lemma RunIsNotEmpty(s: Setting, nodes: NodeList, run: seq<Net>, steps: seq<Step>)
    requires IsRun(s, nodes, run, steps)
    ensures |run| > 0
  {
  }

  lemma InAll(nodes: NodeList, honest: set<nat>, a: nat, b: nat)
    requires Setup(nodes, honest, a) && b in honest
    ensures a in All(nodes) && b in All(nodes)
  {
    hide Weight, Total, MaxFaulty, DistinctIds;
  }

  /** Without a light node there still is a quorum, and another honest node in it. */
  lemma OtherHonest(nodes: NodeList, honest: set<nat>, a: nat) returns (b: nat)
    requires Setup(nodes, honest, a) && nodes[a].weight <= MaxFaulty(Total(nodes))
    ensures b in honest && b != a
    ensures Weight(nodes, All(nodes) - {a}) >= QuorumOf(nodes)
  {
    WeightOfNone(nodes);
    WeightAdd(nodes, {}, a);
    assert {} + {a} == {a};
    QuorumArithmetic(Total(nodes));
    hide Weight, Total, MaxFaulty, MinQuorum;
    RestIsQuorum(nodes, {a});
    b := HonestMember(nodes, All(nodes) - {a}, All(nodes) - honest);
  }

  // ---- The exact condition ----

  /** A run of these honest nodes in which results are apart from proposals at both moments. */
  ghost predicate WithHonest(run: seq<Net>, j: nat, k: nat, honest: set<nat>) {
    j < |run| && k < |run| && run[0].Keys == honest && ResultsApart(run[j]) && ResultsApart(run[k])
  }

  /** In every run with these nodes, of which these are honest, and in which results are apart from
      proposals, no two honest replicas decide differently. */
  ghost predicate OrderingAgreesOn(s: Setting, nodes: NodeList, honest: set<nat>) {
    forall run: seq<Net>, steps, j: nat, k: nat, a: nat, b: nat, p, q ::
      DecidedIn(s, nodes, run, steps, j, a, p) && DecidedIn(s, nodes, run, steps, k, b, q) && WithHonest(run, j, k, honest)
      && p.index == q.index
      ==> p.hash == q.hash
  }

  lemma {:induction false} BindsThere(s: Setting, nodes: NodeList, run: seq<Net>, steps: seq<Step>, k: nat)
    requires IsRun(s, nodes, run, steps) && k < |run| && ResultsApart(run[k])
    requires Prepare in s.signed && Commit in s.signed
    requires s.typed || forall n :: n in run[0].Keys ==> n < |nodes| && nodes[n].weight > MaxFaulty(Total(nodes))
    ensures OrderBinds(s, nodes, run[k])
  {
    hide IsRun, ResultsApart, Total, MaxFaulty;
    Reached(s, nodes, run, steps, k);
  }

  lemma {:induction false} BoundAgrees(s: Setting, nodes: NodeList, run: seq<Net>, steps: seq<Step>, j: nat, k: nat, a: nat, b: nat, p: Proposal, q: Proposal)
    requires DecidedIn(s, nodes, run, steps, j, a, p) && DecidedIn(s, nodes, run, steps, k, b, q)
    requires ResultsApart(run[j]) && ResultsApart(run[k]) && p.index == q.index
    requires Prepare in s.signed && Commit in s.signed
    requires s.typed || forall n :: n in run[0].Keys ==> n < |nodes| && nodes[n].weight > MaxFaulty(Total(nodes))
    ensures p.hash == q.hash
  {
    hide IsRun, ResultsApart, Total, MaxFaulty;
    BindsThere(s, nodes, run, steps, j);
    BindsThere(s, nodes, run, steps, k);
    hide OrderBinds;
    OrderingAgreement(s, nodes, run, steps, j, k, a, b, p, q);
  }

  /** For each list of nodes with distinct ids and each tolerable choice of honest ones, ordering
      agreement holds exactly if the signature of a vote binds its kind or every honest node
      weighs more than the faulty ones may. */
  lemma {:induction false} OrderingAgreesOnIff(s: Setting, nodes: NodeList, honest: set<nat>)
    requires Prepare in s.signed && Commit in s.signed && DistinctIds(nodes) && 1 <= Total(nodes) < UINT64
    requires forall n :: n in honest ==> n < |nodes|
    requires Weight(nodes, All(nodes) - honest) <= MaxFaulty(Total(nodes))
    ensures OrderingAgreesOn(s, nodes, honest)
      <==> s.typed || forall n :: n in honest ==> nodes[n].weight > MaxFaulty(Total(nodes))
  {
    hide Weight, Total, MaxFaulty, ResultsApart, DistinctIds, DecidedIn;
    if s.typed || forall n :: n in honest ==> nodes[n].weight > MaxFaulty(Total(nodes)) {
      forall run: seq<Net>, steps, j: nat, k: nat, a: nat, b: nat, p, q |
        DecidedIn(s, nodes, run, steps, j, a, p) && DecidedIn(s, nodes, run, steps, k, b, q) && WithHonest(run, j, k, honest)
        && p.index == q.index
        ensures p.hash == q.hash
      {
        BoundAgrees(s, nodes, run, steps, j, k, a, b, p, q);
      }
    } else {
      var a :| a in honest && nodes[a].weight <= MaxFaulty(Total(nodes));
      var run, steps, b, p, q := LightDisagrees(s, nodes, honest, a);
      assert WithHonest(run, |run| - 1, |run| - 1, honest);
    }
  }
}
