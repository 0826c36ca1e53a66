/** Runs in which all nodes but one sign block 1 for that one to decide it, and then block 2 for
    another one to decide that. */
module LightRuns {
  import opened Types
  import opened Weights
  import opened ConfigModel
  import opened CacheModel
  import opened ReplicaModel
  import opened Network
  import opened Collecting

  // ---- What the nodes sign ----

  function Start(nodes: NodeList, n: nat): Replica
    requires n < |nodes|
  {
    At(nodes, n, 0, map[], [])
  }

  /** Node `n` entered view 1 and signed block 1, proposed for view 2. */
  function SignedOne(nodes: NodeList, n: nat): Replica
    requires n < |nodes|
  {
    At(nodes, n, 1, map[1 := VotedCache(nodes, n, 1, EmptyCache(1), ProposalOf(nodes, 2, 1))], [VoteOf(nodes, Prepare, 1, n, 1)])
  }

  /** What is left of its cache in view 3. */
  function LeftCache(nodes: NodeList): Cache {
    EmptyCache(1).(prePrepare := Some(ProposalOf(nodes, 2, 1)))
  }

  /** It entered view 3 and signed block 2, proposed for view 4. */
  function SignedTwo(nodes: NodeList, n: nat): Replica
    requires n < |nodes|
  {
    At(nodes, n, 3, map[1 := VotedCache(nodes, n, 3, LeftCache(nodes), ProposalOf(nodes, 4, 2))],
       [VoteOf(nodes, Prepare, 1, n, 1)] + [VoteOf(nodes, Prepare, 3, n, 2)])
  }

  lemma {:induction false} SignsOne(nodes: NodeList, n: nat)
    requires n < |nodes| && 1 <= Total(nodes) < UINT64
    ensures var m := ProposalOf(nodes, 2, 1);
      React(React(Start(nodes, n), NewViewIn(NewViewOf(nodes, 1, m))), PrePrepareIn(m, false, true, true)) == SignedOne(nodes, n)
  {
    hide React, At, NewViewOf, VoteOf, VotedCache, Total;
    var m := ProposalOf(nodes, 2, 1);
    EntersView(nodes, n, 0, 1, map[], [], m);
    assert ResetCaches(map[], 1) == map[];
    VotesOnly(nodes, n, 1, EmptyCache(1), map[], [], m);
    var none: seq<Msg> := [];
    assert none + [VoteOf(nodes, Prepare, 1, n, 1)] == [VoteOf(nodes, Prepare, 1, n, 1)];
  }

  lemma KeepsProposal(nodes: NodeList, n: nat)
    requires n < |nodes|
    ensures ResetCaches(SignedOne(nodes, n).caches, 3) == map[1 := LeftCache(nodes)]
  {
    var c := SignedOne(nodes, n).caches[1];
    assert Surviving(c.prepares[1], 3) == map[];
    assert SurvivingBook(c.prepares, 3) == map[] && SurvivingBook(c.commits, 3) == map[];
    assert ResetView(c, 3) == LeftCache(nodes);
  }

  lemma {:induction false} SignsTwo(nodes: NodeList, n: nat)
    requires n < |nodes| && 1 <= Total(nodes) < UINT64
    ensures var m := ProposalOf(nodes, 4, 2);
      React(React(SignedOne(nodes, n), NewViewIn(NewViewOf(nodes, 3, m))), PrePrepareIn(m, false, true, true)) == SignedTwo(nodes, n)
  {
    KeepsProposal(nodes, n);
    hide React, At, NewViewOf, VoteOf, VotedCache, ResetCaches, Total;
    var m, r := ProposalOf(nodes, 4, 2), SignedOne(nodes, n);
    SignedOneIs(nodes, n);
    EntersView(nodes, n, 1, 3, r.caches, [VoteOf(nodes, Prepare, 1, n, 1)], m);
    VotesOnly(nodes, n, 3, LeftCache(nodes), map[1 := LeftCache(nodes)], [VoteOf(nodes, Prepare, 1, n, 1)], m);
  }

  lemma SignedOneIs(nodes: NodeList, n: nat)
    requires n < |nodes|
    ensures SignedOne(nodes, n) == At(nodes, n, 1, SignedOne(nodes, n).caches, [VoteOf(nodes, Prepare, 1, n, 1)])
  {
  }

  // ---- The run ----

  ghost predicate EndsIn(s: Setting, nodes: NodeList, run: seq<Net>, steps: seq<Step>, honest: set<nat>, net: Net) {
    IsRun(s, nodes, run, steps) && run[0].Keys == honest && run[|run| - 1] == net
  }

  /** Some run of these honest nodes ends in `net`. */
  ghost predicate Reachable(s: Setting, nodes: NodeList, honest: set<nat>, net: Net) {
    exists run, steps :: EndsIn(s, nodes, run, steps, honest, net)
  }

  lemma Go(s: Setting, nodes: NodeList, honest: set<nat>, net: Net, n: nat, e: Event)
    requires Reachable(s, nodes, honest, net) && n in net && Enabled(s, net, net[n], e)
    ensures Reachable(s, nodes, honest, net[n := React(net[n], e)])
  {
    hide React, Enabled, Init;
    var run, steps :| EndsIn(s, nodes, run, steps, honest, net);
    var step, net' := Step(n, e), net[n := React(net[n], e)];
    assert Follows(s, net, step, net') by { hide IsRun; }
    hide Follows;
    MoreSteps(s, nodes, run, steps, step, net');
    assert EndsIn(s, nodes, run + [net'], steps + [step], honest, net');
  }

  lemma MoreSteps(s: Setting, nodes: NodeList, run: seq<Net>, steps: seq<Step>, step: Step, net: Net)
    requires IsRun(s, nodes, run, steps) && Follows(s, run[|run| - 1], step, net)
    ensures IsRun(s, nodes, run + [net], steps + [step])
  {
    hide Init, Follows;
  }

  /** The nodes, the honest ones among them, and a light one of these. */
  ghost predicate Setup(nodes: NodeList, honest: set<nat>, a: nat) {
    && DistinctIds(nodes) && 1 <= Total(nodes) < UINT64
    && (forall n :: n in honest ==> n < |nodes|)
    && Weight(nodes, All(nodes) - honest) <= MaxFaulty(Total(nodes))
    && a in honest
  }

  predicate Named(nodes: NodeList, net: Net) {
    forall b :: b in net ==> b < |nodes| && net[b].cfg.id == nodes[b].id
  }

  /** The replica has signed a message with this header. */
  ghost predicate HasSigned(r: Replica, m: Msg) {
    exists x :: x in r.env.sent && x.SameHeader(m)
  }

  /** A vote is genuine if its sender is faulty or has signed anything with this header. */
  lemma VoteIsGenuine(s: Setting, nodes: NodeList, net: Net, kind: Kind, v: nat, n: nat, h: Hash)
    requires !s.typed && DistinctIds(nodes) && Named(nodes, net) && n < |nodes|
    requires n in net ==> HasSigned(net[n], VoteOf(nodes, Prepare, v, n, h))
    ensures Genuine(s, net, VoteOf(nodes, kind, v, n, h))
  {
    var m := VoteOf(nodes, kind, v, n, h);
    forall b, r | b in net && r == net[b] && m.signer == r.cfg.id
      ensures exists sent :: sent in r.env.sent && sent.SameHeader(m) && (s.typed ==> sent.kind == m.kind)
    {
      assert b == n;
      var x :| x in r.env.sent && x.SameHeader(VoteOf(nodes, Prepare, v, n, h));
      assert x.SameHeader(m);
    }
  }

  lemma VotesEnabled(s: Setting, nodes: NodeList, net: Net, r: Replica, v: nat, n: nat, h: Hash)
    requires !s.typed && DistinctIds(nodes) && Named(nodes, net) && n < |nodes|
    requires n in net ==> HasSigned(net[n], VoteOf(nodes, Prepare, v, n, h))
    ensures Enabled(s, net, r, PrepareIn(VoteOf(nodes, Prepare, v, n, h)))
    ensures Enabled(s, net, r, CommitIn(VoteOf(nodes, Commit, v, n, h)))
  {
    VoteIsGenuine(s, nodes, net, Prepare, v, n, h);
    VoteIsGenuine(s, nodes, net, Commit, v, n, h);
    hide Genuine;
  }

  lemma ProposalEnabled(s: Setting, nodes: NodeList, net: Net, r: Replica, v: nat, v': nat, h: Hash, fromNewView: bool)
    ensures Enabled(s, net, r, NewViewIn(NewViewOf(nodes, v, ProposalOf(nodes, v', h))))
    ensures Enabled(s, net, r, PrePrepareIn(ProposalOf(nodes, v', h), false, fromNewView, true))
  {
  }

  /** A node is led into a view and gets a proposal there. */
  lemma Leads(s: Setting, nodes: NodeList, honest: set<nat>, net: Net, n: nat, v: nat, v': nat, h: Hash)
    requires Reachable(s, nodes, honest, net) && n in net
    ensures var m := ProposalOf(nodes, v', h);
      Reachable(s, nodes, honest,
                net[n := React(React(net[n], NewViewIn(NewViewOf(nodes, v, m))), PrePrepareIn(m, false, true, true))])
  {
    hide React, Enabled, Reachable, ProposalOf, NewViewOf;
    var m := ProposalOf(nodes, v', h);
    ProposalEnabled(s, nodes, net, net[n], v, v', h, true);
    Go(s, nodes, honest, net, n, NewViewIn(NewViewOf(nodes, v, m)));
    var r1 := React(net[n], NewViewIn(NewViewOf(nodes, v, m)));
    var net1 := net[n := r1];
    ProposalEnabled(s, nodes, net1, r1, v, v', h, true);
    Go(s, nodes, honest, net1, n, PrePrepareIn(m, false, true, true));
    assert net1[n := React(r1, PrePrepareIn(m, false, true, true))] == net[n := React(r1, PrePrepareIn(m, false, true, true))];
  }

  /** A node gets a prepare and a commit vote of another one. */
  lemma Delivers(s: Setting, nodes: NodeList, honest: set<nat>, net: Net, b: nat, v: nat, n: nat, h: Hash)
    requires Reachable(s, nodes, honest, net) && b in net && n != b
    requires !s.typed && DistinctIds(nodes) && Named(nodes, net) && n < |nodes|
    requires n in net ==> HasSigned(net[n], VoteOf(nodes, Prepare, v, n, h))
    requires React(net[b], PrepareIn(VoteOf(nodes, Prepare, v, n, h))).cfg.id == nodes[b].id
    ensures var r1 := React(net[b], PrepareIn(VoteOf(nodes, Prepare, v, n, h)));
      Reachable(s, nodes, honest, net[b := React(r1, CommitIn(VoteOf(nodes, Commit, v, n, h)))])
  {
    hide React, Enabled, Reachable, VoteOf, DistinctIds, HasSigned;
    var e, e' := PrepareIn(VoteOf(nodes, Prepare, v, n, h)), CommitIn(VoteOf(nodes, Commit, v, n, h));
    VotesEnabled(s, nodes, net, net[b], v, n, h);
    Go(s, nodes, honest, net, b, e);
    var r1 := React(net[b], e);
    var net1 := net[b := r1];
    VotesEnabled(s, nodes, net1, r1, v, n, h);
    Go(s, nodes, honest, net1, b, e');
    assert net1[b := React(r1, e')] == net[b := React(r1, e')];
  }

  // ---- First all others sign block 1 ----

  predicate FirstSigned(nodes: NodeList, honest: set<nat>, a: nat, net: Net, k: nat) {
    && net.Keys == honest
    && forall n :: n in honest ==> n < |nodes| && net[n] == if n != a && n < k then SignedOne(nodes, n) else Start(nodes, n)
  }

  lemma StartIsReachable(s: Setting, nodes: NodeList, honest: set<nat>, a: nat) returns (net: Net)
    requires Setup(nodes, honest, a)
    ensures FirstSigned(nodes, honest, a, net, 0) && Reachable(s, nodes, honest, net)
  {
    hide Weight, Total, MaxFaulty, DistinctIds;
    net := map n | n in honest :: Start(nodes, n);
    assert net.Keys == honest;
    assert forall n :: n in net ==> Started(nodes, n, net[n]);
    assert IsRun(s, nodes, [net], []);
    assert EndsIn(s, nodes, [net], [], honest, net);
  }

  lemma {:induction false} AllSignOne(s: Setting, nodes: NodeList, honest: set<nat>, a: nat, k: nat) returns (net: Net)
    requires Setup(nodes, honest, a) && k <= |nodes|
    ensures FirstSigned(nodes, honest, a, net, k) && Reachable(s, nodes, honest, net)
  {
    hide Reachable, SignedOne, Start, React, ProposalOf, NewViewOf, Weight, Total, MaxFaulty, DistinctIds;
    if k == 0 {
      net := StartIsReachable(s, nodes, honest, a);
    } else {
      var net0 := AllSignOne(s, nodes, honest, a, k - 1);
      net := net0;
      if k - 1 in honest && k - 1 != a {
        Leads(s, nodes, honest, net0, k - 1, 1, 2, 1);
        SignsOne(nodes, k - 1);
        IsHash(nodes, 2, 1);
        net := net0[k - 1 := SignedOne(nodes, k - 1)];
      }
    }
  }

  lemma IsHash(nodes: NodeList, v: nat, h: Hash)
    ensures ProposalOf(nodes, v, h).hash == h && ProposalOf(nodes, v, h).view == v
  {
  }

  // ---- Then the light node gets their votes and decides block 1 ----

  /** The nodes before `k` that are not in `ex`. */
  function Before(k: nat, ex: set<nat>): set<nat> {
    set n: nat | n < k && n !in ex
  }

  ghost predicate LightCollects(nodes: NodeList, honest: set<nat>, a: nat, net: Net, k: nat) {
    && net.Keys == honest && a in honest
    && (forall n :: n in honest ==> n < |nodes|)
    && (forall n :: n in honest && n != a ==> net[n] == SignedOne(nodes, n))
    && Gathered(Start(nodes, a), net[a], 1, 1, Before(k, {a}))
  }

  lemma StartFacts(nodes: NodeList, n: nat)
    requires n < |nodes|
    ensures var r := Start(nodes, n);
      && Plain(nodes, r) && Open(r, 1) && r.cfg.view == 0 && r.cfg.self == n && r.cfg.id == nodes[n].id
      && CacheAt(r, 1) == EmptyCache(1) && Gathered(r, r, 1, 1, {})
  {
  }

  lemma SignedFacts(nodes: NodeList, n: nat)
    requires n < |nodes|
    ensures var r := SignedOne(nodes, n);
      && Plain(nodes, r) && Open(r, 2) && r.cfg.view == 1 && r.cfg.self == n && r.cfg.id == nodes[n].id
      && HasSigned(r, VoteOf(nodes, Prepare, 1, n, 1)) && Gathered(r, r, 2, 3, {})
  {
    assert VoteOf(nodes, Prepare, 1, n, 1) in SignedOne(nodes, n).env.sent;
  }

  lemma CollectedCfg(r0: Replica, r: Replica, h: Hash, v: nat, q: set<nat>)
    requires Gathered(r0, r, h, v, q)
    ensures r.cfg == r0.cfg && r.env == r0.env
  {
  }

  lemma LightNamed(nodes: NodeList, honest: set<nat>, a: nat, net: Net, k: nat)
    requires LightCollects(nodes, honest, a, net, k)
    ensures Named(nodes, net)
    ensures forall n :: n in net && n != a ==> HasSigned(net[n], VoteOf(nodes, Prepare, 1, n, 1))
  {
    hide SignedOne, Start, Gathered, VoteOf, HasSigned;
    StartFacts(nodes, a);
    CollectedCfg(Start(nodes, a), net[a], 1, 1, Before(k, {a}));
    forall n | n in net && n != a
      ensures net[n].cfg.id == nodes[n].id && HasSigned(net[n], VoteOf(nodes, Prepare, 1, n, 1))
    {
      SignedFacts(nodes, n);
    }
  }

  lemma BeforeNext(k: nat, ex: set<nat>)
    ensures Before(0, ex) == {}
    ensures k in ex ==> Before(k + 1, ex) == Before(k, ex)
    ensures k !in ex ==> Before(k + 1, ex) == Before(k, ex) + {k} && k !in Before(k, ex)
  {
  }

  lemma PrepareFrame(nodes: NodeList, r0: Replica, r: Replica, h: Hash, v: nat, q: set<nat>, n: nat)
    requires Gathered(r0, r, h, v, q) && Plain(nodes, r0) && r0.cfg.view <= v && Open(r0, h)
    requires n < |nodes| && n != r0.cfg.self
    ensures React(r, PrepareIn(VoteOf(nodes, Prepare, v, n, h))).cfg == r0.cfg
  {
    OpenStays(r0, r, h);
    PlainStays(nodes, r0, r);
    PrepareArrives(nodes, r, v, n, h);
    hide React, Open, Plain, VoteOf, AddVote;
  }

  /** The votes of node `k` arrive. */
  lemma LightGetsNext(s: Setting, nodes: NodeList, honest: set<nat>, a: nat, net0: Net, k: nat) returns (net: Net)
    requires Setup(nodes, honest, a) && k < |nodes| && k != a && !s.typed
    requires LightCollects(nodes, honest, a, net0, k) && Reachable(s, nodes, honest, net0)
    ensures LightCollects(nodes, honest, a, net, k + 1) && Reachable(s, nodes, honest, net)
  {
    hide Reachable, SignedOne, Start, React, VoteOf, Gathered, Open, Plain, Weight, Total, MaxFaulty, DistinctIds, Named, Before;
    StartFacts(nodes, a);
    BeforeNext(k, {a});
    LightNamed(nodes, honest, a, net0, k);
    PrepareFrame(nodes, Start(nodes, a), net0[a], 1, 1, Before(k, {a}), k);
    Delivers(s, nodes, honest, net0, a, 1, k, 1);
    CollectsVotes(nodes, Start(nodes, a), net0[a], 1, 1, Before(k, {a}), k);
    var r1 := React(net0[a], PrepareIn(VoteOf(nodes, Prepare, 1, k, 1)));
    net := net0[a := React(r1, CommitIn(VoteOf(nodes, Commit, 1, k, 1)))];
  }

  lemma {:induction false} LightGetsVotes(s: Setting, nodes: NodeList, honest: set<nat>, a: nat, k: nat) returns (net: Net)
    requires Setup(nodes, honest, a) && k <= |nodes| && !s.typed
    ensures LightCollects(nodes, honest, a, net, k) && Reachable(s, nodes, honest, net)
  {
    hide Reachable, SignedOne, Start, Gathered, Weight, Total, MaxFaulty, DistinctIds;
    if k == 0 {
      StartFacts(nodes, a);
      BeforeNext(0, {a});
      net := AllSignOne(s, nodes, honest, a, |nodes|);
    } else {
      net := LightGetsVotes(s, nodes, honest, a, k - 1);
      BeforeNext(k - 1, {a});
      if k - 1 != a {
        hide LightCollects;
        net := LightGetsNext(s, nodes, honest, a, net, k - 1);
      }
    }
  }


  lemma AllBefore(nodes: NodeList, ex: set<nat>)
    ensures Before(|nodes|, ex) == All(nodes) - ex
  {
  }

  /** With the votes of `q` and the own one there are quorums. */
  lemma CollectedReady(nodes: NodeList, r0: Replica, r: Replica, v: nat, q: set<nat>, m: Msg)
    requires Gathered(r0, r, m.hash, v, q) && Plain(nodes, r0) && Open(r0, m.hash) && m.index == 1
    requires m.view == r0.cfg.view && m.proposal.Some? && m.WellFormed()
    requires var c0 := CacheAt(r0, 1); !c0.stable && c0.checkpoint.None? && !c0.precommitted && !c0.submitted
    requires Weight(nodes, q + {r0.cfg.self}) >= QuorumOf(nodes)
    ensures QuorumsReady(nodes, CacheAt(r, 1), r.cfg, m)
  {
    hide Weight, QuorumOf;
  }

  lemma LightAccepts(nodes: NodeList, a: nat, r: Replica, q: set<nat>)
    requires a < |nodes| && Gathered(Start(nodes, a), r, 1, 1, q)
    ensures AcceptsPrePrepare(r, ProposalOf(nodes, 0, 1), false, true) && NoResults(r) && r.caches.Keys <= {1} && Unused(r)
  {
    LeaderIs(nodes, a, 0, 0, map[], []);
    hide From, Cfg.LeaderIn, LeaderOf;
  }

  lemma {:induction false} LightReady(nodes: NodeList, a: nat, r: Replica)
    requires a < |nodes| && 1 <= Total(nodes) < UINT64 && Gathered(Start(nodes, a), r, 1, 1, All(nodes) - {a})
    ensures QuorumsReady(nodes, CacheAt(r, 1), r.cfg, ProposalOf(nodes, 0, 1))
  {
    StartFacts(nodes, a);
    IsProposal(nodes, 0, 1);
    assert All(nodes) - {a} + {a} == All(nodes);
    WeightOfAll(nodes);
    QuorumArithmetic(Total(nodes));
    hide Start, Gathered, ProposalOf, QuorumsReady, Weight, Total;
    CollectedReady(nodes, Start(nodes, a), r, 1, All(nodes) - {a}, ProposalOf(nodes, 0, 1));
  }

  lemma IsProposal(nodes: NodeList, v: nat, h: Hash)
    ensures var m := ProposalOf(nodes, v, h);
      m.view == v && m.hash == h && m.index == 1 && m.proposal.Some? && m.WellFormed() && m.kind == PrePrepare
  {
  }

  predicate Keeps(nodes: NodeList, n: nat, r: Replica) {
    n < |nodes| && r.cfg.id == nodes[n].id
  }

  /** The first node is in state `first`, and all others signed block 1. */
  ghost predicate FirstDone(nodes: NodeList, honest: set<nat>, a: nat, first: Replica, net: Net) {
    && net.Keys == honest && a in honest && net[a] == first && Keeps(nodes, a, first)
    && (forall n :: n in honest ==> n < |nodes|)
    && (forall n :: n in honest && n != a ==> net[n] == SignedOne(nodes, n))
  }

  lemma LightDecides(s: Setting, nodes: NodeList, honest: set<nat>, a: nat) returns (net: Net)
    requires Setup(nodes, honest, a) && !s.typed
    ensures a in net && FirstDone(nodes, honest, a, net[a], net) && Reachable(s, nodes, honest, net)
    ensures Busy(net[a], 1) && NoResults(net[a]) && net[a].cfg == Start(nodes, a).cfg
  {
    hide Reachable, SignedOne, Start, React, Gathered, AcceptsPrePrepare, QuorumsReady, ProposalOf, NewViewOf, Enabled, Weight,
      MaxFaulty, DistinctIds, Busy, NoResults;
    var net0 := LightGetsVotes(s, nodes, honest, a, |nodes|);
    AllBefore(nodes, {a});
    StartFacts(nodes, a);
    CollectedCfg(Start(nodes, a), net0[a], 1, 1, All(nodes) - {a});
    LightAccepts(nodes, a, net0[a], All(nodes) - {a});
    LightReady(nodes, a, net0[a]);
    IsProposal(nodes, 0, 1);
    ProposalEnabled(s, nodes, net0, net0[a], 0, 0, 1, false);
    DecidesAtOnce(nodes, net0[a], ProposalOf(nodes, 0, 1), false);
    Go(s, nodes, honest, net0, a, PrePrepareIn(ProposalOf(nodes, 0, 1), false, false, true));
    net := net0[a := React(net0[a], PrePrepareIn(ProposalOf(nodes, 0, 1), false, false, true))];
  }

  // ---- The others but one sign block 2 ----

  ghost predicate SecondSigned(nodes: NodeList, honest: set<nat>, a: nat, first: Replica, b: nat, net: Net, k: nat) {
    && net.Keys == honest && a in honest && b in honest && a != b && net[a] == first && Keeps(nodes, a, first)
    && (forall n :: n in honest ==> n < |nodes|)
    && (forall n :: n in honest && n != a && n != b && n < k ==> net[n] == SignedTwo(nodes, n))
    && (forall n :: n in honest && n != a && (n == b || n >= k) ==> net[n] == SignedOne(nodes, n))
  }

  lemma SecondMore(nodes: NodeList, honest: set<nat>, a: nat, first: Replica, b: nat, net: Net, k: nat)
    requires SecondSigned(nodes, honest, a, first, b, net, k)
    ensures if k in honest && k != a && k != b then SecondSigned(nodes, honest, a, first, b, net[k := SignedTwo(nodes, k)], k + 1)
            else SecondSigned(nodes, honest, a, first, b, net, k + 1)
    ensures k in honest && k != a && k != b ==> net[k] == SignedOne(nodes, k)
  {
    hide SignedOne, SignedTwo, Keeps;
  }

  lemma SecondStart(nodes: NodeList, honest: set<nat>, a: nat, first: Replica, b: nat, net: Net)
    requires FirstDone(nodes, honest, a, first, net) && b in honest && b != a
    ensures SecondSigned(nodes, honest, a, first, b, net, 0)
  {
    hide SignedOne, SignedTwo, Keeps;
  }

  /** Node `k` signs block 2, if it is one of them. */
  lemma SecondNext(s: Setting, nodes: NodeList, honest: set<nat>, a: nat, first: Replica, b: nat, net0: Net, k: nat)
    returns (net: Net)
    requires SecondSigned(nodes, honest, a, first, b, net0, k) && Reachable(s, nodes, honest, net0)
    requires k < |nodes| && 1 <= Total(nodes) < UINT64
    ensures SecondSigned(nodes, honest, a, first, b, net, k + 1) && Reachable(s, nodes, honest, net)
  {
    hide Reachable, SignedOne, SignedTwo, React, ProposalOf, NewViewOf, Total, SecondSigned;
    net := net0;
    SecondMore(nodes, honest, a, first, b, net, k);
    if k in honest && k != a && k != b {
      SecondKeys(nodes, honest, a, first, b, net, k);
      Leads(s, nodes, honest, net, k, 3, 4, 2);
      SignsTwo(nodes, k);
      net := net[k := SignedTwo(nodes, k)];
    }
  }

  lemma {:induction false} OthersSignTwo(s: Setting, nodes: NodeList, honest: set<nat>, a: nat, first: Replica, b: nat,
                                         net0: Net, k: nat) returns (net: Net)
    requires Setup(nodes, honest, a) && b in honest && b != a && k <= |nodes|
    requires FirstDone(nodes, honest, a, first, net0) && Reachable(s, nodes, honest, net0)
    ensures SecondSigned(nodes, honest, a, first, b, net, k) && Reachable(s, nodes, honest, net)
  {
    hide Reachable, SecondSigned, FirstDone, Weight, Total, MaxFaulty, DistinctIds;
    if k == 0 {
      SecondStart(nodes, honest, a, first, b, net0);
      net := net0;
    } else {
      net := OthersSignTwo(s, nodes, honest, a, first, b, net0, k - 1);
      net := SecondNext(s, nodes, honest, a, first, b, net, k - 1);
    }
  }

  lemma SecondKeys(nodes: NodeList, honest: set<nat>, a: nat, first: Replica, b: nat, net: Net, k: nat)
    requires SecondSigned(nodes, honest, a, first, b, net, k)
    ensures net.Keys == honest
  {
  }

  // ---- The last one gets the votes and decides block 2 ----

  /** It has the votes of the nodes before `k`, but not of those in `ex`. */
  ghost predicate LastCollects(nodes: NodeList, honest: set<nat>, a: nat, first: Replica, b: nat, ex: set<nat>, net: Net, k: nat) {
    && net.Keys == honest && a in honest && b in honest && a != b && net[a] == first && Keeps(nodes, a, first)
    && (forall n :: n in honest ==> n < |nodes|)
    && (forall n :: n in honest && n != a && n != b ==> net[n] == SignedTwo(nodes, n))
    && b in ex && (a !in ex ==> HasSigned(first, VoteOf(nodes, Prepare, 3, a, 2)))
    && Gathered(SignedOne(nodes, b), net[b], 2, 3, Before(k, ex))
  }

  lemma TwoFacts(nodes: NodeList, n: nat)
    requires n < |nodes|
    ensures SignedTwo(nodes, n).cfg.id == nodes[n].id && HasSigned(SignedTwo(nodes, n), VoteOf(nodes, Prepare, 3, n, 2))
  {
    hide VotedCache;
    assert VoteOf(nodes, Prepare, 3, n, 2) in SignedTwo(nodes, n).env.sent;
  }

  lemma LastNamed(nodes: NodeList, honest: set<nat>, a: nat, first: Replica, b: nat, ex: set<nat>, net: Net, k: nat)
    requires LastCollects(nodes, honest, a, first, b, ex, net, k)
    ensures Named(nodes, net)
    ensures forall n :: n in net && n !in ex ==> HasSigned(net[n], VoteOf(nodes, Prepare, 3, n, 2))
  {
    hide SignedOne, SignedTwo, Gathered, VoteOf, HasSigned;
    SignedFacts(nodes, b);
    CollectedCfg(SignedOne(nodes, b), net[b], 2, 3, Before(k, ex));
    forall n | n in net && n != a && n != b
      ensures net[n].cfg.id == nodes[n].id && HasSigned(net[n], VoteOf(nodes, Prepare, 3, n, 2))
    {
      TwoFacts(nodes, n);
    }
  }

  /** The votes of node `k` arrive. */
  lemma LastGetsNext(s: Setting, nodes: NodeList, honest: set<nat>, a: nat, first: Replica, b: nat, ex: set<nat>, net0: Net, k: nat)
    returns (net: Net)
    requires Setup(nodes, honest, a) && k < |nodes| && k !in ex && !s.typed
    requires LastCollects(nodes, honest, a, first, b, ex, net0, k) && Reachable(s, nodes, honest, net0)
    ensures LastCollects(nodes, honest, a, first, b, ex, net, k + 1) && Reachable(s, nodes, honest, net)
  {
    hide Reachable, SignedOne, SignedTwo, React, VoteOf, Gathered, Open, Plain, Weight, Total, MaxFaulty, DistinctIds, Named,
      Before, HasSigned;
    SignedFacts(nodes, b);
    BeforeNext(k, ex);
    LastNamed(nodes, honest, a, first, b, ex, net0, k);
    PrepareFrame(nodes, SignedOne(nodes, b), net0[b], 2, 3, Before(k, ex), k);
    Delivers(s, nodes, honest, net0, b, 3, k, 2);
    CollectsVotes(nodes, SignedOne(nodes, b), net0[b], 2, 3, Before(k, ex), k);
    var r1 := React(net0[b], PrepareIn(VoteOf(nodes, Prepare, 3, k, 2)));
    net := net0[b := React(r1, CommitIn(VoteOf(nodes, Commit, 3, k, 2)))];
  }

  lemma LastStart(nodes: NodeList, honest: set<nat>, a: nat, first: Replica, b: nat, ex: set<nat>, net: Net)
    requires SecondSigned(nodes, honest, a, first, b, net, |nodes|)
    requires b in ex && (a !in ex ==> HasSigned(first, VoteOf(nodes, Prepare, 3, a, 2)))
    ensures LastCollects(nodes, honest, a, first, b, ex, net, 0)
  {
    hide SignedOne, SignedTwo, Gathered, Keeps, HasSigned, VoteOf;
    SignedFacts(nodes, b);
    BeforeNext(0, ex);
  }

  lemma LastSkips(nodes: NodeList, honest: set<nat>, a: nat, first: Replica, b: nat, ex: set<nat>, net: Net, k: nat)
    requires LastCollects(nodes, honest, a, first, b, ex, net, k) && k in ex
    ensures LastCollects(nodes, honest, a, first, b, ex, net, k + 1)
  {
    hide SignedOne, SignedTwo, Gathered, Keeps, HasSigned, VoteOf;
    BeforeNext(k, ex);
  }

  lemma {:induction false} LastGetsVotes(s: Setting, nodes: NodeList, honest: set<nat>, a: nat, first: Replica, b: nat,
                                         ex: set<nat>, net0: Net, k: nat) returns (net: Net)
    requires Setup(nodes, honest, a) && b in honest && b != a && k <= |nodes| && !s.typed
    requires FirstDone(nodes, honest, a, first, net0) && Reachable(s, nodes, honest, net0)
    requires b in ex && (a !in ex ==> HasSigned(first, VoteOf(nodes, Prepare, 3, a, 2)))
    ensures LastCollects(nodes, honest, a, first, b, ex, net, k) && Reachable(s, nodes, honest, net)
  {
    hide Reachable, FirstDone, LastCollects, SecondSigned, Weight, Total, MaxFaulty, DistinctIds, HasSigned;
    if k == 0 {
      net := OthersSignTwo(s, nodes, honest, a, first, b, net0, |nodes|);
      LastStart(nodes, honest, a, first, b, ex, net);
    } else {
      net := LastGetsVotes(s, nodes, honest, a, first, b, ex, net0, k - 1);
      if k - 1 in ex {
        LastSkips(nodes, honest, a, first, b, ex, net, k - 1);
      } else {
        net := LastGetsNext(s, nodes, honest, a, first, b, ex, net, k - 1);
      }
    }
  }

  lemma LateSurvive(book: VoteBook, h: Hash, v: nat, q: set<nat>)
    requires From(book, h, v, q)
    ensures Senders(SurvivingBook(book, v), h) == q
  {
    assert forall n :: n in q ==> n in book[h] && book[h][n].view >= v;
    if h in book {
      assert Surviving(book[h], v).Keys == q;
    }
  }

  /** The other node in view 3, with the votes it collected. */
  function OtherIn3(nodes: NodeList, b: nat, r: Replica): Replica
    requires b < |nodes|
  {
    At(nodes, b, 3, ResetCaches(r.caches, 3), [VoteOf(nodes, Prepare, 1, b, 1)])
  }

  lemma {:induction false} OtherEnters(nodes: NodeList, b: nat, r: Replica, q: set<nat>)
    requires b < |nodes| && 1 <= Total(nodes) < UINT64 && Gathered(SignedOne(nodes, b), r, 2, 3, q)
    ensures React(r, NewViewIn(NewViewOf(nodes, 3, ProposalOf(nodes, 3, 2)))) == OtherIn3(nodes, b, r)
  {
    OtherIs(nodes, b, r, q);
    hide React, At, NewViewOf, VoteOf, ResetCaches, Total, Gathered, ProposalOf;
    EntersView(nodes, b, 1, 3, r.caches, [VoteOf(nodes, Prepare, 1, b, 1)], ProposalOf(nodes, 3, 2));
  }

  lemma OtherIs(nodes: NodeList, b: nat, r: Replica, q: set<nat>)
    requires b < |nodes| && Gathered(SignedOne(nodes, b), r, 2, 3, q)
    ensures r == At(nodes, b, 1, r.caches, [VoteOf(nodes, Prepare, 1, b, 1)])
    ensures 1 in r.caches && r.caches.Keys == {1}
  {
    hide From, VotedCache;
    OtherCache(nodes, b, r, q);
  }

  /** What the reset leaves of the cache. */
  lemma OtherCache(nodes: NodeList, b: nat, r: Replica, q: set<nat>)
    requires b < |nodes| && Gathered(SignedOne(nodes, b), r, 2, 3, q)
    ensures 1 in r.caches && r.caches[1].prePrepare == Some(ProposalOf(nodes, 2, 1))
    ensures var c := r.caches[1];
      && c.index == 1 && !c.stable && c.checkpoint.None? && c.precommit.None?
      && From(c.prepares, 2, 3, q) && From(c.commits, 2, 3, q)
  {
    hide From, ProposalOf;
  }

  lemma OtherReady(nodes: NodeList, b: nat, r: Replica, q: set<nat>)
    requires b < |nodes| && Gathered(SignedOne(nodes, b), r, 2, 3, q)
    requires Weight(nodes, q + {b}) >= QuorumOf(nodes)
    ensures QuorumsReady(nodes, CacheAt(OtherIn3(nodes, b, r), 1), OtherIn3(nodes, b, r).cfg, ProposalOf(nodes, 3, 2))
  {
    OtherCache(nodes, b, r, q);
    IsProposal(nodes, 3, 2);
    LateSurvive(r.caches[1].prepares, 2, 3, q);
    LateSurvive(r.caches[1].commits, 2, 3, q);
    hide Weight, QuorumOf, Gathered, From, SurvivingBook, ProposalOf;
  }

  lemma OtherAccepts(nodes: NodeList, b: nat, r: Replica, q: set<nat>)
    requires b < |nodes| && Gathered(SignedOne(nodes, b), r, 2, 3, q)
    ensures var r' := OtherIn3(nodes, b, r);
      AcceptsPrePrepare(r', ProposalOf(nodes, 3, 2), true, true) && NoResults(r') && r'.caches.Keys <= {1} && Unused(r')
  {
    OtherIs(nodes, b, r, q);
    OtherCache(nodes, b, r, q);
    hide Gathered, From, SurvivingBook;
  }

  /** The last node has decided block 2, the first one is in state `first`, and the rest has voted
      for no results. */
  ghost predicate LastDecided(nodes: NodeList, honest: set<nat>, a: nat, first: Replica, b: nat, net: Net) {
    && net.Keys == honest && a in honest && b in honest && a != b && net[a] == first
    && (forall n :: n in honest && n != a ==> NoResults(net[n]))
    && HasDecided(net[b], 2)
  }

  lemma LastDecides(s: Setting, nodes: NodeList, honest: set<nat>, a: nat, first: Replica, b: nat, ex: set<nat>, net0: Net)
    returns (net: Net)
    requires Setup(nodes, honest, a) && b in honest && b != a && !s.typed
    requires FirstDone(nodes, honest, a, first, net0) && Reachable(s, nodes, honest, net0)
    requires b in ex && (a !in ex ==> HasSigned(first, VoteOf(nodes, Prepare, 3, a, 2)))
    requires Weight(nodes, All(nodes) - ex + {b}) >= QuorumOf(nodes)
    ensures LastDecided(nodes, honest, a, first, b, net) && Reachable(s, nodes, honest, net)
  {
    hide Reachable, SignedOne, SignedTwo, React, Gathered, AcceptsPrePrepare, QuorumsReady, ProposalOf, NewViewOf, Enabled, Weight,
      QuorumOf, MaxFaulty, DistinctIds, NoResults, OtherIn3, HasSigned;
    var net1 := LastGetsVotes(s, nodes, honest, a, first, b, ex, net0, |nodes|);
    AllBefore(nodes, ex);
    var r, m, q := net1[b], ProposalOf(nodes, 3, 2), All(nodes) - ex;
    OtherEnters(nodes, b, r, q);
    OtherReady(nodes, b, r, q);
    OtherAccepts(nodes, b, r, q);
    IsProposal(nodes, 3, 2);
    DecidesAtOnce(nodes, OtherIn3(nodes, b, r), m, true);
    Leads(s, nodes, honest, net1, b, 3, 3, 2);
    net := net1[b := React(OtherIn3(nodes, b, r), PrePrepareIn(m, false, true, true))];
    forall n | n in honest && n != a ensures NoResults(net[n]) {
      if n != b {
        TwoSends(nodes, n);
      }
    }
  }

  lemma TwoSends(nodes: NodeList, n: nat)
    requires n < |nodes|
    ensures NoResults(SignedTwo(nodes, n))
  {
    hide VotedCache;
  }
}
