/** What happens when the leader is not connected: time out view after view until the leader
    of the view to reach is this node or a connected one. */
module FastViewChange {
  import opened Types
  import opened ConfigModel
  import opened Monotone
  import opened ReplicaModel
  import Sealing
  import Weights

  /** This node takes part and has connections, but none to the leader. */
  predicate LeaderLost(g: Cfg, connected: set<NodeId>, leader: nat) {
    && connected != {}
    && g.self != NON_CONSENSUS_NODE
    && leader != g.self
    && leader < |g.nodes|
    && g.nodes[leader].id !in connected
  }

  predicate SelfKnown(g: Cfg) {
    g.self < |g.nodes| || g.self == NON_CONSENSUS_NODE
  }

  function NextLeader(g: Cfg): nat {
    g.LeaderIn(g.progressed, g.toView)
  }

  /** How many leader changes lead from node `from` to node `to`. */
  function Distance(n: nat, from: nat, to: nat): (d: nat)
    requires from < n && to < n
    ensures d < n && (d == 0 <==> from == to)
  {
    if from <= to then to - from else to - from + n
  }

  lemma DistanceShrinks(n: nat, from: nat, to: nat)
    requires from < n && to < n && from != to
    ensures Distance(n, (from + 1) % n, to) == Distance(n, from, to) - 1
  {
    if from == n - 1 {
      assert (from + 1) % n == 0;
    } else {
      assert (from + 1) % n == from + 1;
    }
  }

  lemma Remainder(a: nat, n: nat, q: nat, m: nat)
    requires n > 0 && m < n && a == q * n + m
    ensures a % n == m
  {
    assert (q + 1) * n == q * n + n;
    Sealing.QuotientIs(a, n, q);
    assert a == (a / n) * n + a % n;
  }

  lemma SuccessorMod(a: nat, n: nat)
    requires n > 0
    ensures (a + 1) % n == (a % n + 1) % n
  {
    var q, m := a / n, a % n;
    assert a == q * n + m;
    if m + 1 == n {
      assert (q + 1) * n == q * n + n;
      Remainder(a + 1, n, q + 1, 0);
      Remainder(m + 1, n, 1, 0);
    } else {
      Remainder(a + 1, n, q, m + 1);
      Remainder(m + 1, n, 0, m + 1);
    }
  }

  /** The next view is led by the next node. */
  lemma LeaderAdvances(g: Cfg, i: int, v: nat)
    ensures g.LeaderIn(i, v + 1) == (g.LeaderIn(i, v) + 1) % |g.nodes|
  {
    SuccessorMod((i % Weights.UINT64) / g.period + v, |g.nodes|);
  }

  /** Leadership starts at the first node for the first indices and view, stays for the indices of a
      leader period, and moves on to the next node with every period and with every view. */
  lemma LeaderRotates(g: Cfg, i: nat, j: nat, v: nat)
    requires i + g.period < Weights.UINT64 && j < Weights.UINT64
    ensures i < g.period ==> g.LeaderIn(i, 0) == 0
    ensures i / g.period == j / g.period ==> g.LeaderIn(i, v) == g.LeaderIn(j, v)
    ensures g.LeaderIn(i + g.period, v) == (g.LeaderIn(i, v) + 1) % |g.nodes|
    ensures g.LeaderIn(i, v + 1) == (g.LeaderIn(i, v) + 1) % |g.nodes|
  {
    var d, n := g.period, |g.nodes|;
    var q := Sealing.Floored(i, d);
    assert i % Weights.UINT64 == i && j % Weights.UINT64 == j && (i + d) % Weights.UINT64 == i + d;
    assert i < (q + 1) * d by {
      assert i == q * d + i % d;
    }
    Sealing.QuotientIs(i + d, d, q + 1);
    SuccessorMod(q + v, n);
    LeaderAdvances(g, i, v);
    if i < d {
      Sealing.QuotientIs(i, d, 0);
      assert g.LeaderIn(i, 0) == 0 % n;
    }
  }

  /** Same nodes and progress. */
  predicate SameNodes(g: Cfg, g': Cfg) {
    g'.nodes == g.nodes && g'.self == g.self && g'.period == g.period && g'.progressed == g.progressed
  }

  lemma TryNewViewStays(r: Replica)
    ensures SameNodes(r.cfg, TryNewView(r).cfg) && TryNewView(r).cfg.toView == r.cfg.toView
  {
    hide CanBuildNewView, GeneratePrePrepares, ChangeList, ResetAfterViewChange;
    var (r1, nv) := CheckIntoNewView(r);
    if nv.Some? {
      var r2 := r1.(cfg := r1.cfg.ResetNewView(nv.value.view));
      ResetAfterLater(r2, r2.cfg.view, r2.cfg.committed.index);
    }
  }

  /** One timeout, also one that reaches the new view at once, advances the view to reach by
      exactly one and changes neither the nodes nor the progress. */
  lemma TimeoutAdvances(r: Replica)
    ensures SameNodes(r.cfg, TriggerTimeout(r).cfg)
    ensures TriggerTimeout(r).cfg.toView == r.cfg.toView + 1
  {
    hide OwnViewChange, StillValid, RaiseToAll, RaiseTo, TryNewView;
    var r1 := r.(cfg := r.cfg.ResetTimeout());
    var r2 := RemoveInvalidChanges(r1, r1.cfg.view, r1.cfg.committed.index);
    var vc := OwnViewChange(r2);
    TryNewViewStays(AddViewChange(r2.(env := r2.env.(sentChanges := r2.env.sentChanges + [vc])), vc));
  }

  /** An upper bound for the number of timeouts. */
  function Rounds(g: Cfg, connected: set<NodeId>, leader: nat): (n: nat)
    requires SelfKnown(g)
    ensures n <= |g.nodes|
  {
    if LeaderLost(g, connected, leader) then 1 + Distance(|g.nodes|, g.LeaderIn(g.progressed, g.toView + 1), g.self)
    else 0
  }

  lemma RoundsShrink(r: Replica, connected: set<NodeId>, leader: nat)
    requires SelfKnown(r.cfg) && LeaderLost(r.cfg, connected, leader)
    ensures var g := TriggerTimeout(r).cfg;
      SelfKnown(g) && Rounds(g, connected, NextLeader(g)) < Rounds(r.cfg, connected, leader)
  {
    hide TriggerTimeout, Cfg.LeaderIn, Distance;
    TimeoutAdvances(r);
    var g := TriggerTimeout(r).cfg;
    SameLeaders(r.cfg, g);
    if LeaderLost(g, connected, NextLeader(g)) {
      LeaderAdvances(g, g.progressed, g.toView);
      DistanceShrinks(|g.nodes|, NextLeader(g), g.self);
    }
  }

  lemma SameLeaders(g: Cfg, g': Cfg)
    requires g'.nodes == g.nodes && g'.period == g.period
    ensures forall i, v :: g'.LeaderIn(i, v) == g.LeaderIn(i, v)
    ensures forall i, v :: g.LeaderIn(i, v) < |g.nodes|
  {
  }

  /** The recursion of `tryTriggerFastViewChange`, with the number of timeouts it fired. */
  function Escape(r: Replica, connected: set<NodeId>, leader: nat): (Replica, nat)
    requires SelfKnown(r.cfg)
    decreases Rounds(r.cfg, connected, leader)
  {
    if !LeaderLost(r.cfg, connected, leader) then (r, 0)
    else
      RoundsShrink(r, connected, leader);
      var r1 := TriggerTimeout(r);
      var (r2, k) := Escape(r1, connected, NextLeader(r1.cfg));
      (r2, k + 1)
  }

  lemma {:induction false} EscapeStep(r: Replica, connected: set<NodeId>, leader: nat)
    requires SelfKnown(r.cfg)
    ensures !LeaderLost(r.cfg, connected, leader) ==> Escape(r, connected, leader).0 == r
    ensures LeaderLost(r.cfg, connected, leader) ==>
      var r1 := TriggerTimeout(r);
      && SelfKnown(r1.cfg)
      && Rounds(r1.cfg, connected, NextLeader(r1.cfg)) < Rounds(r.cfg, connected, leader)
      && Escape(r, connected, leader).0 == Escape(r1, connected, NextLeader(r1.cfg)).0
  {
    hide TriggerTimeout, NextLeader, Rounds;
    if LeaderLost(r.cfg, connected, leader) {
      RoundsShrink(r, connected, leader);
    }
  }

  /** The recursion fires at most once per consensus node, each time for the next view; if it
      fired, the leader of the view it ends at is this node or a connected one. */
  lemma {:induction false} EscapeEnds(r: Replica, connected: set<NodeId>, leader: nat)
    requires SelfKnown(r.cfg)
    ensures var (r', k) := Escape(r, connected, leader);
      && k <= |r.cfg.nodes|
      && (k > 0 <==>
            && connected != {} && r.cfg.self != NON_CONSENSUS_NODE
            && leader != r.cfg.self && leader < |r.cfg.nodes| && r.cfg.nodes[leader].id !in connected)
      && r'.cfg.toView == r.cfg.toView + k && r'.cfg.nodes == r.cfg.nodes && r'.cfg.self == r.cfg.self
      && (k > 0 ==>
            var n := NextLeader(r'.cfg);
            n < |r'.cfg.nodes| && (n == r'.cfg.self || r'.cfg.nodes[n].id in connected))
  {
    hide Escape, NextLeader;
    EscapeBounded(r, connected, leader);
  }

  lemma {:induction false} EscapeBounded(r: Replica, connected: set<NodeId>, leader: nat)
    requires SelfKnown(r.cfg)
    ensures var (r', k) := Escape(r, connected, leader);
      && k <= Rounds(r.cfg, connected, leader)
      && (k > 0 <==> LeaderLost(r.cfg, connected, leader))
      && r'.cfg.toView == r.cfg.toView + k && r'.cfg.nodes == r.cfg.nodes && r'.cfg.self == r.cfg.self
      && (k > 0 ==>
            var n := NextLeader(r'.cfg);
            n < |r'.cfg.nodes| && (n == r'.cfg.self || r'.cfg.nodes[n].id in connected))
    decreases Rounds(r.cfg, connected, leader)
  {
    hide TriggerTimeout, Cfg.LeaderIn, Rounds;
    if LeaderLost(r.cfg, connected, leader) {
      RoundsShrink(r, connected, leader);
      TimeoutAdvances(r);
      var r1 := TriggerTimeout(r);
      EscapeBounded(r1, connected, NextLeader(r1.cfg));
      SameLeaders(r1.cfg, r1.cfg);
    }
  }
}
