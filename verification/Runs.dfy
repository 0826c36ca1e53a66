/** Every reachable network satisfies the invariants of all its replicas. */
module Runs {
  import opened Types
  import opened Weights
  import opened ConfigModel
  import opened CacheModel
  import opened ReplicaModel
  import opened CacheInvariant
  import opened ReplicaInvariant
  import opened HandlerInvariant
  import opened Monotone
  import opened ViewChangeInvariant
  import opened Network

  lemma CastPrefix(sent: seq<Msg>, sent': seq<Msg>)
    requires sent <= sent'
    ensures forall kind :: Cast(sent, kind) <= Cast(sent', kind)
  {
    assert forall m :: m in sent ==> m in sent';
  }

  lemma ProvablePrefix(s: Setting, sent: seq<Msg>, sent': seq<Msg>)
    requires sent <= sent'
    ensures forall kind :: Provable(s, sent, kind) <= Provable(s, sent', kind)
  {
    assert forall m :: m in sent ==> m in sent';
    CastPrefix(sent, sent');
  }

  lemma TracedLater(self: nat, sent: seq<Msg>, w: World, w': World, kind: Kind, i: int, book: VoteBook)
    requires TracedVotes(self, sent, w, kind, i, book) && WorldLater(w, w')
    ensures TracedVotes(self, sent, w', kind, i, book)
  {
    hide Cast;
  }

  lemma AuthCacheLater(nodes: seq<Node>, self: nat, sent: seq<Msg>, w: World, w': World, c: Cache)
    requires AuthCache(nodes, self, sent, w, c) && WorldLater(w, w')
    ensures AuthCache(nodes, self, sent, w', c)
  {
    hide Cast, TracedVotes, Evidence;
    TracedLater(self, sent, w, w', Prepare, c.index, c.prepares);
    TracedLater(self, sent, w, w', Commit, c.index, c.commits);
    TracedLater(self, sent, w, w', CheckPoint, c.index, c.checkpoints);
    if c.precommit.Some? {
      EvidenceGrows(nodes, self, sent, sent, w, w', Prepare, c.index, c.precommit.value.hash);
    }
  }

  lemma AuthLater(nodes: seq<Node>, self: nat, caches: Caches, sent: seq<Msg>, w: World, w': World)
    requires AuthOk(nodes, self, caches, sent, w) && WorldLater(w, w')
    ensures AuthOk(nodes, self, caches, sent, w')
  {
    hide AuthCache, WorldLater;
    forall i | i in caches ensures AuthCache(nodes, self, sent, w', caches[i]) {
      AuthCacheLater(nodes, self, sent, w, w', caches[i]);
    }
  }

  lemma EvidenceLater(nodes: seq<Node>, self: nat, sent: seq<Msg>, w: World, w': World)
    requires WorldLater(w, w')
    ensures forall kind, i, h :: Evidence(nodes, self, sent, w, kind, i, h) ==> Evidence(nodes, self, sent, w', kind, i, h)
  {
    hide Evidence, Cast;
    forall kind, i, h | Evidence(nodes, self, sent, w, kind, i, h) ensures Evidence(nodes, self, sent, w', kind, i, h) {
      EvidenceGrows(nodes, self, sent, sent, w, w', kind, i, h);
    }
  }

  /** The evidence one replica relies on survives whatever the others broadcast later. */
  lemma InvLater(r: Replica, base: Proposal, w: World, w': World)
    requires Inv(r, base, w) && WorldLater(w, w')
    ensures Inv(r, base, w')
  {
    hide CfgOk, CachesOk, LockOk, QueueOk, AppliesOk, ExecOk, VotesOnce, LedgerOk, AllReported, Certified, DistinctSigners,
      Cast, AuthOk, Evidence, ChainOk;
    AuthLater(r.cfg.nodes, r.cfg.self, r.caches, r.env.sent, w, w');
    EvidenceLater(r.cfg.nodes, r.cfg.self, r.env.sent, w, w');
  }

  lemma NextLogs(s: Setting, net: Net, n: nat, r: Replica)
    requires n in net && Later(net[n], r)
    ensures WorldLater(WorldOf(s, net), WorldOf(s, net[n := r]))
  {
    hide CfgLater;
    ProvablePrefix(s, net[n].env.sent, r.env.sent);
    hide Provable;
  }

  /** One step of one replica keeps the invariants of all. */
  lemma StepKeeps(s: Setting, nodes: NodeList, start: Net, net: Net, step: Step)
    requires NetInv(s, nodes, start, net) && CanStep(s, net, step)
    ensures NetInv(s, nodes, start, Next(net, step))
  {
    hide Inv, VcInv, React, Enabled, Later, WorldLater, Kept;
    var n, net' := step.node, Next(net, step);
    ReactKeeps(s, nodes, start, net, n, step.event);
    NextLogs(s, net, n, React(net[n], step.event));
    forall b | b in net' ensures ReplicaOk(nodes, b, net'[b], Base(start, b), WorldOf(s, net')) {
      assert ReplicaOk(nodes, b, net'[b], Base(start, b), WorldOf(s, net));
      InvLater(net'[b], Base(start, b), WorldOf(s, net), WorldOf(s, net'));
    }
  }

  lemma StartedOk(nodes: NodeList, n: nat, r: Replica, w: World)
    requires Started(nodes, n, r)
    ensures ReplicaOk(nodes, n, r, r.cfg.committed, w)
  {
  }

  lemma InitOk(s: Setting, nodes: NodeList, net: Net)
    requires Init(nodes, net)
    ensures NetInv(s, nodes, net, net)
  {
    hide Started, ReplicaOk;
    forall n | n in net ensures ReplicaOk(nodes, n, net[n], Base(net, n), WorldOf(s, net)) {
      StartedOk(nodes, n, net[n], WorldOf(s, net));
    }
  }

  lemma {:induction false} RunKeeps(s: Setting, nodes: NodeList, run: seq<Net>, steps: seq<Step>, k: nat)
    requires IsRun(s, nodes, run, steps) && k < |run|
    ensures NetInv(s, nodes, run[0], run[k])
  {
    hide NetInv, Init, Next, CanStep;
    if k == 0 {
      InitOk(s, nodes, run[0]);
    } else {
      RunKeeps(s, nodes, run, steps, k - 1);
      assert Follows(s, run[k - 1], steps[k - 1], run[k]);
      StepKeeps(s, nodes, run[0], run[k - 1], steps[k - 1]);
    }
  }

  lemma StepLater(s: Setting, nodes: NodeList, start: Net, net: Net, step: Step, n: nat)
    requires NetInv(s, nodes, start, net) && CanStep(s, net, step) && n in net
    ensures n in Next(net, step) && Later(net[n], Next(net, step)[n]) && Kept(net[n], Next(net, step)[n])
  {
    hide NetInv, React, Enabled, ReplicaOk;
    ReactKeeps(s, nodes, start, net, step.node, step.event);
  }

  /** Along every run the logs of a replica only grow, its committed index, watermarks and view
      never decrease, and a checkpoint that was queued stays queued until it is submitted. */
  lemma {:induction false} RunIsLater(s: Setting, nodes: NodeList, run: seq<Net>, steps: seq<Step>, j: nat, k: nat, n: nat)
    requires IsRun(s, nodes, run, steps) && j <= k < |run| && n in run[j]
    ensures n in run[k]
    ensures Later(run[j][n], run[k][n])
    ensures Kept(run[j][n], run[k][n])
    decreases k
  {
    hide NetInv, Init, Next, CanStep, Later;
    if j == k {
      LaterItself(run[j][n]);
    } else {
      RunIsLater(s, nodes, run, steps, j, k - 1, n);
      RunKeeps(s, nodes, run, steps, k - 1);
      assert Follows(s, run[k - 1], steps[k - 1], run[k]);
      StepLater(s, nodes, run[0], run[k - 1], steps[k - 1], n);
      LaterTrans(run[j][n], run[k - 1][n], run[k][n]);
    }
  }
}
