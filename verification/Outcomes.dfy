/** What the steps that order nothing bring about: timeouts, joining a later view, recovery, results
    and written blocks. */
module Outcomes {
  import opened Types
  import opened Weights
  import opened ConfigModel
  import opened CacheModel
  import opened ReplicaModel
  import opened CacheInvariant
  import opened ReplicaInvariant
  import opened HandlerInvariant
  import opened Monotone
  import opened FastViewChange
  import opened Progress
  import opened Admission
  import Steps

  // ---- Timeouts ----

  /** The view changes that are left once those for views up to `v` and those of senders behind
      block `number` are dropped. */
  ghost predicate StillFiled(book: ChangeBook, left: ChangeBook, v: nat, number: int) {
    && (forall w :: w in left <==> w in book && w > v)
    && (forall w, n :: w in left ==> (n in left[w] <==> n in book[w] && book[w][n].index >= number))
    && (forall w, n :: w in left && n in left[w] ==> left[w][n] == book[w][n])
  }

  /** A timeout raises the view to reach by one, drops the view changes that are outdated, announces
      the own one for that view and files it like any other; a new view it completes is entered. */
  lemma TimeoutExact(r: Replica) returns (r1: Replica)
    ensures var g := r.cfg;
      var vc := OwnViewChange(r).(view := g.toView + 1);
      && r1 == r.(cfg := g.(timeout := true, toView := g.toView + 1), changes := r1.changes,
                  env := r.env.(sentChanges := r.env.sentChanges + [vc]))
      && StillFiled(r.changes, r1.changes, g.view, g.committed.index)
      && TriggerTimeout(r) == TryNewView(AddViewChange(r1, vc))
  {
    hide TryNewView, AddViewChange, Prepared;
    var r0 := r.(cfg := r.cfg.ResetTimeout());
    var r2 := RemoveInvalidChanges(r0, r0.cfg.view, r0.cfg.committed.index);
    r1 := r2.(env := r2.env.(sentChanges := r2.env.sentChanges + [OwnViewChange(r2)]));
    SameOwn(r, r2);
  }

  lemma SameOwn(r: Replica, r': Replica)
    requires r'.caches == r.caches && r'.cfg == r.cfg.(timeout := r'.cfg.timeout, toView := r'.cfg.toView)
    ensures OwnViewChange(r') == OwnViewChange(r).(view := r'.cfg.toView)
  {
    hide PreparedOf, Ascending;
  }

  /** The consensus timer: what can be executed is executed; otherwise, while a proposal above the
      committed index is executing, only the marks of committed ones are dropped; otherwise the
      next view is asked for. */
  lemma OnTimeoutExact(r: Replica, base: Proposal, w: World)
    requires Inv(r, base, w)
    ensures var g, r' := r.cfg, OnTimeout(r);
      if && (g.expected - 1 == g.committed.index || (g.expected - 1 in r.caches && r.caches[g.expected - 1].checkpoint.Some?))
         && exists p :: p in r.commitQueue && p.index == g.expected && p.hash !in r.executing
      then (exists call :: Executes(r, r', call)) && r'.cfg == g
      else
        var left := map h | h in r.executing && r.executing[h] > g.committed.index :: r.executing[h];
        var r1 := r.(commitQueue := TryApply(r).0.commitQueue, executing := left);
        if exists h :: h in r.executing && r.executing[h] > g.committed.index then r' == r1 else r' == TriggerTimeout(r1)
  {
    hide OnTimeout, TriggerTimeout, TryApply, Inv, Executes, Sorted;
    ApplyExact(r, base, w);
    QueueSorted(r, base, w);
    ApplyEffect(r);
    OnTimeoutIs(r);
  }

  lemma OnTimeoutIs(r: Replica)
    ensures var (r1, applied) := TryApply(r);
      OnTimeout(r) ==
        if applied then r1
        else
          var r2 := r1.(executing := map h | h in r1.executing && r1.executing[h] > r1.cfg.committed.index :: r1.executing[h]);
          if exists h :: h in r1.executing && r1.executing[h] > r1.cfg.committed.index then r2 else TriggerTimeout(r2)
  {
    hide TriggerTimeout, TryApply, ClearExpired;
    MarksLeft(TryApply(r).0);
  }

  lemma MarksLeft(r: Replica)
    ensures ClearExpired(r) ==
      r.(executing := map h | h in r.executing && r.executing[h] > r.cfg.committed.index :: r.executing[h])
    ensures |ClearExpired(r).executing| > 0 <==> exists h :: h in r.executing && r.executing[h] > r.cfg.committed.index
  {
    if h :| h in r.executing && r.executing[h] > r.cfg.committed.index {
      assert h in ClearExpired(r).executing;
    } else {
      assert ClearExpired(r).executing == map[];
    }
  }

  lemma QueueSorted(r: Replica, base: Proposal, w: World)
    requires Inv(r, base, w)
    ensures Sorted(r.commitQueue)
  {
    hide CfgOk, CachesOk, LockOk, AuthOk, AppliesOk, ExecOk, VotesOnce, LedgerOk, AllStable, AllReported, DecidedOk, ChainOk, ResultsOk;
  }

  /** A view change that is not behind the committed block, but whose sender has fallen behind the view of
      this replica or by more than one behind the view to reach, is answered with the own view change
      while a timeout lasts; the own one is filed, and a new view it completes is entered. */
  lemma AnswerExact(r: Replica, vc: ViewChange)
    ensures var own := OwnViewChange(r);
      Judge(r, vc).0 ==
        if && vc.committed.index >= r.cfg.committed.index && r.cfg.timeout
           && (vc.view < r.cfg.view || vc.view + 1 < r.cfg.toView)
        then TryNewView(AddViewChange(r.(env := r.env.(sentChanges := r.env.sentChanges + [own])), own))
        else r
  {
    hide TryNewView, AddViewChange, OwnViewChange, ValidViewChange;
  }

  /** An accepted view change is filed in the state left by the answer; then a later view is joined if the
      leader asks for one, and a new view that is complete is entered. A refused one leaves nothing but
      the answer. */
  lemma ViewChangeFiled(r: Replica, vc: ViewChange)
    ensures var r1 := Judge(r, vc).0;
      HandleViewChange(r, vc).0 ==
        if HandleViewChange(r, vc).1 then TryNewView(JoinLater(AddViewChange(r1, vc), vc.from)) else r1
  {
    hide TryNewView, AddViewChange, JoinLater, Judge;
  }

  /** An accepted new view is entered in the state left by the answers, unless they led beyond it. */
  lemma {:induction false} NewViewFollowed(r: Replica, nv: NewView)
    requires HandleNewView(r, nv).1
    ensures var r1 := JudgeAll(r, nv.viewChanges).0;
      if r1.cfg.view <= nv.view then Entered(r1, HandleNewView(r, nv).0, nv.view)
      else HandleNewView(r, nv).0.cfg == r1.cfg
  {
    hide JudgeAll, ChangesWeight, ReachNewView, Entered;
    ViewEntered(JudgeAll(r, nv.viewChanges).0, nv.view);
  }

  // ---- Joining a later view ----

  lemma {:induction false} WeighsNothing(nodes: seq<Node>, s: set<nat>, k: nat)
    requires k <= |nodes|
    ensures WeightUpTo(nodes, s, k) == 0 <==> forall n: nat :: n < k && n in s ==> nodes[n].weight == 0
  {
    if k > 0 {
      WeighsNothing(nodes, s, k - 1);
    }
  }

  /** The senders of view changes for the views in `vs` above `v`. */
  function SendersAbove(changes: ChangeBook, v: nat, vs: seq<int>): set<nat> {
    set w, n | w in vs && w > v && w in changes && n in changes[w] :: n
  }

  /** Nobody with weight has asked for two of these views. */
  ghost predicate AskOnce(nodes: seq<Node>, changes: ChangeBook, v: nat, vs: seq<int>) {
    forall u, w, n ::
      (u in vs && w in vs && v < u < w && u in changes && w in changes && n in changes[u] && n in changes[w] && n < |nodes|)
      ==> nodes[n].weight == 0
  }

  lemma SendersMore(changes: ChangeBook, v: nat, vs: seq<int>, w: int)
    ensures SendersAbove(changes, v, vs + [w])
      == SendersAbove(changes, v, vs) + if w > v && w in changes then changes[w].Keys else {}
  {
    var all := SendersAbove(changes, v, vs + [w]);
    var some := SendersAbove(changes, v, vs) + if w > v && w in changes then changes[w].Keys else {};
    forall n | n in some ensures n in all {
      if n in SendersAbove(changes, v, vs) {
        var u :| u in vs && u > v && u in changes && n in changes[u];
        assert u in vs + [w];
      } else {
        assert w in vs + [w];
      }
    }
    forall n | n in all ensures n in some {
      var u :| u in vs + [w] && u > v && u in changes && n in changes[u];
      assert u in vs || u == w;
    }
  }

  lemma AskOnceMore(nodes: seq<Node>, changes: ChangeBook, v: nat, vs: seq<int>, w: int)
    requires forall u :: u in vs ==> u < w
    ensures w > v && w in changes ==>
      (AskOnce(nodes, changes, v, vs + [w]) <==>
        AskOnce(nodes, changes, v, vs)
        && forall n :: n in SendersAbove(changes, v, vs) && n in changes[w] && n < |nodes| ==> nodes[n].weight == 0)
    ensures !(w > v && w in changes) ==> (AskOnce(nodes, changes, v, vs + [w]) <==> AskOnce(nodes, changes, v, vs))
  {
    assert forall u :: u in vs + [w] <==> u in vs || u == w;
    if w > v && w in changes && AskOnce(nodes, changes, v, vs + [w]) {
      forall n | n in SendersAbove(changes, v, vs) && n in changes[w] && n < |nodes| ensures nodes[n].weight == 0 {
        var u :| u in vs && u > v && u in changes && n in changes[u];
      }
    }
  }

  /** The weight behind later views is at least that of the nodes that ask for any of them, and it is
      that weight exactly if no node with weight asks for two of them. */
  lemma {:induction false} GreaterWeightExact(g: Cfg, changes: ChangeBook, vs: seq<int>)
    requires forall i, j :: 0 <= i < j < |vs| ==> vs[i] < vs[j]
    ensures var s := SendersAbove(changes, g.toView, vs);
      && GreaterWeight(g, changes, vs) >= Weight(g.nodes, s)
      && (GreaterWeight(g, changes, vs) == Weight(g.nodes, s) <==> AskOnce(g.nodes, changes, g.toView, vs))
  {
    hide SendersAbove, AskOnce;
    if vs == [] {
      NobodyAsks(g, changes);
    } else {
      var front, w := vs[..|vs| - 1], vs[|vs| - 1];
      assert vs == front + [w];
      GreaterWeightExact(g, changes, front);
      SendersMore(changes, g.toView, front, w);
      AskOnceMore(g.nodes, changes, g.toView, front, w);
      if w > g.toView && w in changes {
        OverlapWeighs(g.nodes, SendersAbove(changes, g.toView, front), changes[w].Keys);
      } else {
        assert SendersAbove(changes, g.toView, vs) == SendersAbove(changes, g.toView, front);
      }
    }
  }

  lemma OverlapWeighs(nodes: seq<Node>, a: set<nat>, b: set<nat>)
    ensures Weight(nodes, a) + Weight(nodes, b) >= Weight(nodes, a + b)
    ensures Weight(nodes, a) + Weight(nodes, b) == Weight(nodes, a + b)
      <==> forall n :: n in a && n in b && n < |nodes| ==> nodes[n].weight == 0
  {
    hide WeightUpTo;
    InclusionExclusion(nodes, a, b, |nodes|);
    WeighsNothing(nodes, a * b, |nodes|);
  }

  lemma NobodyAsks(g: Cfg, changes: ChangeBook)
    ensures SendersAbove(changes, g.toView, []) == {} && AskOnce(g.nodes, changes, g.toView, [])
    ensures Weight(g.nodes, SendersAbove(changes, g.toView, [])) == 0
  {
    assert SendersAbove(changes, g.toView, []) == {};
    WeightOfNone(g.nodes);
  }

  /** The check adds up a sender once for each later view it asks for: of four equal nodes a single one
      that asks for two views gives the weight that should need two nodes. */
  lemma {:induction false} OneSenderSuffices(g: Cfg, a: ViewChange, b: ViewChange)
    requires g.nodes == FOUR && g.toView == 1
    ensures var changes: ChangeBook := map[2 := map[0 := a], 3 := map[0 := b]];
      && GreaterWeight(g, changes, [2, 3]) == 2 >= g.Faulty() + 1
      && Weight(FOUR, SendersAbove(changes, 1, [2, 3])) == 1 < g.Faulty() + 1
  {
    var changes: ChangeBook := map[2 := map[0 := a], 3 := map[0 := b]];
    FourFacts({0});
    assert FOUR[..3][..2] == FOUR[..2] && FOUR[..2][..1] == FOUR[..1] && FOUR[..1][..0] == [];
    assert Total(FOUR[..1]) == 1 && Total(FOUR[..2]) == 2 && Total(FOUR[..3]) == 3 && Total(FOUR) == 4;
    hide Weight, Total;
    assert [2, 3][..1] == [2] && [2][..0] == [];
    assert map[0 := a].Keys == {0} && map[0 := b].Keys == {0};
    assert GreaterWeight(g, changes, [2]) == 1;
    assert 2 in [2, 3];
    assert SendersAbove(changes, 1, [2, 3]) == {0};
  }

  /** After a view change from the current leader, and only then, a replica joins the smallest later
      view that anybody asks for, if the weight behind later views is more than the faulty nodes can
      have: it times out into exactly that view. */
  lemma JoinExact(r: Replica, from: nat)
    ensures var g := r.cfg;
      if && from == ((MaxInt(g.expected, g.committed.index + 1) % UINT64) / g.period + g.view) % |g.nodes|
         && GreaterWeight(g, r.changes, Ascending(r.changes.Keys)) > MaxFaulty(Total(g.nodes))
         && exists v :: v in r.changes && v > g.toView
      then exists v :: v in r.changes && v > g.toView && (forall u :: u in r.changes && u > g.toView ==> v <= u)
             && JoinLater(r, from) == TriggerTimeout(r.(cfg := g.(toView := v - 1)))
      else JoinLater(r, from) == r
  {
    hide GreaterWeight, Ascending, TriggerTimeout, Total, TryFastViewChange, Cfg.Leader, Cfg.SealStart, MaxFaulty;
    LeaderToSeal(r.cfg);
    FastTarget(r);
  }

  lemma LeaderToSeal(g: Cfg)
    ensures g.Leader(g.SealStart())
      == ((MaxInt(g.expected, g.committed.index + 1) % UINT64) / g.period + g.view) % |g.nodes|
  {
  }

  lemma FastTarget(r: Replica)
    ensures var g := r.cfg; var (r', v) := TryFastViewChange(r);
      if GreaterWeight(g, r.changes, Ascending(r.changes.Keys)) > MaxFaulty(Total(g.nodes))
         && exists v :: v in r.changes && v > g.toView
      then v in r.changes && v > g.toView && (forall u :: u in r.changes && u > g.toView ==> v <= u)
           && r' == r.(cfg := g.(toView := v - 1))
      else v == 0 && r' == r
  {
    hide GreaterWeight, Ascending, SmallestAbove, Total;
    var vs := Ascending(r.changes.Keys);
    SmallestAmong(r.cfg.toView, vs);
    assert forall v: nat :: v in vs <==> v in r.changes;
  }

  // ---- Recovery ----

  /** A recover response is filed exactly if it verifies and its sender has none filed for its view. */
  lemma ResponseFiled(r: Replica, m: Msg)
    ensures var votes := if m.view in r.recovers then r.recovers[m.view] else map[];
      HandleRecover(r, m) ==
        if m.from < |r.cfg.nodes| && r.cfg.nodes[m.from].id == m.signer then
          TryRecover(if m.from in votes then r else r.(recovers := r.recovers[m.view := votes[m.from := m]])).0
        else r
  {
    hide TryRecover;
  }

  /** If responses of quorum weight report a positive view, the highest such view is entered, unless it
      is below the current one, and the responses are forgotten; otherwise nothing changes. */
  lemma RecoverExact(r: Replica)
    ensures var g := r.cfg; var (r', recovered) := TryRecover(r);
      if exists v :: v in r.recovers && v > 0 && Weight(g.nodes, r.recovers[v].Keys) >= QuorumOf(g.nodes)
      then
        && recovered && r'.recovers == map[]
        && exists v :: v in r.recovers && v > 0 && Weight(g.nodes, r.recovers[v].Keys) >= QuorumOf(g.nodes)
             && (forall u :: u in r.recovers && u > v ==> Weight(g.nodes, r.recovers[u].Keys) < QuorumOf(g.nodes))
             && (if g.view <= v then Entered(r, r'.(recovers := AfterView(r.recovers, v)), v)
                 else r'.cfg == g && r'.caches == ResetCaches(r.caches, v))
      else r' == r && !recovered
  {
    hide Weight, QuorumOf, RecoveredView, Entered, Ascending, ResetAfterViewChange, ResetCaches;
    HighestReported(r);
    var v := RecoveredView(r.cfg, r.recovers, Ascending(r.recovers.Keys));
    if v != 0 {
      RecoveredEntered(r, v);
    }
  }

  lemma HighestReported(r: Replica)
    ensures var g := r.cfg; var v := RecoveredView(g, r.recovers, Ascending(r.recovers.Keys));
      if exists v :: v in r.recovers && v > 0 && Weight(g.nodes, r.recovers[v].Keys) >= QuorumOf(g.nodes)
      then v in r.recovers && v > 0 && Weight(g.nodes, r.recovers[v].Keys) >= QuorumOf(g.nodes)
           && forall u :: u in r.recovers && u > v ==> Weight(g.nodes, r.recovers[u].Keys) < QuorumOf(g.nodes)
      else v == 0
  {
    hide Weight, QuorumOf, RecoveredView, Ascending;
    var vs := Ascending(r.recovers.Keys);
    Steps.RecoveredIsHighest(r.cfg, r.recovers, vs);
    assert forall u: nat :: u in vs <==> u in r.recovers;
    var v := RecoveredView(r.cfg, r.recovers, vs);
    forall u | u in r.recovers && Weight(r.cfg.nodes, r.recovers[u].Keys) >= QuorumOf(r.cfg.nodes) ensures u <= v {
      assert u > 0 ==> Steps.Reports(r.cfg, r.recovers, u);
    }
  }

  lemma RecoveredEntered(r: Replica, v: nat)
    ensures var r' := ResetAfterViewChange(r.(cfg := r.cfg.ResetNewView(v)), v, r.cfg.committed.index);
      if r.cfg.view <= v then r'.recovers == AfterView(r.recovers, v) && Entered(r, r', v)
      else r'.cfg == r.cfg && r'.caches == ResetCaches(r.caches, v)
  {
    hide ResetView;
  }
}
