/** The invariants of the view-change bookkeeping of one replica: what it announced stays
    acceptable to itself, and what it cached is filed correctly and not outdated. */
module ViewChangeInvariant {
  import opened Types
  import opened Weights
  import opened ConfigModel
  import opened CacheModel
  import opened ReplicaModel
  import opened CacheInvariant
  import opened ReplicaInvariant
  import opened HandlerInvariant
  import opened Monotone

  /** A lock certificate this replica may announce in a view up to `view`. */
  ghost predicate Announceable(nodes: seq<Node>, view: nat, m: Msg) {
    && m.proposal.Some? && m.WellFormed() && m.view <= view
    && Certified(nodes, m.proposal.value.hash, m.proposal.value.proofs)
  }

  ghost predicate AllAnnounceable(nodes: seq<Node>, view: nat, ms: seq<Msg>) {
    forall m :: m in ms ==> Announceable(nodes, view, m)
  }

  /** An announcement of this replica, made when `committed` or an earlier block was its last. */
  ghost predicate OwnAnnouncement(g: Cfg, vc: ViewChange) {
    && vc.from == g.self && vc.signer == g.id
    && vc.index == vc.committed.index <= g.committed.index
    && (vc.index == g.committed.index ==> vc.committed.hash == g.committed.hash)
    && AllAnnounceable(g.nodes, g.view, vc.prepared)
  }

  ghost predicate SentOk(g: Cfg, sent: seq<ViewChange>) {
    forall vc :: vc in sent ==> OwnAnnouncement(g, vc)
  }

  /** A filed view change is under its own view and sender. Where the signature of a view change
      binds its content, one filed under this node is one it sent, and not outdated. */
  ghost predicate FiledChange(g: Cfg, sent: seq<ViewChange>, bound: bool, v: nat, n: nat, vc: ViewChange) {
    && vc.view == v && vc.from == n && n < |g.nodes|
    && (bound && n == g.self ==> vc in sent && vc.index >= g.committed.index)
  }

  ghost predicate FiledOk(g: Cfg, sent: seq<ViewChange>, bound: bool, changes: ChangeBook) {
    forall v, n :: v in changes && n in changes[v] ==> FiledChange(g, sent, bound, v, n, changes[v][n])
  }

  ghost predicate VcInv(r: Replica, bound: bool) {
    SentOk(r.cfg, r.env.sentChanges) && FiledOk(r.cfg, r.env.sentChanges, bound, r.changes)
  }

  /** Two configurations that agree on everything a cached or sent view change depends on. */
  predicate SameGround(g: Cfg, g': Cfg) {
    && g'.nodes == g.nodes && g'.self == g.self && g'.id == g.id
    && g'.committed == g.committed && g.view <= g'.view
  }

  lemma SentLater(g: Cfg, g': Cfg, sent: seq<ViewChange>)
    requires SentOk(g, sent) && SameGround(g, g')
    ensures SentOk(g', sent)
  {
    hide Certified;
  }

  lemma KeepVcInv(bound: bool, r: Replica, r': Replica)
    requires VcInv(r, bound) && SameGround(r.cfg, r'.cfg)
    requires r'.env.sentChanges == r.env.sentChanges
    requires forall v, n :: v in r'.changes && n in r'.changes[v] ==>
      v in r.changes && n in r.changes[v] && r'.changes[v][n] == r.changes[v][n]
    ensures VcInv(r', bound)
  {
    SentLater(r.cfg, r'.cfg, r.env.sentChanges);
    hide SentOk;
  }

  lemma QuietKeeps(bound: bool, r: Replica, r': Replica)
    requires VcInv(r, bound) && Later(r, r') && Quiet(r, r')
    ensures VcInv(r', bound)
  {
    hide EnvLater, VcInv;
    KeepVcInv(bound, r, r');
  }

  lemma {:induction false} PreparedAnnounceable(g: Cfg, caches: Caches, ks: seq<int>)
    requires CachesOk(g, caches)
    ensures AllAnnounceable(g.nodes, g.view, PreparedOf(caches, ks))
  {
    if ks != [] {
      var i := ks[|ks| - 1];
      PreparedAnnounceable(g, caches, ks[..|ks| - 1]);
      assert i in caches ==> CacheOk(g, caches[i]);
      hide CachesOk, VotesFiled, VotesSigned, VotesCurrent, Certified, DistinctSigners;
    }
  }

  lemma OwnViewChangeOk(r: Replica, base: Proposal, w: World)
    requires Inv(r, base, w)
    ensures OwnAnnouncement(r.cfg, OwnViewChange(r))
  {
    hide LockOk, AuthOk, QueueOk, AppliesOk, ExecOk, VotesOnce, LedgerOk, AllStable, AllReported, DecidedOk, PreparedOf, Ascending, ChainOk, ResultsOk;
    PreparedAnnounceable(r.cfg, r.caches, Ascending(r.caches.Keys));
  }

  lemma AddViewChangeVc(bound: bool, r: Replica, vc: ViewChange)
    requires VcInv(r, bound)
    requires bound && vc.from == r.cfg.self ==> vc in r.env.sentChanges && vc.index >= r.cfg.committed.index
    ensures VcInv(AddViewChange(r, vc), bound)
  {
    hide SentOk, RaiseToAll;
  }

  lemma ReachNewViewVc(bound: bool, r: Replica, v: nat)
    requires VcInv(r, bound)
    ensures VcInv(ReachNewView(r, v), bound)
  {
    hide VcInv, ResetView;
    KeepVcInv(bound, r, ReachNewView(r, v));
  }

  lemma TryNewViewVc(bound: bool, r: Replica)
    requires VcInv(r, bound)
    ensures VcInv(TryNewView(r), bound)
  {
    hide CanBuildNewView, BuildNewView, ReachNewView, SentOk, FiledOk;
    var (r1, nv) := CheckIntoNewView(r);
    if nv.Some? {
      ReachNewViewVc(bound, r1, nv.value.view);
    }
  }

  lemma AnnounceVc(bound: bool, r: Replica, vc: ViewChange)
    requires VcInv(r, bound) && OwnAnnouncement(r.cfg, vc)
    ensures VcInv(r.(env := r.env.(sentChanges := r.env.sentChanges + [vc])), bound)
  {
    hide OwnAnnouncement;
  }

  lemma BroadcastViewChangeVc(r: Replica, base: Proposal, w: World)
    requires Inv(r, base, w) && VcInv(r, w.bound)
    ensures VcInv(BroadcastViewChange(r), w.bound)
  {
    OwnViewChangeOk(r, base, w);
    hide Inv, VcInv, OwnAnnouncement, Prepared, AddViewChange, TryNewView;
    var vc := OwnViewChange(r);
    AnnounceVc(w.bound, r, vc);
    var r1 := r.(env := r.env.(sentChanges := r.env.sentChanges + [vc]));
    AddViewChangeVc(w.bound, r1, vc);
    TryNewViewVc(w.bound, AddViewChange(r1, vc));
  }

  lemma TriggerTimeoutVc(r: Replica, base: Proposal, w: World)
    requires Inv(r, base, w) && VcInv(r, w.bound)
    ensures VcInv(TriggerTimeout(r), w.bound)
  {
    hide Inv, VcInv, BroadcastViewChange;
    var r1 := r.(cfg := r.cfg.ResetTimeout());
    var r2 := RemoveInvalidChanges(r1, r1.cfg.view, r1.cfg.committed.index);
    KeepVcInv(w.bound, r, r2);
    TimeoutCfgKeeps(r, base, w);
    OtherFieldsKeep(r1, r2, base, w);
    BroadcastViewChangeVc(r2, base, w);
  }

  lemma OnTimeoutVc(r: Replica, base: Proposal, w: World)
    requires Inv(r, base, w) && VcInv(r, w.bound)
    ensures VcInv(OnTimeout(r), w.bound)
  {
    hide Inv, VcInv, TryApply, TriggerTimeout;
    TryApplyLater(r);
    QuietKeeps(w.bound, r, TryApply(r).0);
    TryApplyKeeps(r, base, w);
    var r1 := TryApply(r).0;
    ClearExpiredKeeps(r1, base, w);
    KeepVcInv(w.bound, r1, ClearExpired(r1));
    TriggerTimeoutVc(ClearExpired(r1), base, w);
  }

  lemma JudgeVc(r: Replica, vc: ViewChange, base: Proposal, w: World)
    requires Inv(r, base, w) && VcInv(r, w.bound)
    ensures VcInv(Judge(r, vc).0, w.bound)
  {
    hide Inv, VcInv, ValidViewChange, BroadcastViewChange;
    BroadcastViewChangeVc(r, base, w);
  }

  lemma {:induction false} JudgeAllVc(r: Replica, vcs: seq<ViewChange>, base: Proposal, w: World)
    requires Inv(r, base, w) && VcInv(r, w.bound)
    ensures VcInv(JudgeAll(r, vcs).0, w.bound)
  {
    hide Inv, VcInv, Judge;
    if vcs != [] {
      var front := vcs[..|vcs| - 1];
      JudgeAllVc(r, front, base, w);
      JudgeAllKeeps(r, front, base, w);
      JudgeVc(JudgeAll(r, front).0, vcs[|vcs| - 1], base, w);
    }
  }

  lemma JoinLaterVc(r: Replica, from: nat, base: Proposal, w: World)
    requires Inv(r, base, w) && VcInv(r, w.bound)
    ensures VcInv(JoinLater(r, from), w.bound)
  {
    hide Inv, VcInv, TryFastViewChange, TriggerTimeout, Cfg.LeaderIn;
    TryFastViewChangeKeeps(r, base, w);
    FastVc(w.bound, r);
    TriggerTimeoutVc(TryFastViewChange(r).0, base, w);
  }

  lemma ValidIsFresh(r: Replica, vc: ViewChange)
    requires Judge(r, vc).1
    ensures vc.committed.index >= Judge(r, vc).0.cfg.committed.index
    ensures Judge(r, vc).0.cfg.SignedBy(vc.from, vc.signer)
  {
    hide PrecommitOk, BroadcastViewChange;
  }

  lemma SentIndex(bound: bool, r: Replica, vc: ViewChange)
    requires VcInv(r, bound) && vc in r.env.sentChanges
    ensures vc.index == vc.committed.index
  {
  }

  lemma HandleViewChangeVc(r: Replica, vc: ViewChange, base: Proposal, w: World)
    requires Inv(r, base, w) && VcInv(r, w.bound)
    requires w.bound && vc.from == r.cfg.self && vc.signer == r.cfg.id ==> vc in r.env.sentChanges
    ensures VcInv(HandleViewChange(r, vc).0, w.bound)
  {
    hide Inv, VcInv, Judge, AddViewChange, JoinLater, TryNewView, BroadcastViewChange;
    JudgeVc(r, vc, base, w);
    JudgeKeeps(r, vc, base, w);
    JudgeLater(r, vc);
    var r1 := Judge(r, vc).0;
    if Judge(r, vc).1 {
      ValidIsFresh(r, vc);
      InvCfg(r1, base, w);
      if vc in r.env.sentChanges {
        SentIndex(w.bound, r, vc);
      }
      AddViewChangeVc(w.bound, r1, vc);
      AddViewChangeKeeps(r1, vc, base, w);
      JoinLaterVc(AddViewChange(r1, vc), vc.from, base, w);
      TryNewViewVc(w.bound, JoinLater(AddViewChange(r1, vc), vc.from));
    }
  }

  lemma FastVc(bound: bool, r: Replica)
    requires VcInv(r, bound)
    ensures VcInv(TryFastViewChange(r).0, bound)
  {
    hide VcInv, GreaterWeight, Ascending;
    var g := TryFastViewChange(r).0.cfg;
    assert TryFastViewChange(r).0 == r.(cfg := r.cfg.(toView := g.toView));
    hide TryFastViewChange;
    KeepVcInv(bound, r, r.(cfg := g));
  }

  lemma HandleNewViewVc(r: Replica, nv: NewView, base: Proposal, w: World)
    requires Inv(r, base, w) && VcInv(r, w.bound)
    ensures VcInv(HandleNewView(r, nv).0, w.bound)
  {
    hide Inv, VcInv, JudgeAll, ChangesWeight, ReachNewView;
    JudgeAllVc(r, nv.viewChanges, base, w);
    ReachNewViewVc(w.bound, JudgeNewView(r, nv).0, nv.view);
  }

  lemma ResetAfterVc(bound: bool, r: Replica, g: Cfg, v: nat)
    requires VcInv(r, bound) && SameGround(r.cfg, g)
    ensures VcInv(ResetAfterViewChange(r.(cfg := g), v, g.committed.index), bound)
  {
    hide VcInv, ResetView;
    KeepVcInv(bound, r, ResetAfterViewChange(r.(cfg := g), v, g.committed.index));
  }

  lemma HandleRecoverVc(bound: bool, r: Replica, m: Msg)
    requires VcInv(r, bound)
    ensures VcInv(HandleRecover(r, m), bound)
  {
    hide VcInv, RecoveredView, Ascending, ResetAfterViewChange;
    var r1 := AddRecover(r, m);
    KeepVcInv(bound, r, r1);
    var v := RecoveredView(r1.cfg, r1.recovers, Ascending(r1.recovers.Keys));
    var g := r1.cfg.ResetNewView(v);
    ResetAfterVc(bound, r1, g, v);
    var r2 := ResetAfterViewChange(r1.(cfg := g), v, g.committed.index);
    KeepVcInv(bound, r2, r2.(recovers := map[]));
  }

  /** Writing a block evicts the view changes that name an earlier one, so none that is kept
      is outdated. */
  lemma FinalizeVc(r: Replica, base: Proposal, w: World)
    requires Inv(r, base, w) && |r.env.committing| == 1 && VcInv(r, w.bound)
    ensures var q := r.env.committing[0];
      VcInv(Finalize(r.(env := r.env.(committing := [])), q.index, q.hash), w.bound)
  {
    var q := r.env.committing[0];
    var g := r.cfg.ResetConfig(q.index, q.hash);
    WrittenKeeps(r, base, w);
    hide Inv, TryApply, TryCommitStable;
    var r0 := r.(cfg := g, env := r.env.(committing := []));
    TryApplyLater(r0);
    var r1 := TryApply(r0).0;
    var r2 := RemoveConsensused(r1, r1.cfg.view, q.index);
    TryCommitStableLater(r2);
    WrittenVc(w.bound, r, r2);
    hide VcInv, RemoveConsensused;
    KeepVcInv(w.bound, r2, TryCommitStable(r2));
  }

  lemma WrittenVc(bound: bool, r: Replica, r': Replica)
    requires VcInv(r, bound)
    requires r'.cfg.nodes == r.cfg.nodes && r'.cfg.self == r.cfg.self && r'.cfg.id == r.cfg.id && r'.cfg.view == r.cfg.view
    requires r'.cfg.committed.index > r.cfg.committed.index
    requires r'.env.sentChanges == r.env.sentChanges
    requires forall v, n :: v in r'.changes && n in r'.changes[v] ==>
      && v in r.changes && n in r.changes[v] && r'.changes[v][n] == r.changes[v][n]
      && r'.changes[v][n].index >= r'.cfg.committed.index
    ensures VcInv(r', bound)
  {
    hide AllAnnounceable;
  }

  /** Where the content of a view change is bound, a replica never rejects its own pending one:
      what it still caches of itself for a later view is valid in its current state. */
  lemma OwnChangeValid(r: Replica, base: Proposal, w: World, v: nat)
    requires Inv(r, base, w) && VcInv(r, w.bound)
    requires w.bound && v >= r.cfg.view && v in r.changes && r.cfg.self in r.changes[v]
    ensures ValidViewChange(r.cfg, r.changes[v][r.cfg.self])
  {
    InvCfg(r, base, w);
    hide Inv;
    var vc := r.changes[v][r.cfg.self];
    assert FiledChange(r.cfg, r.env.sentChanges, true, v, r.cfg.self, vc);
    assert OwnAnnouncement(r.cfg, vc);
    forall k | 0 <= k < |vc.prepared| ensures PrecommitOk(r.cfg, vc.prepared[k]) {
      assert Announceable(r.cfg.nodes, r.cfg.view, vc.prepared[k]);
    }
  }
}
