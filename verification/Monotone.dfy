/** What no handler ever takes back: the logs of a replica only grow, its committed index, its
    watermarks and its view never decrease, and its identity stays. */
module Monotone {
  import opened Types
  import opened ConfigModel
  import opened CacheModel
  import opened ReplicaModel

  predicate CfgLater(g: Cfg, g': Cfg) {
    && g'.nodes == g.nodes && g'.self == g.self && g'.id == g.id
    && g'.period == g.period && g'.limit == g.limit
    && g.committed.index <= g'.committed.index
    && g.progressed <= g'.progressed
    && g.low <= g'.low
    && g.expected <= g'.expected
    && g.view <= g'.view
  }

  predicate EnvLater(e: Env, e': Env) {
    && e.sent <= e'.sent
    && e.sentChanges <= e'.sentChanges
    && e.sentNewViews <= e'.sentNewViews
    && e.applies <= e'.applies
    && e.ledger <= e'.ledger
    && e.decided <= e'.decided
  }

  predicate Later(r: Replica, r': Replica) {
    CfgLater(r.cfg, r'.cfg) && EnvLater(r.env, r'.env)
  }

  /** The view-change side of a replica: untouched by the ordering and checkpoint handlers. */
  predicate Quiet(r: Replica, r': Replica) {
    && r'.changes == r.changes && r'.maxCommitted == r.maxCommitted && r'.maxPrecommit == r.maxPrecommit
    && r'.env.sentChanges == r.env.sentChanges && r'.env.sentNewViews == r.env.sentNewViews
    && r'.cfg.committed == r.cfg.committed
    && r'.cfg.view == r.cfg.view
  }

  /** The checkpoint side of a replica: what waits for the ledger and what was submitted. */
  predicate Untouched(r: Replica, r': Replica) {
    r'.stableQueue == r.stableQueue && r'.env.ledger == r.env.ledger
  }

  lemma LaterTrans(a: Replica, b: Replica, c: Replica)
    requires Later(a, b) && Later(b, c)
    ensures Later(a, c)
  {
  }

  lemma LaterItself(r: Replica)
    ensures Later(r, r)
  {
  }

  lemma TryApplyLater(r: Replica)
    ensures Later(r, TryApply(r).0) && Quiet(r, TryApply(r).0) && TryApply(r).0.cfg == r.cfg
    ensures Untouched(r, TryApply(r).0)
  {
    hide DropBelow, AppliedCheckPoint;
  }

  lemma DecideLater(r: Replica, c: Cache)
    ensures Later(r, Decide(r, c)) && Quiet(r, Decide(r, c)) && Decide(r, c).cfg == r.cfg
    ensures Untouched(r, Decide(r, c))
  {
    hide TryApply, Insert;
    if c.precommit.Some? && c.precommit.value.proposal.Some? {
      var p := c.precommit.value.proposal.value;
      var r1 := r.(env := r.env.(decided := r.env.decided + [p]));
      TryApplyLater(r1.(commitQueue := Insert(r1.commitQueue, p)));
    }
  }

  lemma PrecommitAtLater(r: Replica, i: int)
    ensures Later(r, PrecommitAt(r, i)) && Quiet(r, PrecommitAt(r, i)) && PrecommitAt(r, i).cfg == r.cfg
    ensures Untouched(r, PrecommitAt(r, i))
  {
    hide Decide, CheckPrecommit, VotesCast;
    var c' := CheckPrecommit(CacheAt(r, i), r.cfg).0;
    DecideLater(LockAt(r, i), c');
  }

  lemma {:induction false} PrecommitEachLater(r: Replica, ks: seq<int>)
    ensures Later(r, PrecommitEach(r, ks)) && Quiet(r, PrecommitEach(r, ks)) && PrecommitEach(r, ks).cfg == r.cfg
    ensures Untouched(r, PrecommitEach(r, ks))
  {
    if ks != [] {
      hide PrecommitAt;
      var r1 := PrecommitEach(r, ks[..|ks| - 1]);
      PrecommitEachLater(r, ks[..|ks| - 1]);
      PrecommitAtLater(r1, ks[|ks| - 1]);
    }
  }

  lemma CommitAtLater(r: Replica, i: int)
    ensures Later(r, CommitAt(r, i)) && Quiet(r, CommitAt(r, i))
    ensures CommitAt(r, i).cfg == r.cfg || CommitAt(r, i).cfg == r.cfg.ResetToView()
    ensures Untouched(r, CommitAt(r, i))
  {
    var (c', enough) := CheckCommit(CacheAt(r, i), r.cfg);
    var r1 := Put(r, c'.(index := i));
    if enough {
      hide Decide, CheckCommit, CacheAt, EnvLater;
      DecideLater(r1, c');
    } else {
      hide CheckCommit, CacheAt;
    }
  }

  lemma {:induction false} CommitEachLater(r: Replica, ks: seq<int>)
    ensures Later(r, CommitEach(r, ks)) && Quiet(r, CommitEach(r, ks))
    ensures CommitEach(r, ks).cfg == r.cfg || CommitEach(r, ks).cfg == r.cfg.ResetToView()
    ensures Untouched(r, CommitEach(r, ks))
  {
    if ks != [] {
      hide CommitAt;
      CommitEachLater(r, ks[..|ks| - 1]);
      CommitAtLater(CommitEach(r, ks[..|ks| - 1]), ks[|ks| - 1]);
    }
  }

  lemma {:induction false} StabilizeEachLater(r: Replica, ks: seq<int>)
    ensures StabilizeEach(r, ks).0 == r.(caches := StabilizeEach(r, ks).0.caches)
  {
    if ks != [] {
      hide CheckStable;
      StabilizeEachLater(r, ks[..|ks| - 1]);
    }
  }

  lemma TryCommitStableLater(r: Replica)
    ensures var r' := TryCommitStable(r);
      && Later(r, r')
      && r' == r.(stableQueue := r'.stableQueue, env := r.env.(ledger := r'.env.ledger, committing := r'.env.committing))
  {
    hide DropBelow;
  }

  lemma {:induction false} QueueEachLater(r: Replica, ps: seq<Proposal>)
    ensures var r' := QueueEach(r, ps);
      && Later(r, r')
      && r' == r.(stableQueue := r'.stableQueue, env := r.env.(ledger := r'.env.ledger, committing := r'.env.committing))
  {
    if ps != [] {
      hide TryCommitStable, Insert;
      var r1 := QueueEach(r, ps[..|ps| - 1]);
      QueueEachLater(r, ps[..|ps| - 1]);
      TryCommitStableLater(r1.(stableQueue := Insert(r1.stableQueue, ps[|ps| - 1])));
    }
  }

  /** The checkpoint passes touch caches, the stable queue and the ledger log only. */
  lemma StableLater(r: Replica)
    ensures var r' := CheckAndCommitStable(r);
      && Later(r, r')
      && r' == r.(caches := r'.caches, stableQueue := r'.stableQueue,
                  env := r.env.(ledger := r'.env.ledger, committing := r'.env.committing))
  {
    hide StabilizeEach, QueueEach, Ascending;
    var ks := Ascending(r.caches.Keys);
    StabilizeEachLater(r, ks);
    var (r1, found) := StabilizeEach(r, ks);
    QueueEachLater(r1, found);
  }

  lemma RemoveInvalidLater(r: Replica, v: nat, index: int)
    ensures RemoveInvalidChanges(r, v, index) == r.(changes := RemoveInvalidChanges(r, v, index).changes)
  {
  }

  lemma HandlePrePrepareLater(r: Replica, m: Msg, verify: bool, fromNewView: bool, checkSignature: bool)
    ensures Later(r, HandlePrePrepare(r, m, verify, fromNewView, checkSignature).0) && Quiet(r, HandlePrePrepare(r, m, verify, fromNewView, checkSignature).0)
    ensures Untouched(r, HandlePrePrepare(r, m, verify, fromNewView, checkSignature).0)
  {
    hide AcceptsPrePrepare, AddPrePrepareCache, AddPrepare, PrecommitEach, Ascending;
    var r1 := AddPrePrepareCache(r, m);
    var own := r1.cfg.Own(Prepare, m.index, CarriedHash(m));
    var r2 := Send(AddPrepare(r1, own), own);
    FiledLater(r, m, own);
    PrecommitEachLater(r2, Ascending(r2.caches.Keys));
    var r3 := CheckAndPreCommit(r2);
    PrecommitEachLater(r3, Ascending(r3.caches.Keys));
  }

  /** Accepting a pre-prepare and filing the own vote touches one cache. */
  lemma FiledLater(r: Replica, m: Msg, own: Msg)
    ensures AddPrePrepareCache(r, m) == r.(caches := AddPrePrepareCache(r, m).caches)
    ensures var r' := AddPrepare(AddPrePrepareCache(r, m), own); r' == r.(caches := r'.caches)
  {
    hide AddPrePrepare, AddVote;
  }

  lemma HandlePrepareLater(r: Replica, m: Msg)
    ensures Later(r, HandlePrepare(r, m).0) && Quiet(r, HandlePrepare(r, m).0)
    ensures Untouched(r, HandlePrepare(r, m).0)
  {
    hide VoteOk, AddVote, PrecommitEach, Ascending;
    var r1 := AddPrepare(r, m);
    PrecommitEachLater(r1, Ascending(r1.caches.Keys));
  }

  lemma HandleCommitLater(r: Replica, m: Msg)
    ensures Later(r, HandleCommit(r, m).0) && Quiet(r, HandleCommit(r, m).0)
    ensures Untouched(r, HandleCommit(r, m).0)
  {
    hide VoteOk, AddVote, CommitEach, Ascending;
    var r1 := AddCommit(r, m);
    CommitEachLater(r1, Ascending(r1.caches.Keys));
  }

  lemma HandleCheckPointLater(r: Replica, m: Msg)
    ensures Later(r, HandleCheckPoint(r, m).0) && Quiet(r, HandleCheckPoint(r, m).0)
  {
    hide AddVote, TryApply, CheckAndCommitStable;
    var r1 := AddCheckPointMsg(r, m);
    TryApplyLater(r1);
    StableLater(TryApply(r1).0);
  }

  lemma RecordExecutedLater(r: Replica, executed: Proposal)
    requires r.cfg.expected <= executed.index + 1
    ensures Later(r, RecordExecuted(r, executed)) && Quiet(r, RecordExecuted(r, executed))
    ensures Untouched(r, RecordExecuted(r, executed))
  {
    hide AddVote, SetCheckPoint;
  }

  lemma OnAppliedLater(r: Replica, p: Proposal, executed: Proposal)
    requires r.cfg.expected <= executed.index + 1
    ensures Later(r, OnApplied(r, p, executed)) && Quiet(r, OnApplied(r, p, executed))
  {
    hide RecordExecuted, TryApply, CheckAndCommitStable;
    RecordExecutedLater(r, executed);
    var r1 := RecordExecuted(r, executed);
    StableLater(r1);
    TryApplyLater(CheckAndCommitStable(r1));
  }

  lemma FinalizeLater(r: Replica, number: int, hash: Hash)
    requires number >= r.cfg.committed.index
    ensures Later(r, Finalize(r, number, hash))
  {
    hide TryApply, TryCommitStable;
    var r0 := r.(cfg := r.cfg.ResetConfig(number, hash));
    TryApplyLater(r0);
    var r1 := TryApply(r0).0;
    TryCommitStableLater(RemoveConsensused(r1, r1.cfg.view, number));
  }

  lemma TryNewViewLater(r: Replica)
    ensures Later(r, TryNewView(r))
    ensures Untouched(r, TryNewView(r))
  {
    hide CanBuildNewView, BuildNewView, ReachNewView;
    var (r1, nv) := CheckIntoNewView(r);
    if nv.Some? {
      ReachNewViewLater(r1, nv.value.view);
    }
  }

  lemma BroadcastViewChangeLater(r: Replica)
    ensures Later(r, BroadcastViewChange(r))
    ensures Untouched(r, BroadcastViewChange(r))
  {
    hide TryNewView, RaiseToAll, OwnViewChange;
    var vc := OwnViewChange(r);
    TryNewViewLater(AddViewChange(r.(env := r.env.(sentChanges := r.env.sentChanges + [vc])), vc));
  }

  lemma TriggerTimeoutLater(r: Replica)
    ensures Later(r, TriggerTimeout(r))
    ensures Untouched(r, TriggerTimeout(r))
  {
    hide BroadcastViewChange;
    var r1 := r.(cfg := r.cfg.ResetTimeout());
    BroadcastViewChangeLater(RemoveInvalidChanges(r1, r1.cfg.view, r1.cfg.committed.index));
  }

  lemma OnTimeoutLater(r: Replica)
    ensures Later(r, OnTimeout(r))
    ensures Untouched(r, OnTimeout(r))
  {
    hide TryApply, TriggerTimeout;
    TryApplyLater(r);
    TriggerTimeoutLater(ClearExpired(TryApply(r).0));
  }

  lemma TryFastViewChangeLater(r: Replica)
    ensures Later(r, TryFastViewChange(r).0)
    ensures Untouched(r, TryFastViewChange(r).0)
  {
    hide GreaterWeight, SmallestAbove, Ascending;
  }

  lemma JudgeLater(r: Replica, vc: ViewChange)
    ensures Later(r, Judge(r, vc).0) && Untouched(r, Judge(r, vc).0)
    ensures Judge(r, vc).0.cfg.committed == r.cfg.committed
  {
    hide ValidViewChange, BroadcastViewChange, CfgLater, EnvLater;
    LaterItself(r);
    BroadcastViewChangeLater(r);
    BroadcastViewChangeFrame(r);
  }

  lemma BroadcastViewChangeFrame(r: Replica)
    ensures BroadcastViewChange(r).cfg.committed == r.cfg.committed
  {
    hide RaiseToAll, OwnViewChange, CanBuildNewView, BuildNewView, ResetAfterViewChange;
    var vc := OwnViewChange(r);
    var r1 := AddViewChange(r.(env := r.env.(sentChanges := r.env.sentChanges + [vc])), vc);
    var (r2, nv) := CheckIntoNewView(r1);
    if nv.Some? {
      var r3 := r2.(cfg := r2.cfg.ResetNewView(nv.value.view));
      ResetAfterLater(r3, r3.cfg.view, r3.cfg.committed.index);
    }
  }

  lemma UntouchedTrans(a: Replica, b: Replica, c: Replica)
    requires Untouched(a, b) && Untouched(b, c)
    ensures Untouched(a, c)
  {
  }

  lemma {:induction false} JudgeAllLater(r: Replica, vcs: seq<ViewChange>)
    ensures Later(r, JudgeAll(r, vcs).0) && Untouched(r, JudgeAll(r, vcs).0)
    ensures JudgeAll(r, vcs).0.cfg.committed == r.cfg.committed
  {
    hide Judge, Later;
    if vcs == [] {
      LaterItself(r);
    } else {
      JudgeAllLater(r, vcs[..|vcs| - 1]);
      var (r1, ok) := JudgeAll(r, vcs[..|vcs| - 1]);
      JudgeLater(r1, vcs[|vcs| - 1]);
      LaterTrans(r, r1, Judge(r1, vcs[|vcs| - 1]).0);
    }
  }

  lemma JudgeNewViewLater(r: Replica, nv: NewView)
    ensures Later(r, JudgeNewView(r, nv).0) && Untouched(r, JudgeNewView(r, nv).0)
  {
    hide JudgeAll, Later, ChangesWeight;
    LaterItself(r);
    JudgeAllLater(r, nv.viewChanges);
  }

  lemma JoinLaterLater(r: Replica, from: nat)
    ensures Later(r, JoinLater(r, from)) && Untouched(r, JoinLater(r, from))
  {
    hide TryFastViewChange, TriggerTimeout, Later, Cfg.LeaderIn;
    var (joined, v) := TryFastViewChange(r);
    LaterItself(r);
    TryFastViewChangeLater(r);
    TriggerTimeoutLater(joined);
    LaterTrans(r, joined, TriggerTimeout(joined));
  }

  lemma AddViewChangeLater(r: Replica, vc: ViewChange)
    ensures Later(r, AddViewChange(r, vc)) && Untouched(r, AddViewChange(r, vc))
  {
    hide RaiseToAll;
  }

  lemma HandleViewChangeLater(r: Replica, vc: ViewChange)
    ensures Later(r, HandleViewChange(r, vc).0)
    ensures Untouched(r, HandleViewChange(r, vc).0)
  {
    hide Judge, AddViewChange, JoinLater, TryNewView, Later;
    var r1 := Judge(r, vc).0;
    JudgeLater(r, vc);
    var r2 := AddViewChange(r1, vc);
    AddViewChangeLater(r1, vc);
    LaterTrans(r, r1, r2);
    var r3 := JoinLater(r2, vc.from);
    JoinLaterLater(r2, vc.from);
    LaterTrans(r, r2, r3);
    TryNewViewLater(r3);
    LaterTrans(r, r3, TryNewView(r3));
  }

  lemma ResetAfterLater(r: Replica, v: nat, index: int)
    ensures ResetAfterViewChange(r, v, index).cfg == r.cfg
    ensures ResetAfterViewChange(r, v, index).env == r.env
    ensures ResetAfterViewChange(r, v, index).stableQueue == r.stableQueue
  {
    hide ResetView;
  }

  lemma ReachNewViewLater(r: Replica, v: nat)
    ensures Later(r, ReachNewView(r, v))
    ensures Untouched(r, ReachNewView(r, v))
  {
    hide ResetAfterViewChange;
    var r1 := r.(cfg := r.cfg.ResetNewView(v));
    ResetAfterLater(r1, r1.cfg.view, r1.cfg.committed.index);
  }

  lemma HandleNewViewLater(r: Replica, nv: NewView)
    ensures Later(r, HandleNewView(r, nv).0)
    ensures Untouched(r, HandleNewView(r, nv).0)
  {
    hide JudgeNewView, ReachNewView, Later;
    var r1 := JudgeNewView(r, nv).0;
    JudgeNewViewLater(r, nv);
    ReachNewViewLater(r1, nv.view);
    LaterTrans(r, r1, ReachNewView(r1, nv.view));
  }

  lemma TryRecoverLater(r: Replica)
    ensures Later(r, TryRecover(r).0)
    ensures Untouched(r, TryRecover(r).0)
  {
    hide RecoveredView, Ascending, ResetAfterViewChange;
    var v := RecoveredView(r.cfg, r.recovers, Ascending(r.recovers.Keys));
    ResetAfterLater(r.(cfg := r.cfg.ResetNewView(v)), v, r.cfg.committed.index);
  }

  lemma HandleRecoverLater(r: Replica, m: Msg)
    ensures Later(r, HandleRecover(r, m))
    ensures Untouched(r, HandleRecover(r, m))
  {
    hide TryRecover;
    TryRecoverLater(AddRecover(r, m));
  }
}
