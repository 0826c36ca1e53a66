/** Every handler of the engine keeps the invariants of its replica. */
module HandlerInvariant {
  import opened Types
  import opened ConfigModel
  import opened CacheModel
  import opened ReplicaModel
  import opened CacheInvariant
  import opened ReplicaInvariant
  import opened Monotone

  lemma InvCfg(r: Replica, base: Proposal, w: World)
    requires Inv(r, base, w)
    ensures CfgOk(r.cfg)
  {
    hide CachesOk, LockOk, AuthOk, QueueOk, AppliesOk, ExecOk, VotesOnce, LedgerOk, AllStable, AllReported, DecidedOk, ChainOk, ResultsOk;
  }

  lemma CheckAndPreCommitKeeps(r: Replica, base: Proposal, w: World)
    requires Inv(r, base, w)
    ensures Inv(CheckAndPreCommit(r), base, w)
  {
    hide Inv, PrecommitEach, Ascending;
    PrecommitEachKeeps(r, Ascending(r.caches.Keys), base, w);
  }

  /** Counting and broadcasting an own vote: the order of the two does not matter. */
  lemma OwnPrepareKeeps(r: Replica, own: Msg, base: Proposal, w: World)
    requires Inv(r, base, w)
    requires own.kind == Prepare && own.view >= r.cfg.view && own.from == r.cfg.self
    requires own.from < |r.cfg.nodes| ==> SigOf(own) == Sig(r.cfg.nodes[own.from].id, own.hash)
    ensures Inv(Send(AddPrepare(r, own), own), base, w)
  {
    hide Inv, SigOf, AddVote, Cast;
    SendPrepareKeeps(r, own, base, w);
    CastAppend(r.env.sent, own);
    AddPrepareKeeps(Send(r, own), own, base, w);
    assert Send(AddPrepare(r, own), own) == AddPrepare(Send(r, own), own);
  }

  lemma BroadcastPrepareKeeps(r: Replica, m: Msg, base: Proposal, w: World)
    requires Inv(r, base, w) && m.WellFormed()
    ensures Inv(BroadcastPrepare(r, m), base, w)
  {
    InvCfg(r, base, w);
    hide Inv, CheckAndPreCommit, AddPrepare;
    var own := r.cfg.Own(Prepare, m.index, m.hash);
    OwnPrepareKeeps(r, own, base, w);
    CheckAndPreCommitKeeps(Send(AddPrepare(r, own), own), base, w);
  }

  lemma HandlePrePrepareKeeps(r: Replica, m: Msg, verify: bool, fromNewView: bool, checkSignature: bool,
                              base: Proposal, w: World)
    requires Inv(r, base, w) && m.WellFormed()
    ensures Inv(HandlePrePrepare(r, m, verify, fromNewView, checkSignature).0, base, w)
  {
    hide Inv, PrePrepareOk, CheckAndPreCommit, AddPrePrepareCache, BroadcastPrepare;
    if AcceptsPrePrepare(r, m, fromNewView, checkSignature) && !verify {
      AddPrePrepareCacheKeeps(r, m, base, w);
      var r1 := AddPrePrepareCache(r, m);
      BroadcastPrepareKeeps(r1, m, base, w);
      CheckAndPreCommitKeeps(BroadcastPrepare(r1, m), base, w);
    }
  }

  lemma HandlePrepareKeeps(r: Replica, m: Msg, base: Proposal, w: World)
    requires Inv(r, base, w) && m.WellFormed() && m.kind == Prepare
    requires Justified(r.cfg.self, r.env.sent, w, m.from, Prepare, m.index, m.hash)
    ensures Inv(HandlePrepare(r, m).0, base, w)
  {
    if VoteOk(r, m) && r.cfg.ProposalSignatureOk(m.from, m.proposal) {
      hide Inv, CheckAndPreCommit, Justified;
      AddPrepareKeeps(r, m, base, w);
      CheckAndPreCommitKeeps(AddPrepare(r, m), base, w);
    }
  }

  lemma HandleCommitKeeps(r: Replica, m: Msg, base: Proposal, w: World)
    requires Inv(r, base, w) && m.kind == Commit
    requires Justified(r.cfg.self, r.env.sent, w, m.from, Commit, m.index, m.hash)
    ensures Inv(HandleCommit(r, m).0, base, w)
  {
    if VoteOk(r, m) {
      hide Inv, CommitEach, Ascending, Justified;
      AddCommitKeeps(r, m, base, w);
      var r1 := AddCommit(r, m);
      CommitEachKeeps(r1, Ascending(r1.caches.Keys), base, w);
    }
  }

  lemma ProposalSigned(g: Cfg, m: Msg)
    requires m.WellFormed() && g.ProposalSignatureOk(m.from, m.proposal)
    ensures m.from < |g.nodes| ==> SigOf(m) == Sig(g.nodes[m.from].id, m.hash)
  {
  }

  lemma HandleCheckPointKeeps(r: Replica, m: Msg, base: Proposal, w: World)
    requires Inv(r, base, w) && m.kind == CheckPoint && m.WellFormed()
    requires Justified(r.cfg.self, r.env.sent, w, m.from, CheckPoint, m.index, m.hash)
    ensures Inv(HandleCheckPoint(r, m).0, base, w)
    ensures Kept(r, HandleCheckPoint(r, m).0)
  {
    if HandleCheckPoint(r, m).1 {
      ProposalSigned(r.cfg, m);
      hide Inv, Justified, TryApply, CheckAndCommitStable, SigOf, AddVote;
      AddCheckPointKeeps(r, m, base, w);
      var r1 := AddCheckPointMsg(r, m);
      TryApplyKeeps(r1, base, w);
      CheckAndCommitStableKeeps(TryApply(r1).0, base, w);
    }
  }

  lemma AfterRecording(r: Replica, h: Hash, base: Proposal, w: World)
    requires Inv(r, base, w) && r.env.running == [] && h in r.executing
    ensures Inv(EraseExecuted(TryApply(CheckAndCommitStable(r)).0, h), base, w)
    ensures Kept(r, EraseExecuted(TryApply(CheckAndCommitStable(r)).0, h))
  {
    hide Inv, TryApply, CheckAndCommitStable;
    CheckAndCommitStableKeeps(r, base, w);
    StableLater(r);
    var r2 := CheckAndCommitStable(r);
    TryApplyKeeps(r2, base, w);
    EraseExecutedKeeps(TryApply(r2).0, h, base, w);
  }

  lemma RecordExecutedFrame(r: Replica, executed: Proposal)
    ensures RecordExecuted(r, executed).executing == r.executing
    ensures RecordExecuted(r, executed).env.running == r.env.running
    ensures RecordExecuted(r, executed).stableQueue == r.stableQueue
    ensures RecordExecuted(r, executed).env.ledger == r.env.ledger
  {
    hide AddVote, SetCheckPoint;
  }

  /** The one running execution finishes. */
  lemma OnAppliedKeeps(r: Replica, executed: Proposal, base: Proposal, w: World)
    requires Inv(r, base, w)
    requires |r.env.running| == 1 && executed.index == r.env.running[0].proposal.index
    requires w.results(r.env.running[0].last.hash, r.env.running[0].proposal.hash, executed.hash)
    ensures r.cfg.committed.index < executed.index == r.cfg.expected
    ensures Inv(OnApplied(r.(env := r.env.(running := [])), r.env.running[0].proposal, executed), base, w)
    ensures Kept(r, OnApplied(r.(env := r.env.(running := [])), r.env.running[0].proposal, executed))
  {
    hide Inv, RecordExecuted, TryApply, CheckAndCommitStable, EraseExecuted, SelfOk;
    var r0 := r.(env := r.env.(running := []));
    InvCfg(r, base, w);
    RecordExecutedKeeps(r, executed, base, w);
    RecordExecutedFrame(r0, executed);
    AfterRecording(RecordExecuted(r0, executed), r.env.running[0].proposal.hash, base, w);
  }

  /** The one submitted block is written. */
  lemma FinalizeKeeps(r: Replica, base: Proposal, w: World)
    requires Inv(r, base, w) && |r.env.committing| == 1
    ensures var q := r.env.committing[0];
      Inv(Finalize(r.(env := r.env.(committing := [])), q.index, q.hash), base, w)
      && Kept(r, Finalize(r.(env := r.env.(committing := [])), q.index, q.hash))
  {
    var q := r.env.committing[0];
    var g := r.cfg.ResetConfig(q.index, q.hash);
    WrittenKeeps(r, base, w);
    hide Inv, TryApply, RemoveConsensused, TryCommitStable;
    var r0 := r.(cfg := g, env := r.env.(committing := []));
    TryApplyKeeps(r0, base, w);
    TryApplyLater(r0);
    var r1 := TryApply(r0).0;
    RemoveConsensusedKeeps(r1, r1.cfg.view, q.index, base, w);
    TryCommitStableKeeps(RemoveConsensused(r1, r1.cfg.view, q.index), base, w);
  }

  // ---- View changes ----

  lemma TryNewViewKeeps(r: Replica, base: Proposal, w: World)
    requires Inv(r, base, w)
    ensures Inv(TryNewView(r), base, w)
  {
    hide Inv, CanBuildNewView, BuildNewView, ReachNewView;
    var (r1, nv) := CheckIntoNewView(r);
    OtherFieldsKeep(r, r1, base, w);
    if nv.Some? {
      ReachNewViewKeeps(r1, nv.value.view, base, w);
    }
  }

  lemma AddViewChangeKeeps(r: Replica, vc: ViewChange, base: Proposal, w: World)
    requires Inv(r, base, w)
    ensures Inv(AddViewChange(r, vc), base, w)
  {
    hide Inv, RaiseToAll;
    OtherFieldsKeep(r, AddViewChange(r, vc), base, w);
  }

  lemma BroadcastViewChangeKeeps(r: Replica, base: Proposal, w: World)
    requires Inv(r, base, w)
    ensures Inv(BroadcastViewChange(r), base, w)
  {
    hide Inv, OwnViewChange, AddViewChange, TryNewView;
    var vc := OwnViewChange(r);
    var r1 := r.(env := r.env.(sentChanges := r.env.sentChanges + [vc]));
    OtherFieldsKeep(r, r1, base, w);
    AddViewChangeKeeps(r1, vc, base, w);
    TryNewViewKeeps(AddViewChange(r1, vc), base, w);
  }

  lemma TriggerTimeoutKeeps(r: Replica, base: Proposal, w: World)
    requires Inv(r, base, w)
    ensures Inv(TriggerTimeout(r), base, w)
  {
    TimeoutCfgKeeps(r, base, w);
    hide Inv, RemoveInvalidChanges, BroadcastViewChange;
    var r1 := r.(cfg := r.cfg.ResetTimeout());
    RemoveInvalidLater(r1, r1.cfg.view, r1.cfg.committed.index);
    var r2 := RemoveInvalidChanges(r1, r1.cfg.view, r1.cfg.committed.index);
    OtherFieldsKeep(r1, r2, base, w);
    BroadcastViewChangeKeeps(r2, base, w);
  }

  lemma OnTimeoutKeeps(r: Replica, base: Proposal, w: World)
    requires Inv(r, base, w)
    ensures Inv(OnTimeout(r), base, w)
  {
    hide Inv, TryApply, ClearExpired, TriggerTimeout;
    TryApplyKeeps(r, base, w);
    var (r1, applied) := TryApply(r);
    ClearExpiredKeeps(r1, base, w);
    TriggerTimeoutKeeps(ClearExpired(r1), base, w);
  }

  lemma TimeoutCfgKeeps(r: Replica, base: Proposal, w: World)
    requires Inv(r, base, w)
    ensures Inv(r.(cfg := r.cfg.ResetTimeout()), base, w)
  {
    var g := r.cfg.ResetTimeout();
    hide LockOk, AuthOk, QueueOk, AppliesOk, ExecOk, VotesOnce, LedgerOk, AllStable, AllReported, DecidedOk, ChainOk, ResultsOk;
    forall i | i in r.caches ensures CacheOk(g, r.caches[i]) {
      CacheOkLater(r.cfg, g, r.caches[i]);
    }
    hide CacheOk;
  }

  /** A view is joined from just below it, at or above the view to reach so far. */
  lemma JoinsLater(r: Replica)
    ensures var (r', target) := TryFastViewChange(r);
      if target == 0 then r' == r else target > r.cfg.toView && r' == r.(cfg := r.cfg.(toView := target - 1))
  {
    hide GreaterWeight, SmallestAbove, Ascending;
    SmallestAmong(r.cfg.toView, Ascending(r.changes.Keys));
  }

  lemma JoinedKeeps(r: Replica, r': Replica, target: nat, base: Proposal, w: World)
    requires Inv(r, base, w) && CfgOk(r.cfg)
    requires if target == 0 then r' == r else target > r.cfg.toView && r' == r.(cfg := r.cfg.(toView := target - 1))
    ensures Inv(r', base, w)
  {
    hide Inv;
    if target > 0 {
      ToViewKeeps(r, target - 1, base, w);
    }
  }

  lemma TryFastViewChangeKeeps(r: Replica, base: Proposal, w: World)
    requires Inv(r, base, w)
    ensures Inv(TryFastViewChange(r).0, base, w)
  {
    InvCfg(r, base, w);
    hide Inv;
    JoinsLater(r);
    hide TryFastViewChange, Ascending, SmallestAbove, GreaterWeight;
    JoinedKeeps(r, TryFastViewChange(r).0, TryFastViewChange(r).1, base, w);
  }

  lemma JudgeKeeps(r: Replica, vc: ViewChange, base: Proposal, w: World)
    requires Inv(r, base, w)
    ensures Inv(Judge(r, vc).0, base, w)
  {
    hide Inv, ValidViewChange, BroadcastViewChange;
    BroadcastViewChangeKeeps(r, base, w);
  }

  lemma {:induction false} JudgeAllKeeps(r: Replica, vcs: seq<ViewChange>, base: Proposal, w: World)
    requires Inv(r, base, w)
    ensures Inv(JudgeAll(r, vcs).0, base, w)
  {
    hide Inv, Judge;
    if vcs != [] {
      JudgeAllKeeps(r, vcs[..|vcs| - 1], base, w);
      JudgeKeeps(JudgeAll(r, vcs[..|vcs| - 1]).0, vcs[|vcs| - 1], base, w);
    }
  }

  lemma JoinLaterKeeps(r: Replica, from: nat, base: Proposal, w: World)
    requires Inv(r, base, w)
    ensures Inv(JoinLater(r, from), base, w)
  {
    hide Inv, TryFastViewChange, TriggerTimeout, Cfg.LeaderIn;
    TryFastViewChangeKeeps(r, base, w);
    TriggerTimeoutKeeps(TryFastViewChange(r).0, base, w);
  }

  lemma HandleViewChangeKeeps(r: Replica, vc: ViewChange, base: Proposal, w: World)
    requires Inv(r, base, w)
    ensures Inv(HandleViewChange(r, vc).0, base, w)
  {
    hide Inv, Judge, AddViewChange, JoinLater, TryNewView;
    JudgeKeeps(r, vc, base, w);
    var r1 := Judge(r, vc).0;
    AddViewChangeKeeps(r1, vc, base, w);
    JoinLaterKeeps(AddViewChange(r1, vc), vc.from, base, w);
    TryNewViewKeeps(JoinLater(AddViewChange(r1, vc), vc.from), base, w);
  }

  lemma HandleNewViewKeeps(r: Replica, nv: NewView, base: Proposal, w: World)
    requires Inv(r, base, w)
    ensures Inv(HandleNewView(r, nv).0, base, w)
  {
    hide Inv, JudgeAll, ChangesWeight, ReachNewView;
    JudgeAllKeeps(r, nv.viewChanges, base, w);
    ReachNewViewKeeps(JudgeNewView(r, nv).0, nv.view, base, w);
  }

  lemma HandleRecoverKeeps(r: Replica, m: Msg, base: Proposal, w: World)
    requires Inv(r, base, w)
    ensures Inv(HandleRecover(r, m), base, w)
  {
    hide Inv, TryRecover;
    OtherFieldsKeep(r, AddRecover(r, m), base, w);
    TryRecoverKeeps(AddRecover(r, m), base, w);
  }

  lemma SyncingKeeps(r: Replica, n: int, base: Proposal, w: World)
    requires Inv(r, base, w)
    ensures Inv(r.(cfg := r.cfg.(syncing := n)), base, w)
  {
    var g := r.cfg.(syncing := n);
    hide LockOk, AuthOk, QueueOk, AppliesOk, ExecOk, VotesOnce, LedgerOk, AllStable, AllReported, DecidedOk, ChainOk, ResultsOk;
    forall i | i in r.caches ensures CacheOk(g, r.caches[i]) {
      CacheOkLater(r.cfg, g, r.caches[i]);
    }
    hide CacheOk;
  }
}
