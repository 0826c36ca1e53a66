/** The handlers that order nothing: at most checkpoint votes are sent, nothing new is accepted, no
    prepare is filed, and what is given up is past. */
module PassiveSteps {
  import opened Types
  import opened ConfigModel
  import opened CacheModel
  import opened ReplicaModel
  import opened CacheInvariant
  import opened ReplicaInvariant
  import opened HandlerInvariant
  import opened Monotone
  import opened VoteOrder

  // ---- Which steps order nothing ----

  lemma PutPassive(r: Replica, c: Cache)
    requires SameRound(Accepted(r.caches, c.index), c.prePrepare) && FewerVotes(PreparesAt(r.caches, c.index), c.prepares)
    ensures Passive(r, Put(r, c))
  {
  }

  lemma TryApplyPassive(r: Replica)
    ensures Passive(r, TryApply(r).0)
  {
    hide DropBelow, Passive;
    PassiveItself(r, TryApply(r).0);
  }

  lemma DecidePassive(r: Replica, c: Cache)
    ensures Passive(r, Decide(r, c))
  {
    hide DropBelow, Insert, Passive;
    PassiveItself(r, Decide(r, c));
  }

  lemma CommitAtPassive(r: Replica, i: int)
    ensures Passive(r, CommitAt(r, i))
  {
    var (c', enough) := CheckCommit(CacheAt(r, i), r.cfg);
    var r1 := Put(r, c'.(index := i));
    CommitFields(CacheAt(r, i), r.cfg);
    hide CheckCommit, Decide, Passive;
    PutPassive(r, c'.(index := i));
    if enough {
      DecidePassive(r1, c');
      PassiveTrans(r, r1, Decide(r1, c'));
      var r2 := Decide(r1, c');
      PassiveItself(r2, r2.(cfg := r2.cfg.ResetToView()));
      PassiveTrans(r, r2, r2.(cfg := r2.cfg.ResetToView()));
    }
  }

  lemma CommitFields(c: Cache, g: Cfg)
    ensures var c' := CheckCommit(c, g).0; c'.prePrepare == c.prePrepare && c'.prepares == c.prepares
  {
    hide Enough;
  }

  lemma {:induction false} CommitEachPassive(r: Replica, ks: seq<int>)
    ensures Passive(r, CommitEach(r, ks))
  {
    hide CommitAt, Passive;
    if ks == [] {
      PassiveItself(r, r);
    } else {
      var r1 := CommitEach(r, ks[..|ks| - 1]);
      CommitEachPassive(r, ks[..|ks| - 1]);
      CommitAtPassive(r1, ks[|ks| - 1]);
      PassiveTrans(r, r1, CommitAt(r1, ks[|ks| - 1]));
    }
  }

  lemma StabilizePassive(r: Replica, found: seq<Proposal>, i: int)
    ensures Passive(r, StabilizeOne(r, found, i).0)
  {
    var c' := CheckStable(CacheAt(r, i), r.cfg).0;
    StableFields(CacheAt(r, i), r.cfg);
    hide CheckStable, Passive;
    PutPassive(r, c'.(index := i));
  }

  lemma StableFields(c: Cache, g: Cfg)
    ensures var c' := CheckStable(c, g).0; c'.prePrepare == c.prePrepare && c'.prepares == c.prepares
  {
    hide HasQuorum, SignatureList;
  }

  lemma {:induction false} StabilizeEachPassive(r: Replica, ks: seq<int>)
    ensures Passive(r, StabilizeEach(r, ks).0)
  {
    hide StabilizeOne, Passive;
    if ks == [] {
      PassiveItself(r, r);
    } else {
      var (r1, found) := StabilizeEach(r, ks[..|ks| - 1]);
      StabilizeEachPassive(r, ks[..|ks| - 1]);
      StabilizePassive(r1, found, ks[|ks| - 1]);
      PassiveTrans(r, r1, StabilizeOne(r1, found, ks[|ks| - 1]).0);
    }
  }

  lemma StablePassive(r: Replica)
    ensures Passive(r, CheckAndCommitStable(r))
  {
    hide StabilizeEach, QueueEach, Ascending, Passive;
    var ks := Ascending(r.caches.Keys);
    var (r1, found) := StabilizeEach(r, ks);
    StabilizeEachPassive(r, ks);
    QueueEachLater(r1, found);
    PassiveItself(r1, QueueEach(r1, found));
    PassiveTrans(r, r1, QueueEach(r1, found));
  }

  lemma HandleCommitPassive(r: Replica, m: Msg)
    ensures Passive(r, HandleCommit(r, m).0)
  {
    hide VoteOk, AddVote, CommitEach, Ascending, Passive;
    var c := CacheAt(r, m.index);
    PutPassive(r, c.(index := m.index, commits := AddVote(r.cfg.nodes, m.index, c.commits, m)));
    var r1 := AddCommit(r, m);
    CommitEachPassive(r1, Ascending(r1.caches.Keys));
    PassiveTrans(r, r1, CheckAndCommit(r1));
    PassiveItself(r, r);
  }

  lemma AddCheckPointPassive(r: Replica, m: Msg)
    ensures Passive(r, AddCheckPointMsg(r, m))
  {
    hide AddVote, Passive;
    var c := CacheAt(r, m.index);
    PutPassive(r, c.(index := m.index, checkpoints := AddVote(r.cfg.nodes, m.index, c.checkpoints, m)));
  }

  lemma HandleCheckPointPassive(r: Replica, m: Msg)
    ensures Passive(r, HandleCheckPoint(r, m).0)
  {
    hide AddCheckPointMsg, TryApply, CheckAndCommitStable, Passive;
    var r1 := AddCheckPointMsg(r, m);
    var r2 := TryApply(r1).0;
    AddCheckPointPassive(r, m);
    TryApplyPassive(r1);
    PassiveTrans(r, r1, r2);
    StablePassive(r2);
    PassiveTrans(r, r2, CheckAndCommitStable(r2));
    PassiveItself(r, r);
  }

  lemma SendsCheckPoint(r: Replica, m: Msg)
    requires m.kind == CheckPoint
    ensures Passive(r, Send(r, m))
  {
  }

  lemma RecordPassive(r: Replica, executed: Proposal)
    requires r.cfg.expected <= executed.index + 1
    ensures Passive(r, RecordExecuted(r, executed))
  {
    hide AddCheckPointMsg, SetCheckPoint, Passive;
    var own := r.cfg.Own(CheckPoint, executed.index, executed.hash);
    var r1, r2 := Send(r, own), AddCheckPointMsg(Send(r, own), own);
    SendsCheckPoint(r, own);
    AddCheckPointPassive(r1, own);
    PassiveTrans(r, r1, r2);
    var r3 := SetCheckPointProposal(r2, executed);
    SetPassive(r2, executed);
    PassiveTrans(r, r2, r3);
    AddCheckPointFrame(r1, own);
    PassiveItself(r3, r3.(cfg := r3.cfg.SetExpected(executed.index + 1)));
    PassiveTrans(r, r3, r3.(cfg := r3.cfg.SetExpected(executed.index + 1)));
  }

  lemma AddCheckPointFrame(r: Replica, m: Msg)
    ensures AddCheckPointMsg(r, m).cfg == r.cfg
  {
  }

  lemma SetPassive(r: Replica, p: Proposal)
    ensures Passive(r, SetCheckPointProposal(r, p))
  {
    SetFields(CacheAt(r, p.index), r.cfg, p);
    hide SetCheckPoint, Passive;
    PutPassive(r, SetCheckPoint(CacheAt(r, p.index), r.cfg, p).(index := p.index));
  }

  lemma SetFields(c: Cache, g: Cfg, p: Proposal)
    ensures SetCheckPoint(c, g, p).prePrepare == c.prePrepare && SetCheckPoint(c, g, p).prepares == c.prepares
  {
  }

  lemma OnAppliedPassive(r: Replica, p: Proposal, executed: Proposal)
    requires r.cfg.expected <= executed.index + 1
    ensures Passive(r, OnApplied(r, p, executed))
  {
    hide RecordExecuted, TryApply, CheckAndCommitStable, Passive;
    var r1 := RecordExecuted(r, executed);
    var r2 := CheckAndCommitStable(r1);
    var r3 := TryApply(r2).0;
    RecordPassive(r, executed);
    StablePassive(r1);
    PassiveTrans(r, r1, r2);
    TryApplyPassive(r2);
    PassiveTrans(r, r2, r3);
    PassiveItself(r3, EraseExecuted(r3, p.hash));
    PassiveTrans(r, r3, EraseExecuted(r3, p.hash));
    PassiveItself(r, r);
  }

  // ---- Eviction and view changes ----

  /** What is evicted is committed, or its checkpoint is stable and so it was executed. */
  lemma EvictionPassive(r: Replica, v: nat, number: int, base: Proposal, w: World)
    requires Inv(r, base, w) && number <= r.cfg.committed.index
    ensures Passive(r, RemoveConsensused(r, v, number))
  {
    hide LockOk, AuthOk, QueueOk, AppliesOk, ExecOk, VotesOnce, LedgerOk, AllStable, AllReported, DecidedOk, ChainOk, ResultsOk,
      SelfOk, VotesFiled, VotesSigned, VotesCurrent, LockMessage, RemoveInvalidChanges;
    var r' := RemoveConsensused(r, v, number);
    EvictionFrame(r, v, number);
    hide RemoveConsensused;
    forall i ensures PassiveAt(Floor(r.cfg), r.caches, r'.caches, i) {
      assert i in r.caches ==> CacheOk(r.cfg, r.caches[i]);
    }
  }

  lemma EvictionFrame(r: Replica, v: nat, number: int)
    ensures var r' := RemoveConsensused(r, v, number);
      r'.cfg == r.cfg && r'.env == r.env && r'.caches == Unfinished(r.caches, number)
  {
  }

  /** Writing a block: try to execute, evict, submit what is next. */
  lemma WritingPassive(r: Replica, number: int, base: Proposal, w: World)
    requires Inv(r, base, w) && number == r.cfg.committed.index
    ensures var r1 := TryApply(r).0; Passive(r, TryCommitStable(RemoveConsensused(r1, r1.cfg.view, number)))
  {
    hide Inv, TryApply, RemoveConsensused, TryCommitStable, Passive;
    TryApplyKeeps(r, base, w);
    TryApplyLater(r);
    var r1 := TryApply(r).0;
    var r2 := RemoveConsensused(r1, r1.cfg.view, number);
    TryApplyPassive(r);
    EvictionPassive(r1, r1.cfg.view, number, base, w);
    PassiveTrans(r, r1, r2);
    TryCommitStableLater(r2);
    hide Later;
    PassiveItself(r2, TryCommitStable(r2));
    PassiveTrans(r, r2, TryCommitStable(r2));
  }

  lemma FinalizePassive(r: Replica, base: Proposal, w: World)
    requires Inv(r, base, w) && |r.env.committing| == 1
    ensures var q := r.env.committing[0];
      Passive(r, Finalize(r.(env := r.env.(committing := [])), q.index, q.hash))
  {
    var q := r.env.committing[0];
    var r0 := r.(cfg := r.cfg.ResetConfig(q.index, q.hash), env := r.env.(committing := []));
    WrittenKeeps(r, base, w);
    hide Inv, TryApply, RemoveConsensused, TryCommitStable, Passive;
    PassiveItself(r, r0);
    WritingPassive(r0, q.index, base, w);
    PassiveTrans(r, r0, Finalize(r.(env := r.env.(committing := [])), q.index, q.hash));
  }

  lemma ResetFields(c: Cache, v: nat)
    ensures ResetView(c, v).prePrepare == c.prePrepare && FewerVotes(c.prepares, ResetView(c, v).prepares)
  {
  }

  lemma ResetPassive(r: Replica, v: nat, index: int)
    ensures Passive(r, ResetAfterViewChange(r, v, index))
  {
    hide ResetView, ResetAfterViewChange;
    var r' := ResetAfterViewChange(r, v, index);
    ResetAfterLater(r, v, index);
    ResetFrame(r, v, index);
    forall i ensures PassiveAt(Floor(r.cfg), r.caches, r'.caches, i) {
      ResetFields(CacheAt(r, i), v);
    }
  }

  lemma ResetFrame(r: Replica, v: nat, index: int)
    ensures ResetAfterViewChange(r, v, index).caches == ResetCaches(r.caches, v)
  {
    hide ResetView;
  }

  lemma ReachPassive(r: Replica, v: nat)
    ensures Passive(r, ReachNewView(r, v))
  {
    hide ResetAfterViewChange, Passive;
    var r1 := r.(cfg := r.cfg.ResetNewView(v));
    PassiveItself(r, r1);
    ResetPassive(r1, r1.cfg.view, r1.cfg.committed.index);
    PassiveTrans(r, r1, ReachNewView(r, v));
  }

  lemma TryNewViewPassive(r: Replica)
    ensures Passive(r, TryNewView(r))
  {
    hide CanBuildNewView, BuildNewView, ReachNewView, Passive;
    var (r1, nv) := CheckIntoNewView(r);
    PassiveItself(r, r1);
    if nv.Some? {
      ReachPassive(r1, nv.value.view);
      PassiveTrans(r, r1, ReachNewView(r1, nv.value.view));
    }
  }

  lemma AddViewChangePassive(r: Replica, vc: ViewChange)
    ensures Passive(r, AddViewChange(r, vc))
  {
    hide RaiseToAll, Passive;
    PassiveItself(r, AddViewChange(r, vc));
  }

  lemma BroadcastPassive(r: Replica)
    ensures Passive(r, BroadcastViewChange(r))
  {
    hide OwnViewChange, AddViewChange, TryNewView, Passive;
    var vc := OwnViewChange(r);
    var r1 := r.(env := r.env.(sentChanges := r.env.sentChanges + [vc]));
    PassiveItself(r, r1);
    AddViewChangePassive(r1, vc);
    var r2 := AddViewChange(r1, vc);
    PassiveTrans(r, r1, r2);
    TryNewViewPassive(r2);
    PassiveTrans(r, r2, TryNewView(r2));
  }

  lemma TimeoutPassive(r: Replica)
    ensures Passive(r, TriggerTimeout(r))
  {
    hide BroadcastViewChange, Passive;
    var r1 := r.(cfg := r.cfg.ResetTimeout());
    var r2 := RemoveInvalidChanges(r1, r1.cfg.view, r1.cfg.committed.index);
    PassiveItself(r, r2);
    BroadcastPassive(r2);
    PassiveTrans(r, r2, BroadcastViewChange(r2));
  }

  lemma OnTimeoutPassive(r: Replica)
    ensures Passive(r, OnTimeout(r))
  {
    hide TryApply, TriggerTimeout, Passive;
    TryApplyPassive(r);
    var r1 := TryApply(r).0;
    var r2 := ClearExpired(r1);
    PassiveItself(r1, r2);
    PassiveTrans(r, r1, r2);
    TimeoutPassive(r2);
    PassiveTrans(r, r2, TriggerTimeout(r2));
  }

  lemma JudgePassive(r: Replica, vc: ViewChange)
    ensures Passive(r, Judge(r, vc).0)
  {
    hide ValidViewChange, BroadcastViewChange, Passive;
    PassiveItself(r, r);
    BroadcastPassive(r);
  }

  lemma {:induction false} JudgeAllPassive(r: Replica, vcs: seq<ViewChange>)
    ensures Passive(r, JudgeAll(r, vcs).0)
  {
    hide Judge, Passive;
    if vcs == [] {
      PassiveItself(r, r);
    } else {
      JudgeAllPassive(r, vcs[..|vcs| - 1]);
      var r1 := JudgeAll(r, vcs[..|vcs| - 1]).0;
      JudgePassive(r1, vcs[|vcs| - 1]);
      PassiveTrans(r, r1, Judge(r1, vcs[|vcs| - 1]).0);
    }
  }

  lemma JoinPassive(r: Replica, from: nat)
    ensures Passive(r, JoinLater(r, from))
  {
    hide TryFastViewChange, TriggerTimeout, Passive, Cfg.LeaderIn;
    JoinsLater(r);
    var joined := TryFastViewChange(r).0;
    PassiveItself(r, r);
    PassiveItself(r, joined);
    TimeoutPassive(joined);
    PassiveTrans(r, joined, TriggerTimeout(joined));
  }

  lemma HandleViewChangePassive(r: Replica, vc: ViewChange)
    ensures Passive(r, HandleViewChange(r, vc).0)
  {
    hide Judge, AddViewChange, JoinLater, TryNewView, Passive;
    JudgePassive(r, vc);
    var r1 := Judge(r, vc).0;
    var r2 := AddViewChange(r1, vc);
    AddViewChangePassive(r1, vc);
    PassiveTrans(r, r1, r2);
    var r3 := JoinLater(r2, vc.from);
    JoinPassive(r2, vc.from);
    PassiveTrans(r, r2, r3);
    TryNewViewPassive(r3);
    PassiveTrans(r, r3, TryNewView(r3));
  }

  lemma HandleNewViewPassive(r: Replica, nv: NewView)
    ensures Passive(r, HandleNewView(r, nv).0)
  {
    hide JudgeAll, ReachNewView, ChangesWeight, Passive;
    PassiveItself(r, r);
    JudgeAllPassive(r, nv.viewChanges);
    var r1 := JudgeNewView(r, nv).0;
    ReachPassive(r1, nv.view);
    PassiveTrans(r, r1, ReachNewView(r1, nv.view));
  }

  lemma HandleRecoverPassive(r: Replica, m: Msg)
    ensures Passive(r, HandleRecover(r, m))
  {
    hide RecoveredView, Ascending, ResetAfterViewChange, Passive;
    var r1 := AddRecover(r, m);
    PassiveItself(r, r1);
    PassiveItself(r, r);
    var v := RecoveredView(r1.cfg, r1.recovers, Ascending(r1.recovers.Keys));
    var r2 := r1.(cfg := r1.cfg.ResetNewView(v));
    var r3 := ResetAfterViewChange(r2, v, r1.cfg.committed.index);
    PassiveItself(r1, r2);
    PassiveTrans(r, r1, r2);
    ResetPassive(r2, v, r1.cfg.committed.index);
    PassiveTrans(r, r2, r3);
    PassiveItself(r3, r3.(recovers := map[]));
    PassiveTrans(r, r3, r3.(recovers := map[]));
  }
}
