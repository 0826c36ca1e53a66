/** What a replica announces when it asks for another view: every lock it holds, and nothing else. */
module Announcements {
  import opened Types
  import opened Weights
  import opened ConfigModel
  import opened CacheModel
  import opened ReplicaModel
  import opened CacheInvariant
  import opened ReplicaInvariant
  import opened HandlerInvariant
  import opened Monotone
  import opened ViewChangeInvariant
  import opened Network
  import opened Runs
  import opened Safety
  import opened Progress

  /** One certificate for each lock, with its index, hash and view, in the order of the indices, and
      no other certificate. */
  ghost predicate ListsLocks(caches: Caches, ms: seq<Msg>) {
    && (forall j, k :: 0 <= j < k < |ms| ==> ms[j].index < ms[k].index)
    && (forall m :: m in ms ==>
          && m.index in caches && caches[m.index].precommit.Some?
          && m.hash == caches[m.index].precommit.value.hash && m.view == caches[m.index].precommit.value.view)
    && (forall i :: i in caches && caches[i].precommit.Some? ==> exists m :: m in ms && m.index == i)
  }

  // ---- The own view change ----

  /** The certificates of the locks at the given indices. */
  ghost predicate ListsAt(caches: Caches, ks: seq<int>, ms: seq<Msg>) {
    && (forall j, k :: 0 <= j < k < |ms| ==> ms[j].index < ms[k].index)
    && (forall m :: m in ms ==> m.index in ks && m.index in caches && caches[m.index].bare == Some(m))
    && (forall i :: i in ks && i in caches && caches[i].bare.Some? ==> caches[i].bare.value in ms)
  }

  lemma {:induction false} PreparedListsAt(caches: Caches, ks: seq<int>)
    requires forall j, k :: 0 <= j < k < |ks| ==> ks[j] < ks[k]
    requires forall i :: i in caches && caches[i].bare.Some? ==> caches[i].bare.value.index == i
    ensures ListsAt(caches, ks, PreparedOf(caches, ks))
  {
    if ks != [] {
      var front, i := ks[..|ks| - 1], ks[|ks| - 1];
      PreparedListsAt(caches, front);
      assert ks == front + [i];
      var ms := PreparedOf(caches, front);
      forall k | 0 <= k < |ms| ensures ms[k].index < i {
        assert ms[k] in ms;
      }
    }
  }

  lemma LockCopies(g: Cfg, caches: Caches)
    requires CachesOk(g, caches)
    ensures forall i :: i in caches ==>
      && (caches[i].bare.Some? <==> caches[i].precommit.Some?)
      && (caches[i].bare.Some? ==>
            var b, lock := caches[i].bare.value, caches[i].precommit.value;
            b.index == i && b.hash == lock.hash && b.view == lock.view)
  {
    forall i | i in caches ensures CacheOk(g, caches[i]) {
    }
    hide VotesFiled, VotesSigned, VotesCurrent, Certified, DistinctSigners;
  }

  lemma PreparedLists(r: Replica, base: Proposal, w: World)
    requires Inv(r, base, w)
    ensures ListsLocks(r.caches, Prepared(r))
  {
    hide CfgOk, CacheOk, LockOk, AuthOk, QueueOk, AppliesOk, ExecOk, VotesOnce, LedgerOk, AllStable, AllReported, DecidedOk,
      ChainOk, ResultsOk, PreparedOf;
    LockCopies(r.cfg, r.caches);
    PreparedListsAt(r.caches, Ascending(r.caches.Keys));
  }

  /** The own view change is for the view to reach, names the committed block and lists exactly the
      locks. */
  lemma OwnChangeLists(r: Replica, base: Proposal, w: World)
    requires Inv(r, base, w)
    ensures var vc, g := OwnViewChange(r), r.cfg;
      && vc == ViewChange(g.toView, g.committed.index, g.committed.hash, g.self, g.id, g.committed, vc.prepared)
      && ListsLocks(r.caches, vc.prepared)
  {
    hide Inv, ListsLocks, Prepared;
    PreparedLists(r, base, w);
  }

  // ---- What one step announces ----

  /** The own view change of this replica in whatever view it is made. */
  ghost predicate Announced(r: Replica, vc: ViewChange) {
    vc == OwnViewChange(r).(view := vc.view)
  }

  /** At most votes to prepare and to commit were dropped: all locks and checkpoints stay. */
  ghost predicate SameLocks(caches: Caches, caches': Caches) {
    && caches'.Keys == caches.Keys
    && forall i :: i in caches ==> SameButVotes(caches[i], caches'[i])
  }

  predicate SameButVotes(c: Cache, c': Cache) {
    c' == c.(prepares := c'.prepares, commits := c'.commits, submitted := c'.submitted, precommitted := c'.precommitted)
  }

  /** No lock changes, and every view change sent is the own one. */
  ghost predicate SendsLocks(r: Replica, r': Replica) {
    && SameLocks(r.caches, r'.caches)
    && r'.cfg.committed == r.cfg.committed && r'.cfg.self == r.cfg.self && r'.cfg.id == r.cfg.id
    && r.env.sentChanges <= r'.env.sentChanges
    && forall k :: |r.env.sentChanges| <= k < |r'.env.sentChanges| ==> Announced(r, r'.env.sentChanges[k])
  }

  /** And what waits for execution stays. */
  ghost predicate Announces(r: Replica, r': Replica) {
    && SendsLocks(r, r')
    && r'.commitQueue == r.commitQueue && r'.executing == r.executing && r'.cfg.expected == r.cfg.expected
    && r'.env.decided == r.env.decided && r'.env.running == r.env.running
  }

  lemma {:induction false} SamePrepared(caches: Caches, caches': Caches, ks: seq<int>)
    requires SameLocks(caches, caches')
    ensures PreparedOf(caches', ks) == PreparedOf(caches, ks)
  {
    if ks != [] {
      SamePrepared(caches, caches', ks[..|ks| - 1]);
    }
  }

  lemma SendsTrans(a: Replica, b: Replica, c: Replica)
    requires SendsLocks(a, b) && SendsLocks(b, c)
    ensures SendsLocks(a, c)
  {
    hide PreparedOf, Ascending;
    SamePrepared(a.caches, b.caches, Ascending(a.caches.Keys));
    assert Prepared(b) == Prepared(a);
    hide Prepared;
    forall k | |a.env.sentChanges| <= k < |c.env.sentChanges| ensures Announced(a, c.env.sentChanges[k]) {
      if k < |b.env.sentChanges| {
        assert c.env.sentChanges[k] == b.env.sentChanges[k];
      } else {
        assert Announced(b, c.env.sentChanges[k]);
      }
    }
  }

  lemma AnnouncesTrans(a: Replica, b: Replica, c: Replica)
    requires Announces(a, b) && Announces(b, c)
    ensures Announces(a, c)
  {
    hide SendsLocks;
    SendsTrans(a, b, c);
  }

  lemma SendsNothing(r: Replica, r': Replica)
    requires SameLocks(r.caches, r'.caches)
    requires r'.cfg.committed == r.cfg.committed && r'.cfg.self == r.cfg.self && r'.cfg.id == r.cfg.id
    requires r'.env.sentChanges == r.env.sentChanges
    ensures SendsLocks(r, r')
  {
    hide SameLocks;
  }

  lemma AnnouncesNothing(r: Replica, r': Replica)
    requires SameLocks(r.caches, r'.caches)
    requires r'.cfg.committed == r.cfg.committed && r'.cfg.self == r.cfg.self && r'.cfg.id == r.cfg.id
    requires r'.env.sentChanges == r.env.sentChanges
    requires r'.commitQueue == r.commitQueue && r'.executing == r.executing && r'.cfg.expected == r.cfg.expected
    requires r'.env.decided == r.env.decided && r'.env.running == r.env.running
    ensures Announces(r, r')
  {
    hide SameLocks, SendsLocks;
    SendsNothing(r, r');
  }

  lemma ResetSameLocks(r: Replica, v: nat, index: int)
    ensures Announces(r, ResetAfterViewChange(r, v, index))
  {
    hide SurvivingBook, StillValid, AfterView;
    AnnouncesNothing(r, ResetAfterViewChange(r, v, index));
  }

  lemma ReachAnnounces(r: Replica, v: nat)
    ensures Announces(r, ReachNewView(r, v))
  {
    hide ResetAfterViewChange, Announces;
    var r1 := r.(cfg := r.cfg.ResetNewView(v));
    AnnouncesNothing(r, r1);
    ResetSameLocks(r1, r1.cfg.view, r1.cfg.committed.index);
    AnnouncesTrans(r, r1, ReachNewView(r, v));
  }

  lemma TryNewViewAnnounces(r: Replica)
    ensures Announces(r, TryNewView(r))
  {
    hide CanBuildNewView, BuildNewView, ReachNewView, Announces;
    var (r1, nv) := CheckIntoNewView(r);
    AnnouncesNothing(r, r1);
    if nv.Some? {
      ReachAnnounces(r1, nv.value.view);
      AnnouncesTrans(r, r1, ReachNewView(r1, nv.value.view));
    }
  }

  lemma AddAnnounces(r: Replica, vc: ViewChange)
    ensures Announces(r, AddViewChange(r, vc))
  {
    hide RaiseToAll, Announces;
    AnnouncesNothing(r, AddViewChange(r, vc));
  }

  lemma OwnIsAnnounced(r: Replica)
    ensures Announces(r, r.(env := r.env.(sentChanges := r.env.sentChanges + [OwnViewChange(r)])))
  {
    hide Prepared;
  }

  lemma BroadcastAnnounces(r: Replica)
    ensures Announces(r, BroadcastViewChange(r))
  {
    hide OwnViewChange, AddViewChange, TryNewView, Announces;
    var vc := OwnViewChange(r);
    var r1 := r.(env := r.env.(sentChanges := r.env.sentChanges + [vc]));
    var r2 := AddViewChange(r1, vc);
    OwnIsAnnounced(r);
    AddAnnounces(r1, vc);
    AnnouncesTrans(r, r1, r2);
    TryNewViewAnnounces(r2);
    AnnouncesTrans(r, r2, TryNewView(r2));
  }

  lemma TimeoutAnnounces(r: Replica)
    ensures Announces(r, TriggerTimeout(r))
  {
    hide BroadcastViewChange, StillValid, Announces;
    var r1 := r.(cfg := r.cfg.ResetTimeout());
    var r2 := RemoveInvalidChanges(r1, r1.cfg.view, r1.cfg.committed.index);
    AnnouncesNothing(r, r2);
    BroadcastAnnounces(r2);
    AnnouncesTrans(r, r2, BroadcastViewChange(r2));
  }

  lemma OnTimeoutAnnounces(r: Replica)
    ensures SendsLocks(r, OnTimeout(r))
  {
    hide TryApply, TriggerTimeout, SendsLocks;
    TryApplyLater(r);
    ApplyFrame(r);
    var r1 := TryApply(r).0;
    var r2 := ClearExpired(r1);
    SendsNothing(r, r1);
    SendsNothing(r, r2);
    TimeoutAnnounces(r2);
    SendsTrans(r, r2, TriggerTimeout(r2));
  }

  lemma JudgeAnnounces(r: Replica, vc: ViewChange)
    ensures Announces(r, Judge(r, vc).0)
  {
    hide ValidViewChange, BroadcastViewChange, Announces;
    AnnouncesNothing(r, r);
    BroadcastAnnounces(r);
  }

  lemma {:induction false} JudgeAllAnnounces(r: Replica, vcs: seq<ViewChange>)
    ensures Announces(r, JudgeAll(r, vcs).0)
  {
    hide Judge, Announces;
    if vcs == [] {
      AnnouncesNothing(r, r);
    } else {
      var r1 := JudgeAll(r, vcs[..|vcs| - 1]).0;
      JudgeAllAnnounces(r, vcs[..|vcs| - 1]);
      JudgeAnnounces(r1, vcs[|vcs| - 1]);
      AnnouncesTrans(r, r1, Judge(r1, vcs[|vcs| - 1]).0);
    }
  }

  lemma JoinAnnounces(r: Replica, from: nat)
    ensures Announces(r, JoinLater(r, from))
  {
    hide TryFastViewChange, TriggerTimeout, Announces, Cfg.LeaderIn;
    JoinsLater(r);
    var joined := TryFastViewChange(r).0;
    AnnouncesNothing(r, r);
    AnnouncesNothing(r, joined);
    TimeoutAnnounces(joined);
    AnnouncesTrans(r, joined, TriggerTimeout(joined));
  }

  lemma HandleViewChangeAnnounces(r: Replica, vc: ViewChange)
    ensures Announces(r, HandleViewChange(r, vc).0)
  {
    hide Judge, AddViewChange, JoinLater, TryNewView, Announces;
    var r1 := Judge(r, vc).0;
    var r2 := AddViewChange(r1, vc);
    var r3 := JoinLater(r2, vc.from);
    JudgeAnnounces(r, vc);
    AddAnnounces(r1, vc);
    AnnouncesTrans(r, r1, r2);
    JoinAnnounces(r2, vc.from);
    AnnouncesTrans(r, r2, r3);
    TryNewViewAnnounces(r3);
    AnnouncesTrans(r, r3, TryNewView(r3));
  }

  lemma HandleNewViewAnnounces(r: Replica, nv: NewView)
    ensures Announces(r, HandleNewView(r, nv).0)
  {
    hide JudgeAll, ReachNewView, ChangesWeight, Announces;
    var r1 := JudgeNewView(r, nv).0;
    AnnouncesNothing(r, r);
    JudgeAllAnnounces(r, nv.viewChanges);
    ReachAnnounces(r1, nv.view);
    AnnouncesTrans(r, r1, ReachNewView(r1, nv.view));
  }

  // ---- Runs ----

  /** Every view change sent in between is the own one. */
  ghost predicate SendsOwn(r: Replica, r': Replica) {
    && r.env.sentChanges <= r'.env.sentChanges
    && forall k :: |r.env.sentChanges| <= k < |r'.env.sentChanges| ==> Announced(r, r'.env.sentChanges[k])
  }

  lemma VotingSendsOwn(r: Replica, e: Event)
    requires e.PrePrepareIn? || e.PrepareIn? || e.CommitIn? || e.CheckPointIn? || e.SyncNotice?
    ensures React(r, e).env.sentChanges == r.env.sentChanges
  {
    hide HandlePrePrepare, HandlePrepare, HandleCommit, HandleCheckPoint, Later;
    match e
    case PrePrepareIn(m, verify, fromNewView, checkSignature) =>
      HandlePrePrepareLater(r, m, verify, fromNewView, checkSignature);
    case PrepareIn(m) => HandlePrepareLater(r, m);
    case CommitIn(m) => HandleCommitLater(r, m);
    case CheckPointIn(m) => HandleCheckPointLater(r, m);
    case _ =>
  }

  lemma HandleRecoverAnnounces(r: Replica, m: Msg)
    ensures Announces(r, HandleRecover(r, m))
  {
    hide RecoveredView, Ascending, ResetAfterViewChange, Announces;
    AnnouncesNothing(r, r);
    var r1 := AddRecover(r, m);
    AnnouncesNothing(r, r1);
    var v := RecoveredView(r1.cfg, r1.recovers, Ascending(r1.recovers.Keys));
    var r2 := r1.(cfg := r1.cfg.ResetNewView(v));
    AnnouncesNothing(r, r2);
    var r3 := ResetAfterViewChange(r2, v, r1.cfg.committed.index);
    ResetSameLocks(r2, v, r1.cfg.committed.index);
    AnnouncesTrans(r, r2, r3);
    AnnouncesNothing(r3, r3.(recovers := map[]));
    AnnouncesTrans(r, r3, r3.(recovers := map[]));
  }

  lemma FinalizeSendsNone(r: Replica, number: int, hash: Hash)
    ensures Finalize(r, number, hash).env.sentChanges == r.env.sentChanges
  {
    hide TryApply, TryCommitStable, RemoveInvalidChanges;
    var r0 := r.(cfg := r.cfg.ResetConfig(number, hash));
    TryApplyLater(r0);
    var r1 := TryApply(r0).0;
    RemoveInvalidLater(r1.(caches := Unfinished(r1.caches, number), maxPrecommit := map[], maxCommitted := map[],
                           newViewSent := false), r1.cfg.view, number);
    TryCommitStableLater(RemoveConsensused(r1, r1.cfg.view, number));
  }

  lemma ExecutedSendsNone(r: Replica, k: nat, executed: Proposal, base: Proposal, w: World)
    requires Inv(r, base, w) && k < |r.env.running| && executed.index == r.env.running[k].proposal.index
    requires w.results(r.env.running[k].last.hash, r.env.running[k].proposal.hash, executed.hash)
    ensures React(r, Executed(k, executed)).env.sentChanges == r.env.sentChanges
  {
    hide Inv, OnApplied, EnvLater;
    OneRunning(r, base, w);
    OnAppliedKeeps(r, executed, base, w);
    OnAppliedLater(r.(env := r.env.(running := Without(r.env.running, k))), r.env.running[k].proposal, executed);
  }

  lemma ChangingSendsOwn(r: Replica, e: Event)
    requires e.ViewChangeIn? || e.NewViewIn? || e.TimerFired? || e.LeaderLost? || e.RecoverIn? || e.Written?
    ensures SendsOwn(r, React(r, e))
  {
    hide HandleViewChange, HandleNewView, HandleRecover, OnTimeout, TriggerTimeout, Finalize, Announced, SameLocks;
    match e
    case ViewChangeIn(vc) => HandleViewChangeAnnounces(r, vc);
    case NewViewIn(nv) => HandleNewViewAnnounces(r, nv);
    case RecoverIn(m) => HandleRecoverAnnounces(r, m);
    case TimerFired => OnTimeoutAnnounces(r);
    case LeaderLost => TimeoutAnnounces(r);
    case Written(k) =>
      if k < |r.env.committing| {
        var q := r.env.committing[k];
        FinalizeSendsNone(r.(env := r.env.(committing := Without(r.env.committing, k))), q.index, q.hash);
      }
  }

  lemma ReactSendsOwn(s: Setting, nodes: NodeList, start: Net, net: Net, n: nat, e: Event)
    requires NetInv(s, nodes, start, net) && n in net && Enabled(s, net, net[n], e)
    ensures SendsOwn(net[n], React(net[n], e))
  {
    hide NetInv, ReplicaOk, React, SendsOwn, Genuine, GenuineChange;
    var r := net[n];
    if e.Executed? {
      ReplicaOf(s, nodes, start, net, n);
      ExecutedReactSends(nodes, n, r, e.k, e.executed, Base(start, n), WorldOf(s, net));
    } else if e.PrePrepareIn? || e.PrepareIn? || e.CommitIn? || e.CheckPointIn? || e.SyncNotice? {
      VotingSendsOwn(r, e);
      SameSendsOwn(r, React(r, e));
    } else {
      ChangingSendsOwn(r, e);
    }
  }

  lemma SameSendsOwn(r: Replica, r': Replica)
    requires r'.env.sentChanges == r.env.sentChanges
    ensures SendsOwn(r, r')
  {
  }

  lemma ExecutedReactSends(nodes: NodeList, n: nat, r: Replica, k: nat, executed: Proposal, base: Proposal, w: World)
    requires ReplicaOk(nodes, n, r, base, w) && k < |r.env.running| && executed.index == r.env.running[k].proposal.index
    requires w.results(r.env.running[k].last.hash, r.env.running[k].proposal.hash, executed.hash)
    ensures SendsOwn(r, React(r, Executed(k, executed)))
  {
    hide Inv, VcInv, React, SendsOwn;
    ExecutedSendsNone(r, k, executed, base, w);
    SameSendsOwn(r, React(r, Executed(k, executed)));
  }

  /** At the moment it is sent, in every run: a view change names the committed block of its sender
      and lists exactly the locks that its sender holds. */
  lemma SentListsLocks(s: Setting, nodes: NodeList, run: seq<Net>, steps: seq<Step>, t: nat, n: nat, j: nat)
    requires IsRun(s, nodes, run, steps) && t < |steps| && n in run[t] && n in run[t + 1]
    requires |run[t][n].env.sentChanges| <= j < |run[t + 1][n].env.sentChanges|
    ensures var r, vc := run[t][n], run[t + 1][n].env.sentChanges[j];
      && vc.from == n == r.cfg.self && vc.signer == r.cfg.id && vc.committed == r.cfg.committed
      && ListsLocks(r.caches, vc.prepared)
  {
    hide NetInv, React, Announced, Inv, VcInv, Enabled, ListsLocks, Init;
    RunKeeps(s, nodes, run, steps, t);
    assert Follows(s, run[t], steps[t], run[t + 1]);
    var w := WorldOf(s, run[t]);
    ReplicaOf(s, nodes, run[0], run[t], n);
    ReactSendsOwn(s, nodes, run[0], run[t], steps[t].node, steps[t].event);
    Identities(s, nodes, run[0], run[t]);
    AnnouncedLists(run[t][n], run[t + 1][n].env.sentChanges[j], Base(run[0], n), w);
  }

  lemma AnnouncedLists(r: Replica, vc: ViewChange, base: Proposal, w: World)
    requires Inv(r, base, w) && Announced(r, vc)
    ensures vc.from == r.cfg.self && vc.signer == r.cfg.id && vc.committed == r.cfg.committed
    ensures ListsLocks(r.caches, vc.prepared)
  {
    hide Inv, ListsLocks, Prepared;
    OwnChangeLists(r, base, w);
  }

  /** A view change of this replica that lists exactly its locks. */
  ghost predicate SentIn(r: Replica, vc: ViewChange) {
    && vc.from == r.cfg.self && vc.signer == r.cfg.id && vc.committed == r.cfg.committed
    && ListsLocks(r.caches, vc.prepared)
  }

  /** Every view change a replica has ever sent was sent at some moment of the run, and listed
      exactly the locks of that moment. */
  lemma {:induction false} EverSentListsLocks(s: Setting, nodes: NodeList, run: seq<Net>, steps: seq<Step>,
                                              k: nat, n: nat, vc: ViewChange)
    requires IsRun(s, nodes, run, steps) && k < |run| && n in run[k] && vc in run[k][n].env.sentChanges
    ensures exists t: nat :: t < k && n in run[t] && SentIn(run[t][n], vc)
  {
    hide Init, ListsLocks, Next, CanStep, NetInv;
    RunKeeps(s, nodes, run, steps, k);
    if k == 0 {
      StartsSilent(s, nodes, run, steps, n);
    } else {
      RunKeeps(s, nodes, run, steps, k - 1);
      SameReplicas(s, nodes, run[0], run[k - 1], run[k]);
      var sent, sent' := run[k - 1][n].env.sentChanges, run[k][n].env.sentChanges;
      var j :| 0 <= j < |sent'| && sent'[j] == vc;
      if j < |sent| {
        RunIsLater(s, nodes, run, steps, k - 1, k, n);
        assert vc == sent[j];
        EverSentListsLocks(s, nodes, run, steps, k - 1, n, vc);
      } else {
        SentListsLocks(s, nodes, run, steps, k - 1, n, j);
        assert SentIn(run[k - 1][n], vc);
      }
    }
  }

  lemma SameReplicas(s: Setting, nodes: NodeList, start: Net, net: Net, net': Net)
    requires NetInv(s, nodes, start, net) && NetInv(s, nodes, start, net')
    ensures net'.Keys == net.Keys
  {
    hide ReplicaOk;
  }

  lemma StartsSilent(s: Setting, nodes: NodeList, run: seq<Net>, steps: seq<Step>, n: nat)
    requires IsRun(s, nodes, run, steps) && n in run[0]
    ensures run[0][n].env.sentChanges == []
  {
    hide Tolerable, CanStep, Next;
  }

  /** So whatever a replica has voted to commit at an index that is not past is announced: a view
      change it sends lists that index with that hash. */
  lemma VotesAreAnnounced(s: Setting, nodes: NodeList, run: seq<Net>, steps: seq<Step>, t: nat, n: nat, j: nat, m: Msg)
    requires IsRun(s, nodes, run, steps) && t < |steps| && n in run[t] && n in run[t + 1]
    requires |run[t][n].env.sentChanges| <= j < |run[t + 1][n].env.sentChanges|
    requires m in run[t][n].env.sent && m.kind == Commit
    requires m.index >= run[t][n].cfg.low && m.index >= run[t][n].cfg.expected
    ensures exists c :: c in run[t + 1][n].env.sentChanges[j].prepared && c.index == m.index && c.hash == m.hash
  {
    hide Init, Next, CanStep, NetInv, Inv, VcInv, ListsLocks;
    RunKeeps(s, nodes, run, steps, t);
    ReplicaOf(s, nodes, run[0], run[t], n);
    SentListsLocks(s, nodes, run, steps, t, n, j);
    VotedIsHeld(run[t][n], m, Base(run[0], n), WorldOf(s, run[t]));
    LockIsListed(run[t][n].caches, run[t + 1][n].env.sentChanges[j].prepared, m.index);
  }

  lemma VotedIsHeld(r: Replica, m: Msg, base: Proposal, w: World)
    requires Inv(r, base, w) && m in r.env.sent && m.kind == Commit && m.index >= r.cfg.low && m.index >= r.cfg.expected
    ensures Held(r.caches, m.index, m.hash)
  {
    hide CfgOk, CachesOk, AuthOk, QueueOk, AppliesOk, ExecOk, VotesOnce, LedgerOk, AllStable, AllReported, DecidedOk, ChainOk,
      ResultsOk, OneVote;
    assert (m.index, m.hash) in Cast(r.env.sent, Commit);
    assert Held(r.caches, m.index, m.hash) || Past(Floor(r.cfg), r.caches, m.index);
  }

  lemma LockIsListed(caches: Caches, ms: seq<Msg>, i: int)
    requires ListsLocks(caches, ms) && i in caches && caches[i].precommit.Some?
    ensures exists c :: c in ms && c.index == i && c.hash == caches[i].precommit.value.hash
  {
    var c :| c in ms && c.index == i;
  }
}
