/** What happens when the signature of a view change does not bind its content: a view change
    forged in the name of a leader makes the new view of that leader unacceptable. */
module ForgedChange {
  import opened Types
  import opened Weights
  import opened ConfigModel
  import opened CacheModel
  import opened ReplicaModel
  import opened Monotone
  import opened Network
  import opened NewViewProofs
  import L = LoneReplica

  /** A view change in the name of node 1 that claims another block 1, before block 1 is written. */
  function Forged(id: NodeId, b: Hash): ViewChange {
    ViewChange(1, 1, b, 1, id, BareProposal(1, b), [])
  }

  /** Node 1 has filed it as its own. */
  function Filed(id: NodeId, h: Hash, h': Hash, b: Hash): Replica {
    L.Submitted(id, h, h').(changes := map[1 := map[1 := Forged(id, b)]], maxCommitted := map[1 := 1])
  }

  lemma JudgesForged(id: NodeId, h: Hash, h': Hash, b: Hash)
    ensures Judge(L.Submitted(id, h, h'), Forged(id, b)) == (L.Submitted(id, h, h'), true)
  {
    hide L.Signatures, L.LockedCache, L.Result, BroadcastViewChange;
  }

  lemma AddsForged(id: NodeId, h: Hash, h': Hash, b: Hash)
    ensures AddViewChange(L.Submitted(id, h, h'), Forged(id, b)) == Filed(id, h, h', b)
  {
    hide L.Signatures, L.LockedCache, L.Result;
    assert RaiseToAll(map[], 1, []) == map[];
  }

  lemma StaysPut(id: NodeId, h: Hash, h': Hash, b: Hash)
    ensures JoinLater(Filed(id, h, h', b), 1) == Filed(id, h, h', b)
    ensures TryNewView(Filed(id, h, h', b)) == Filed(id, h, h', b)
  {
    hide L.Signatures, L.LockedCache, L.Result, TryFastViewChange, TriggerTimeout, BuildNewView, ReachNewView, Weight, QuorumOf;
  }

  lemma FilesForged(id: NodeId, h: Hash, h': Hash, b: Hash)
    ensures React(L.Submitted(id, h, h'), ViewChangeIn(Forged(id, b))) == Filed(id, h, h', b)
  {
    hide L.Submitted, Filed, Judge, AddViewChange, JoinLater, TryNewView;
    JudgesForged(id, h, h', b);
    AddsForged(id, h, h', b);
    StaysPut(id, h, h', b);
  }

  /** Node 1 has timed out; its own view change was dropped because the forged one is filed. */
  function Waiting(id: NodeId, h: Hash, h': Hash, b: Hash): Replica {
    var r := Asking(id, h, h', b);
    r.(env := r.env.(sentChanges := [OwnViewChange(r)]))
  }

  /** The replica after the timeout, before it announces anything. */
  function Asking(id: NodeId, h: Hash, h': Hash, b: Hash): Replica {
    var r := Filed(id, h, h', b);
    r.(cfg := r.cfg.ResetTimeout())
  }

  lemma NothingToRun(id: NodeId, h: Hash, h': Hash, b: Hash)
    ensures var r := Filed(id, h, h', b); TryApply(r) == (r, false) && ClearExpired(r) == r && |r.executing| == 0
  {
    hide L.Signatures, L.LockedCache, L.Result;
    assert ClearExpired(Filed(id, h, h', b)).executing == map[];
  }

  lemma KeepsForged(id: NodeId, h: Hash, h': Hash, b: Hash)
    ensures var r := Asking(id, h, h', b); RemoveInvalidChanges(r, r.cfg.view, r.cfg.committed.index) == r
  {
    hide L.Signatures, L.LockedCache, L.Result;
    var r := Asking(id, h, h', b);
    assert UpToDate(r.changes[1], 0) == r.changes[1];
    assert StillValid(r.changes, 0, 0) == r.changes;
  }

  lemma DropsOwn(id: NodeId, h: Hash, h': Hash, b: Hash)
    ensures AddViewChange(Waiting(id, h, h', b), OwnViewChange(Asking(id, h, h', b))) == Waiting(id, h, h', b)
  {
    hide L.Signatures, L.LockedCache, L.Result, Prepared;
  }

  lemma NotLeading(id: NodeId, h: Hash, h': Hash, b: Hash)
    ensures TryNewView(Waiting(id, h, h', b)) == Waiting(id, h, h', b)
  {
    hide L.Signatures, L.LockedCache, L.Result, OwnViewChange, BuildNewView, ReachNewView, Weight, QuorumOf;
  }

  lemma LogsOwn(id: NodeId, h: Hash, h': Hash, b: Hash)
    ensures var r := Asking(id, h, h', b);
      r.(env := r.env.(sentChanges := r.env.sentChanges + [OwnViewChange(r)])) == Waiting(id, h, h', b)
  {
    hide L.Signatures, L.LockedCache, L.Result, OwnViewChange;
    var none: seq<ViewChange> := [];
    assert none + [OwnViewChange(Asking(id, h, h', b))] == [OwnViewChange(Asking(id, h, h', b))];
  }

  lemma TimesOut(id: NodeId, h: Hash, h': Hash, b: Hash)
    ensures React(Filed(id, h, h', b), TimerFired) == Waiting(id, h, h', b)
  {
    hide TryApply, ClearExpired, TryNewView, AddViewChange, OwnViewChange, RemoveInvalidChanges, Filed, Waiting, Cfg.ResetTimeout;
    NothingToRun(id, h, h', b);
    KeepsForged(id, h, h', b);
    LogsOwn(id, h, h', b);
    DropsOwn(id, h, h', b);
    NotLeading(id, h, h', b);
  }

  /** Block 1 is written, and node 1 leads the view it asked for. */
  function Ready(id: NodeId, h: Hash, h': Hash, b: Hash): Replica {
    React(Waiting(id, h, h', b), Written(0))
  }

  lemma NothingQueued(r: Replica, number: int, hash: Hash)
    requires r.commitQueue == [] && r.stableQueue == []
    ensures var g := r.cfg.ResetConfig(number, hash);
      Finalize(r, number, hash) == RemoveConsensused(r.(cfg := g), g.view, number)
  {
    hide RemoveConsensused;
    assert RemoveConsensused(r.(cfg := r.cfg.ResetConfig(number, hash)), r.cfg.view, number).stableQueue == [] by {
      EvictsOnly(r.(cfg := r.cfg.ResetConfig(number, hash)), r.cfg.view, number);
    }
  }

  lemma EvictsOnly(r: Replica, v: nat, number: int)
    ensures var r' := RemoveConsensused(r, v, number);
      && r'.cfg == r.cfg && r'.stableQueue == r.stableQueue && !r'.newViewSent
      && r'.changes == StillValid(r.changes, v, number)
  {
  }

  /** The block is written as the one that was submitted. */
  lemma WritesResult(id: NodeId, h: Hash, h': Hash, b: Hash)
    ensures var r := Waiting(id, h, h', b);
      Ready(id, h, h', b) == Finalize(r.(env := r.env.(committing := [])), 1, h')
  {
    hide L.Signatures, L.LockedCache, L.Result, OwnViewChange, Finalize;
    L.LogsGrow(id, h, h');
    assert Without(Waiting(id, h, h', b).env.committing, 0) == [];
  }

  lemma WaitingFacts(id: NodeId, h: Hash, h': Hash, b: Hash)
    ensures var r := Waiting(id, h, h', b);
      && r.commitQueue == [] && r.stableQueue == [] && r.changes == map[1 := map[1 := Forged(id, b)]]
      && r.cfg == L.Start(id).cfg.(expected := 2, timeout := true, toView := 1)
  {
    hide L.Signatures, L.LockedCache, L.Result, OwnViewChange;
  }

  lemma ReadyFacts(id: NodeId, h: Hash, h': Hash, b: Hash)
    ensures var r := Ready(id, h, h', b);
      && r.cfg.committed == BareProposal(1, h') && r.cfg.progressed == 2 && r.cfg.toView == 1 && r.cfg.view == 0
      && r.cfg.nodes == L.Nodes(id) && r.cfg.self == 1 && r.cfg.id == id && r.cfg.period == 1 && r.cfg.syncing == 0
      && !r.newViewSent && r.changes == map[1 := map[1 := Forged(id, b)]]
  {
    hide Ready, Waiting, RemoveConsensused, Finalize;
    WritesResult(id, h, h', b);
    WaitingFacts(id, h, h', b);
    var r := Waiting(id, h, h', b);
    var r0 := r.(env := r.env.(committing := []));
    NothingQueued(r0, 1, h');
    EvictsOnly(r0.(cfg := r0.cfg.ResetConfig(1, h')), 0, 1);
    assert UpToDate(r.changes[1], 1) == r.changes[1];
    assert StillValid(r.changes, 0, 1) == r.changes;
  }

  /** It can announce its new view now, and that lists the forged view change. */
  lemma ReadyToLead(id: NodeId, h: Hash, h': Hash, b: Hash)
    ensures var r := Ready(id, h, h', b);
      && CanBuildNewView(r) && r.cfg.toView > r.cfg.view && OthersValid(r)
      && (OwnValid(r) <==> b == h')
  {
    hide Ready, Weight, QuorumOf;
    ReadyFacts(id, h, h', b);
    L.OneIsEnough(id);
    assert map[1 := Forged(id, b)].Keys == {1};
  }

  // ---- The run ----

  function One(r: Replica): Net {
    map[1 := r]
  }

  function Path(id: NodeId, h: Hash, h': Hash, b: Hash): seq<Net> {
    [One(L.Start(id)), One(L.Decided(id, h)), One(L.Submitted(id, h, h')), One(Filed(id, h, h', b)),
     One(Waiting(id, h, h', b)), One(Ready(id, h, h', b))]
  }

  function Steps(id: NodeId, h: Hash, h': Hash, b: Hash): seq<Step> {
    [Step(1, PrePrepareIn(L.Block(id, h), false, false, true)), Step(1, Executed(0, BareProposal(1, h'))),
     Step(1, ViewChangeIn(Forged(id, b))), Step(1, TimerFired), Step(1, Written(0))]
  }

  lemma Moves(s: Setting, r: Replica, e: Event, r': Replica)
    requires Enabled(s, One(r), r, e) && React(r, e) == r'
    ensures Follows(s, One(r), Step(1, e), One(r'))
  {
    hide React, Enabled;
    assert One(r)[1 := r'] == One(r');
  }

  lemma AllEnabled(s: Setting, id: NodeId, h: Hash, h': Hash, b: Hash)
    requires !s.bound && s.results(0, h, h')
    ensures Enabled(s, One(L.Start(id)), L.Start(id), PrePrepareIn(L.Block(id, h), false, false, true))
    ensures Enabled(s, One(L.Decided(id, h)), L.Decided(id, h), Executed(0, BareProposal(1, h')))
    ensures Enabled(s, One(L.Submitted(id, h, h')), L.Submitted(id, h, h'), ViewChangeIn(Forged(id, b)))
    ensures Enabled(s, One(Filed(id, h, h', b)), Filed(id, h, h', b), TimerFired)
  {
    hide L.Signatures, L.LockedCache, L.Result, L.Submitted, L.Start, Filed;
  }

  lemma WriteEnabled(s: Setting, id: NodeId, h: Hash, h': Hash, b: Hash)
    ensures Enabled(s, One(Waiting(id, h, h', b)), Waiting(id, h, h', b), Written(0))
  {
    hide L.Signatures, L.LockedCache, L.Result, OwnViewChange;
  }

  lemma PathIsRun(s: Setting, id: NodeId, h: Hash, h': Hash, b: Hash)
    requires !s.bound && s.results(0, h, h')
    ensures IsRun(s, L.Nodes(id), Path(id, h, h', b), Steps(id, h, h', b))
  {
    hide Init, React, Enabled, Follows, Filed, Waiting, L.Decided, L.Submitted, L.Start, L.Block;
    L.StartIsInitial(id);
    AllEnabled(s, id, h, h', b);
    WriteEnabled(s, id, h, h', b);
    L.OrdersBlock(id, h);
    L.ExecutesBlock(id, h, h');
    FilesForged(id, h, h', b);
    TimesOut(id, h, h', b);
    Moves(s, L.Start(id), PrePrepareIn(L.Block(id, h), false, false, true), L.Decided(id, h));
    Moves(s, L.Decided(id, h), Executed(0, BareProposal(1, h')), L.Submitted(id, h, h'));
    Moves(s, L.Submitted(id, h, h'), ViewChangeIn(Forged(id, b)), Filed(id, h, h', b));
    Moves(s, Filed(id, h, h', b), TimerFired, Waiting(id, h, h', b));
    Moves(s, Waiting(id, h, h', b), Written(0), Ready(id, h, h', b));
  }

  // ---- Refusal ----

  /** Whoever has another block at the index that the first listed view change names refuses. */
  lemma OtherBlockRefused(r: Replica, nv: NewView)
    requires nv.viewChanges != []
    requires var p := nv.viewChanges[0].committed; p.index == r.cfg.committed.index && p.hash != r.cfg.committed.hash
    ensures !HandleNewView(r, nv).1
  {
    hide BroadcastViewChange, JudgeAll, ReachNewView, ChangesWeight, PrecommitOk;
    BroadcastViewChangeFrame(r);
    RefusedAtOnce(r, nv.viewChanges);
  }

  lemma ListsForged(id: NodeId, h: Hash, h': Hash, b: Hash)
    ensures BuildNewView(Ready(id, h, h', b)).viewChanges == [Forged(id, b)]
  {
    hide Ready, GeneratePrePrepares, Ascending;
    ReadyFacts(id, h, h', b);
    OneSender(Forged(id, b));
  }

  lemma OneSender(vc: ViewChange)
    ensures ChangeList(map[1 := vc]) == [vc]
  {
    L.OneKey(map[1 := vc], 1);
    hide Ascending;
    assert Voters(map[1 := vc]) == [1];
  }

  /** Where the content of a view change is not bound there is a run in which an honest replica
      can announce a new view for a later view that it leads, with no invalid view change of
      another node, and every replica with the same committed block refuses that new view. */
  lemma NewViewSpoiled(s: Setting, id: NodeId, h: Hash, h': Hash, b: Hash) returns (run: seq<Net>, steps: seq<Step>)
    requires !s.bound && s.results(0, h, h') && b != h'
    ensures IsRun(s, L.Nodes(id), run, steps) && |run| == 6 && 1 in run[5]
    ensures var r := run[5][1];
      && CanBuildNewView(r) && r.cfg.toView > r.cfg.view && OthersValid(r) && !OwnValid(r)
      && forall r': Replica :: r'.cfg.committed == r.cfg.committed ==> !HandleNewView(r', BuildNewView(r)).1
  {
    hide IsRun, Ready, BuildNewView, HandleNewView, CanBuildNewView, OthersValid, OwnValid;
    run, steps := Path(id, h, h', b), Steps(id, h, h', b);
    PathIsRun(s, id, h, h', b);
    ReadyToLead(id, h, h', b);
    ReadyFacts(id, h, h', b);
    ListsForged(id, h, h', b);
    var r := Ready(id, h, h', b);
    forall r': Replica | r'.cfg.committed == r.cfg.committed ensures !HandleNewView(r', BuildNewView(r)).1 {
      OtherBlockRefused(r', BuildNewView(r));
    }
  }

  /** In every run the own view change behind a new view that can be announced is valid. */
  ghost predicate OwnStaysValid(s: Setting) {
    forall nodes, run, steps, k, a ::
      IsRun(s, nodes, run, steps) && 0 <= k < |run| && a in run[k] && CanBuildNewView(run[k][a]) ==> OwnValid(run[k][a])
  }

  /** That holds exactly if the signature of a view change binds its content, as long as some
      execution can have a result. */
  lemma OwnStaysValidIff(s: Setting, h: Hash, h': Hash)
    requires s.results(0, h, h')
    ensures OwnStaysValid(s) <==> s.bound
  {
    hide IsRun, CanBuildNewView, OwnValid;
    if s.bound {
      forall nodes, run, steps, k, a | IsRun(s, nodes, run, steps) && 0 <= k < |run| && a in run[k] && CanBuildNewView(run[k][a])
        ensures OwnValid(run[k][a])
      {
        NewViewAccepted(s, nodes, run, steps, k, a, a);
      }
    } else {
      var run, steps := NewViewSpoiled(s, 0, h, h', h' + 1);
      assert CanBuildNewView(run[5][1]) && !OwnValid(run[5][1]);
    }
  }
}
