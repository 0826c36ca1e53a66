/** Which locks a new leader proposes again: the marks that bound its list, when they cover the
    view changes it has filed, and what becomes of a lock once they do not. */
module Reproposals {
  import opened Types
  import opened Weights
  import opened ConfigModel
  import opened CacheModel
  import opened ReplicaModel
  import opened CacheInvariant
  import opened ReplicaInvariant
  import opened HandlerInvariant
  import opened Monotone
  import opened ViewChangeInvariant
  import opened Network
  import opened Runs
  import opened Safety
  import opened NewViewProofs
  import opened Announcements
  import opened Progress
  import opened Certification

  // ---- The marks of a view ----

  /** The marks bound everything that is filed for view `v`. */
  ghost predicate Covered(r: Replica, v: nat) {
    v in r.changes ==>
      forall n :: n in r.changes[v] ==> CoveredBy(r.maxCommitted, r.maxPrecommit, v, r.changes[v][n])
  }

  ghost predicate CoveredBy(maxCommitted: map<nat, int>, maxPrecommit: map<nat, int>, v: nat, vc: ViewChange) {
    && v in maxCommitted && vc.committed.index <= maxCommitted[v]
    && (vc.prepared != [] ==> v in maxPrecommit)
    && (v in maxPrecommit ==> forall m :: m in vc.prepared ==> m.index <= maxPrecommit[v])
  }

  lemma {:induction false} RaisedToAll(limits: map<nat, int>, v: nat, ms: seq<Msg>)
    ensures var raised := RaiseToAll(limits, v, ms);
      && (v in raised <==> v in limits || ms != [])
      && (v in limits ==> limits[v] <= raised[v])
      && (v in raised ==> forall m :: m in ms ==> m.index <= raised[v])
      && (v in raised ==> (v in limits && raised[v] == limits[v]) || exists m :: m in ms && m.index == raised[v])
      && (forall w :: w != v ==> (w in raised <==> w in limits))
      && (forall w :: w != v && w in limits ==> raised[w] == limits[w])
  {
    if ms != [] {
      var front, last := ms[..|ms| - 1], ms[|ms| - 1];
      assert ms == front + [last] && last in ms && forall m :: m in front ==> m in ms;
      RaisedToAll(limits, v, front);
      var before := RaiseToAll(limits, v, front);
      assert RaiseToAll(limits, v, ms) == RaiseTo(before, v, last.index);
      if !(v in limits && RaiseToAll(limits, v, ms)[v] == limits[v]) && RaiseToAll(limits, v, ms)[v] != last.index {
        var m :| m in front && m.index == before[v];
        assert m in ms;
      }
    }
  }

  /** A view change is filed exactly if its sender is a consensus node that has none filed for that
      view. The marks of the view rise to the highest committed and the highest prepared index it
      names, no further, and no other view is touched. */
  lemma FilingExact(r: Replica, vc: ViewChange)
    ensures var r' := AddViewChange(r, vc); var v := vc.view;
      if vc.from < |r.cfg.nodes| && !(v in r.changes && vc.from in r.changes[v]) then
        && r' == r.(changes := r'.changes, maxCommitted := r'.maxCommitted, maxPrecommit := r'.maxPrecommit)
        && r'.changes == r.changes[v := (if v in r.changes then r.changes[v] else map[])[vc.from := vc]]
        && r'.maxCommitted == r.maxCommitted[v :=
             if v in r.maxCommitted then MaxInt(r.maxCommitted[v], vc.committed.index) else vc.committed.index]
        && (v in r'.maxPrecommit <==> v in r.maxPrecommit || vc.prepared != [])
        && (v in r.maxPrecommit ==> r.maxPrecommit[v] <= r'.maxPrecommit[v])
        && (v in r'.maxPrecommit ==>
              && (forall m :: m in vc.prepared ==> m.index <= r'.maxPrecommit[v])
              && ((v in r.maxPrecommit && r'.maxPrecommit[v] == r.maxPrecommit[v])
                  || exists m :: m in vc.prepared && m.index == r'.maxPrecommit[v]))
        && (forall w :: w != v ==> (w in r'.maxPrecommit <==> w in r.maxPrecommit))
        && (forall w :: w != v && w in r.maxPrecommit ==> r'.maxPrecommit[w] == r.maxPrecommit[w])
      else r' == r
  {
    hide RaiseToAll;
    RaisedToAll(r.maxPrecommit, vc.view, vc.prepared);
  }

  lemma FilingCovers(r: Replica, vc: ViewChange, v: nat)
    requires Covered(r, v)
    ensures Covered(AddViewChange(r, vc), v)
  {
    hide AddViewChange;
    FilingExact(r, vc);
  }

  // ---- What is proposed again ----

  /** Without the marks the list holds nothing but the next index. */
  lemma ListBounds(r: Replica, vcs: seq<ViewChange>)
    requires Carried(vcs)
    ensures forall m :: m in GeneratePrePrepares(r, vcs) ==> FirstCommitted(r) < m.index <= LastPrepared(r)
    ensures forall m, m' :: m in GeneratePrePrepares(r, vcs) && m' in GeneratePrePrepares(r, vcs) && m.index == m'.index ==> m == m'
  {
    hide GeneratePrePrepares, Certificates, KeptOf, Carried, FirstCommitted, LastPrepared;
    PrePrepareList(r, vcs);
    var l, first := GeneratePrePrepares(r, vcs), FirstCommitted(r);
    forall m | m in l ensures exists k :: 0 <= k < |l| && l[k] == m && m.index == first + 1 + k {
      var k :| 0 <= k < |l| && l[k] == m;
      assert Repeats(r.cfg, vcs, first + 1 + k, l[k]);
    }
  }

  /** A certificate for `i` from the list whose sender or author is named in the slot. */
  ghost predicate Origin(vcs: seq<ViewChange>, i: int, m: Msg) {
    exists vc, c :: vc in vcs && c in vc.prepared && c.index == i && SameCertificate(m, c)
      && (m.from == vc.from || m.from == c.from)
  }

  lemma {:induction false} OfferedOrigin(slots: map<int, Msg>, floor: int, vcs: seq<ViewChange>, vc: ViewChange, ms: seq<Msg>)
    requires vc in vcs && (forall m :: m in ms ==> m in vc.prepared) && forall i :: i in slots ==> Origin(vcs, i, slots[i])
    ensures forall i :: i in OfferAll(slots, floor, vc.from, ms) ==> Origin(vcs, i, OfferAll(slots, floor, vc.from, ms)[i])
  {
    if ms != [] {
      var front, m := ms[..|ms| - 1], ms[|ms| - 1];
      assert ms == front + [m] && m in vc.prepared;
      OfferedOrigin(slots, floor, vcs, vc, front);
      assert Origin(vcs, m.index, m) && Origin(vcs, m.index, m.(from := vc.from));
    }
  }

  lemma MoreOrigins(front: seq<ViewChange>, vc: ViewChange, slots: map<int, Msg>)
    requires forall i :: i in slots ==> Origin(front, i, slots[i])
    ensures forall i :: i in slots ==> Origin(front + [vc], i, slots[i])
  {
    forall i | i in slots ensures Origin(front + [vc], i, slots[i]) {
      var vc', c :| vc' in front && c in vc'.prepared && c.index == i && SameCertificate(slots[i], c)
        && (slots[i].from == vc'.from || slots[i].from == c.from);
      assert vc' in front + [vc];
    }
  }

  lemma {:induction false} SlotOrigins(vcs: seq<ViewChange>, floor: int)
    ensures forall i :: i in Slots(vcs, floor) ==> Origin(vcs, i, Slots(vcs, floor)[i])
  {
    hide Origin, OfferAll;
    if vcs != [] {
      var front, vc := vcs[..|vcs| - 1], vcs[|vcs| - 1];
      assert vcs == front + [vc];
      SlotOrigins(front, floor);
      MoreOrigins(front, vc, Slots(front, floor));
      OfferedOrigin(Slots(front, floor), floor, vcs, vc, vc.prepared);
    }
  }

  /** A certificate for the index and hash of `m` is listed whose sender or author `m` names. */
  ghost predicate Comes(vcs: seq<ViewChange>, m: Msg) {
    exists vc, c :: vc in vcs && c in vc.prepared && c.index == m.index && c.hash == m.hash
      && (m.from == vc.from || m.from == c.from)
  }

  /** A re-proposal names as its origin the sender or the author of a certificate it repeats; an empty block
      names this node. */
  lemma NamesOrigin(r: Replica, vcs: seq<ViewChange>, m: Msg)
    requires Carried(vcs) && m in GeneratePrePrepares(r, vcs)
    ensures if exists vc, c :: vc in vcs && c in vc.prepared && c.index == m.index then Comes(vcs, m)
      else m.from == r.cfg.self && m.hash == EMPTY_BLOCK
  {
    hide Slots, Carried, Certificates, KeptOf, Origin, FirstCommitted, LastPrepared;
    var first := FirstCommitted(r);
    var l := GeneratePrePrepares(r, vcs);
    var k :| 0 <= k < |l| && l[k] == m;
    ComesFrom(r, vcs, first, first + 1 + k);
  }

  lemma {:induction false} ComesFrom(r: Replica, vcs: seq<ViewChange>, floor: int, i: int)
    requires Carried(vcs) && i >= floor
    ensures var m := Reproposal(r.cfg, Slots(vcs, floor), i);
      && m.index == i
      && if exists vc, c :: vc in vcs && c in vc.prepared && c.index == i then Comes(vcs, m)
         else m.from == r.cfg.self && m.hash == EMPTY_BLOCK
  {
    hide Slots, Carried, Certificates, KeptOf;
    SlotsHold(vcs, floor, i);
    WinnerCarries(vcs, i);
    SlotOrigins(vcs, floor);
  }

  /** All certificates for `i` in the view changes filed for view `v` are for `h`, and there is one. */
  ghost predicate Uncontested(r: Replica, v: nat, i: int, h: Hash) {
    && v in r.changes
    && (exists n, m :: n in r.changes[v] && m in r.changes[v][n].prepared && m.index == i)
    && (forall n, m :: n in r.changes[v] && m in r.changes[v][n].prepared && m.index == i ==> m.hash == h)
  }

  lemma ListedFiled(r: Replica, v: nat, i: int, h: Hash)
    requires Uncontested(r, v, i, h)
    ensures var vcs := ChangeList(r.changes[v]);
      && (exists vc, c :: vc in vcs && c in vc.prepared && c.index == i)
      && (forall vc, c :: vc in vcs && c in vc.prepared && c.index == i ==> c.hash == h)
  {
    var vcs, ks := ChangeList(r.changes[v]), Voters(r.changes[v]);
    var n, m :| n in r.changes[v] && m in r.changes[v][n].prepared && m.index == i;
    assert n in ks;
    var k :| 0 <= k < |ks| && ks[k] == n;
    assert vcs[k] in vcs && vcs[k] == r.changes[v][n];
    forall vc, c | vc in vcs && c in vc.prepared && c.index == i ensures c.hash == h {
      var j :| 0 <= j < |vcs| && vcs[j] == vc;
      assert ks[j] in r.changes[v] && vcs[j] == r.changes[v][ks[j]];
    }
  }

  /** A lock that is filed with the new leader and that no certificate contests is proposed again,
      once and for its hash in the new view, exactly if its index lies between the marks: above the
      highest committed index they name, and at or below the highest prepared one. */
  lemma ProposedAgainIff(r: Replica, i: int, h: Hash)
    requires r.cfg.toView in r.changes && Uncontested(r, r.cfg.toView, i, h)
    requires Carried(ChangeList(r.changes[r.cfg.toView]))
    ensures var l, v := BuildNewView(r).prePrepares, r.cfg.toView;
      && ((exists m :: m in l && m.index == i) <==>
            && (if v in r.maxCommitted then r.maxCommitted[v] else r.cfg.committed.index) < i
            && i <= if v in r.maxPrecommit then r.maxPrecommit[v] else r.cfg.progressed)
      && (forall m, m' :: m in l && m' in l && m.index == m'.index ==> m == m')
      && (forall m :: m in l && m.index == i ==> m.hash == h && m.view == v)
  {
    hide GeneratePrePrepares, ChangeList, Carried, Uncontested;
    var vcs := ChangeList(r.changes[r.cfg.toView]);
    ListedFiled(r, r.cfg.toView, i, h);
    ListBounds(r, vcs);
    ListViews(r, vcs);
    if FirstCommitted(r) < i <= LastPrepared(r) {
      AgreedHashIsRepeated(r, vcs, i, h);
    }
  }

  lemma ListViews(r: Replica, vcs: seq<ViewChange>)
    requires Carried(vcs)
    ensures forall m :: m in GeneratePrePrepares(r, vcs) ==> m.view == r.cfg.toView
  {
    hide GeneratePrePrepares, Certificates, KeptOf, Carried, FirstCommitted, LastPrepared;
    PrePrepareList(r, vcs);
    var l, first := GeneratePrePrepares(r, vcs), FirstCommitted(r);
    forall m | m in l ensures m.view == r.cfg.toView {
      var k :| 0 <= k < |l| && l[k] == m;
      assert Repeats(r.cfg, vcs, first + 1 + k, l[k]);
    }
  }

  // ---- How long the marks last ----

  /** A step that sends no new view leaves everything covered that was. */
  ghost predicate MarksHold(r: Replica, r': Replica) {
    && r.env.sentNewViews <= r'.env.sentNewViews
    && (r'.env.sentNewViews == r.env.sentNewViews ==> forall v :: Covered(r, v) ==> Covered(r', v))
  }

  lemma MarksTrans(a: Replica, b: Replica, c: Replica)
    requires MarksHold(a, b) && MarksHold(b, c)
    ensures MarksHold(a, c)
  {
    hide Covered;
  }

  lemma FewerFiled(r: Replica, r': Replica)
    requires r'.maxCommitted == r.maxCommitted && r'.maxPrecommit == r.maxPrecommit
    requires r'.env.sentNewViews == r.env.sentNewViews
    requires forall v, n :: v in r'.changes && n in r'.changes[v] ==>
      v in r.changes && n in r.changes[v] && r'.changes[v][n] == r.changes[v][n]
    ensures MarksHold(r, r')
  {
    hide CoveredBy;
  }

  lemma AddHolds(r: Replica, vc: ViewChange)
    ensures MarksHold(r, AddViewChange(r, vc))
  {
    hide AddViewChange, Covered;
    FilingExact(r, vc);
    forall v | Covered(r, v) ensures Covered(AddViewChange(r, vc), v) {
      FilingCovers(r, vc, v);
    }
  }

  lemma TryNewViewHolds(r: Replica)
    ensures MarksHold(r, TryNewView(r))
  {
    hide CanBuildNewView, BuildNewView, ReachNewView, Covered;
    var (r1, nv) := CheckIntoNewView(r);
    if nv.Some? {
      ReachNewViewLater(r1, nv.value.view);
    }
  }

  lemma BroadcastHolds(r: Replica)
    ensures MarksHold(r, BroadcastViewChange(r))
  {
    hide OwnViewChange, AddViewChange, TryNewView, MarksHold;
    var vc := OwnViewChange(r);
    var r1 := r.(env := r.env.(sentChanges := r.env.sentChanges + [vc]));
    FewerFiled(r, r1);
    AddHolds(r1, vc);
    MarksTrans(r, r1, AddViewChange(r1, vc));
    TryNewViewHolds(AddViewChange(r1, vc));
    MarksTrans(r, AddViewChange(r1, vc), BroadcastViewChange(r));
  }

  lemma TimeoutHolds(r: Replica)
    ensures MarksHold(r, TriggerTimeout(r))
  {
    hide BroadcastViewChange, MarksHold;
    var r1 := r.(cfg := r.cfg.ResetTimeout());
    var r2 := RemoveInvalidChanges(r1, r1.cfg.view, r1.cfg.committed.index);
    FewerFiled(r, r2);
    BroadcastHolds(r2);
    MarksTrans(r, r2, TriggerTimeout(r));
  }

  lemma OnTimeoutHolds(r: Replica)
    ensures MarksHold(r, OnTimeout(r))
  {
    hide TryApply, TriggerTimeout, MarksHold, CfgLater;
    TryApplyLater(r);
    var r1 := TryApply(r).0;
    var r2 := ClearExpired(r1);
    FewerFiled(r, r1);
    FewerFiled(r, r2);
    TimeoutHolds(r2);
    MarksTrans(r, r2, TriggerTimeout(r2));
  }

  lemma JudgeHolds(r: Replica, vc: ViewChange)
    ensures MarksHold(r, Judge(r, vc).0)
  {
    hide ValidViewChange, BroadcastViewChange, MarksHold;
    FewerFiled(r, r);
    BroadcastHolds(r);
  }

  lemma {:induction false} JudgeAllHolds(r: Replica, vcs: seq<ViewChange>)
    ensures MarksHold(r, JudgeAll(r, vcs).0)
  {
    hide Judge, MarksHold;
    if vcs == [] {
      FewerFiled(r, r);
    } else {
      var r1 := JudgeAll(r, vcs[..|vcs| - 1]).0;
      JudgeAllHolds(r, vcs[..|vcs| - 1]);
      JudgeHolds(r1, vcs[|vcs| - 1]);
      MarksTrans(r, r1, Judge(r1, vcs[|vcs| - 1]).0);
    }
  }

  lemma JoinHolds(r: Replica, from: nat)
    ensures MarksHold(r, JoinLater(r, from))
  {
    hide TryFastViewChange, TriggerTimeout, MarksHold, Cfg.LeaderIn;
    JoinsLater(r);
    var joined := TryFastViewChange(r).0;
    FewerFiled(r, r);
    FewerFiled(r, joined);
    TimeoutHolds(joined);
    MarksTrans(r, joined, TriggerTimeout(joined));
  }

  lemma HandleViewChangeHolds(r: Replica, vc: ViewChange)
    ensures MarksHold(r, HandleViewChange(r, vc).0)
  {
    hide Judge, AddViewChange, JoinLater, TryNewView, MarksHold;
    var r1 := Judge(r, vc).0;
    var r2 := AddViewChange(r1, vc);
    var r3 := JoinLater(r2, vc.from);
    JudgeHolds(r, vc);
    AddHolds(r1, vc);
    MarksTrans(r, r1, r2);
    JoinHolds(r2, vc.from);
    MarksTrans(r, r2, r3);
    TryNewViewHolds(r3);
    MarksTrans(r, r3, TryNewView(r3));
  }

  lemma RefusedHolds(r: Replica, nv: NewView)
    requires !HandleNewView(r, nv).1
    ensures MarksHold(r, HandleNewView(r, nv).0)
  {
    hide JudgeAll, ReachNewView, ChangesWeight, MarksHold;
    FewerFiled(r, r);
    JudgeAllHolds(r, nv.viewChanges);
  }

  /** The steps that can clear the marks: writing a block, and entering a view on a new view or on
      recover responses. */
  predicate ClearsMarks(r: Replica, e: Event) {
    match e
    case Written(_) => true
    case RecoverIn(_) => true
    case NewViewIn(nv) => HandleNewView(r, nv).1
    case _ => false
  }

  lemma QuietHolds(r: Replica, r': Replica)
    requires Later(r, r') && Quiet(r, r')
    ensures MarksHold(r, r')
  {
    hide Later;
    FewerFiled(r, r');
  }

  lemma VotingHolds(r: Replica, e: Event)
    requires e.PrePrepareIn? || e.PrepareIn? || e.CommitIn? || e.CheckPointIn? || e.SyncNotice?
    ensures MarksHold(r, React(r, e))
  {
    hide HandlePrePrepare, HandlePrepare, HandleCommit, HandleCheckPoint, Later, Quiet, MarksHold;
    match e
    case PrePrepareIn(m, verify, fromNewView, checkSignature) =>
      HandlePrePrepareLater(r, m, verify, fromNewView, checkSignature);
      QuietHolds(r, React(r, e));
    case PrepareIn(m) =>
      HandlePrepareLater(r, m);
      QuietHolds(r, React(r, e));
    case CommitIn(m) =>
      HandleCommitLater(r, m);
      QuietHolds(r, React(r, e));
    case CheckPointIn(m) =>
      HandleCheckPointLater(r, m);
      QuietHolds(r, React(r, e));
    case _ => FewerFiled(r, React(r, e));
  }

  lemma ChangingHolds(r: Replica, e: Event)
    requires e.ViewChangeIn? || e.NewViewIn? || e.TimerFired? || e.LeaderLost?
    requires !ClearsMarks(r, e)
    ensures MarksHold(r, React(r, e))
  {
    hide HandleViewChange, HandleNewView, OnTimeout, TriggerTimeout, MarksHold;
    match e
    case ViewChangeIn(vc) => HandleViewChangeHolds(r, vc);
    case NewViewIn(nv) => RefusedHolds(r, nv);
    case TimerFired => OnTimeoutHolds(r);
    case _ => TimeoutHolds(r);
  }

  lemma ExecutedHolds(nodes: NodeList, n: nat, r: Replica, k: nat, executed: Proposal, base: Proposal, w: World)
    requires ReplicaOk(nodes, n, r, base, w) && k < |r.env.running| && executed.index == r.env.running[k].proposal.index
    requires w.results(r.env.running[k].last.hash, r.env.running[k].proposal.hash, executed.hash)
    ensures MarksHold(r, React(r, Executed(k, executed)))
  {
    hide Inv, VcInv, OnApplied, Later, MarksHold;
    OneRunning(r, base, w);
    OnAppliedKeeps(r, executed, base, w);
    var r0 := r.(env := r.env.(running := Without(r.env.running, k)));
    FewerFiled(r, r0);
    OnAppliedLater(r0, r.env.running[k].proposal, executed);
    QuietHolds(r0, OnApplied(r0, r.env.running[k].proposal, executed));
    MarksTrans(r, r0, OnApplied(r0, r.env.running[k].proposal, executed));
  }

  lemma ReactHolds(s: Setting, nodes: NodeList, start: Net, net: Net, n: nat, e: Event)
    requires NetInv(s, nodes, start, net) && n in net && Enabled(s, net, net[n], e) && !ClearsMarks(net[n], e)
    ensures MarksHold(net[n], React(net[n], e))
  {
    hide NetInv, ReplicaOk, React, MarksHold, Genuine, GenuineChange;
    var r := net[n];
    if e.Executed? {
      ReplicaOf(s, nodes, start, net, n);
      ExecutedHolds(nodes, n, r, e.k, e.executed, Base(start, n), WorldOf(s, net));
    } else if e.PrePrepareIn? || e.PrepareIn? || e.CommitIn? || e.CheckPointIn? || e.SyncNotice? {
      VotingHolds(r, e);
    } else {
      ChangingHolds(r, e);
    }
  }

  /** In every run, as long as a replica neither sends a new view nor clears its marks otherwise, the
      marks cover every view change it files; when the run starts they do. */
  lemma {:induction false} MarksCover(s: Setting, nodes: NodeList, run: seq<Net>, steps: seq<Step>,
                                      j: nat, k: nat, b: nat, v: nat)
    requires IsRun(s, nodes, run, steps) && j <= k < |run| && b in run[j] && b in run[k]
    requires j == 0 || Covered(run[j][b], v)
    requires run[k][b].env.sentNewViews == run[j][b].env.sentNewViews
    requires forall t {:trigger steps[t]} :: j <= t < k && steps[t].node == b ==>
      b in run[t] && !ClearsMarks(run[t][b], steps[t].event)
    ensures Covered(run[k][b], v)
    decreases k
  {
    hide Init, Enabled, NetInv, Covered, ClearsMarks, React;
    if j == k {
      if j == 0 {
        StartsCovered(s, nodes, run, steps, b, v);
      }
    } else {
      RunKeeps(s, nodes, run, steps, k - 1);
      assert Follows(s, run[k - 1], steps[k - 1], run[k]);
      SentBetween(s, nodes, run, steps, j, k, b);
      MarksCover(s, nodes, run, steps, j, k - 1, b, v);
      if steps[k - 1].node == b {
        ReactHolds(s, nodes, run[0], run[k - 1], b, steps[k - 1].event);
      }
    }
  }

  lemma StartsCovered(s: Setting, nodes: NodeList, run: seq<Net>, steps: seq<Step>, b: nat, v: nat)
    requires IsRun(s, nodes, run, steps) && b in run[0]
    ensures Covered(run[0][b], v)
  {
    hide Tolerable, CanStep, Next, CoveredBy;
  }

  lemma SentBetween(s: Setting, nodes: NodeList, run: seq<Net>, steps: seq<Step>, j: nat, k: nat, b: nat)
    requires IsRun(s, nodes, run, steps) && j < k < |run| && b in run[j] && b in run[k]
    requires run[k][b].env.sentNewViews == run[j][b].env.sentNewViews
    ensures b in run[k - 1] && run[k - 1][b].env.sentNewViews == run[j][b].env.sentNewViews
  {
    hide IsRun, CfgLater;
    RunIsLater(s, nodes, run, steps, j, k - 1, b);
    RunIsLater(s, nodes, run, steps, k - 1, k, b);
  }

  /** In every run: a lock that replica `a` held when it sent a view change, which leader `b` has
      filed for the view it builds, is proposed again for its hash, if no certificate filed with `b`
      contests it, the marks of `b` cover what it has filed, and none of it names that index as
      committed. */
  lemma LockIsProposedAgain(s: Setting, nodes: NodeList, run: seq<Net>, steps: seq<Step>,
                            t: nat, a: nat, j: nat, k: nat, b: nat, n: nat, i: int)
    requires IsRun(s, nodes, run, steps) && t < |steps| && a in run[t] && a in run[t + 1]
    requires |run[t][a].env.sentChanges| <= j < |run[t + 1][a].env.sentChanges|
    requires i in run[t][a].caches && run[t][a].caches[i].precommit.Some?
    requires k < |run| && b in run[k]
    requires var r := run[k][b]; var v := r.cfg.toView;
      && v in r.changes && n in r.changes[v] && r.changes[v][n] == run[t + 1][a].env.sentChanges[j]
      && Covered(r, v) && r.maxCommitted[v] < i && Carried(ChangeList(r.changes[v]))
      && forall n', m :: n' in r.changes[v] && m in r.changes[v][n'].prepared && m.index == i ==>
           m.hash == run[t][a].caches[i].precommit.value.hash
    ensures var l, h := BuildNewView(run[k][b]).prePrepares, run[t][a].caches[i].precommit.value.hash;
      && (exists m :: m in l && m.index == i && m.hash == h && m.view == run[k][b].cfg.toView)
      && (forall m, m' :: m in l && m' in l && m.index == m'.index ==> m == m')
  {
    hide Init, CanStep, Next, ListsLocks, Carried, BuildNewView, ChangeList, Covered;
    SentListsLocks(s, nodes, run, steps, t, a, j);
    var r, h := run[k][b], run[t][a].caches[i].precommit.value.hash;
    var vc := run[t + 1][a].env.sentChanges[j];
    LockIsListed(run[t][a].caches, vc.prepared, i);
    var m :| m in vc.prepared && m.index == i && m.hash == h;
    assert m in r.changes[r.cfg.toView][n].prepared;
    assert Uncontested(r, r.cfg.toView, i, h);
    hide Uncontested;
    ProposedAgainIff(r, i, h);
    CoversPrepared(r, n, m);
  }

  lemma CoversPrepared(r: Replica, n: nat, m: Msg)
    requires r.cfg.toView in r.changes && n in r.changes[r.cfg.toView] && m in r.changes[r.cfg.toView][n].prepared
    requires Covered(r, r.cfg.toView)
    ensures r.cfg.toView in r.maxCommitted
    ensures r.cfg.toView in r.maxPrecommit && m.index <= r.maxPrecommit[r.cfg.toView]
  {
    assert CoveredBy(r.maxCommitted, r.maxPrecommit, r.cfg.toView, r.changes[r.cfg.toView][n]);
  }

  // ---- When the marks are cleared ----

  /** Writing a block clears the marks of views still under way, and keeps the view changes filed for
      them. Unless more are filed, a new view then proposes at most the one index after the committed
      one: every lock above it is left out, uncontested or not. */
  lemma WrittenForgets(r: Replica, number: int, hash: Hash, i: int)
    requires var r' := Finalize(r, number, hash); var v := r'.cfg.toView;
      v in r'.changes && Carried(ChangeList(r'.changes[v])) && i > r'.cfg.progressed
    ensures forall m :: m in BuildNewView(Finalize(r, number, hash)).prePrepares ==> m.index != i
  {
    var r' := Finalize(r, number, hash);
    FinalizeMarks(r, number, hash);
    hide Finalize, Carried, ChangeList, GeneratePrePrepares;
    ListBounds(r', ChangeList(r'.changes[r'.cfg.toView]));
  }

  lemma FinalizeMarks(r: Replica, number: int, hash: Hash)
    ensures Finalize(r, number, hash).maxCommitted == map[] && Finalize(r, number, hash).maxPrecommit == map[]
  {
    hide TryApply, TryCommitStable, Unfinished, StillValid;
    var r1 := TryApply(r.(cfg := r.cfg.ResetConfig(number, hash))).0;
    TryCommitStableLater(RemoveConsensused(r1, r1.cfg.view, number));
  }

  /** A lock on `h` at index 3, signed by the first three of four nodes. */
  function Lock(h: Hash): Msg {
    Msg(PrePrepare, 0, 3, h, 0, 0,
        Some(BareProposal(3, h).(proofs := [Proof(0, Sig(0, h)), Proof(1, Sig(1, h)), Proof(2, Sig(2, h))])))
  }

  /** The view change of node `n` into view 1, on top of block 1; node 0 holds the lock. */
  function IntoOne(b: Hash, h: Hash, n: nat): ViewChange {
    ViewChange(1, 1, b, n, n, BareProposal(1, b), if n == 0 then [Lock(h)] else [])
  }

  /** Node 3 has filed the view changes of the others while block 1 is being written. */
  function Waiting(b: Hash, h: Hash): Replica {
    Replica(Cfg(FOUR, 3, 3, 1, 10, BareProposal(0, 0), 1, 2, 1, 0, 0, 1, true, true),
            Env([], [], [], [], [], [], [], []), map[], [], map[], [],
            map[1 := map[0 := IntoOne(b, h, 0), 1 := IntoOne(b, h, 1), 2 := IntoOne(b, h, 2)]],
            map[1 := 1], map[1 := 3], false, map[])
  }

  lemma ThreeOfFour(q: set<nat>)
    requires q == {0, 1, 2}
    ensures Weight(FOUR, q) == 3 == QuorumOf(FOUR) && Sum(FOUR, [0, 1, 2]) == 3
  {
    FourFacts(q);
    assert WeightUpTo(FOUR, q, 1) == 1 && WeightUpTo(FOUR, q, 2) == 2 && WeightUpTo(FOUR, q, 3) == 3;
    assert [0, 1, 2][..2] == [0, 1] && [0, 1][..1] == [0] && [0][..0] == [];
    assert Sum(FOUR, [0]) == 1 && Sum(FOUR, [0, 1]) == 2;
  }

  lemma LockIsSigned(h: Hash)
    ensures SignedByQuorum(FOUR, Lock(h))
  {
    ThreeOfFour({0, 1, 2});
    hide QuorumOf, Sum;
    assert Listed(Lock(h).proposal.value.proofs) == [0, 1, 2];
  }

  lemma WaitingWrites(b: Hash, h: Hash)
    ensures var r, r' := Waiting(b, h), Finalize(Waiting(b, h), 1, b);
      && r'.cfg == r.cfg.(committed := BareProposal(1, b), progressed := 2, low := 2, timeout := false)
      && r'.changes == r.changes && !r'.newViewSent
  {
    var r := Waiting(b, h);
    var g := r.cfg.ResetConfig(1, b);
    assert TryApply(r.(cfg := g)).0 == r.(cfg := g);
    assert UpToDate(r.changes[1], 1) == r.changes[1];
    assert StillValid(r.changes, 0, 1) == r.changes;
  }

  /** This happens: node 3 leads view 1 once block 1 is written, and can build its new view from the
      view changes it filed before. The lock at index 3, a valid certificate that nobody contests and
      the marks had covered, is not proposed again. */
  lemma LockIsForgotten(b: Hash, h: Hash)
    ensures var r, r' := Waiting(b, h), Finalize(Waiting(b, h), 1, b);
      && Covered(r, 1) && r'.cfg.toView == 1 && Uncontested(r', 1, 3, h)
      && SignedByQuorum(FOUR, Lock(h)) && CanBuildNewView(r')
      && forall m :: m in BuildNewView(r').prePrepares ==> m.index != 3
  {
    var r, r' := Waiting(b, h), Finalize(Waiting(b, h), 1, b);
    hide Finalize, SignedByQuorum, Covered, Uncontested, CanBuildNewView, BuildNewView, Carried, ChangeList;
    WaitingWrites(b, h);
    LockIsSigned(h);
    WaitingFiled(b, h);
    WaitingBuilds(b, h, r');
    SameFiled(r, r', 3, h);
    WrittenForgets(r, 1, b, 3);
  }

  lemma WaitingBuilds(b: Hash, h: Hash, r: Replica)
    requires r.cfg == Waiting(b, h).cfg.(committed := BareProposal(1, b), progressed := 2, low := 2, timeout := false)
    requires r.changes == Waiting(b, h).changes && !r.newViewSent
    ensures CanBuildNewView(r)
  {
    hide Weight, QuorumOf, Lock;
    ThreeOfFour({0, 1, 2});
    assert r.changes[1].Keys == {0, 1, 2};
  }

  lemma SameFiled(r: Replica, r': Replica, i: int, h: Hash)
    requires r'.changes == r.changes && Uncontested(r, 1, i, h)
    ensures Uncontested(r', 1, i, h)
  {
  }

  lemma WaitingFiled(b: Hash, h: Hash)
    ensures Covered(Waiting(b, h), 1) && Uncontested(Waiting(b, h), 1, 3, h)
    ensures Carried(ChangeList(Waiting(b, h).changes[1]))
  {
    hide Ascending;
    var vcs := Waiting(b, h).changes[1];
    assert Lock(h) in vcs[0].prepared;
    forall n, m | n in vcs && m in vcs[n].prepared ensures m == Lock(h) {
    }
    hide Waiting, Lock;
    FiledCarried(vcs);
  }

  lemma FiledCarried(vcs: map<nat, ViewChange>)
    requires forall n, m :: n in vcs && m in vcs[n].prepared ==> m.proposal.Some? && m.WellFormed()
    ensures Carried(ChangeList(vcs))
  {
    hide Ascending;
    var l := ChangeList(vcs);
    forall vc, m | vc in l && m in vc.prepared ensures m.proposal.Some? && m.WellFormed() {
      var k :| 0 <= k < |l| && l[k] == vc;
      assert Voters(vcs)[k] in vcs;
    }
  }
}
