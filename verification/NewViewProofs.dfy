/** The new-view message: what its pre-prepare list proposes again, and that other replicas
    accept what the new leader builds. */
module NewViewProofs {
  import opened Types
  import opened Weights
  import opened ConfigModel
  import opened CacheModel
  import opened ReplicaModel
  import opened CacheInvariant
  import opened ReplicaInvariant
  import opened HandlerInvariant
  import opened Monotone
  import opened ViewChangeInvariant
  import opened Network
  import opened Runs
  import opened Safety

  // ---- Which certificate wins a slot ----

  /** The certificates for index `i` in a list, in order. */
  function At(ms: seq<Msg>, i: int): seq<Msg> {
    if ms == [] then []
    else At(ms[..|ms| - 1], i) + if ms[|ms| - 1].index == i then [ms[|ms| - 1]] else []
  }

  /** The certificates for index `i` in all view changes, in the order they are offered. */
  function Certificates(vcs: seq<ViewChange>, i: int): seq<Msg> {
    if vcs == [] then []
    else Certificates(vcs[..|vcs| - 1], i) + At(vcs[|vcs| - 1].prepared, i)
  }

  /** The certificate kept after offering all of `cs` to one slot. */
  function KeptOf(cs: seq<Msg>): Msg
    requires cs != []
  {
    var m := cs[|cs| - 1];
    if |cs| == 1 then m
    else
      var kept := KeptOf(cs[..|cs| - 1]);
      if kept.hash != m.hash && kept.view < m.view then m else kept
  }

  predicate SameCertificate(m: Msg, m': Msg) {
    m.view == m'.view && m.index == m'.index && m.hash == m'.hash && m.proposal == m'.proposal
  }

  ghost predicate Holds(slots: map<int, Msg>, i: int, cs: seq<Msg>) {
    && (i in slots <==> cs != [])
    && (i in slots ==> SameCertificate(slots[i], KeptOf(cs)))
  }

  lemma {:induction false} OfferAllHolds(slots: map<int, Msg>, floor: int, from: nat, ms: seq<Msg>, i: int, cs: seq<Msg>)
    requires i >= floor && Holds(slots, i, cs)
    ensures Holds(OfferAll(slots, floor, from, ms), i, cs + At(ms, i))
  {
    if ms == [] {
      assert cs + At(ms, i) == cs;
    } else {
      var front, m := ms[..|ms| - 1], ms[|ms| - 1];
      OfferAllHolds(slots, floor, from, front, i, cs);
      var before := cs + At(front, i);
      if m.index == i {
        assert cs + At(ms, i) == before + [m];
        assert (before + [m])[..|before|] == before;
      } else {
        assert cs + At(ms, i) == before;
      }
    }
  }

  /** The slot table filled in one pass holds, at every index, the certificate that wins
      among those for that index. */
  lemma {:induction false} SlotsHold(vcs: seq<ViewChange>, floor: int, i: int)
    requires i >= floor
    ensures Holds(Slots(vcs, floor), i, Certificates(vcs, i))
  {
    if vcs != [] {
      var front, vc := vcs[..|vcs| - 1], vcs[|vcs| - 1];
      SlotsHold(front, floor, i);
      OfferAllHolds(Slots(front, floor), floor, vc.from, vc.prepared, i, Certificates(front, i));
    }
  }

  /** A certificate below the highest committed index takes no slot. */
  lemma {:induction false} SlotsAbove(vcs: seq<ViewChange>, floor: int)
    ensures forall i :: i in Slots(vcs, floor) ==> i >= floor
  {
    if vcs != [] {
      var front, vc := vcs[..|vcs| - 1], vcs[|vcs| - 1];
      SlotsAbove(front, floor);
      OffersAbove(Slots(front, floor), floor, vc.from, vc.prepared);
    }
  }

  lemma {:induction false} OffersAbove(slots: map<int, Msg>, floor: int, from: nat, ms: seq<Msg>)
    requires forall i :: i in slots ==> i >= floor
    ensures forall i :: i in OfferAll(slots, floor, from, ms) ==> i >= floor
  {
    if ms != [] {
      OffersAbove(slots, floor, from, ms[..|ms| - 1]);
    }
  }

  lemma {:induction false} AtMembers(ms: seq<Msg>, i: int)
    ensures forall m :: m in At(ms, i) <==> m in ms && m.index == i
  {
    if ms != [] {
      AtMembers(ms[..|ms| - 1], i);
      assert ms == ms[..|ms| - 1] + [ms[|ms| - 1]];
    }
  }

  lemma {:induction false} CertificatesMembers(vcs: seq<ViewChange>, i: int)
    ensures forall m :: m in Certificates(vcs, i) <==> m.index == i && exists vc :: vc in vcs && m in vc.prepared
  {
    if vcs != [] {
      var front, vc := vcs[..|vcs| - 1], vcs[|vcs| - 1];
      CertificatesMembers(front, i);
      AtMembers(vc.prepared, i);
      assert vcs == front + [vc];
    }
  }

  lemma {:induction false} KeptIsOffered(cs: seq<Msg>)
    requires cs != []
    ensures KeptOf(cs) in cs
  {
    if |cs| > 1 {
      KeptIsOffered(cs[..|cs| - 1]);
    }
  }

  ghost predicate OneViewPerHash(cs: seq<Msg>) {
    forall m, m' :: m in cs && m' in cs && m.hash == m'.hash ==> m.view == m'.view
  }

  ghost predicate BeatsOthers(cs: seq<Msg>, kept: Msg) {
    forall m :: m in cs && m.hash != kept.hash ==> m.view <= kept.view
  }

  /** If certificates for one hash share their view, no certificate for another hash has a
      higher view than the winner. */
  lemma {:induction false} WinnerBeatsOthers(cs: seq<Msg>)
    requires cs != [] && OneViewPerHash(cs)
    ensures BeatsOthers(cs, KeptOf(cs))
  {
    if |cs| > 1 {
      var front, m := cs[..|cs| - 1], cs[|cs| - 1];
      assert cs == front + [m];
      WinnerBeatsOthers(front);
      KeptIsOffered(front);
    }
  }

  /** Without that premise it is false: the second certificate for hash 1 is dropped although
      its view is the highest, and then hash 2 replaces the first. */
  lemma HighestViewCanLose(a: Msg, b: Msg, c: Msg)
    requires a.hash == b.hash == 1 && c.hash == 2
    requires a.view == 1 && b.view == 3 && c.view == 2
    ensures KeptOf([a, b, c]) == c && !BeatsOthers([a, b, c], KeptOf([a, b, c]))
  {
    assert [a, b, c][..2] == [a, b] && [a, b][..1] == [a];
    assert KeptOf([a, b]) == a && KeptOf([a, b, c]) == c;
    assert b in [a, b, c];
  }

  ghost predicate Highest(cs: seq<Msg>, m: Msg) {
    forall c :: c in cs ==> c.view <= m.view
  }

  /** The certificate at position `j` meets an empty slot or another hash when it is offered. */
  predicate MeetsOther(cs: seq<Msg>, j: nat)
    requires j < |cs|
  {
    j == 0 || KeptOf(cs[..j]).hash != cs[j].hash
  }

  /** Views in a slot never decrease while certificates are offered. */
  lemma {:induction false} KeptViewGrows(cs: seq<Msg>, j: nat)
    requires 0 < j <= |cs|
    ensures KeptOf(cs[..j]).view <= KeptOf(cs).view
    decreases |cs|
  {
    if j == |cs| {
      assert cs[..j] == cs;
    } else {
      var front := cs[..|cs| - 1];
      KeptViewGrows(front, j);
      assert front[..j] == cs[..j];
    }
  }

  /** Exactly when a highest-view certificate wins: one of them has to be offered while the
      slot is empty or holds another hash. */
  lemma {:induction false} HighestViewWinsIff(cs: seq<Msg>)
    requires cs != []
    ensures Highest(cs, KeptOf(cs)) <==>
      exists j :: 0 <= j < |cs| && Highest(cs, cs[j]) && MeetsOther(cs, j)
  {
    hide KeptOf, MeetsOther, Highest;
    if j :| 0 <= j < |cs| && Highest(cs, cs[j]) && MeetsOther(cs, j) {
      InstalledStays(cs, j);
    }
    if Highest(cs, KeptOf(cs)) {
      KeptHasMet(cs);
    }
  }

  lemma {:induction false} InstalledStays(cs: seq<Msg>, j: nat)
    requires j < |cs| && Highest(cs, cs[j]) && MeetsOther(cs, j)
    ensures Highest(cs, KeptOf(cs))
  {
    var front := cs[..j + 1];
    assert front[..j] == cs[..j];
    if j > 0 {
      KeptIsOffered(cs[..j]);
    }
    assert KeptOf(front).view >= cs[j].view;
    hide KeptOf;
    KeptViewGrows(cs, j + 1);
  }

  lemma {:induction false} KeptHasMet(cs: seq<Msg>)
    requires cs != []
    ensures exists j :: 0 <= j < |cs| && cs[j] == KeptOf(cs) && MeetsOther(cs, j)
  {
    if |cs| == 1 {
      assert MeetsOther(cs, 0);
    } else {
      var front, m := cs[..|cs| - 1], cs[|cs| - 1];
      if KeptOf(front).hash != m.hash && KeptOf(front).view < m.view {
        assert MeetsOther(cs, |cs| - 1);
      } else {
        KeptHasMet(front);
        var j :| 0 <= j < |front| && front[j] == KeptOf(front) && MeetsOther(front, j);
        assert front[..j] == cs[..j];
        assert MeetsOther(cs, j);
      }
    }
  }

  // ---- The pre-prepare list ----

  /** Every certificate in the view changes carries its proposal. */
  ghost predicate Carried(vcs: seq<ViewChange>) {
    forall vc, m :: vc in vcs && m in vc.prepared ==> m.proposal.Some? && m.WellFormed()
  }

  /** What the new leader must propose for index `i`: the proposal of the winning certificate,
      or an empty block if nobody prepared the index. */
  ghost predicate Repeats(g: Cfg, vcs: seq<ViewChange>, i: int, m: Msg) {
    && m.kind == PrePrepare && m.view == g.toView && m.index == i && m.signer == g.id
    && m.proposal.Some? && m.WellFormed()
    && var cs := Certificates(vcs, i);
       m.proposal == if cs == [] then Some(BareProposal(i, EMPTY_BLOCK)) else KeptOf(cs).proposal
  }

  lemma {:induction false} WinnerCarries(vcs: seq<ViewChange>, i: int)
    requires Carried(vcs)
    ensures Certificates(vcs, i) == [] <==> !exists vc, c :: vc in vcs && c in vc.prepared && c.index == i
    ensures Certificates(vcs, i) != [] ==>
      var kept := KeptOf(Certificates(vcs, i)); kept.index == i && kept.proposal.Some? && kept.WellFormed()
  {
    var cs := Certificates(vcs, i);
    CertificatesMembers(vcs, i);
    hide Certificates, KeptOf;
    if cs != [] {
      assert cs[0] in cs;
      KeptIsOffered(cs);
    } else {
      forall vc, c | vc in vcs && c in vc.prepared ensures c.index != i {
        assert c !in cs;
      }
    }
  }

  lemma {:induction false} SlotRepeats(r: Replica, vcs: seq<ViewChange>, floor: int, i: int)
    requires Carried(vcs) && i >= floor
    ensures Repeats(r.cfg, vcs, i, Reproposal(r.cfg, Slots(vcs, floor), i))
  {
    hide Slots, Certificates, KeptOf, Carried;
    SlotsHold(vcs, floor, i);
    WinnerCarries(vcs, i);
  }

  /** The list proposes each index after the highest committed one up to the highest prepared
      one exactly once, in order, in the new view; an index that nobody prepared gets an empty
      block and every other one the proposal of its winning certificate. */
  lemma {:induction false} PrePrepareList(r: Replica, vcs: seq<ViewChange>)
    requires Carried(vcs)
    ensures forall i :: Certificates(vcs, i) == [] <==> !exists vc, c :: vc in vcs && c in vc.prepared && c.index == i
    ensures var l := GeneratePrePrepares(r, vcs); var first := FirstCommitted(r);
      && |l| == MaxInt(0, LastPrepared(r) - first)
      && forall k :: 0 <= k < |l| ==> Repeats(r.cfg, vcs, first + 1 + k, l[k])
  {
    hide Slots, Repeats, Carried, Reproposal, Certificates;
    forall i ensures Certificates(vcs, i) == [] <==> !exists vc, c :: vc in vcs && c in vc.prepared && c.index == i {
      WinnerCarries(vcs, i);
    }
    var l, first := GeneratePrePrepares(r, vcs), FirstCommitted(r);
    forall k | 0 <= k < |l| ensures Repeats(r.cfg, vcs, first + 1 + k, l[k]) {
      SlotRepeats(r, vcs, first, first + 1 + k);
    }
  }

  /** When the view changes agree on a hash for an index, that hash is proposed again. */
  lemma AgreedHashIsRepeated(r: Replica, vcs: seq<ViewChange>, i: int, h: Hash)
    requires Carried(vcs) && FirstCommitted(r) < i <= LastPrepared(r)
    requires exists vc, c :: vc in vcs && c in vc.prepared && c.index == i
    requires forall vc, c :: vc in vcs && c in vc.prepared && c.index == i ==> c.hash == h
    ensures exists m :: m in GeneratePrePrepares(r, vcs) && m.index == i && m.hash == h
  {
    hide GeneratePrePrepares, Certificates, KeptOf, Carried, FirstCommitted, LastPrepared;
    PrePrepareList(r, vcs);
    CertificatesMembers(vcs, i);
    WinnerCarries(vcs, i);
    KeptIsOffered(Certificates(vcs, i));
    var l := GeneratePrePrepares(r, vcs);
    var k := i - FirstCommitted(r) - 1;
    assert Repeats(r.cfg, vcs, FirstCommitted(r) + 1 + k, l[k]);
    assert l[k] in l;
  }

  // ---- Acceptance ----

  /** The senders of a list of view changes. */
  function SendersOf(vcs: seq<ViewChange>): (ks: seq<nat>)
    ensures |ks| == |vcs| && forall k :: 0 <= k < |ks| ==> ks[k] == vcs[k].from
  {
    seq(|vcs|, k requires 0 <= k < |vcs| => vcs[k].from)
  }

  lemma {:induction false} ChangesWeightIsSum(nodes: seq<Node>, vcs: seq<ViewChange>)
    ensures ChangesWeight(nodes, vcs) == Sum(nodes, SendersOf(vcs))
  {
    if vcs != [] {
      var n := |vcs| - 1;
      ChangesWeightIsSum(nodes, vcs[..n]);
      assert SendersOf(vcs)[..n] == SendersOf(vcs[..n]);
    }
  }

  /** What the receiver adds up is at least the weight of the senders, and equal to it exactly if
      no sender with weight is listed twice. */
  lemma {:induction false} ChangesWeightExact(nodes: seq<Node>, vcs: seq<ViewChange>)
    ensures ChangesWeight(nodes, vcs) >= Weight(nodes, Members(SendersOf(vcs)))
    ensures ChangesWeight(nodes, vcs) == Weight(nodes, Members(SendersOf(vcs)))
      <==> RepeatsWeighNothing(nodes, SendersOf(vcs))
  {
    hide Sum, Weight, RepeatsWeighNothing, ChangesWeight;
    ChangesWeightIsSum(nodes, vcs);
    SumIsWeight(nodes, SendersOf(vcs));
  }

  /** The check does not look for repeated senders: the view change of one node, listed three
      times, passes for a quorum of four equal nodes. */
  lemma RepeatedChangePasses(g: Cfg, nv: NewView, vc: ViewChange)
    requires g.nodes == FOUR && g.view == 0 && g.committed == BareProposal(0, 0) && g.period == 1
    requires vc == ViewChange(1, 0, 0, 0, 0, g.committed, []) && nv == NewView(1, 0, 0, 2, 2, [vc, vc, vc], [])
    ensures ValidNewView(g, nv)
    ensures Weight(FOUR, Members(SendersOf(nv.viewChanges))) == 1 < g.Quorum()
  {
    var ks := SendersOf(nv.viewChanges);
    assert ks == [0, 0, 0] && ks[..2] == [0, 0] && ks[..2][..1] == [0] && [0][..0] == [];
    assert Sum(FOUR, [0]) == 1 && Sum(FOUR, ks[..2]) == 2 && Sum(FOUR, ks) == 3;
    assert Members(ks) == {0};
    FourFacts({0});
    hide Weight, QuorumOf, Sum, ChangesWeight;
    ChangesWeightIsSum(FOUR, nv.viewChanges);
  }

  lemma {:induction false} ListedOnce(nodes: seq<Node>, ks: seq<nat>, l: seq<ViewChange>)
    requires |l| == |ks| && forall i :: 0 <= i < |ks| ==> l[i].from == ks[i]
    requires forall i, j :: 0 <= i < j < |ks| ==> ks[i] < ks[j]
    ensures ChangesWeight(nodes, l) == Weight(nodes, Members(ks))
  {
    hide ChangesWeight, Weight;
    assert SendersOf(l) == ks;
    ChangesWeightExact(nodes, l);
  }

  /** The receiver's sum over the list is the leader's weight of distinct senders. */
  lemma {:induction false} ListedWeight(nodes: seq<Node>, vcs: map<nat, ViewChange>)
    requires forall n :: n in vcs ==> vcs[n].from == n
    ensures ChangesWeight(nodes, ChangeList(vcs)) == Weight(nodes, vcs.Keys)
  {
    hide ChangesWeight, Weight, Ascending;
    var ks, l := Voters(vcs), ChangeList(vcs);
    hide ChangeList, Voters;
    ListedOnce(nodes, ks, l);
    assert Members(ks) == vcs.Keys;
  }

  /** Configurations that judge view changes alike. */
  predicate SameView(g: Cfg, g': Cfg) {
    g'.nodes == g.nodes && g'.period == g.period && g'.view == g.view && g'.committed == g.committed
    && g'.recovered == g.recovered
  }

  lemma ListedChanges(g: Cfg, vcs: map<nat, ViewChange>)
    ensures (forall k :: 0 <= k < |ChangeList(vcs)| ==> ValidViewChange(g, ChangeList(vcs)[k]))
      <==> forall n :: n in vcs ==> ValidViewChange(g, vcs[n])
  {
    hide ValidViewChange;
    var ks, l := Voters(vcs), ChangeList(vcs);
    if forall k :: 0 <= k < |l| ==> ValidViewChange(g, l[k]) {
      forall n | n in vcs ensures ValidViewChange(g, vcs[n]) {
        assert n in ks;
        var k :| 0 <= k < |ks| && ks[k] == n;
        assert ValidViewChange(g, l[k]);
      }
    }
  }

  /** The own view change filed for the view to reach is valid at this replica; no handler has
      checked it. */
  predicate OwnValid(r: Replica) {
    var vcs := ChangesFor(r, r.cfg.toView);
    r.cfg.self in vcs ==> ValidViewChange(r.cfg, vcs[r.cfg.self])
  }

  /** The view changes of the others filed for the view to reach are valid at this replica. */
  predicate OthersValid(r: Replica) {
    var vcs := ChangesFor(r, r.cfg.toView);
    forall n :: n in vcs && n != r.cfg.self ==> ValidViewChange(r.cfg, vcs[n])
  }

  /** Round trip: the new view a leader builds is valid for a replica with the same view and
      committed block exactly when it is for a later view and every filed view change, the own
      one included, is valid in the leader's own state. */
  lemma NewViewRoundTrip(bound: bool, r: Replica, g: Cfg)
    requires CfgOk(r.cfg) && VcInv(r, bound)
    requires CanBuildNewView(r) && SameView(r.cfg, g)
    ensures ValidNewView(g, BuildNewView(r)) <==> r.cfg.toView > r.cfg.view && OwnValid(r) && OthersValid(r)
  {
    hide VcInv, CfgOk, CanBuildNewView, BuildNewView, ValidViewChange, ChangesWeight, Weight, ChangeList, QuorumOf;
    BuiltHeader(r, g);
    var v := r.cfg.toView;
    var vcs := r.changes[v];
    FiledSenders(bound, r, v);
    ListedWeight(r.cfg.nodes, vcs);
    ListedChanges(g, vcs);
    forall n | n in vcs ensures ValidViewChange(g, vcs[n]) == ValidViewChange(r.cfg, vcs[n]) {
      SameJudgement(r.cfg, g, vcs[n]);
    }
  }

  /** The header of a new view names the leader that every replica at the same height expects. */
  lemma BuiltHeader(r: Replica, g: Cfg)
    requires CfgOk(r.cfg) && CanBuildNewView(r) && SameView(r.cfg, g)
    ensures r.cfg.toView in r.changes
    ensures var nv := BuildNewView(r);
      && nv.view == r.cfg.toView && nv.viewChanges == ChangeList(r.changes[r.cfg.toView])
      && nv.from == g.LeaderIn(nv.index + 1, nv.view) && g.SignedBy(nv.from, nv.signer)
    ensures Weight(r.cfg.nodes, r.changes[r.cfg.toView].Keys) >= g.Quorum()
  {
    hide GeneratePrePrepares, ChangeList, Weight, QuorumOf;
  }

  lemma FiledSenders(bound: bool, r: Replica, v: nat)
    requires VcInv(r, bound) && v in r.changes
    ensures forall n :: n in r.changes[v] ==> r.changes[v][n].from == n
  {
    hide SentOk;
    forall n | n in r.changes[v] ensures r.changes[v][n].from == n {
      assert FiledChange(r.cfg, r.env.sentChanges, bound, v, n, r.changes[v][n]);
    }
  }

  lemma SameJudgement(g: Cfg, g': Cfg, vc: ViewChange)
    requires SameView(g, g')
    ensures ValidViewChange(g', vc) == ValidViewChange(g, vc)
  {
    hide Certified;
    assert forall m :: PrecommitOk(g', m) == PrecommitOk(g, m);
    hide PrecommitOk;
  }

  // ---- Answers during validation ----

  /** While judging view changes for view `v` the replica answers with its own view change, and
      that completes a quorum for the later view it leads. */
  predicate MovesOn(r: Replica, v: nat) {
    r.cfg.timeout && v + 1 < r.cfg.toView && CanBuildNewView(AddViewChange(r, OwnViewChange(r)))
  }

  /** The state after some answers that led to no new view. */
  ghost predicate Answered(r: Replica, r': Replica) {
    && r'.cfg == r.cfg && r'.caches == r.caches
    && (r' == r.(env := r'.env) || r' == AddViewChange(r, OwnViewChange(r)).(env := r'.env))
  }

  lemma OwnStaysFiled(r: Replica)
    ensures var r1 := AddViewChange(r, OwnViewChange(r)); AddViewChange(r1, OwnViewChange(r)) == r1
  {
    hide RaiseToAll, RaiseTo, OwnViewChange;
  }

  lemma EnvIsIgnored(r: Replica, env: Env)
    ensures CanBuildNewView(r.(env := env)) == CanBuildNewView(r)
    ensures OwnViewChange(r.(env := env)) == OwnViewChange(r)
    ensures forall vc :: AddViewChange(r.(env := env), vc) == AddViewChange(r, vc).(env := env)
  {
    hide RaiseToAll, RaiseTo, OwnViewChange;
    OwnIsFixed(r, r.(env := env));
  }

  lemma OwnIsFixed(r: Replica, r': Replica)
    requires r'.cfg == r.cfg && r'.caches == r.caches
    ensures OwnViewChange(r') == OwnViewChange(r)
  {
    hide PreparedOf, Ascending;
  }

  lemma FiledStates(r: Replica, vc: ViewChange)
    ensures AddViewChange(r, vc).cfg == r.cfg && AddViewChange(r, vc).caches == r.caches && AddViewChange(r, vc).env == r.env
  {
    hide RaiseToAll, RaiseTo;
  }

  /** An answer that completes no quorum only files the own view change. */
  lemma AnswerStays(r: Replica, r': Replica)
    requires Answered(r, r') && !CanBuildNewView(AddViewChange(r, OwnViewChange(r)))
    ensures Answered(r, BroadcastViewChange(r'))
  {
    hide AddViewChange, OwnViewChange, CanBuildNewView, BuildNewView;
    var own := OwnViewChange(r);
    OwnIsFixed(r, r');
    OwnStaysFiled(r);
    FiledStates(r, own);
    var r1 := r'.(env := r'.env.(sentChanges := r'.env.sentChanges + [own]));
    EnvIsIgnored(r, r1.env);
    EnvIsIgnored(AddViewChange(r, own), r1.env);
    assert AddViewChange(r1, own) == AddViewChange(r, own).(env := r1.env);
  }

  /** An answer that completes a quorum leads into the view to reach. */
  lemma AnswerMoves(r: Replica)
    requires CanBuildNewView(AddViewChange(r, OwnViewChange(r))) && r.cfg.view <= r.cfg.toView
    ensures BroadcastViewChange(r).cfg.view == r.cfg.toView
  {
    hide OwnViewChange, BuildNewView, ResetAfterViewChange, AddViewChange, CanBuildNewView;
    var own := OwnViewChange(r);
    var env := r.env.(sentChanges := r.env.sentChanges + [own]);
    EnvIsIgnored(r, env);
    EnvIsIgnored(AddViewChange(r, own), env);
    FiledStates(r, own);
    var r1 := AddViewChange(r.(env := env), own);
    BuiltView(r1);
    var r2 := CheckIntoNewView(r1).0;
    var r3 := r2.(cfg := r2.cfg.ResetNewView(r.cfg.toView));
    ResetAfterLater(r3, r3.cfg.view, r3.cfg.committed.index);
  }

  lemma BuiltView(r: Replica)
    ensures BuildNewView(r).view == r.cfg.toView
  {
    hide GeneratePrePrepares, ChangeList;
  }

  /** All view changes are for view `v`. */
  predicate AllFor(v: nat, vcs: seq<ViewChange>) {
    forall k :: 0 <= k < |vcs| ==> vcs[k].view == v
  }

  predicate AllValid(g: Cfg, vcs: seq<ViewChange>) {
    forall k :: 0 <= k < |vcs| ==> ValidViewChange(g, vcs[k])
  }

  /** One view change more, judged after answers that led to no new view. */
  lemma JudgedNext(r: Replica, r1: Replica, vc: ViewChange)
    requires Answered(r, r1) && !MovesOn(r, vc.view) && vc.view >= r.cfg.view
    ensures Judge(r1, vc).1 == ValidViewChange(r.cfg, vc)
    ensures Judge(r1, vc).1 ==> Answered(r, Judge(r1, vc).0)
  {
    hide BroadcastViewChange, AddViewChange, OwnViewChange, CanBuildNewView, PrecommitOk;
    if r.cfg.timeout && vc.view + 1 < r.cfg.toView {
      AnswerStays(r, r1);
    }
  }

  lemma {:induction false} JudgedExactly(r: Replica, v: nat, vcs: seq<ViewChange>)
    requires AllFor(v, vcs) && !MovesOn(r, v) && v >= r.cfg.view
    ensures JudgeAll(r, vcs).1 <==> AllValid(r.cfg, vcs)
    ensures JudgeAll(r, vcs).1 ==> Answered(r, JudgeAll(r, vcs).0)
  {
    hide Judge, ValidViewChange, MovesOn, AddViewChange, OwnViewChange;
    if vcs != [] {
      var n := |vcs| - 1;
      JudgedExactly(r, v, vcs[..n]);
      if JudgeAll(r, vcs[..n]).1 {
        JudgedNext(r, JudgeAll(r, vcs[..n]).0, vcs[n]);
      }
      assert AllValid(r.cfg, vcs) <==> AllValid(r.cfg, vcs[..n]) && ValidViewChange(r.cfg, vcs[n]);
    }
  }

  lemma {:induction false} RefusedAtOnce(r: Replica, vcs: seq<ViewChange>)
    requires vcs != [] && !Judge(r, vcs[0]).1
    ensures !JudgeAll(r, vcs).1
  {
    hide Judge;
    if |vcs| > 1 {
      RefusedAtOnce(r, vcs[..|vcs| - 1]);
    }
  }

  lemma {:induction false} JudgedRefused(r: Replica, v: nat, vcs: seq<ViewChange>)
    requires AllFor(v, vcs) && MovesOn(r, v) && vcs != [] && r.cfg.view <= r.cfg.toView
    ensures !JudgeAll(r, vcs).1
  {
    hide BroadcastViewChange, AddViewChange, OwnViewChange, CanBuildNewView, PrecommitOk, JudgeAll;
    assert vcs[0].view == v;
    AnswerMoves(r);
    RefusedAtOnce(r, vcs);
  }

  /** A new view whose changes are all for its own view is accepted exactly if it is valid and
      the replica does not move on to a still later view while it judges them. */
  lemma ValidIsAccepted(r: Replica, nv: NewView)
    requires 0 < r.cfg.Quorum() && r.cfg.view <= r.cfg.toView && AllFor(nv.view, nv.viewChanges)
    ensures HandleNewView(r, nv).1 <==> ValidNewView(r.cfg, nv) && !MovesOn(r, nv.view)
  {
    assert nv.viewChanges == [] ==> JudgeAll(r, nv.viewChanges) == (r, true);
    hide JudgeAll, AddViewChange, OwnViewChange, CanBuildNewView, ValidViewChange, ReachNewView, QuorumOf, Cfg.LeaderIn;
    if nv.view > r.cfg.view {
      assert nv.viewChanges == [] ==> ChangesWeight(r.cfg.nodes, nv.viewChanges) == 0;
      hide ChangesWeight;
      if MovesOn(r, nv.view) {
        if nv.viewChanges != [] {
          JudgedRefused(r, nv.view, nv.viewChanges);
        }
      } else {
        JudgedExactly(r, nv.view, nv.viewChanges);
      }
    }
  }

  lemma ListedViews(bound: bool, r: Replica)
    requires VcInv(r, bound) && r.cfg.toView in r.changes
    ensures BuildNewView(r).view == r.cfg.toView && AllFor(r.cfg.toView, BuildNewView(r).viewChanges)
  {
    hide SentOk, GeneratePrePrepares, Ascending;
    var v := r.cfg.toView;
    forall n | n in r.changes[v] ensures r.changes[v][n].view == v {
      assert FiledChange(r.cfg, r.env.sentChanges, bound, v, n, r.changes[v][n]);
    }
  }

  /** In every run: a new view that an honest replica can build is accepted by an honest replica
      in the same view with the same committed block exactly if it is for a later view, all view
      changes filed for it are valid at the builder, its own one included, and the receiver does
      not move on to a still later view. If the content of view changes is bound, the own one
      always is valid. */
  lemma NewViewAccepted(s: Setting, nodes: NodeList, run: seq<Net>, steps: seq<Step>, k: nat, a: nat, b: nat)
    requires IsRun(s, nodes, run, steps) && k < |run| && a in run[k] && b in run[k]
    requires CanBuildNewView(run[k][a]) && SameView(run[k][a].cfg, run[k][b].cfg)
    ensures var r := run[k][a];
      HandleNewView(run[k][b], BuildNewView(r)).1 <==>
        r.cfg.toView > r.cfg.view && OthersValid(r) && OwnValid(r) && !MovesOn(run[k][b], r.cfg.toView)
    ensures s.bound ==> OwnValid(run[k][a])
  {
    hide IsRun, Inv, VcInv, NetInv, CanBuildNewView, BuildNewView, ValidNewView, ValidViewChange, HandleNewView, MovesOn,
      QuorumOf, WorldOf, OthersValid;
    Reached(s, nodes, run, steps, k);
    var net, w := run[k], WorldOf(s, run[k]);
    ReplicaOf(s, nodes, run[0], net, a);
    ReplicaOf(s, nodes, run[0], net, b);
    InvCfg(net[a], Base(run[0], a), w);
    InvCfg(net[b], Base(run[0], b), w);
    NewViewRoundTrip(w.bound, net[a], net[b].cfg);
    CanBuildListed(net[a]);
    ListedViews(w.bound, net[a]);
    QuorumIsPositive(nodes);
    ValidIsAccepted(net[b], BuildNewView(net[a]));
    if s.bound && a in ChangesFor(net[a], net[a].cfg.toView) {
      WorldBound(s, net);
      OwnChangeValid(net[a], Base(run[0], a), w, net[a].cfg.toView);
    }
  }

  lemma CanBuildListed(r: Replica)
    requires CanBuildNewView(r)
    ensures r.cfg.toView in r.changes
  {
  }

  lemma WorldBound(s: Setting, net: Net)
    ensures WorldOf(s, net).bound == s.bound
  {
  }
}
