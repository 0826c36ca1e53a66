/** A whole replica as a value, with one function for each atomic operation of the cache
    processor and the engine. The classes are proved against these functions, and the
    network runs on them. */
module ReplicaModel {
  import opened Types
  import opened Weights
  import opened ConfigModel
  import opened CacheModel

  /** What a replica did, as logs: messages, view changes and new views broadcast, executions
      requested (`running` are those not finished), checkpoints submitted to the ledger
      (`committing` are those not written), and proposals for which a commit quorum was seen. */
  datatype Env = Env(
    sent: seq<Msg>,
    sentChanges: seq<ViewChange>,
    sentNewViews: seq<NewView>,
    applies: seq<ApplyCall>,
    running: seq<ApplyCall>,
    ledger: seq<Proposal>,
    committing: seq<Proposal>,
    decided: seq<Proposal>)

  type ChangeBook = map<nat, map<nat, ViewChange>>
  type RecoverBook = map<nat, map<nat, Msg>>

  datatype Replica = Replica(
    cfg: Cfg,
    env: Env,
    caches: map<int, Cache>,
    commitQueue: seq<Proposal>,
    executing: map<Hash, int>,
    stableQueue: seq<Proposal>,
    changes: ChangeBook,
    maxCommitted: map<nat, int>,
    maxPrecommit: map<nat, int>,
    newViewSent: bool,
    recovers: RecoverBook)

  type Caches = map<int, Cache>

  function CacheAt(r: Replica, i: int): Cache {
    if i in r.caches then r.caches[i] else EmptyCache(i)
  }

  function Put(r: Replica, c: Cache): Replica {
    r.(caches := r.caches[c.index := c])
  }

  function Send(r: Replica, m: Msg): Replica {
    r.(env := r.env.(sent := r.env.sent + [m]))
  }

  // ---- The priority queues ----

  /** Insert by index, behind entries of the same index. */
  function Insert(q: seq<Proposal>, p: Proposal): seq<Proposal> {
    if q == [] || q[|q| - 1].index <= p.index then q + [p]
    else Insert(q[..|q| - 1], p) + [q[|q| - 1]]
  }

  /** Pop entries while the top is below `k`. */
  function DropBelow(q: seq<Proposal>, k: int): seq<Proposal> {
    if q == [] || q[0].index >= k then q else DropBelow(q[1..], k)
  }

  // ---- Votes ----

  function AddPrePrepareCache(r: Replica, m: Msg): Replica {
    Put(r, AddPrePrepare(CacheAt(r, m.index), m).(index := m.index))
  }

  function AddPrepare(r: Replica, m: Msg): Replica {
    var c := CacheAt(r, m.index);
    Put(r, c.(index := m.index, prepares := AddVote(r.cfg.nodes, m.index, c.prepares, m)))
  }

  function AddCommit(r: Replica, m: Msg): Replica {
    var c := CacheAt(r, m.index);
    Put(r, c.(index := m.index, commits := AddVote(r.cfg.nodes, m.index, c.commits, m)))
  }

  function AddCheckPointMsg(r: Replica, m: Msg): Replica {
    var c := CacheAt(r, m.index);
    Put(r, c.(index := m.index, checkpoints := AddVote(r.cfg.nodes, m.index, c.checkpoints, m)))
  }

  // ---- Ordering: precommit, commit and execution ----

  /** The latest state a proposal may be executed on. */
  function AppliedCheckPoint(g: Cfg, caches: map<int, Cache>, i: int): Option<Proposal> {
    if i == g.committed.index then Some(g.committed)
    else if i in caches then caches[i].checkpoint
    else None
  }

  function TryApply(r: Replica): (Replica, bool) {
    var q := DropBelow(r.commitQueue, r.cfg.expected);
    var r1 := r.(commitQueue := q);
    if q == [] || q[0].index != r.cfg.expected then (r1, false)
    else
      var last := AppliedCheckPoint(r.cfg, r.caches, r.cfg.expected - 1);
      if last.None? || q[0].hash in r.executing then (r1, false)
      else
        var call := ApplyCall(last.value, q[0]);
        (r1.(commitQueue := q[1..],
             executing := r.executing[q[0].hash := q[0].index],
             env := r.env.(applies := r.env.applies + [call], running := r.env.running + [call])),
         true)
  }

  function UpdateCommitQueue(r: Replica, p: Proposal): Replica {
    if p.hash in r.executing then r
    else TryApply(r.(commitQueue := Insert(r.commitQueue, p))).0
  }

  /** The cache reports a commit quorum: its locked proposal enters the commit queue. */
  function Decide(r: Replica, c: Cache): Replica {
    if c.precommit.None? || c.precommit.value.proposal.None? then r
    else
      var p := c.precommit.value.proposal.value;
      UpdateCommitQueue(r.(env := r.env.(decided := r.env.decided + [p])), p)
  }

  /** Lock at an index and vote to commit, if the accepted proposal has its prepare quorum. */
  function LockAt(r: Replica, i: int): Replica {
    var c := CacheAt(r, i);
    Put(r, CheckPrecommit(c, r.cfg).0.(index := i)).(env := r.env.(sent := r.env.sent + VotesCast(c, r.cfg)))
  }

  function PrecommitAt(r: Replica, i: int): Replica {
    var (c', enough) := CheckPrecommit(CacheAt(r, i), r.cfg);
    if enough then Decide(LockAt(r, i), c') else LockAt(r, i)
  }

  function PrecommitEach(r: Replica, ks: seq<int>): Replica {
    if ks == [] then r else PrecommitAt(PrecommitEach(r, ks[..|ks| - 1]), ks[|ks| - 1])
  }

  function CheckAndPreCommit(r: Replica): Replica {
    PrecommitEach(r, Ascending(r.caches.Keys))
  }

  function CommitAt(r: Replica, i: int): Replica {
    var (c', enough) := CheckCommit(CacheAt(r, i), r.cfg);
    var r1 := Put(r, c'.(index := i));
    if !enough then r1
    else
      var r2 := Decide(r1, c');
      r2.(cfg := r2.cfg.ResetToView())
  }

  function CommitEach(r: Replica, ks: seq<int>): Replica {
    if ks == [] then r else CommitAt(CommitEach(r, ks[..|ks| - 1]), ks[|ks| - 1])
  }

  function CheckAndCommit(r: Replica): Replica {
    CommitEach(r, Ascending(r.caches.Keys))
  }

  function EraseExecuted(r: Replica, h: Hash): Replica {
    r.(executing := map k | k in r.executing && k != h :: r.executing[k])
  }

  function ClearExpired(r: Replica): Replica {
    r.(executing := map k | k in r.executing && r.executing[k] > r.cfg.committed.index :: r.executing[k])
  }

  // ---- Checkpoints ----

  function SetCheckPointProposal(r: Replica, p: Proposal): Replica {
    Put(r, SetCheckPoint(CacheAt(r, p.index), r.cfg, p).(index := p.index))
  }

  function TryCommitStable(r: Replica): Replica {
    var q := DropBelow(r.stableQueue, r.cfg.committed.index + 1);
    if q == [] || q[0].index != r.cfg.committed.index + 1 then r.(stableQueue := q)
    else r.(stableQueue := q[1..],
            env := r.env.(ledger := r.env.ledger + [q[0]], committing := r.env.committing + [q[0]]))
  }

  function UpdateStableQueue(r: Replica, p: Proposal): Replica {
    TryCommitStable(r.(stableQueue := Insert(r.stableQueue, p)))
  }

  function StabilizeOne(r: Replica, found: seq<Proposal>, i: int): (Replica, seq<Proposal>) {
    var (c', ok) := CheckStable(CacheAt(r, i), r.cfg);
    (Put(r, c'.(index := i)), if ok && c'.checkpoint.Some? then found + [c'.checkpoint.value] else found)
  }

  /** First pass: mark every cache with a checkpoint quorum, collecting the checkpoints. */
  function StabilizeEach(r: Replica, ks: seq<int>): (Replica, seq<Proposal>) {
    if ks == [] then (r, [])
    else
      var (r1, found) := StabilizeEach(r, ks[..|ks| - 1]);
      StabilizeOne(r1, found, ks[|ks| - 1])
  }

  /** Second pass: queue the collected checkpoints and submit what is next in order. */
  function QueueEach(r: Replica, ps: seq<Proposal>): Replica {
    if ps == [] then r else UpdateStableQueue(QueueEach(r, ps[..|ps| - 1]), ps[|ps| - 1])
  }

  function CheckAndCommitStable(r: Replica): Replica {
    var (r1, found) := StabilizeEach(r, Ascending(r.caches.Keys));
    QueueEach(r1, found)
  }

  // ---- View changes ----

  /** The view changes of replicas whose last block is not outdated. */
  function UpToDate(vcs: map<nat, ViewChange>, index: int): map<nat, ViewChange> {
    map n | n in vcs && vcs[n].index >= index :: vcs[n]
  }

  function StillValid(book: ChangeBook, v: nat, index: int): ChangeBook {
    map w | w in book && w > v :: UpToDate(book[w], index)
  }

  function RemoveInvalidChanges(r: Replica, v: nat, index: int): Replica {
    r.(changes := StillValid(r.changes, v, index))
  }

  /** The caches that stay after block `number` is committed. */
  function Unfinished(caches: map<int, Cache>, number: int): map<int, Cache> {
    map i | i in caches && i > number && !caches[i].stable :: caches[i]
  }

  function RemoveConsensused(r: Replica, v: nat, number: int): Replica {
    var r1 := r.(caches := Unfinished(r.caches, number), maxPrecommit := map[], maxCommitted := map[], newViewSent := false);
    RemoveInvalidChanges(r1, v, number)
  }

  function ResetCaches(caches: map<int, Cache>, v: nat): map<int, Cache> {
    map i | i in caches :: ResetView(caches[i], v)
  }

  function AfterView<V>(book: map<nat, V>, v: nat): map<nat, V> {
    map w | w in book && w > v :: book[w]
  }

  function ResetAfterViewChange(r: Replica, v: nat, index: int): Replica {
    var r1 := r.(caches := ResetCaches(r.caches, v), maxPrecommit := map[], maxCommitted := map[], newViewSent := false,
                 recovers := AfterView(r.recovers, v));
    RemoveInvalidChanges(r1, v, index)
  }

  function ReachNewView(r: Replica, v: nat): Replica {
    var r1 := r.(cfg := r.cfg.ResetNewView(v));
    ResetAfterViewChange(r1, r1.cfg.view, r1.cfg.committed.index)
  }

  /** The lock certificates of the given indices. */
  function PreparedOf(caches: map<int, Cache>, ks: seq<int>): seq<Msg> {
    if ks == [] then []
    else
      var i := ks[|ks| - 1];
      PreparedOf(caches, ks[..|ks| - 1])
      + if i in caches && caches[i].bare.Some? then [caches[i].bare.value] else []
  }

  function Prepared(r: Replica): seq<Msg> {
    PreparedOf(r.caches, Ascending(r.caches.Keys))
  }

  function OwnViewChange(r: Replica): ViewChange {
    ViewChange(r.cfg.toView, r.cfg.committed.index, r.cfg.committed.hash, r.cfg.self, r.cfg.id,
               r.cfg.committed, Prepared(r))
  }

  function RaiseTo(limits: map<nat, int>, v: nat, i: int): map<nat, int> {
    if v !in limits || limits[v] < i then limits[v := i] else limits
  }

  function RaiseToAll(limits: map<nat, int>, v: nat, ms: seq<Msg>): map<nat, int> {
    if ms == [] then limits
    else RaiseTo(RaiseToAll(limits, v, ms[..|ms| - 1]), v, ms[|ms| - 1].index)
  }

  function ChangesFor(r: Replica, v: nat): map<nat, ViewChange> {
    if v in r.changes then r.changes[v] else map[]
  }

  function AddViewChange(r: Replica, vc: ViewChange): Replica {
    if vc.from in ChangesFor(r, vc.view) || vc.from >= |r.cfg.nodes| then r
    else r.(changes := r.changes[vc.view := ChangesFor(r, vc.view)[vc.from := vc]],
            maxCommitted := RaiseTo(r.maxCommitted, vc.view, vc.committed.index),
            maxPrecommit := RaiseToAll(r.maxPrecommit, vc.view, vc.prepared))
  }

  /** One prepared proposal against those seen so far. A certificate for the hash already
      kept is dropped whatever its view; another hash replaces it only with a higher view. */
  function Offer(slots: map<int, Msg>, floor: int, from: nat, m: Msg): map<int, Msg> {
    if m.index < floor then slots
    else if m.index !in slots then slots[m.index := m.(from := from)]
    else if slots[m.index].hash != m.hash && slots[m.index].view < m.view then slots[m.index := m]
    else slots
  }

  function OfferAll(slots: map<int, Msg>, floor: int, from: nat, ms: seq<Msg>): map<int, Msg> {
    if ms == [] then slots
    else Offer(OfferAll(slots, floor, from, ms[..|ms| - 1]), floor, from, ms[|ms| - 1])
  }

  function Slots(vcs: seq<ViewChange>, floor: int): map<int, Msg> {
    if vcs == [] then map[]
    else
      var vc := vcs[|vcs| - 1];
      OfferAll(Slots(vcs[..|vcs| - 1], floor), floor, vc.from, vc.prepared)
  }

  /** The hash of the generated empty block; nothing depends on its value. */
  const EMPTY_BLOCK: Hash := 0

  function Reproposal(g: Cfg, slots: map<int, Msg>, i: int): Msg {
    var filled := i in slots && slots[i].proposal.Some?;
    var p := if filled then slots[i].proposal.value else BareProposal(i, EMPTY_BLOCK);
    Msg(PrePrepare, g.toView, p.index, p.hash, if filled then slots[i].from else g.self, g.id, Some(p))
  }

  function FirstCommitted(r: Replica): int {
    if r.cfg.toView in r.maxCommitted then r.maxCommitted[r.cfg.toView] else r.cfg.committed.index
  }

  function LastPrepared(r: Replica): int {
    if r.cfg.toView in r.maxPrecommit then r.maxPrecommit[r.cfg.toView] else r.cfg.progressed
  }

  /** The view changes of a map in iteration order. */
  function ChangeList(vcs: map<nat, ViewChange>): (l: seq<ViewChange>)
    ensures |l| == |Voters(vcs)|
    ensures forall k :: 0 <= k < |l| ==> Voters(vcs)[k] in vcs && l[k] == vcs[Voters(vcs)[k]]
  {
    var ks := Voters(vcs);
    assert forall k :: 0 <= k < |ks| ==> ks[k] in ks;
    seq(|ks|, k requires 0 <= k < |ks| => vcs[ks[k]])
  }

  /** The pre-prepare list of the new view: every index after the highest committed one up
      to the highest prepared one. */
  function GeneratePrePrepares(r: Replica, vcs: seq<ViewChange>): seq<Msg> {
    var first, last := FirstCommitted(r), LastPrepared(r);
    var slots := Slots(vcs, first);
    seq(MaxInt(0, last - first), k requires 0 <= k => Reproposal(r.cfg, slots, first + 1 + k))
  }

  function BuildNewView(r: Replica): NewView {
    var vcs := ChangeList(ChangesFor(r, r.cfg.toView));
    NewView(r.cfg.toView, r.cfg.committed.index, r.cfg.committed.hash, r.cfg.self, r.cfg.id,
            vcs, GeneratePrePrepares(r, vcs))
  }

  predicate CanBuildNewView(r: Replica) {
    && r.cfg.committed.index >= r.cfg.syncing
    && !r.newViewSent
    && r.cfg.LeaderAfterViewChange()
    && r.cfg.toView in r.changes
    && Weight(r.cfg.nodes, r.changes[r.cfg.toView].Keys) >= r.cfg.Quorum()
  }

  function CheckIntoNewView(r: Replica): (Replica, Option<NewView>) {
    if !CanBuildNewView(r) then (r, None)
    else
      var nv := BuildNewView(r);
      (r.(newViewSent := true, env := r.env.(sentNewViews := r.env.sentNewViews + [nv])), Some(nv))
  }

  /** Move to the new view if this node leads it and holds a quorum of view changes. */
  function TryNewView(r: Replica): Replica {
    var (r1, nv) := CheckIntoNewView(r);
    if nv.Some? then ReachNewView(r1, nv.value.view) else r1
  }

  function BroadcastViewChange(r: Replica): Replica {
    var vc := OwnViewChange(r);
    TryNewView(AddViewChange(r.(env := r.env.(sentChanges := r.env.sentChanges + [vc])), vc))
  }

  function TriggerTimeout(r: Replica): Replica {
    var r1 := r.(cfg := r.cfg.ResetTimeout());
    BroadcastViewChange(RemoveInvalidChanges(r1, r1.cfg.view, r1.cfg.committed.index))
  }

  /** The weight behind views above `v`, each view counting its own senders. */
  function GreaterWeight(g: Cfg, changes: ChangeBook, vs: seq<int>): nat {
    if vs == [] then 0
    else
      var w := vs[|vs| - 1];
      GreaterWeight(g, changes, vs[..|vs| - 1])
      + if w > g.toView && w in changes then Weight(g.nodes, changes[w].Keys) else 0
  }

  function SmallestAbove(v: nat, vs: seq<int>): nat {
    if vs == [] then 0 else if vs[0] > v then vs[0] else SmallestAbove(v, vs[1..])
  }

  /** Of ascending views it is the smallest above `v`; zero means that there is none. */
  lemma {:induction false} SmallestAmong(v: nat, vs: seq<int>)
    requires forall i, j :: 0 <= i < j < |vs| ==> vs[i] < vs[j]
    ensures var s := SmallestAbove(v, vs);
      if s == 0 then forall w :: w in vs ==> w <= v
      else s > v && s in vs && forall w :: w in vs && w > v ==> s <= w
  {
    if vs != [] {
      SmallestAmong(v, vs[1..]);
      assert forall w :: w in vs ==> w == vs[0] || w in vs[1..];
      assert forall w :: w in vs[1..] ==> vs[0] < w;
    }
  }

  /** Enough weight asks for later views: prepare to join the smallest of them. */
  function TryFastViewChange(r: Replica): (Replica, nat) {
    var vs := Ascending(r.changes.Keys);
    var target := SmallestAbove(r.cfg.toView, vs);
    if GreaterWeight(r.cfg, r.changes, vs) < r.cfg.Faulty() + 1 || target == 0 then (r, 0)
    else (r.(cfg := r.cfg.(toView := target - 1)), target)
  }

  /** The lock certificate of a view change is acceptable to a replica with this state. */
  predicate PrecommitOk(g: Cfg, m: Msg) {
    && !(g.recovered && m.view > g.view)
    && m.proposal.Some?
    && Certified(g.nodes, m.proposal.value.hash, m.proposal.value.proofs)
  }

  predicate ValidViewChange(g: Cfg, vc: ViewChange) {
    && vc.committed.index >= g.committed.index
    && vc.view >= g.view
    && !(vc.committed.index == g.committed.index && vc.committed.hash != g.committed.hash)
    && (forall k :: 0 <= k < |vc.prepared| ==> PrecommitOk(g, vc.prepared[k]))
    && g.SignedBy(vc.from, vc.signer)
  }

  function ChangesWeight(nodes: seq<Node>, vcs: seq<ViewChange>): nat {
    if vcs == [] then 0
    else
      var last := vcs[|vcs| - 1];
      ChangesWeight(nodes, vcs[..|vcs| - 1])
      + if last.from < |nodes| then nodes[last.from].weight else 0
  }

  predicate ValidNewView(g: Cfg, nv: NewView) {
    && nv.from == g.LeaderIn(nv.index + 1, nv.view)
    && nv.view > g.view
    && (forall k :: 0 <= k < |nv.viewChanges| ==> ValidViewChange(g, nv.viewChanges[k]))
    && ChangesWeight(g.nodes, nv.viewChanges) >= g.Quorum()
    && g.SignedBy(nv.from, nv.signer)
  }

  // ---- Recovery ----

  function AddRecover(r: Replica, m: Msg): Replica {
    var votes := if m.view in r.recovers then r.recovers[m.view] else map[];
    if m.from in votes then r else r.(recovers := r.recovers[m.view := votes[m.from := m]])
  }

  /** The highest positive view that a quorum reports, or zero. */
  function RecoveredView(g: Cfg, recovers: RecoverBook, vs: seq<int>): nat {
    if vs == [] then 0
    else
      var w, best := vs[|vs| - 1], RecoveredView(g, recovers, vs[..|vs| - 1]);
      if w in recovers && Weight(g.nodes, recovers[w].Keys) >= g.Quorum() && best < w then w else best
  }

  function TryRecover(r: Replica): (Replica, bool) {
    var v := RecoveredView(r.cfg, r.recovers, Ascending(r.recovers.Keys));
    if v == 0 then (r, false)
    else
      var r1 := ResetAfterViewChange(r.(cfg := r.cfg.ResetNewView(v)), v, r.cfg.committed.index);
      (r1.(recovers := map[]), true)
  }

  // ---- Handlers of the engine ----

  predicate ExistPrePrepareAt(r: Replica, m: Msg) {
    m.index in r.caches && ExistPrePrepare(r.caches[m.index], m)
  }

  predicate ProcessedConflict(r: Replica, m: Msg) {
    m.index in r.caches && ConflictWithProcessed(r.caches[m.index], r.cfg, m)
  }

  predicate PrecommitConflict(r: Replica, m: Msg) {
    m.index in r.caches && ConflictWithPrecommit(r.caches[m.index], r.cfg, m)
  }

  predicate PrePrepareOk(r: Replica, m: Msg) {
    && r.cfg.MsgStateOk(m)
    && !ExistPrePrepareAt(r, m)
    && !ProcessedConflict(r, m)
    && !PrecommitConflict(r, m)
  }

  predicate VoteOk(r: Replica, m: Msg) {
    && r.cfg.MsgStateOk(m)
    && m.from != r.cfg.self
    && !(ExistPrePrepareAt(r, m) && ProcessedConflict(r, m))
    && r.cfg.SignatureOk(m)
  }

  function BroadcastPrepare(r: Replica, m: Msg): Replica {
    var own := r.cfg.Own(Prepare, m.index, CarriedHash(m));
    CheckAndPreCommit(Send(AddPrepare(r, own), own))
  }

  predicate AcceptsPrePrepare(r: Replica, m: Msg, fromNewView: bool, checkSignature: bool) {
    && !r.cfg.SyncingHigher()
    && m.hash !in r.executing
    && PrePrepareOk(r, m)
    && (fromNewView
        || (m.from == r.cfg.Leader(m.index) && (checkSignature ==> r.cfg.SignatureOk(m))))
  }

  /** A pre-prepare message. If its proposal still has to be verified, the state does not
      change; the verified message comes back through this function. */
  function HandlePrePrepare(r: Replica, m: Msg, verify: bool, fromNewView: bool, checkSignature: bool)
    : (Replica, bool)
  {
    if !AcceptsPrePrepare(r, m, fromNewView, checkSignature) then (r, false)
    else if verify then (r, m.from < |r.cfg.nodes|)
    else (CheckAndPreCommit(BroadcastPrepare(AddPrePrepareCache(r, m), m)), true)
  }

  function HandlePrepare(r: Replica, m: Msg): (Replica, bool) {
    if !VoteOk(r, m) || !r.cfg.ProposalSignatureOk(m.from, m.proposal) then (r, false)
    else (CheckAndPreCommit(AddPrepare(r, m)), true)
  }

  function HandleCommit(r: Replica, m: Msg): (Replica, bool) {
    if !VoteOk(r, m) then (r, false) else (CheckAndCommit(AddCommit(r, m)), true)
  }

  function HandleCheckPoint(r: Replica, m: Msg): (Replica, bool) {
    if m.index <= r.cfg.committed.index || r.cfg.SyncingHigher() || !r.cfg.SignatureOk(m)
       || !r.cfg.ProposalSignatureOk(m.from, m.proposal)
    then (r, false)
    else (CheckAndCommitStable(TryApply(AddCheckPointMsg(r, m)).0), true)
  }

  /** Vote for the execution result and remember it as the checkpoint to reach. */
  function RecordExecuted(r: Replica, executed: Proposal): Replica {
    var own := r.cfg.Own(CheckPoint, executed.index, executed.hash);
    var r1 := SetCheckPointProposal(AddCheckPointMsg(Send(r, own), own), executed);
    r1.(cfg := r1.cfg.SetExpected(executed.index + 1))
  }

  /** The state machine finished `proposal` with result `executed`. */
  function OnApplied(r: Replica, proposal: Proposal, executed: Proposal): Replica {
    if r.cfg.committed.index >= proposal.index then r
    else EraseExecuted(TryApply(CheckAndCommitStable(RecordExecuted(r, executed))).0, proposal.hash)
  }

  /** The ledger wrote the block `number`. */
  function Finalize(r: Replica, number: int, hash: Hash): Replica {
    var r1 := TryApply(r.(cfg := r.cfg.ResetConfig(number, hash))).0;
    TryCommitStable(RemoveConsensused(r1, r1.cfg.view, number))
  }

  /** After a view change from the current leader: join a later view that enough weight asks
      for. */
  function JoinLater(r: Replica, from: nat): Replica {
    if from != r.cfg.Leader(r.cfg.SealStart()) then r
    else
      var (joined, v) := TryFastViewChange(r);
      if v > 0 then TriggerTimeout(joined) else joined
  }

  /** The sender of a view change has fallen behind what this replica asks for. */
  predicate FallenBehind(g: Cfg, vc: ViewChange) {
    vc.view < g.view || vc.view + 1 < g.toView
  }

  /** Judge a view change. A sender that has fallen behind is answered with the own view change
      while a timeout lasts; the answer may complete a quorum and lead into a later view, and the
      rest is checked in the state after it. */
  function Judge(r: Replica, vc: ViewChange): (Replica, bool) {
    if vc.committed.index < r.cfg.committed.index then (r, false)
    else
      var r1 := if FallenBehind(r.cfg, vc) && r.cfg.timeout then BroadcastViewChange(r) else r;
      (r1, ValidViewChange(r1.cfg, vc))
  }

  /** Judge one view change after the other until one is refused. */
  function JudgeAll(r: Replica, vcs: seq<ViewChange>): (Replica, bool) {
    if vcs == [] then (r, true)
    else
      var (r1, ok) := JudgeAll(r, vcs[..|vcs| - 1]);
      if ok then Judge(r1, vcs[|vcs| - 1]) else (r1, false)
  }

  function JudgeNewView(r: Replica, nv: NewView): (Replica, bool) {
    if nv.from != r.cfg.LeaderIn(nv.index + 1, nv.view) || nv.view <= r.cfg.view then (r, false)
    else
      var (r1, ok) := JudgeAll(r, nv.viewChanges);
      (r1, ok && ChangesWeight(r1.cfg.nodes, nv.viewChanges) >= r1.cfg.Quorum() && r1.cfg.SignedBy(nv.from, nv.signer))
  }

  function HandleViewChange(r: Replica, vc: ViewChange): (Replica, bool) {
    var (r1, ok) := Judge(r, vc);
    if ok then (TryNewView(JoinLater(AddViewChange(r1, vc), vc.from)), true) else (r1, false)
  }

  function HandleNewView(r: Replica, nv: NewView): (Replica, bool) {
    var (r1, ok) := JudgeNewView(r, nv);
    if ok then (ReachNewView(r1, nv.view), true) else (r1, false)
  }

  function HandleRecover(r: Replica, m: Msg): Replica {
    if !r.cfg.SignatureOk(m) then r else TryRecover(AddRecover(r, m)).0
  }

  /** The consensus timer fired: prefer to execute what is ready, wait for what is running,
      and only then ask for the next view. */
  function OnTimeout(r: Replica): Replica {
    var (r1, applied) := TryApply(r);
    if applied then r1
    else
      var r2 := ClearExpired(r1);
      if |r2.executing| > 0 then r2 else TriggerTimeout(r2)
  }
}
