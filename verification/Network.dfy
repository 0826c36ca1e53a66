/** Honest replicas connected by a network in which faulty nodes send anything under their own
    identity, and messages are delivered in any order, any number of times or not at all. */
module Network {
  import opened Types
  import opened Weights
  import opened ConfigModel
  import opened CacheModel
  import opened ReplicaModel
  import opened CacheInvariant
  import opened ReplicaInvariant
  import opened HandlerInvariant
  import opened Monotone
  import opened ViewChangeInvariant

  /** The honest replicas, by node index. */
  type Net = map<nat, Replica>

  /** One atomic step of a replica. */
  datatype Event =
    | PrePrepareIn(m: Msg, verify: bool, fromNewView: bool, checkSignature: bool)
    | PrepareIn(m: Msg)
    | CommitIn(m: Msg)
    | CheckPointIn(m: Msg)
    | ViewChangeIn(vc: ViewChange)
    | NewViewIn(nv: NewView)
    | RecoverIn(m: Msg)
    | TimerFired
    | LeaderLost
    | Executed(k: nat, executed: Proposal)
    | Written(k: nat)
    | SyncNotice(number: int)

  /** What a run may rely on: of which kinds votes carry a verified signature, whether the signed
      bytes bind the kind as well, whether the signature of a view change binds its content, and
      which results an execution can have. */
  datatype Setting = Setting(signed: set<Kind>, typed: bool, bound: bool, results: (Hash, Hash, Hash) -> bool)

  /** The votes that carry a signature in this system. */
  const VOTES: set<Kind> := {Prepare, Commit, CheckPoint}

  /** The signature of an honest node exists only on what that node sent. The payload is not
      signed with the header, so only the header has to match, and the kind only if it is bound. */
  ghost predicate Genuine(s: Setting, net: Net, m: Msg) {
    m.kind in s.signed ==>
      forall b, r :: b in net && r == net[b] && m.signer == r.cfg.id ==>
        exists sent :: sent in r.env.sent && sent.SameHeader(m) && (s.typed ==> sent.kind == m.kind)
  }

  /** A view change carries the hash that its signature covers. Unless that is compared with the
      content, any signature the node has ever made, also before the run, fits any content. */
  ghost predicate GenuineChange(s: Setting, net: Net, vc: ViewChange) {
    s.bound ==>
      forall b, r :: b in net && r == net[b] && vc.signer == r.cfg.id ==> vc in r.env.sentChanges
  }

  /** What the environment may do to replica `r`. */
  ghost predicate Enabled(s: Setting, net: Net, r: Replica, e: Event) {
    match e
    case PrePrepareIn(m, _, _, _) => m.WellFormed()
    case PrepareIn(m) => m.kind == Prepare && m.WellFormed() && Genuine(s, net, m)
    case CommitIn(m) => m.kind == Commit && m.WellFormed() && Genuine(s, net, m)
    case CheckPointIn(m) => m.kind == CheckPoint && m.WellFormed() && Genuine(s, net, m)
    case ViewChangeIn(vc) => GenuineChange(s, net, vc)
    case Executed(k, executed) =>
      && k < |r.env.running| && executed.index == r.env.running[k].proposal.index
      && s.results(r.env.running[k].last.hash, r.env.running[k].proposal.hash, executed.hash)
    case Written(k) => k < |r.env.committing|
    case _ => true
  }

  function Without<T>(s: seq<T>, k: nat): seq<T>
    requires k < |s|
  {
    s[..k] + s[k + 1..]
  }

  function React(r: Replica, e: Event): Replica {
    match e
    case PrePrepareIn(m, verify, fromNewView, checkSignature) =>
      HandlePrePrepare(r, m, verify, fromNewView, checkSignature).0
    case PrepareIn(m) => HandlePrepare(r, m).0
    case CommitIn(m) => HandleCommit(r, m).0
    case CheckPointIn(m) => HandleCheckPoint(r, m).0
    case ViewChangeIn(vc) => HandleViewChange(r, vc).0
    case NewViewIn(nv) => HandleNewView(r, nv).0
    case RecoverIn(m) => HandleRecover(r, m)
    case TimerFired => OnTimeout(r)
    case LeaderLost => TriggerTimeout(r)
    case Executed(k, executed) =>
      if k >= |r.env.running| then r
      else OnApplied(r.(env := r.env.(running := Without(r.env.running, k))), r.env.running[k].proposal, executed)
    case Written(k) =>
      if k >= |r.env.committing| then r
      else Finalize(r.(env := r.env.(committing := Without(r.env.committing, k))),
                    r.env.committing[k].index, r.env.committing[k].hash)
    case SyncNotice(number) => r.(cfg := r.cfg.(syncing := number))
  }

  datatype Step = Step(node: nat, event: Event)

  ghost predicate CanStep(s: Setting, net: Net, step: Step) {
    step.node in net && Enabled(s, net, net[step.node], step.event)
  }

  function Next(net: Net, step: Step): Net {
    if step.node in net then net[step.node := React(net[step.node], step.event)] else net
  }

  /** The common ground of a network: one node list with some weight, and faulty nodes, those
      that are not honest replicas, of at most the tolerated weight. */
  ghost predicate Tolerable(nodes: NodeList, net: Net) {
    && 1 <= Total(nodes) < UINT64
    && (forall n :: n in net ==> n < |nodes|)
    && Weight(nodes, All(nodes) - net.Keys) <= MaxFaulty(Total(nodes))
  }

  /** A replica that has just loaded its last committed block and nothing else. */
  ghost predicate Started(nodes: NodeList, n: nat, r: Replica) {
    && r.cfg.nodes == nodes && n < |nodes| && r.cfg.self == n && r.cfg.id == nodes[n].id
    && 1 <= Total(nodes) < UINT64
    && 0 <= r.cfg.committed.index
    && r.cfg.progressed == r.cfg.low == r.cfg.expected == r.cfg.committed.index + 1
    && r.cfg.view <= r.cfg.toView
    && r.env == Env([], [], [], [], [], [], [], [])
    && r.caches == map[] && r.commitQueue == [] && r.executing == map[] && r.stableQueue == []
    && r.changes == map[]
  }

  ghost predicate Init(nodes: NodeList, net: Net) {
    Tolerable(nodes, net) && forall n :: n in net ==> Started(nodes, n, net[n])
  }

  ghost predicate Follows(s: Setting, net: Net, step: Step, net': Net) {
    CanStep(s, net, step) && net' == Next(net, step)
  }

  /** A run: the networks it goes through, from an initial one, and the steps between them. */
  ghost predicate IsRun(s: Setting, nodes: NodeList, run: seq<Net>, steps: seq<Step>) {
    && |run| == |steps| + 1
    && Init(nodes, run[0])
    && forall k {:trigger steps[k]} :: 0 <= k < |steps| ==> Follows(s, run[k], steps[k], run[k + 1])
  }

  /** What a signature of a node with this log proves about a vote of the given kind. */
  function Provable(s: Setting, sent: seq<Msg>, kind: Kind): set<(int, Hash)> {
    if s.typed then Cast(sent, kind) else set m | m in sent :: (m.index, m.hash)
  }

  function WorldOf(s: Setting, net: Net): World {
    World(map n, kind | n in net && kind in s.signed :: (kind, n) := Provable(s, net[n].env.sent, kind), s.results, s.bound)
  }

  /** The block a replica started from. */
  function Base(net: Net, n: nat): Proposal {
    if n in net then net[n].cfg.committed else BareProposal(0, 0)
  }

  ghost predicate ReplicaOk(nodes: NodeList, n: nat, r: Replica, base: Proposal, w: World) {
    r.cfg.nodes == nodes && r.cfg.self == n && Inv(r, base, w) && VcInv(r, w.bound)
  }

  /** The invariant of every reachable network; `start` is the network the run began with. */
  ghost predicate NetInv(s: Setting, nodes: NodeList, start: Net, net: Net) {
    && net.Keys == start.Keys
    && forall n :: n in net ==> ReplicaOk(nodes, n, net[n], Base(start, n), WorldOf(s, net))
  }

  // ---- One step ----

  ghost predicate Identified(nodes: NodeList, net: Net) {
    forall b :: b in net ==>
      b < |nodes| && net[b].cfg.nodes == nodes && net[b].cfg.self == b && net[b].cfg.id == nodes[b].id
  }

  lemma Identities(s: Setting, nodes: NodeList, start: Net, net: Net)
    requires NetInv(s, nodes, start, net)
    ensures Identified(nodes, net)
  {
    hide Inv, VcInv;
    forall b | b in net
      ensures b < |nodes| && net[b].cfg.nodes == nodes && net[b].cfg.self == b && net[b].cfg.id == nodes[b].id
    {
      assert ReplicaOk(nodes, b, net[b], Base(start, b), WorldOf(s, net));
      InvCfg(net[b], Base(start, b), WorldOf(s, net));
    }
  }

  lemma GenuineIsProvable(s: Setting, net: Net, m: Msg, b: nat)
    requires Genuine(s, net, m) && m.kind in s.signed && b in net && m.signer == net[b].cfg.id
    ensures (m.index, m.hash) in Provable(s, net[b].env.sent, m.kind)
  {
    var r := net[b];
    var sent :| sent in r.env.sent && sent.SameHeader(m) && (s.typed ==> sent.kind == m.kind);
  }

  lemma ProvableIsJustified(s: Setting, net: Net, n: nat, m: Msg)
    requires n in net
    requires m.from in net && m.kind in s.signed ==> (m.index, m.hash) in Provable(s, net[m.from].env.sent, m.kind)
    ensures Justified(n, net[n].env.sent, WorldOf(s, net), m.from, m.kind, m.index, m.hash)
  {
    hide Cast, Provable;
  }

  /** A vote that verifies was signed by its sender, if that sender is honest: as a vote of this
      kind where the kind is bound, and as a vote of some kind otherwise. */
  lemma VoteJustified(s: Setting, nodes: NodeList, start: Net, net: Net, n: nat, m: Msg)
    requires NetInv(s, nodes, start, net) && n in net
    requires Genuine(s, net, m) && net[n].cfg.SignatureOk(m)
    ensures Justified(net[n].cfg.self, net[n].env.sent, WorldOf(s, net), m.from, m.kind, m.index, m.hash)
  {
    hide NetInv, Genuine, Provable, Justified, WorldOf;
    Identities(s, nodes, start, net);
    if m.from in net && m.kind in s.signed {
      GenuineIsProvable(s, net, m, m.from);
    }
    ProvableIsJustified(s, net, n, m);
  }

  /** A good reaction: the invariants hold, logs only grew and no checkpoint was lost. */
  ghost predicate Reacts(nodes: NodeList, n: nat, r: Replica, r': Replica, base: Proposal, w: World) {
    ReplicaOk(nodes, n, r', base, w) && Later(r, r') && Kept(r, r')
  }

  lemma ReplicaOf(s: Setting, nodes: NodeList, start: Net, net: Net, n: nat)
    requires NetInv(s, nodes, start, net) && n in net
    ensures ReplicaOk(nodes, n, net[n], Base(start, n), WorldOf(s, net))
  {
    hide ReplicaOk;
  }

  lemma VoteReaction(r: Replica, m: Msg)
    ensures React(r, PrepareIn(m)) == HandlePrepare(r, m).0
    ensures React(r, CommitIn(m)) == HandleCommit(r, m).0
    ensures React(r, CheckPointIn(m)) == HandleCheckPoint(r, m).0
  {
    hide HandlePrepare, HandleCommit, HandleCheckPoint;
  }

  lemma ReactKeeps(s: Setting, nodes: NodeList, start: Net, net: Net, n: nat, e: Event)
    requires NetInv(s, nodes, start, net) && n in net && Enabled(s, net, net[n], e)
    ensures Reacts(nodes, n, net[n], React(net[n], e), Base(start, n), WorldOf(s, net))
  {
    hide NetInv, ReplicaOk, Reacts, React, Genuine, GenuineChange, Base, Provable;
    var r, base, w := net[n], Base(start, n), WorldOf(s, net);
    ReplicaOf(s, nodes, start, net, n);
    match e
    case PrepareIn(m) =>
      PrepareReact(s, nodes, start, net, n, m);
      VoteReaction(r, m);
    case CommitIn(m) =>
      CommitReact(s, nodes, start, net, n, m);
      VoteReaction(r, m);
    case CheckPointIn(m) =>
      CheckPointReact(s, nodes, start, net, n, m);
      VoteReaction(r, m);
    case ViewChangeIn(vc) => OwnChangeReact(s, nodes, net, n, r, vc, base, w);
    case PrePrepareIn(_, _, _, _) => PrePrepareReact(nodes, n, r, e, base, w);
    case Executed(k, executed) => ExecutedReact(nodes, n, r, k, executed, base, w);
    case Written(k) => WrittenReact(nodes, n, r, k, base, w);
    case SyncNotice(number) => SyncReact(nodes, n, r, number, base, w);
    case _ => ViewReact(nodes, n, r, e, base, w);
  }

  lemma PrePrepareReact(nodes: NodeList, n: nat, r: Replica, e: Event, base: Proposal, w: World)
    requires ReplicaOk(nodes, n, r, base, w)
    requires e.PrePrepareIn? && e.m.WellFormed()
    ensures Reacts(nodes, n, r, React(r, e), base, w)
  {
    hide Inv, VcInv, Later, Kept, Untouched, HandlePrePrepare;
    HandlePrePrepareKeeps(r, e.m, e.verify, e.fromNewView, e.checkSignature, base, w);
    HandlePrePrepareLater(r, e.m, e.verify, e.fromNewView, e.checkSignature);
    hide ReplicaOk, Quiet;
    QuietReact(nodes, n, r, React(r, e), base, w);
    UntouchedKept(r, React(r, e));
  }

  lemma PrepareInKeeps(s: Setting, nodes: NodeList, start: Net, net: Net, n: nat, m: Msg)
    requires NetInv(s, nodes, start, net) && n in net && m.kind == Prepare && m.WellFormed() && Genuine(s, net, m)
    ensures Inv(HandlePrepare(net[n], m).0, Base(start, n), WorldOf(s, net))
  {
    ReplicaOf(s, nodes, start, net, n);
    hide NetInv, Inv, VcInv, Genuine, Justified, CheckAndPreCommit, WorldOf;
    if VoteOk(net[n], m) {
      VoteJustified(s, nodes, start, net, n, m);
      HandlePrepareKeeps(net[n], m, Base(start, n), WorldOf(s, net));
    }
  }

  lemma PrepareReact(s: Setting, nodes: NodeList, start: Net, net: Net, n: nat, m: Msg)
    requires NetInv(s, nodes, start, net) && n in net && m.kind == Prepare && m.WellFormed() && Genuine(s, net, m)
    ensures Reacts(nodes, n, net[n], HandlePrepare(net[n], m).0, Base(start, n), WorldOf(s, net))
  {
    var r' := HandlePrepare(net[n], m).0;
    ReplicaOf(s, nodes, start, net, n);
    PrepareInKeeps(s, nodes, start, net, n, m);
    hide NetInv, ReplicaOk, Genuine, Later, Kept, HandlePrepare, Untouched, Inv, WorldOf;
    HandlePrepareLater(net[n], m);
    QuietReact(nodes, n, net[n], r', Base(start, n), WorldOf(s, net));
    UntouchedKept(net[n], r');
  }

  lemma ViewReacts(nodes: NodeList, n: nat, r: Replica, r': Replica, base: Proposal, w: World)
    requires ReplicaOk(nodes, n, r, base, w)
    requires Inv(r', base, w) && VcInv(r', w.bound) && Later(r, r') && Untouched(r, r')
    ensures Reacts(nodes, n, r, r', base, w)
  {
    hide Inv, VcInv, EnvLater;
    UntouchedKept(r, r');
  }

  lemma OwnChangeReact(s: Setting, nodes: NodeList, net: Net, n: nat, r: Replica, vc: ViewChange, base: Proposal, w: World)
    requires ReplicaOk(nodes, n, r, base, w) && n in net && r == net[n]
    requires w.bound == s.bound && GenuineChange(s, net, vc)
    ensures Reacts(nodes, n, r, React(r, ViewChangeIn(vc)), base, w)
  {
    hide Inv, VcInv, Later, Untouched, HandleViewChange;
    HandleViewChangeKeeps(r, vc, base, w);
    HandleViewChangeLater(r, vc);
    HandleViewChangeVc(r, vc, base, w);
    hide ReplicaOk, Reacts;
    ViewReacts(nodes, n, r, React(r, ViewChangeIn(vc)), base, w);
  }

  lemma ViewReact(nodes: NodeList, n: nat, r: Replica, e: Event, base: Proposal, w: World)
    requires ReplicaOk(nodes, n, r, base, w)
    requires e.NewViewIn? || e.RecoverIn? || e.TimerFired? || e.LeaderLost?
    ensures Reacts(nodes, n, r, React(r, e), base, w)
  {
    hide Inv, VcInv, Later, Untouched, HandleNewView, HandleRecover, OnTimeout, TriggerTimeout;
    match e {
      case NewViewIn(nv) =>
        HandleNewViewKeeps(r, nv, base, w);
        HandleNewViewLater(r, nv);
        HandleNewViewVc(r, nv, base, w);
      case RecoverIn(m) =>
        HandleRecoverKeeps(r, m, base, w);
        HandleRecoverLater(r, m);
        HandleRecoverVc(w.bound, r, m);
      case TimerFired =>
        OnTimeoutKeeps(r, base, w);
        OnTimeoutLater(r);
        OnTimeoutVc(r, base, w);
      case LeaderLost =>
        TriggerTimeoutKeeps(r, base, w);
        TriggerTimeoutLater(r);
        TriggerTimeoutVc(r, base, w);
    }
    hide ReplicaOk, Reacts;
    ViewReacts(nodes, n, r, React(r, e), base, w);
  }

  lemma UntouchedKept(r: Replica, r': Replica)
    requires Untouched(r, r')
    ensures Kept(r, r')
  {
  }

  lemma QuietReact(nodes: NodeList, n: nat, r: Replica, r': Replica, base: Proposal, w: World)
    requires ReplicaOk(nodes, n, r, base, w)
    requires Inv(r', base, w) && Later(r, r') && Quiet(r, r')
    ensures ReplicaOk(nodes, n, r', base, w)
  {
    hide Inv, VcInv, EnvLater;
    QuietKeeps(w.bound, r, r');
  }

  lemma CommitInKeeps(s: Setting, nodes: NodeList, start: Net, net: Net, n: nat, m: Msg)
    requires NetInv(s, nodes, start, net) && n in net && m.kind == Commit && m.WellFormed() && Genuine(s, net, m)
    ensures Inv(HandleCommit(net[n], m).0, Base(start, n), WorldOf(s, net))
  {
    ReplicaOf(s, nodes, start, net, n);
    hide NetInv, Inv, VcInv, Genuine, Justified, CheckAndCommit, WorldOf;
    if VoteOk(net[n], m) {
      VoteJustified(s, nodes, start, net, n, m);
      HandleCommitKeeps(net[n], m, Base(start, n), WorldOf(s, net));
    }
  }

  lemma CommitReact(s: Setting, nodes: NodeList, start: Net, net: Net, n: nat, m: Msg)
    requires NetInv(s, nodes, start, net) && n in net && m.kind == Commit && m.WellFormed() && Genuine(s, net, m)
    ensures Reacts(nodes, n, net[n], HandleCommit(net[n], m).0, Base(start, n), WorldOf(s, net))
  {
    var r' := HandleCommit(net[n], m).0;
    ReplicaOf(s, nodes, start, net, n);
    CommitInKeeps(s, nodes, start, net, n, m);
    hide NetInv, ReplicaOk, Genuine, Later, Kept, HandleCommit, Untouched, Inv, WorldOf;
    HandleCommitLater(net[n], m);
    QuietReact(nodes, n, net[n], r', Base(start, n), WorldOf(s, net));
    UntouchedKept(net[n], r');
  }

  lemma CheckPointInKeeps(s: Setting, nodes: NodeList, start: Net, net: Net, n: nat, m: Msg)
    requires NetInv(s, nodes, start, net) && n in net && m.kind == CheckPoint && m.WellFormed() && Genuine(s, net, m)
    ensures Inv(HandleCheckPoint(net[n], m).0, Base(start, n), WorldOf(s, net))
    ensures Kept(net[n], HandleCheckPoint(net[n], m).0)
  {
    ReplicaOf(s, nodes, start, net, n);
    hide NetInv, Inv, VcInv, Genuine, Justified, CheckAndCommitStable, TryApply, AddCheckPointMsg, WorldOf;
    if net[n].cfg.SignatureOk(m) {
      VoteJustified(s, nodes, start, net, n, m);
      HandleCheckPointKeeps(net[n], m, Base(start, n), WorldOf(s, net));
    }
  }

  lemma CheckPointReact(s: Setting, nodes: NodeList, start: Net, net: Net, n: nat, m: Msg)
    requires NetInv(s, nodes, start, net) && n in net && m.kind == CheckPoint && m.WellFormed() && Genuine(s, net, m)
    ensures Reacts(nodes, n, net[n], HandleCheckPoint(net[n], m).0, Base(start, n), WorldOf(s, net))
  {
    ReplicaOf(s, nodes, start, net, n);
    CheckPointInKeeps(s, nodes, start, net, n, m);
    hide NetInv, ReplicaOk, Genuine, Later, Kept, HandleCheckPoint, Inv, WorldOf;
    HandleCheckPointLater(net[n], m);
    QuietReact(nodes, n, net[n], HandleCheckPoint(net[n], m).0, Base(start, n), WorldOf(s, net));
  }

  lemma OneRunning(r: Replica, base: Proposal, w: World)
    requires Inv(r, base, w)
    ensures |r.env.running| <= 1 && |r.env.committing| <= 1
  {
    hide CfgOk, CachesOk, LockOk, AuthOk, QueueOk, AppliesOk, VotesOnce, AllStable, AllReported, DecidedOk, ChainOk, ResultsOk;
  }

  lemma ExecutedReact(nodes: NodeList, n: nat, r: Replica, k: nat, executed: Proposal, base: Proposal, w: World)
    requires ReplicaOk(nodes, n, r, base, w)
    requires k < |r.env.running| && executed.index == r.env.running[k].proposal.index
    requires w.results(r.env.running[k].last.hash, r.env.running[k].proposal.hash, executed.hash)
    ensures Reacts(nodes, n, r, React(r, Executed(k, executed)), base, w)
  {
    hide Inv, VcInv, OnApplied, EnvLater;
    OneRunning(r, base, w);
    assert Without(r.env.running, k) == [];
    var r0 := r.(env := r.env.(running := []));
    OnAppliedKeeps(r, executed, base, w);
    OnAppliedLater(r0, r.env.running[0].proposal, executed);
    assert EnvLater(r.env, OnApplied(r0, r.env.running[0].proposal, executed).env) by { RunningIrrelevant(r.env, [], OnApplied(r0, r.env.running[0].proposal, executed).env); }
    QuietReact(nodes, n, r, OnApplied(r0, r.env.running[0].proposal, executed), base, w);
  }

  lemma RunningIrrelevant(e: Env, running: seq<ApplyCall>, e': Env)
    requires EnvLater(e.(running := running), e')
    ensures EnvLater(e, e')
  {
  }

  lemma CommittingIrrelevant(e: Env, committing: seq<Proposal>, e': Env)
    requires EnvLater(e.(committing := committing), e')
    ensures EnvLater(e, e')
  {
  }

  lemma WrittenReact(nodes: NodeList, n: nat, r: Replica, k: nat, base: Proposal, w: World)
    requires ReplicaOk(nodes, n, r, base, w)
    requires k < |r.env.committing|
    ensures Reacts(nodes, n, r, React(r, Written(k)), base, w)
  {
    hide Inv, VcInv, Finalize, EnvLater;
    OneRunning(r, base, w);
    assert Without(r.env.committing, k) == [];
    var q := r.env.committing[0];
    var r0 := r.(env := r.env.(committing := []));
    FinalizeKeeps(r, base, w);
    FinalizeVc(r, base, w);
    WrittenKeeps(r, base, w);
    FinalizeLater(r0, q.index, q.hash);
    CommittingIrrelevant(r.env, [], Finalize(r0, q.index, q.hash).env);
  }

  lemma SyncReact(nodes: NodeList, n: nat, r: Replica, number: int, base: Proposal, w: World)
    requires ReplicaOk(nodes, n, r, base, w)
    ensures Reacts(nodes, n, r, React(r, SyncNotice(number)), base, w)
  {
    hide Inv, VcInv;
    SyncingKeeps(r, number, base, w);
    KeepVcInv(w.bound, r, r.(cfg := r.cfg.(syncing := number)));
  }
}
