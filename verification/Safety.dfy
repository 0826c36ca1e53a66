/** What the protocol promises, for every run from every initial network. */
module Safety {
  import opened Types
  import opened Weights
  import opened ConfigModel
  import opened CacheModel
  import opened ReplicaModel
  import opened CacheInvariant
  import opened ReplicaInvariant
  import opened HandlerInvariant
  import opened Monotone
  import opened ViewChangeInvariant
  import opened Network
  import opened Runs
  import opened VoteOrder
  import opened OrderedRuns
  import opened StateMachine

  // ---- Agreement ----

  /** A quorum stands for `h` at `i`: its honest members all signed that, as a vote of this kind
      where the signature binds the kind. */
  ghost predicate VotedByQuorum(s: Setting, nodes: NodeList, net: Net, kind: Kind, i: int, h: Hash) {
    exists q: set<nat> :: VotedBy(s, nodes, net, kind, i, h, q)
  }

  ghost predicate VotedBy(s: Setting, nodes: NodeList, net: Net, kind: Kind, i: int, h: Hash, q: set<nat>) {
    && Weight(nodes, q) >= QuorumOf(nodes)
    && forall n :: n in q && n in net ==> (i, h) in Provable(s, net[n].env.sent, kind)
  }

  lemma EvidenceIsVote(s: Setting, nodes: NodeList, net: Net, a: nat, kind: Kind, i: int, h: Hash)
    requires a in net && kind in s.signed
    requires Evidence(nodes, a, net[a].env.sent, WorldOf(s, net), kind, i, h)
    ensures VotedByQuorum(s, nodes, net, kind, i, h)
  {
    hide Weight, QuorumOf;
    var q :| Witness(nodes, a, net[a].env.sent, WorldOf(s, net), kind, i, h, q);
    forall n | n in q && n in net ensures (i, h) in Provable(s, net[n].env.sent, kind) {
      assert Justified(a, net[a].env.sent, WorldOf(s, net), n, kind, i, h);
    }
    assert VotedBy(s, nodes, net, kind, i, h, q);
  }

  /** Two quorums for one index share an honest voter. */
  lemma CommonVoter(s: Setting, nodes: NodeList, net: Net, kind: Kind, i: int, h: Hash, h': Hash) returns (n: nat)
    requires Tolerable(nodes, net)
    requires VotedByQuorum(s, nodes, net, kind, i, h) && VotedByQuorum(s, nodes, net, kind, i, h')
    ensures n in net
    ensures (i, h) in Provable(s, net[n].env.sent, kind) && (i, h') in Provable(s, net[n].env.sent, kind)
  {
    hide Weight, QuorumOf, MaxFaulty, Provable, Total;
    var p :| VotedBy(s, nodes, net, kind, i, h, p);
    var q :| VotedBy(s, nodes, net, kind, i, h', q);
    QuorumsOverlap(nodes, p, q);
    n := HonestMember(nodes, p * q, All(nodes) - net.Keys);
  }

  lemma OneCommitVote(s: Setting, nodes: NodeList, start: Net, net: Net, n: nat)
    requires NetInv(s, nodes, start, net) && n in net
    ensures OneVote(Cast(net[n].env.sent, Commit)) && OneVote(Cast(net[n].env.sent, CheckPoint))
  {
    hide VcInv, OneVote, CfgOk, CachesOk, AuthOk, QueueOk, AppliesOk, ExecOk, LedgerOk, AllStable, AllReported, DecidedOk,
      ChainOk, ResultsOk;
    ReplicaOf(s, nodes, start, net, n);
  }

  lemma SameHash(s: Setting, nodes: NodeList, start: Net, net: Net, kind: Kind, i: int, h: Hash, h': Hash)
    requires NetInv(s, nodes, start, net) && Tolerable(nodes, net)
    requires s.typed && (kind == Commit || kind == CheckPoint)
    requires VotedByQuorum(s, nodes, net, kind, i, h) && VotedByQuorum(s, nodes, net, kind, i, h')
    ensures h == h'
  {
    hide NetInv, Tolerable, VotedByQuorum, Cast;
    var n := CommonVoter(s, nodes, net, kind, i, h, h');
    OneCommitVote(s, nodes, start, net, n);
  }

  lemma DecisionEvidence(s: Setting, nodes: NodeList, start: Net, net: Net, n: nat, p: Proposal)
    requires NetInv(s, nodes, start, net) && n in net && p in net[n].env.decided
    ensures DecisionOk(nodes, n, net[n].env.sent, WorldOf(s, net), p)
  {
    hide VcInv, DecisionOk, CfgOk, CachesOk, LockOk, AuthOk, QueueOk, AppliesOk, ExecOk, VotesOnce, LedgerOk, AllStable,
      AllReported, ChainOk, ResultsOk;
    ReplicaOf(s, nodes, start, net, n);
  }

  lemma LedgerEvidence(s: Setting, nodes: NodeList, start: Net, net: Net, n: nat, p: Proposal)
    requires NetInv(s, nodes, start, net) && n in net && p in net[n].env.ledger
    ensures StableOk(nodes, n, net[n].env.sent, WorldOf(s, net), p)
  {
    hide VcInv, StableOk, CfgOk, CachesOk, LockOk, AuthOk, QueueOk, AppliesOk, ExecOk, VotesOnce, LedgerOk, DecidedOk,
      AllReported, ChainOk, ResultsOk;
    ReplicaOf(s, nodes, start, net, n);
    assert p in net[n].env.ledger + net[n].stableQueue;
  }

  lemma Reached(s: Setting, nodes: NodeList, run: seq<Net>, steps: seq<Step>, k: nat)
    requires IsRun(s, nodes, run, steps) && k < |run|
    ensures NetInv(s, nodes, run[0], run[k]) && Tolerable(nodes, run[k])
    ensures run[k].Keys == run[0].Keys
  {
    hide ReplicaOk, Started, Follows;
    RunKeeps(s, nodes, run, steps, k);
  }

  /** What a replica logged at one moment it still has at any later one. */
  lemma StillLogged(s: Setting, nodes: NodeList, run: seq<Net>, steps: seq<Step>, j: nat, k: nat, n: nat)
    requires IsRun(s, nodes, run, steps) && j <= k < |run| && n in run[j]
    ensures n in run[k]
    ensures forall p :: p in run[j][n].env.decided ==> p in run[k][n].env.decided
    ensures forall p :: p in run[j][n].env.ledger ==> p in run[k][n].env.ledger
    ensures forall m :: m in run[j][n].env.sent ==> m in run[k][n].env.sent
    ensures forall call :: call in run[j][n].env.applies ==> call in run[k][n].env.applies
  {
    hide IsRun, CfgLater;
    RunIsLater(s, nodes, run, steps, j, k, n);
  }

  /** Replica `n` has decided `p` at moment `k` of the run. */
  ghost predicate DecidedIn(s: Setting, nodes: NodeList, run: seq<Net>, steps: seq<Step>, k: nat, n: nat, p: Proposal) {
    IsRun(s, nodes, run, steps) && k < |run| && n in run[k] && p in run[k][n].env.decided
  }

  /** Replica `n` has submitted `p` to the ledger at moment `k` of the run. */
  ghost predicate SubmittedIn(s: Setting, nodes: NodeList, run: seq<Net>, steps: seq<Step>, k: nat, n: nat, p: Proposal) {
    IsRun(s, nodes, run, steps) && k < |run| && n in run[k] && p in run[k][n].env.ledger
  }

  /** No execution result has the hash of something that was voted on to be ordered at the same
      index. */
  ghost predicate ResultsApart(net: Net) {
    forall a, b, m, m' :: a in net && b in net && m in net[a].env.sent && m' in net[b].env.sent ==>
      m.kind == CheckPoint && m'.kind != CheckPoint && m.index == m'.index ==> m.hash != m'.hash
  }

  /** Every honest node weighs more than the faulty ones may, so no quorum can do without it. */
  ghost predicate HonestHeavy(nodes: NodeList, net: Net) {
    forall n :: n in net ==> n < |nodes| && nodes[n].weight > MaxFaulty(Total(nodes))
  }

  /** What decisions of honest replicas need to agree: either the signature of a commit vote binds
      its kind, or no quorum can do without any honest node and results are told from proposals. */
  ghost predicate OrderBinds(s: Setting, nodes: NodeList, net: Net) {
    || (s.typed && Commit in s.signed)
    || (Prepare in s.signed && HonestHeavy(nodes, net) && ResultsApart(net))
  }

  /** A lock needs the signature of every heavy honest node, on its hash and in its view or a
      later one. */
  lemma HeavySigned(nodes: NodeList, net: Net, a: nat, b: nat, c: Msg) returns (x: Msg)
    requires NetOrder(net) && Tolerable(nodes, net) && HonestHeavy(nodes, net)
    requires a in net && b in net && net[a].cfg.nodes == nodes && c in net[a].env.sent && c.kind == Commit
    ensures x in net[b].env.sent && x.index == c.index && x.hash == c.hash && x.view >= c.view
  {
    hide Weight, Total, QuorumOf, MaxFaulty, AllKnown, CommitsLast, PreparesBacked;
    assert OrderInv(net[a], LogsOf(net));
    var q :| BackedBy(nodes, LogsOf(net), c, q);
    InEveryQuorum(nodes, b);
    assert Backs(LogsOf(net), b, c.view, c.index, c.hash);
    x :| x in LogsOf(net)[b] && x.index == c.index && x.hash == c.hash && x.view >= c.view;
  }

  lemma NotAResult(net: Net, a: nat, b: nat, x: Msg, c: Msg)
    requires ResultsApart(net) && a in net && b in net && x in net[b].env.sent && c in net[a].env.sent
    requires c.kind == Commit && x.index == c.index && x.hash == c.hash
    ensures x.kind != CheckPoint
  {
  }

  /** If a replica signed one hash and voted to commit another, the former was in an earlier view. */
  lemma SignedBefore(net: Net, b: nat, x: Msg, c: Msg)
    requires NetOrder(net) && b in net && x in net[b].env.sent && c in net[b].env.sent
    requires c.kind == Commit && x.kind != CheckPoint && x.index == c.index && x.hash != c.hash
    ensures x.view < c.view
  {
    hide AllKnown, PreparesBacked, LocksBacked;
    assert OrderInv(net[b], LogsOf(net));
  }

  /** Of two locks on different hashes, each needs a signature of the holder of the other that was
      given before that one locked. */
  lemma LockedEarlier(nodes: NodeList, net: Net, a: nat, b: nat, c: Msg, c': Msg)
    requires NetOrder(net) && Tolerable(nodes, net) && HonestHeavy(nodes, net) && ResultsApart(net)
    requires a in net && b in net && net[a].cfg.nodes == nodes
    requires c in net[a].env.sent && c.kind == Commit && c' in net[b].env.sent && c'.kind == Commit
    requires c.index == c'.index && c.hash != c'.hash
    ensures c.view < c'.view
  {
    hide NetOrder, Tolerable, HonestHeavy, ResultsApart;
    var x := HeavySigned(nodes, net, a, b, c);
    NotAResult(net, a, b, x, c);
    SignedBefore(net, b, x, c');
  }

  /** Where every honest node is heavy, all commit votes of honest replicas for an index are for
      one hash, whatever the kinds that votes were signed as. */
  lemma LocksAgree(nodes: NodeList, net: Net, a: nat, b: nat, c: Msg, c': Msg)
    requires NetOrder(net) && Tolerable(nodes, net) && HonestHeavy(nodes, net) && ResultsApart(net)
    requires a in net && b in net && net[a].cfg.nodes == nodes && net[b].cfg.nodes == nodes
    requires c in net[a].env.sent && c.kind == Commit && c' in net[b].env.sent && c'.kind == Commit
    requires c.index == c'.index
    ensures c.hash == c'.hash
  {
    hide NetOrder, Tolerable, HonestHeavy, ResultsApart;
    if c.hash != c'.hash {
      LockedEarlier(nodes, net, a, b, c, c');
      LockedEarlier(nodes, net, b, a, c', c);
      assert false;
    }
  }

  lemma VotedFor(s: Setting, nodes: NodeList, start: Net, net: Net, n: nat, p: Proposal) returns (c: Msg)
    requires NetInv(s, nodes, start, net) && n in net && p in net[n].env.decided
    ensures c in net[n].env.sent && c.kind == Commit && c.index == p.index && c.hash == p.hash
    ensures net[n].cfg.nodes == nodes
  {
    hide NetInv, Evidence, Certified, DistinctSigners, WorldOf;
    Identities(s, nodes, start, net);
    DecisionEvidence(s, nodes, start, net, n, p);
    c :| c in net[n].env.sent && c.kind == Commit && (c.index, c.hash) == (p.index, p.hash);
  }

  lemma HeavyOrdering(s: Setting, nodes: NodeList, run: seq<Net>, steps: seq<Step>, m: nat, a: nat, b: nat, p: Proposal, q: Proposal)
    requires DecidedIn(s, nodes, run, steps, m, a, p) && DecidedIn(s, nodes, run, steps, m, b, q) && p.index == q.index
    requires Prepare in s.signed && HonestHeavy(nodes, run[m]) && ResultsApart(run[m])
    ensures p.hash == q.hash
  {
    hide NetInv, Tolerable, IsRun, NetOrder, HonestHeavy, ResultsApart;
    Reached(s, nodes, run, steps, m);
    RunOrder(s, nodes, run, steps, m);
    var c := VotedFor(s, nodes, run[0], run[m], a, p);
    var c' := VotedFor(s, nodes, run[0], run[m], b, q);
    LocksAgree(nodes, run[m], a, b, c, c');
  }

  lemma TypedOrdering(s: Setting, nodes: NodeList, run: seq<Net>, steps: seq<Step>, m: nat, a: nat, b: nat, p: Proposal, q: Proposal)
    requires DecidedIn(s, nodes, run, steps, m, a, p) && DecidedIn(s, nodes, run, steps, m, b, q) && p.index == q.index
    requires s.typed && Commit in s.signed
    ensures p.hash == q.hash
  {
    hide NetInv, Tolerable, IsRun, Evidence, Certified, Cast, VotedByQuorum;
    Reached(s, nodes, run, steps, m);
    DecisionEvidence(s, nodes, run[0], run[m], a, p);
    DecisionEvidence(s, nodes, run[0], run[m], b, q);
    EvidenceIsVote(s, nodes, run[m], a, Commit, p.index, p.hash);
    EvidenceIsVote(s, nodes, run[m], b, Commit, q.index, q.hash);
    SameHash(s, nodes, run[0], run[m], Commit, p.index, p.hash, q.hash);
  }

  /** Ordering agreement: where the signature of a commit vote binds its kind, or every honest node
      outweighs the faulty ones and no result has the hash of a proposal, no two honest replicas
      ever see commit quorums for different proposals of one index, at whatever moments and in
      whatever views that happens. */
  lemma OrderingAgreement(s: Setting, nodes: NodeList, run: seq<Net>, steps: seq<Step>, j: nat, k: nat, a: nat, b: nat,
                          p: Proposal, q: Proposal)
    requires DecidedIn(s, nodes, run, steps, j, a, p) && DecidedIn(s, nodes, run, steps, k, b, q)
    requires OrderBinds(s, nodes, run[j]) && OrderBinds(s, nodes, run[k])
    requires p.index == q.index
    ensures p.hash == q.hash
  {
    hide IsRun, HonestHeavy, ResultsApart;
    var m: nat := MaxInt(j, k);
    StillLogged(s, nodes, run, steps, j, m, a);
    StillLogged(s, nodes, run, steps, k, m, b);
    if s.typed && Commit in s.signed {
      TypedOrdering(s, nodes, run, steps, m, a, b, p, q);
    } else {
      HeavyOrdering(s, nodes, run, steps, m, a, b, p, q);
    }
  }

  /** A hash that an honest replica voted for as a result can only be signed as a result. */
  lemma ResultsOnly(s: Setting, net: Net, a: nat, n: nat, i: int, h: Hash)
    requires s.typed || ResultsApart(net)
    requires a in net && n in net && (i, h) in Cast(net[a].env.sent, CheckPoint)
    requires (i, h) in Provable(s, net[n].env.sent, CheckPoint)
    ensures (i, h) in Cast(net[n].env.sent, CheckPoint)
  {
  }

  /** Ledger agreement: where the signature of a checkpoint vote binds its kind, or where no
      execution result has the hash of an ordered proposal, no two honest replicas ever submit
      different checkpoints for one index. */
  lemma LedgerAgreement(s: Setting, nodes: NodeList, run: seq<Net>, steps: seq<Step>, j: nat, k: nat, a: nat, b: nat,
                        p: Proposal, q: Proposal)
    requires SubmittedIn(s, nodes, run, steps, j, a, p) && SubmittedIn(s, nodes, run, steps, k, b, q)
    requires CheckPoint in s.signed && (s.typed || (ResultsApart(run[j]) && ResultsApart(run[k])))
    requires p.index == q.index
    ensures p.hash == q.hash
  {
    hide NetInv, Tolerable, IsRun, Evidence, Certified, Cast, VotedByQuorum, ResultsApart, Provable, OneVote;
    var m: nat := MaxInt(j, k);
    StillLogged(s, nodes, run, steps, j, m, a);
    StillLogged(s, nodes, run, steps, k, m, b);
    Reached(s, nodes, run, steps, m);
    LedgerEvidence(s, nodes, run[0], run[m], a, p);
    LedgerEvidence(s, nodes, run[0], run[m], b, q);
    EvidenceIsVote(s, nodes, run[m], a, CheckPoint, p.index, p.hash);
    EvidenceIsVote(s, nodes, run[m], b, CheckPoint, q.index, q.hash);
    var n := CommonVoter(s, nodes, run[m], CheckPoint, p.index, p.hash, q.hash);
    ResultsOnly(s, run[m], a, n, p.index, p.hash);
    ResultsOnly(s, run[m], b, n, q.index, q.hash);
    OneResult(s, nodes, run[0], run[m], n, p.index, p.hash, q.hash);
  }

  lemma OneResult(s: Setting, nodes: NodeList, start: Net, net: Net, n: nat, i: int, h: Hash, h': Hash)
    requires NetInv(s, nodes, start, net) && n in net
    requires (i, h) in Cast(net[n].env.sent, CheckPoint) && (i, h') in Cast(net[n].env.sent, CheckPoint)
    ensures h == h'
  {
    hide NetInv, Cast;
    OneCommitVote(s, nodes, start, net, n);
  }

  /** Execution agreement: under the same condition two honest replicas run the same proposal at
      the same index. */
  lemma ExecutionAgreement(s: Setting, nodes: NodeList, run: seq<Net>, steps: seq<Step>, j: nat, k: nat, a: nat, b: nat,
                           p: ApplyCall, q: ApplyCall)
    requires IsRun(s, nodes, run, steps) && j < |run| && k < |run|
    requires OrderBinds(s, nodes, run[j]) && OrderBinds(s, nodes, run[k])
    requires a in run[j] && p in run[j][a].env.applies
    requires b in run[k] && q in run[k][b].env.applies
    requires p.proposal.index == q.proposal.index
    ensures p.proposal.hash == q.proposal.hash
  {
    hide NetInv, Tolerable, IsRun, OrderBinds;
    Reached(s, nodes, run, steps, j);
    Reached(s, nodes, run, steps, k);
    ExecutedWasDecided(s, nodes, run[0], run[j], a, p);
    ExecutedWasDecided(s, nodes, run[0], run[k], b, q);
    OrderingAgreement(s, nodes, run, steps, j, k, a, b, p.proposal, q.proposal);
  }

  lemma ExecutedWasDecided(s: Setting, nodes: NodeList, start: Net, net: Net, n: nat, call: ApplyCall)
    requires NetInv(s, nodes, start, net) && n in net && call in net[n].env.applies
    ensures call.proposal in net[n].env.decided
  {
    hide VcInv, CfgOk, CachesOk, LockOk, AuthOk, QueueOk, ExecOk, VotesOnce, LedgerOk, AllStable, DecidedOk, AllReported,
      ChainOk, ResultsOk;
    ReplicaOf(s, nodes, start, net, n);
  }

  // ---- State agreement ----

  /** Executing a proposal on a parent has one result. */
  ghost predicate Deterministic(results: (Hash, Hash, Hash) -> bool) {
    forall last, proposal, h, h' :: results(last, proposal, h) && results(last, proposal, h') ==> h == h'
  }

  ghost predicate SameOrigin(net: Net) {
    forall a, b :: a in net && b in net ==> net[a].cfg.committed == net[b].cfg.committed
  }

  /** Each execution starts from the voted result of the one before. */
  ghost predicate Linked(base: Proposal, e: Env) {
    && (forall k :: 0 <= k < |e.applies| ==> e.applies[k].proposal.index == base.index + 1 + k)
    && (e.applies != [] ==> e.applies[0].last.hash == base.hash)
    && (forall k :: 0 < k < |e.applies| ==> (base.index + k, e.applies[k].last.hash) in Cast(e.sent, CheckPoint))
  }

  /** Every voted result is one that the execution can have. */
  ghost predicate Admitted(base: Proposal, e: Env, results: (Hash, Hash, Hash) -> bool) {
    forall i, h :: (i, h) in Cast(e.sent, CheckPoint) && base.index < i <= base.index + |e.applies| ==>
      var call := e.applies[i - base.index - 1]; results(call.last.hash, call.proposal.hash, h)
  }

  /** The executions of one replica form a chain. */
  ghost predicate Chained(base: Proposal, e: Env, results: (Hash, Hash, Hash) -> bool) {
    Linked(base, e) && Admitted(base, e, results)
  }

  lemma LogLinked(base: Proposal, committed: Proposal, expected: int, executing: map<Hash, int>, e: Env)
    requires ExecOk(expected, base.index + 1, e.applies, e.running, executing, e.sent)
    requires ChainOk(base, committed, e.applies, e.sent)
    ensures Linked(base, e)
  {
    hide Cast;
  }

  lemma LogAdmitted(base: Proposal, e: Env, w: World)
    requires ResultsOk(base.index + 1, e.applies, e.sent, w)
    ensures Admitted(base, e, w.results)
  {
    hide Cast;
  }

  lemma ReplicaChained(s: Setting, nodes: NodeList, start: Net, net: Net, n: nat)
    requires NetInv(s, nodes, start, net) && n in net
    ensures Chained(Base(start, n), net[n].env, s.results)
  {
    hide VcInv, CfgOk, CachesOk, LockOk, AuthOk, QueueOk, AppliesOk, ExecOk, VotesOnce, LedgerOk, AllStable, DecidedOk,
      AllReported, ChainOk, ResultsOk, Linked, Admitted;
    ReplicaOf(s, nodes, start, net, n);
    var r := net[n];
    LogLinked(Base(start, n), r.cfg.committed, r.cfg.expected, r.executing, r.env);
    LogAdmitted(Base(start, n), r.env, WorldOf(s, net));
  }

  /** Two chains from one block that execute the same proposals go through the same states. */
  lemma {:induction false} ChainsAgree(base: Proposal, e: Env, e': Env, results: (Hash, Hash, Hash) -> bool, k: nat)
    requires Chained(base, e, results) && Chained(base, e', results) && Deterministic(results)
    requires k < |e.applies| && k < |e'.applies|
    requires forall j :: 0 <= j <= k ==> e.applies[j].proposal.hash == e'.applies[j].proposal.hash
    ensures e.applies[k].last.hash == e'.applies[k].last.hash
  {
    hide Cast, Deterministic, Admitted;
    if k > 0 {
      ChainsAgree(base, e, e', results, k - 1);
      SameVote(base, e, e', results, k - 1, base.index + k, e.applies[k].last.hash, e'.applies[k].last.hash);
    }
  }

  lemma SameVote(base: Proposal, e: Env, e': Env, results: (Hash, Hash, Hash) -> bool, k: nat, i: int, h: Hash, h': Hash)
    requires Chained(base, e, results) && Chained(base, e', results) && Deterministic(results)
    requires k < |e.applies| && k < |e'.applies| && i == base.index + 1 + k
    requires e.applies[k].last.hash == e'.applies[k].last.hash
    requires e.applies[k].proposal.hash == e'.applies[k].proposal.hash
    requires (i, h) in Cast(e.sent, CheckPoint) && (i, h') in Cast(e'.sent, CheckPoint)
    ensures h == h'
  {
    hide Cast, Linked;
  }

  /** If all replicas start from the same block and executing a proposal on a state has one
      result, the executions of honest replicas for one index start from the same state and run
      the same proposal, and the replicas vote for the same result. */
  lemma StateAgreement(s: Setting, nodes: NodeList, run: seq<Net>, steps: seq<Step>, m: nat, a: nat, b: nat, k: nat)
    requires IsRun(s, nodes, run, steps) && m < |run| && a in run[m] && b in run[m]
    requires OrderBinds(s, nodes, run[m]) && Deterministic(s.results) && SameOrigin(run[0])
    requires k < |run[m][a].env.applies| && k < |run[m][b].env.applies|
    ensures var p, q := run[m][a].env.applies[k], run[m][b].env.applies[k];
      && p.proposal.index == q.proposal.index && p.proposal.hash == q.proposal.hash && p.last.hash == q.last.hash
      && (forall h, h' :: (p.proposal.index, h) in Cast(run[m][a].env.sent, CheckPoint) ==>
            (p.proposal.index, h') in Cast(run[m][b].env.sent, CheckPoint) ==> h == h')
  {
    hide NetInv, Tolerable, IsRun, Cast, WorldOf, Deterministic, Base, Chained, OrderBinds;
    Reached(s, nodes, run, steps, m);
    ReplicaChained(s, nodes, run[0], run[m], a);
    ReplicaChained(s, nodes, run[0], run[m], b);
    SameBase(run[0], a, b);
    var e, e' := run[m][a].env, run[m][b].env;
    var base := Base(run[0], a);
    forall j | 0 <= j <= k ensures e.applies[j].proposal.hash == e'.applies[j].proposal.hash {
      ChainIndex(base, e, s.results, j);
      ChainIndex(base, e', s.results, j);
      ExecutionAgreement(s, nodes, run, steps, m, m, a, b, e.applies[j], e'.applies[j]);
    }
    ChainsAgree(base, e, e', s.results, k);
    ChainIndex(base, e, s.results, k);
    ChainIndex(base, e', s.results, k);
    var i := e.applies[k].proposal.index;
    forall h, h' | (i, h) in Cast(e.sent, CheckPoint) && (i, h') in Cast(e'.sent, CheckPoint) ensures h == h' {
      SameVote(base, e, e', s.results, k, i, h, h');
    }
  }

  lemma ChainIndex(base: Proposal, e: Env, results: (Hash, Hash, Hash) -> bool, k: nat)
    requires Chained(base, e, results) && k < |e.applies|
    ensures e.applies[k].proposal.index == base.index + 1 + k
  {
  }

  lemma SameBase(start: Net, a: nat, b: nat)
    requires SameOrigin(start) && a in start && b in start
    ensures Base(start, a) == Base(start, b)
  {
  }

  // ---- One replica ----

  /** Permanent lock: in a whole run, across views and evictions, a replica broadcasts commit
      votes for one hash per index, and checkpoint votes for one hash per index. */
  lemma PermanentLock(s: Setting, nodes: NodeList, run: seq<Net>, steps: seq<Step>, k: nat, n: nat, m: Msg, m': Msg)
    requires IsRun(s, nodes, run, steps) && k < |run| && n in run[0] && n in run[k]
    requires m in run[k][n].env.sent && m' in run[k][n].env.sent
    requires m.kind == m'.kind && (m.kind == Commit || m.kind == CheckPoint)
    requires m.index == m'.index
    ensures m.hash == m'.hash
  {
    hide NetInv, Tolerable, IsRun;
    Reached(s, nodes, run, steps, k);
    OneCommitVote(s, nodes, run[0], run[k], n);
    var sent := run[k][n].env.sent;
    assert (m.index, m.hash) in Cast(sent, m.kind) && (m.index, m'.hash) in Cast(sent, m.kind);
  }

  /** Execution log: from the first uncommitted index on, one call per index in order, at most
      one unfinished, which is for the expected checkpoint; and every call extends the state
      machine by exactly one, so that the other branches of `apply` are unreachable from it. */
  lemma ExecutionLog(s: Setting, nodes: NodeList, run: seq<Net>, steps: seq<Step>, k: nat, n: nat)
    requires IsRun(s, nodes, run, steps) && k < |run| && n in run[0] && n in run[k]
    ensures var r := run[k][n]; var base := run[0][n].cfg.committed.index + 1;
      && (forall c :: 0 <= c < |r.env.applies| ==>
            var call := r.env.applies[c];
            && call.proposal.index == base + c
            && OutcomeOf(call, true) == Executing(Some(Parent(call.last.index, call.last.hash)))
            && OutcomeOf(call, false) == NoHeader)
      && |r.env.running| <= 1
      && |r.env.applies| == r.cfg.expected - base + |r.env.running|
      && (forall call :: call in r.env.running ==>
            r.env.applies != [] && call == r.env.applies[|r.env.applies| - 1] && call.proposal.index == r.cfg.expected)
  {
    hide NetInv, Tolerable, IsRun, VcInv;
    hide CfgOk, CachesOk, LockOk, AuthOk, QueueOk, AppliesOk, VotesOnce, LedgerOk, AllStable, DecidedOk, AllReported, Cast, ChainOk, ResultsOk;
    Reached(s, nodes, run, steps, k);
    ReplicaOf(s, nodes, run[0], run[k], n);
  }

  /** Ledger log: checkpoints are submitted in consecutive order from the first uncommitted
      index, none twice; at most one is being written; everything queued is for a later index. */
  lemma LedgerLog(s: Setting, nodes: NodeList, run: seq<Net>, steps: seq<Step>, k: nat, n: nat)
    requires IsRun(s, nodes, run, steps) && k < |run| && n in run[0] && n in run[k]
    ensures var r := run[k][n]; var base := run[0][n].cfg.committed.index + 1;
      && (forall c :: 0 <= c < |r.env.ledger| ==> r.env.ledger[c].index == base + c)
      && |r.env.committing| <= 1
      && r.cfg.committed.index == base + |r.env.ledger| - 1 - |r.env.committing|
      && (forall p :: p in r.stableQueue ==> p.index >= base + |r.env.ledger|)
  {
    hide NetInv, Tolerable, IsRun, VcInv;
    hide CfgOk, CachesOk, LockOk, AuthOk, QueueOk, AppliesOk, VotesOnce, ExecOk, AllStable, DecidedOk, AllReported, ChainOk, ResultsOk;
    Reached(s, nodes, run, steps, k);
    ReplicaOf(s, nodes, run[0], run[k], n);
  }

  /** A checkpoint queued at some moment of a run is, at every later moment, still queued or
      submitted. */
  lemma QueuedUntilSubmitted(s: Setting, nodes: NodeList, run: seq<Net>, steps: seq<Step>, j: nat, k: nat, n: nat, p: Proposal)
    requires IsRun(s, nodes, run, steps) && j <= k < |run| && n in run[j] && n in run[k]
    requires p in run[j][n].stableQueue
    ensures p in run[k][n].stableQueue || p in run[k][n].env.ledger
  {
    hide IsRun, Later;
    RunIsLater(s, nodes, run, steps, j, k, n);
    var r := run[j][n];
    assert p in r.env.ledger + r.stableQueue;
  }

  /** Certificates stay valid in every reachable state: every lock certificate a replica would
      announce passes the weight check of any receiver, and every submitted checkpoint carries a
      signature list that a block validator accepts, each with distinct signers. */
  lemma CertificatesValid(s: Setting, nodes: NodeList, run: seq<Net>, steps: seq<Step>, k: nat, n: nat)
    requires IsRun(s, nodes, run, steps) && k < |run| && n in run[k]
    ensures var r := run[k][n];
      && (forall i :: i in r.caches && r.caches[i].bare.Some? ==>
            LockMessage(nodes, r.cfg.view, r.caches[i].bare.value, i))
      && (forall p :: p in r.env.ledger ==> Certified(nodes, p.hash, p.proofs) && DistinctSigners(p.proofs))
      && (forall p :: p in r.env.decided ==> Certified(nodes, p.hash, p.proofs) && DistinctSigners(p.proofs))
  {
    hide NetInv, Tolerable, IsRun, VcInv, Evidence, Cast, Certified, DistinctSigners;
    Reached(s, nodes, run, steps, k);
    var end := run[k];
    forall p | p in end[n].env.ledger ensures Certified(nodes, p.hash, p.proofs) && DistinctSigners(p.proofs) {
      LedgerEvidence(s, nodes, run[0], end, n, p);
    }
    forall p | p in end[n].env.decided ensures Certified(nodes, p.hash, p.proofs) && DistinctSigners(p.proofs) {
      DecisionEvidence(s, nodes, run[0], end, n, p);
    }
    BareLocks(s, nodes, run[0], end, n);
  }

  /** A committed value has its quorums: whatever an honest replica hands to the commit queue
      carries the prepare signatures of a quorum over its hash; a quorum stands for its prepare
      votes, and a quorum for its commit votes. */
  lemma DecidedValueHasQuorums(s: Setting, nodes: NodeList, run: seq<Net>, steps: seq<Step>, k: nat, n: nat, p: Proposal)
    requires IsRun(s, nodes, run, steps) && k < |run| && n in run[k]
    requires p in run[k][n].env.decided
    ensures Certified(nodes, p.hash, p.proofs) && Weight(nodes, Signers(p.proofs)) >= QuorumOf(nodes)
    ensures Prepare in s.signed ==> VotedByQuorum(s, nodes, run[k], Prepare, p.index, p.hash)
    ensures Commit in s.signed ==> VotedByQuorum(s, nodes, run[k], Commit, p.index, p.hash)
  {
    hide NetInv, Tolerable, IsRun, Evidence, Cast, ListWeight, Weight, QuorumOf, DistinctSigners, ProofsValid, VotedByQuorum;
    Reached(s, nodes, run, steps, k);
    DecisionEvidence(s, nodes, run[0], run[k], n, p);
    DistinctListWeight(nodes, p.proofs);
    if Prepare in s.signed {
      EvidenceIsVote(s, nodes, run[k], n, Prepare, p.index, p.hash);
    }
    if Commit in s.signed {
      EvidenceIsVote(s, nodes, run[k], n, Commit, p.index, p.hash);
    }
  }

  lemma BareLocks(s: Setting, nodes: NodeList, start: Net, net: Net, n: nat)
    requires NetInv(s, nodes, start, net) && n in net
    ensures var r := net[n]; forall i :: i in r.caches && r.caches[i].bare.Some? ==>
      LockMessage(nodes, r.cfg.view, r.caches[i].bare.value, i)
  {
    hide NetInv, VcInv, CfgOk, LockOk, AuthOk, QueueOk, AppliesOk, VotesOnce, ExecOk, LedgerOk, AllStable, DecidedOk, AllReported, ChainOk, ResultsOk;
    hide VotesFiled, VotesSigned, VotesCurrent, LockMessage;
    ReplicaOf(s, nodes, start, net, n);
    assert forall i :: i in net[n].caches ==> CacheOk(net[n].cfg, net[n].caches[i]);
  }

  /** Watermarks and views in every reachable state: progress is right behind the committed
      index, nothing expected or accepted lies below it, the view to reach is not below the
      current one, and no vote of an earlier view is cached. */
  lemma WatermarksOk(s: Setting, nodes: NodeList, run: seq<Net>, steps: seq<Step>, k: nat, n: nat)
    requires IsRun(s, nodes, run, steps) && k < |run| && n in run[k]
    ensures var r := run[k][n]; var g := r.cfg;
      && g.committed.index + 1 == g.progressed <= g.low
      && g.committed.index + 1 <= g.expected
      && g.view <= g.toView
      && (forall i :: i in r.caches ==>
            VotesCurrent(g.view, r.caches[i].prepares) && VotesCurrent(g.view, r.caches[i].commits))
  {
    hide NetInv, Tolerable, IsRun, VcInv, LockOk, AuthOk, QueueOk, AppliesOk, VotesOnce, ExecOk, LedgerOk,
      AllStable, DecidedOk, AllReported, ChainOk, ResultsOk;
    hide SelfOk, VotesFiled, VotesSigned, VotesCurrent, LockMessage;
    Reached(s, nodes, run, steps, k);
    ReplicaOf(s, nodes, run[0], run[k], n);
    var r := run[k][n];
    assert forall i :: i in r.caches ==> CacheOk(r.cfg, r.caches[i]);
  }

  /** Committed index, watermarks and view never decrease, and no log ever shrinks. */
  lemma NothingTakenBack(s: Setting, nodes: NodeList, run: seq<Net>, steps: seq<Step>, j: nat, k: nat, n: nat)
    requires IsRun(s, nodes, run, steps) && j <= k < |run| && n in run[j] && n in run[k]
    ensures Later(run[j][n], run[k][n])
  {
    hide IsRun, Later;
    RunIsLater(s, nodes, run, steps, j, k, n);
  }
}
