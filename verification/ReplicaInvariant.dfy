/** The invariants of one replica in a run, and that every operation of the cache processor
    keeps them. `w` says which votes can be traced to honest senders; `base` is the block this
    replica started from. */
module ReplicaInvariant {
  import opened Types
  import opened Weights
  import opened ConfigModel
  import opened CacheModel
  import opened ReplicaModel
  import opened CacheInvariant

  /** What can be relied on. A vote of kind `k` from node `n` with `(k, n)` in `claims` is one
      of those listed there; other votes may come from anywhere. An execution of a proposal on
      a parent can only have the results that `results` admits for the two hashes. If `bound`,
      a view change of this replica is one that it sent. */
  datatype World = World(claims: map<(Kind, nat), set<(int, Hash)>>, results: (Hash, Hash, Hash) -> bool, bound: bool)

  ghost predicate WorldLater(w: World, w': World) {
    && w'.results == w.results && w'.bound == w.bound
    && forall key :: key in w'.claims ==> key in w.claims && w.claims[key] <= w'.claims[key]
  }

  /** The votes of one kind in a log of sent messages: index and hash. */
  function Cast(sent: seq<Msg>, kind: Kind): set<(int, Hash)> {
    set m | m in sent && m.kind == kind :: (m.index, m.hash)
  }

  lemma CastAppend(sent: seq<Msg>, m: Msg)
    ensures forall kind ::
      Cast(sent + [m], kind) == Cast(sent, kind) + if m.kind == kind then {(m.index, m.hash)} else {}
  {
    forall kind ensures Cast(sent + [m], kind)
      == Cast(sent, kind) + if m.kind == kind then {(m.index, m.hash)} else {}
    {
      assert forall x :: x in sent + [m] <==> x in sent || x == m;
    }
  }

  // ---- Evidence ----

  /** If votes of this kind from `n` can be traced, `n` stands for `h` at `i`; the own votes of a
      step count from the moment they are sent. */
  ghost predicate Justified(self: nat, sent: seq<Msg>, w: World, n: nat, kind: Kind, i: int, h: Hash) {
    (kind, n) in w.claims ==>
      (i, h) in w.claims[(kind, n)] || (n == self && (i, h) in Cast(sent, kind))
  }

  ghost predicate Witness(nodes: seq<Node>, self: nat, sent: seq<Msg>, w: World, kind: Kind, i: int, h: Hash, q: set<nat>) {
    && Weight(nodes, q) >= QuorumOf(nodes)
    && forall n :: n in q ==> Justified(self, sent, w, n, kind, i, h)
  }

  /** A quorum of senders voted for `h` at `i`, the honest ones among them genuinely. */
  ghost predicate Evidence(nodes: seq<Node>, self: nat, sent: seq<Msg>, w: World, kind: Kind, i: int, h: Hash) {
    exists q: set<nat> :: Witness(nodes, self, sent, w, kind, i, h, q)
  }

  lemma EvidenceGrows(nodes: seq<Node>, self: nat, sent: seq<Msg>, sent': seq<Msg>, w: World, w': World,
                      kind: Kind, i: int, h: Hash)
    requires Evidence(nodes, self, sent, w, kind, i, h)
    requires Cast(sent, kind) <= Cast(sent', kind) && WorldLater(w, w')
    ensures Evidence(nodes, self, sent', w', kind, i, h)
  {
    hide Weight, QuorumOf, Cast;
    var q: set<nat> :| Witness(nodes, self, sent, w, kind, i, h, q);
    assert Witness(nodes, self, sent', w', kind, i, h, q);
  }

  // ---- The parts of the invariant, each over the fields it constrains ----

  ghost predicate CfgOk(g: Cfg) {
    && SelfOk(g)
    && 0 <= g.committed.index
    && g.progressed == g.committed.index + 1
    && g.progressed <= g.low && g.progressed <= g.expected
    && g.view <= g.toView
  }

  ghost predicate CachesOk(g: Cfg, caches: Caches) {
    forall i :: i in caches ==> caches[i].index == i && CacheOk(g, caches[i])
  }

  ghost predicate Held(caches: Caches, i: int, h: Hash) {
    i in caches && caches[i].precommit.Some? && caches[i].precommit.value.hash == h
  }

  /** No message can start a new round at `i`: it is below a watermark and nothing is
      accepted there. */
  ghost predicate Past(floor: int, caches: Caches, i: int) {
    i < floor && (i in caches ==> caches[i].prePrepare.None?)
  }

  function Floor(g: Cfg): int {
    MaxInt(g.low, g.expected)
  }

  /** The lock: what was voted for commit stays held until its index is past. */
  ghost predicate LockOk(floor: int, caches: Caches, sent: seq<Msg>) {
    && (forall i :: i in caches && caches[i].precommit.Some? ==>
          (i, caches[i].precommit.value.hash) in Cast(sent, Commit))
    && (forall i, h :: (i, h) in Cast(sent, Commit) ==> Held(caches, i, h) || Past(floor, caches, i))
    && OneVote(Cast(sent, Commit))
  }

  ghost predicate OneVote(votes: set<(int, Hash)>) {
    forall i, h, h' :: (i, h) in votes && (i, h') in votes ==> h == h'
  }

  ghost predicate TracedVotes(self: nat, sent: seq<Msg>, w: World, kind: Kind, i: int, book: VoteBook) {
    forall h, n :: h in book && n in book[h] ==> Justified(self, sent, w, n, kind, i, h)
  }

  /** The votes of a cache are traced to their senders as far as that is possible; what it has
      locked had a prepare quorum, and its checkpoint is what this replica voted for. */
  ghost predicate AuthCache(nodes: seq<Node>, self: nat, sent: seq<Msg>, w: World, c: Cache) {
    && TracedVotes(self, sent, w, Prepare, c.index, c.prepares)
    && TracedVotes(self, sent, w, Commit, c.index, c.commits)
    && TracedVotes(self, sent, w, CheckPoint, c.index, c.checkpoints)
    && (c.precommit.Some? ==> Evidence(nodes, self, sent, w, Prepare, c.index, c.precommit.value.hash))
    && (c.checkpoint.Some? ==> (c.index, c.checkpoint.value.hash) in Cast(sent, CheckPoint))
  }

  ghost predicate AuthOk(nodes: seq<Node>, self: nat, caches: Caches, sent: seq<Msg>, w: World) {
    forall i :: i in caches ==> AuthCache(nodes, self, sent, w, caches[i])
  }

  ghost predicate Sorted(q: seq<Proposal>) {
    forall j, k :: 0 <= j < k < |q| ==> q[j].index <= q[k].index
  }

  /** What waits for execution is sorted, and was decided and voted for. */
  ghost predicate QueueOk(q: seq<Proposal>, sent: seq<Msg>, decided: seq<Proposal>) {
    Sorted(q) && forall p :: p in q ==> (p.index, p.hash) in Cast(sent, Commit) && p in decided
  }

  /** Only decided proposals are executed. */
  ghost predicate AppliesOk(applies: seq<ApplyCall>, decided: seq<Proposal>) {
    forall call :: call in applies ==> call.proposal in decided
  }

  /** The execution log is consecutive from `base`; the last call is running or all are done,
      and the running one is at the expected checkpoint. */
  ghost predicate ExecOk(expected: int, base: int, applies: seq<ApplyCall>, running: seq<ApplyCall>,
                         executing: map<Hash, int>, sent: seq<Msg>)
  {
    && |running| <= 1
    && |applies| == expected - base + |running|
    && (|running| == 1 ==> applies != [] && running[0] == applies[|applies| - 1])
    && (forall k :: 0 <= k < |applies| ==>
          && applies[k].proposal.index == base + k
          && applies[k].last.index == base + k - 1
          && (base + k, applies[k].proposal.hash) in Cast(sent, Commit))
    && (forall call :: call in running ==>
          call.proposal.hash in executing && executing[call.proposal.hash] == call.proposal.index)
  }

  /** One checkpoint vote per index, below the expected checkpoint. */
  ghost predicate VotesOnce(expected: int, sent: seq<Msg>) {
    && (forall i, h :: (i, h) in Cast(sent, CheckPoint) ==> i < expected)
    && OneVote(Cast(sent, CheckPoint))
  }

  /** The checkpoint of `i` cannot be reported as stable again. */
  ghost predicate Reported(expected: int, caches: Caches, i: int) {
    i < expected && (i in caches ==> caches[i].stable || caches[i].checkpoint.None?)
  }

  ghost predicate StableOk(nodes: seq<Node>, self: nat, sent: seq<Msg>, w: World, p: Proposal) {
    && Certified(nodes, p.hash, p.proofs) && DistinctSigners(p.proofs)
    && (p.index, p.hash) in Cast(sent, CheckPoint)
    && Evidence(nodes, self, sent, w, CheckPoint, p.index, p.hash)
  }

  ghost predicate AllStable(nodes: seq<Node>, self: nat, sent: seq<Msg>, w: World, ps: seq<Proposal>) {
    forall p :: p in ps ==> StableOk(nodes, self, sent, w, p)
  }

  ghost predicate AllReported(expected: int, caches: Caches, ps: seq<Proposal>) {
    forall p :: p in ps ==> Reported(expected, caches, p.index)
  }

  /** The ledger log is consecutive from `base`, the last entry is being written or all are
      written, and everything queued comes strictly after it. */
  ghost predicate LedgerOk(committed: int, base: int, ledger: seq<Proposal>, committing: seq<Proposal>,
                           queue: seq<Proposal>)
  {
    && |committing| <= 1
    && |ledger| == committed + 1 - base + |committing|
    && (|committing| == 1 ==> ledger != [] && committing[0] == ledger[|ledger| - 1])
    && (forall k :: 0 <= k < |ledger| ==> ledger[k].index == base + k)
    && (forall j, k :: 0 <= j < k < |queue| ==> queue[j].index < queue[k].index)
    && (forall k :: 0 <= k < |queue| ==> queue[k].index >= base + |ledger|)
  }

  ghost predicate DecidedOk(nodes: seq<Node>, self: nat, sent: seq<Msg>, w: World, decided: seq<Proposal>) {
    forall p :: p in decided ==> DecisionOk(nodes, self, sent, w, p)
  }

  ghost predicate DecisionOk(nodes: seq<Node>, self: nat, sent: seq<Msg>, w: World, p: Proposal) {
    && (p.index, p.hash) in Cast(sent, Commit)
    && Certified(nodes, p.hash, p.proofs) && DistinctSigners(p.proofs)
    && Evidence(nodes, self, sent, w, Prepare, p.index, p.hash)
    && Evidence(nodes, self, sent, w, Commit, p.index, p.hash)
  }

  /** Each execution starts from the block the replica started from or from the result it voted
      for at the index before; every committed block after the first one is such a result. */
  ghost predicate ChainOk(base: Proposal, committed: Proposal, applies: seq<ApplyCall>, sent: seq<Msg>) {
    && (applies != [] ==> applies[0].last.hash == base.hash)
    && (forall k :: 0 < k < |applies| ==> (base.index + k, applies[k].last.hash) in Cast(sent, CheckPoint))
    && (committed.index == base.index ==> committed.hash == base.hash)
    && (committed.index != base.index ==> (committed.index, committed.hash) in Cast(sent, CheckPoint))
  }

  /** Every checkpoint vote is for an admitted result of the execution of its index. */
  ghost predicate ResultsOk(base: int, applies: seq<ApplyCall>, sent: seq<Msg>, w: World) {
    forall i, h :: (i, h) in Cast(sent, CheckPoint) ==>
      && base <= i < base + |applies|
      && w.results(applies[i - base].last.hash, applies[i - base].proposal.hash, h)
  }

  ghost predicate Inv(r: Replica, base: Proposal, w: World) {
    && CfgOk(r.cfg)
    && CachesOk(r.cfg, r.caches)
    && LockOk(Floor(r.cfg), r.caches, r.env.sent)
    && AuthOk(r.cfg.nodes, r.cfg.self, r.caches, r.env.sent, w)
    && QueueOk(r.commitQueue, r.env.sent, r.env.decided)
    && AppliesOk(r.env.applies, r.env.decided)
    && ExecOk(r.cfg.expected, base.index + 1, r.env.applies, r.env.running, r.executing, r.env.sent)
    && VotesOnce(r.cfg.expected, r.env.sent)
    && LedgerOk(r.cfg.committed.index, base.index + 1, r.env.ledger, r.env.committing, r.stableQueue)
    && AllStable(r.cfg.nodes, r.cfg.self, r.env.sent, w, r.env.ledger + r.stableQueue)
    && AllReported(r.cfg.expected, r.caches, r.env.ledger + r.stableQueue)
    && DecidedOk(r.cfg.nodes, r.cfg.self, r.env.sent, w, r.env.decided)
    && ChainOk(base, r.cfg.committed, r.env.applies, r.env.sent)
    && ResultsOk(base.index + 1, r.env.applies, r.env.sent, w)
  }

  // ---- Queues ----

  lemma {:induction false} InsertMembers(q: seq<Proposal>, p: Proposal)
    ensures forall x :: x in Insert(q, p) <==> x in q || x == p
    ensures |Insert(q, p)| == |q| + 1
  {
    if !(q == [] || q[|q| - 1].index <= p.index) {
      var front := q[..|q| - 1];
      InsertMembers(front, p);
      assert q == front + [q[|q| - 1]];
    }
  }

  lemma {:induction false} InsertSorted(q: seq<Proposal>, p: Proposal)
    requires Sorted(q)
    ensures Sorted(Insert(q, p))
  {
    if !(q == [] || q[|q| - 1].index <= p.index) {
      var front, last := q[..|q| - 1], q[|q| - 1];
      InsertSorted(front, p);
      InsertMembers(front, p);
      forall j | 0 <= j < |Insert(front, p)| ensures Insert(front, p)[j].index <= last.index {
        assert Insert(front, p)[j] in Insert(front, p);
      }
    }
  }

  /** Popping below a bound keeps exactly the entries at or above it, in order. */
  lemma {:induction false} DropBelowKeeps(q: seq<Proposal>, k: int)
    requires Sorted(q)
    ensures var d := DropBelow(q, k); |d| <= |q| && d == q[|q| - |d|..]
    ensures forall x :: x in DropBelow(q, k) <==> x in q && x.index >= k
  {
    if q == [] || q[0].index >= k {
      assert q == q[0..];
      forall x | x in q ensures x.index >= k {
        var j :| 0 <= j < |q| && q[j] == x;
      }
    } else {
      DropBelowKeeps(q[1..], k);
      assert q == [q[0]] + q[1..];
    }
  }

  // ---- Ordering operations ----

  lemma {:induction false} PoppedQueueOk(q: seq<Proposal>, k: int, sent: seq<Msg>, decided: seq<Proposal>)
    requires QueueOk(q, sent, decided)
    ensures var d := DropBelow(q, k);
      && QueueOk(d, sent, decided)
      && (d != [] ==> QueueOk(d[1..], sent, decided) && (d[0].index, d[0].hash) in Cast(sent, Commit) && d[0] in decided)
  {
    hide DropBelow, Cast;
    var d := DropBelow(q, k);
    DropBelowKeeps(q, k);
    assert forall p :: p in d ==> p in q;
    assert d != [] ==> d[0] in d && forall p :: p in d[1..] ==> p in d;
  }

  lemma IdleApplyKeeps(r: Replica, base: Proposal, w: World)
    requires Inv(r, base, w) && !TryApply(r).1
    ensures Inv(TryApply(r).0, base, w)
    ensures TryApply(r).0.env == r.env
  {
    hide DropBelow, CfgOk, CachesOk, LockOk, AuthOk, QueueOk, AppliesOk, ExecOk, VotesOnce, LedgerOk, AllStable, AllReported, DecidedOk, ChainOk, ResultsOk;
    PoppedQueueOk(r.commitQueue, r.cfg.expected, r.env.sent, r.env.decided);
  }

  lemma NextApplyKeeps(r: Replica, base: Proposal, w: World)
    requires Inv(r, base, w) && TryApply(r).1
    ensures Inv(TryApply(r).0, base, w)
    ensures r.env.running == [] && |TryApply(r).0.env.running| == 1
    ensures TryApply(r).0.env.running[0].proposal.hash !in r.executing
  {
    hide DropBelow, AppliedCheckPoint, CfgOk, CachesOk, LockOk, AuthOk, QueueOk, ExecOk, VotesOnce, LedgerOk, AllStable, AllReported, DecidedOk, ChainOk, ResultsOk, Cast;
    PoppedQueueOk(r.commitQueue, r.cfg.expected, r.env.sent, r.env.decided);
    LockIsUnique(r);
    AppliedIsPrevious(r, r.cfg.expected - 1, base, w);
    var p := DropBelow(r.commitQueue, r.cfg.expected)[0];
    var last := AppliedCheckPoint(r.cfg, r.caches, r.cfg.expected - 1).value;
    NewCallKeeps(r, p, last, base.index + 1);
    ExecCount(r, base.index + 1);
    ChainGrows(base, r.cfg.committed, r.env.applies, ApplyCall(last, p), r.env.sent, w);
  }

  lemma ExecCount(r: Replica, base: int)
    requires ExecOk(r.cfg.expected, base, r.env.applies, r.env.running, r.executing, r.env.sent)
    ensures |r.env.applies| == r.cfg.expected - base + |r.env.running|
  {
  }

  lemma TryApplyKeeps(r: Replica, base: Proposal, w: World)
    requires Inv(r, base, w)
    ensures Inv(TryApply(r).0, base, w)
    ensures TryApply(r).1 ==> r.env.running == [] && |TryApply(r).0.env.running| == 1
                              && TryApply(r).0.env.running[0].proposal.hash !in r.executing
    ensures !TryApply(r).1 ==> TryApply(r).0.env == r.env
    ensures TryApply(r).0.stableQueue == r.stableQueue && TryApply(r).0.env.ledger == r.env.ledger
  {
    hide Inv, DropBelow;
    if TryApply(r).1 {
      NextApplyKeeps(r, base, w);
    } else {
      IdleApplyKeeps(r, base, w);
    }
  }

  lemma RunningCall(r: Replica, base: int)
    requires ExecOk(r.cfg.expected, base, r.env.applies, r.env.running, r.executing, r.env.sent)
    requires r.env.running != []
    ensures var h := r.env.running[0].proposal.hash; h in r.executing && (r.cfg.expected, h) in Cast(r.env.sent, Commit)
  {
    hide Cast;
    assert r.env.running[0] in r.env.running;
  }

  /** A proposal taken from the queue for execution continues the log: nothing is running,
      because a running one would have the same hash by the permanent lock. */
  lemma NewCallKeeps(r: Replica, p: Proposal, last: Proposal, base: int)
    requires OneVote(Cast(r.env.sent, Commit))
    requires ExecOk(r.cfg.expected, base, r.env.applies, r.env.running, r.executing, r.env.sent)
    requires p.index == r.cfg.expected && p.hash !in r.executing && last.index == r.cfg.expected - 1
    requires (p.index, p.hash) in Cast(r.env.sent, Commit)
    ensures r.env.running == []
    ensures ExecOk(r.cfg.expected, base, r.env.applies + [ApplyCall(last, p)], r.env.running + [ApplyCall(last, p)],
                   r.executing[p.hash := p.index], r.env.sent)
  {
    hide Cast;
    if r.env.running != [] {
      RunningCall(r, base);
      assert false;
    }
  }

  lemma LockIsUnique(r: Replica)
    requires LockOk(Floor(r.cfg), r.caches, r.env.sent)
    ensures OneVote(Cast(r.env.sent, Commit))
  {
  }

  /** The state an execution starts from is the block this replica started from or the result it
      voted for at that index. */
  lemma AppliedIsPrevious(r: Replica, i: int, base: Proposal, w: World)
    requires CachesOk(r.cfg, r.caches) && AuthOk(r.cfg.nodes, r.cfg.self, r.caches, r.env.sent, w)
    requires ChainOk(base, r.cfg.committed, r.env.applies, r.env.sent)
    requires ResultsOk(base.index + 1, r.env.applies, r.env.sent, w)
    requires AppliedCheckPoint(r.cfg, r.caches, i).Some?
    ensures var last := AppliedCheckPoint(r.cfg, r.caches, i).value;
      && last.index == i
      && (if i == base.index then last.hash == base.hash else (i, last.hash) in Cast(r.env.sent, CheckPoint))
  {
    hide TracedVotes, Evidence, VotesFiled, VotesSigned, VotesCurrent, LockMessage, Cast;
    if i != r.cfg.committed.index {
      assert CacheOk(r.cfg, r.caches[i]) && AuthCache(r.cfg.nodes, r.cfg.self, r.env.sent, w, r.caches[i]);
    }
  }

  /** One more execution on the last result continues the chain. */
  lemma ChainGrows(base: Proposal, committed: Proposal, applies: seq<ApplyCall>, call: ApplyCall, sent: seq<Msg>, w: World)
    requires ChainOk(base, committed, applies, sent) && ResultsOk(base.index + 1, applies, sent, w)
    requires if applies == [] then call.last.hash == base.hash
             else (base.index + |applies|, call.last.hash) in Cast(sent, CheckPoint)
    ensures ChainOk(base, committed, applies + [call], sent) && ResultsOk(base.index + 1, applies + [call], sent, w)
  {
    hide Cast;
  }

  /** What a reported commit says about its cache. */
  ghost predicate CommitFacts(g: Cfg, c: Cache) {
    && c.precommit.Some? && c.precommit.value.proposal.Some?
    && HasQuorum(g.nodes, c.commits, c.precommit.value.hash)
    && var p := c.precommit.value.proposal.value;
       p.hash == c.precommit.value.hash && p.index == c.index
       && Certified(g.nodes, p.hash, p.proofs) && DistinctSigners(p.proofs)
  }

  lemma DecisionEvidenceOf(r: Replica, c: Cache, base: Proposal, w: World)
    requires Inv(r, base, w)
    requires c.index in r.caches && r.caches[c.index] == c && CommitFacts(r.cfg, c)
    ensures DecisionOk(r.cfg.nodes, r.cfg.self, r.env.sent, w, c.precommit.value.proposal.value)
  {
    hide CfgOk, CacheOk, QueueOk, AppliesOk, ExecOk, VotesOnce, LedgerOk, AllStable, AllReported, DecidedOk, ChainOk, ResultsOk,
      OneVote, Weight, QuorumOf, Certified, DistinctSigners, Justified, Cast;
    var p := c.precommit.value.proposal.value;
    assert AuthCache(r.cfg.nodes, r.cfg.self, r.env.sent, w, c);
    assert Witness(r.cfg.nodes, r.cfg.self, r.env.sent, w, Commit, p.index, p.hash, c.commits[p.hash].Keys);
  }

  lemma DecidedMore(r: Replica, p: Proposal, base: Proposal, w: World)
    requires Inv(r, base, w) && DecisionOk(r.cfg.nodes, r.cfg.self, r.env.sent, w, p)
    ensures Inv(r.(env := r.env.(decided := r.env.decided + [p])), base, w)
  {
    hide CfgOk, CachesOk, LockOk, AuthOk, ExecOk, VotesOnce, LedgerOk, AllStable, AllReported, DecisionOk, ChainOk, ResultsOk,
      Cast, Sorted;
  }

  lemma UpdateCommitQueueKeeps(r: Replica, p: Proposal, base: Proposal, w: World)
    requires Inv(r, base, w) && p in r.env.decided && (p.index, p.hash) in Cast(r.env.sent, Commit)
    ensures Inv(UpdateCommitQueue(r, p), base, w)
  {
    hide CfgOk, CachesOk, LockOk, AuthOk, AppliesOk, ExecOk, VotesOnce, LedgerOk, AllStable, AllReported, DecidedOk, ChainOk,
      ResultsOk, Cast, Insert, TryApply;
    if p.hash !in r.executing {
      InsertMembers(r.commitQueue, p);
      InsertSorted(r.commitQueue, p);
      TryApplyKeeps(r.(commitQueue := Insert(r.commitQueue, p)), base, w);
    }
  }

  lemma DecideKeeps(r: Replica, c: Cache, base: Proposal, w: World)
    requires Inv(r, base, w)
    requires c.index in r.caches && r.caches[c.index] == c && CommitFacts(r.cfg, c)
    ensures Inv(Decide(r, c), base, w)
  {
    DecisionEvidenceOf(r, c, base, w);
    hide Inv, UpdateCommitQueue, Certified, DistinctSigners, Evidence, Cast, HasQuorum;
    var p := c.precommit.value.proposal.value;
    DecidedMore(r, p, base, w);
    UpdateCommitQueueKeeps(r.(env := r.env.(decided := r.env.decided + [p])), p, base, w);
  }

  // ---- Changing one cache ----

  /** A cache may be replaced if its lock stays, nothing is accepted below the floor, and a
      reported checkpoint stays reported. */
  ghost predicate Replaces(floor: int, c: Cache, c': Cache) {
    && SameLock(floor, c, c')
    && (c.stable ==> c'.stable)
    && (c.checkpoint.None? ==> c'.checkpoint.None?)
  }

  ghost predicate SameLock(floor: int, c: Cache, c': Cache) {
    && c'.index == c.index
    && c'.precommit == c.precommit
    && (c'.prePrepare.Some? ==> c.prePrepare.Some? || c.index >= floor)
  }

  lemma CacheAtOk(r: Replica, i: int)
    requires CachesOk(r.cfg, r.caches)
    ensures CacheAt(r, i).index == i && CacheOk(r.cfg, CacheAt(r, i))
  {
    EmptyCacheOk(r.cfg, i);
  }

  lemma CacheAtAuth(r: Replica, i: int, w: World)
    requires AuthOk(r.cfg.nodes, r.cfg.self, r.caches, r.env.sent, w)
    ensures AuthCache(r.cfg.nodes, r.cfg.self, r.env.sent, w, CacheAt(r, i))
  {
  }

  lemma InvCache(r: Replica, i: int, base: Proposal, w: World)
    requires Inv(r, base, w)
    ensures SelfOk(r.cfg)
    ensures CacheAt(r, i).index == i && CacheOk(r.cfg, CacheAt(r, i))
    ensures AuthCache(r.cfg.nodes, r.cfg.self, r.env.sent, w, CacheAt(r, i))
  {
    hide LockOk, QueueOk, AppliesOk, ExecOk, VotesOnce, LedgerOk, AllStable, AllReported, DecidedOk, SelfOk, CacheOk, AuthCache, ChainOk, ResultsOk;
    CacheAtOk(r, i);
    CacheAtAuth(r, i, w);
  }

  lemma PutKeeps(r: Replica, c: Cache, base: Proposal, w: World)
    requires Inv(r, base, w)
    requires CacheOk(r.cfg, c) && AuthCache(r.cfg.nodes, r.cfg.self, r.env.sent, w, c)
    requires Replaces(Floor(r.cfg), CacheAt(r, c.index), c)
    ensures Inv(Put(r, c), base, w)
  {
    var r' := Put(r, c);
    hide CfgOk, CacheOk, AuthCache, QueueOk, AppliesOk, ExecOk, VotesOnce, LedgerOk, AllStable, DecidedOk, OneVote, Cast, ChainOk, ResultsOk;
    assert CachesOk(r'.cfg, r'.caches);
    assert LockOk(Floor(r'.cfg), r'.caches, r'.env.sent) by {
      LockKept(Floor(r.cfg), r.caches, c, r.env.sent);
    }
    assert AllReported(r'.cfg.expected, r'.caches, r'.env.ledger + r'.stableQueue);
  }

  lemma LockKept(floor: int, caches: Caches, c: Cache, sent: seq<Msg>)
    requires LockOk(floor, caches, sent)
    requires SameLock(floor, if c.index in caches then caches[c.index] else EmptyCache(c.index), c)
    ensures LockOk(floor, caches[c.index := c], sent)
  {
    hide Cast, OneVote;
    var caches' := caches[c.index := c];
    forall i, h | (i, h) in Cast(sent, Commit) ensures Held(caches', i, h) || Past(floor, caches', i) {
      assert Held(caches, i, h) || Past(floor, caches, i);
    }
  }

  // ---- Receiving votes ----

  lemma PrepareVote(g: Cfg, sent: seq<Msg>, w: World, c: Cache, m: Msg)
    requires CacheOk(g, c) && AuthCache(g.nodes, g.self, sent, w, c)
    requires m.kind == Prepare && m.view >= g.view
    requires m.from < |g.nodes| ==> SigOf(m) == Sig(g.nodes[m.from].id, m.hash)
    requires Justified(g.self, sent, w, m.from, Prepare, m.index, m.hash)
    ensures var c' := c.(prepares := AddVote(g.nodes, c.index, c.prepares, m));
      CacheOk(g, c') && AuthCache(g.nodes, g.self, sent, w, c')
  {
    AddVoteFiled(g.nodes, g.view, c.prepares, Prepare, c.index, m);
    AddVoteSigned(g.nodes, c.prepares, c.index, m);
    hide AddVote, Justified, VotesFiled, VotesSigned, VotesCurrent, LockMessage;
  }

  lemma CommitVote(g: Cfg, sent: seq<Msg>, w: World, c: Cache, m: Msg)
    requires CacheOk(g, c) && AuthCache(g.nodes, g.self, sent, w, c)
    requires m.kind == Commit && m.view >= g.view
    requires Justified(g.self, sent, w, m.from, Commit, m.index, m.hash)
    ensures var c' := c.(commits := AddVote(g.nodes, c.index, c.commits, m));
      CacheOk(g, c') && AuthCache(g.nodes, g.self, sent, w, c')
  {
    AddVoteFiled(g.nodes, g.view, c.commits, Commit, c.index, m);
    hide Justified, VotesFiled, VotesSigned, VotesCurrent, LockMessage;
  }

  lemma CheckPointVote(g: Cfg, sent: seq<Msg>, w: World, c: Cache, m: Msg)
    requires CacheOk(g, c) && AuthCache(g.nodes, g.self, sent, w, c)
    requires m.kind == CheckPoint
    requires m.from < |g.nodes| ==> SigOf(m) == Sig(g.nodes[m.from].id, m.hash)
    requires Justified(g.self, sent, w, m.from, CheckPoint, m.index, m.hash)
    ensures var c' := c.(checkpoints := AddVote(g.nodes, c.index, c.checkpoints, m));
      CacheOk(g, c') && AuthCache(g.nodes, g.self, sent, w, c')
  {
    AddVoteFiled(g.nodes, 0, c.checkpoints, CheckPoint, c.index, m);
    AddVoteSigned(g.nodes, c.checkpoints, c.index, m);
    hide Justified, VotesFiled, VotesSigned, VotesCurrent, LockMessage;
  }

  lemma AddPrepareKeeps(r: Replica, m: Msg, base: Proposal, w: World)
    requires Inv(r, base, w)
    requires m.kind == Prepare && m.view >= r.cfg.view
    requires m.from < |r.cfg.nodes| ==> SigOf(m) == Sig(r.cfg.nodes[m.from].id, m.hash)
    requires Justified(r.cfg.self, r.env.sent, w, m.from, Prepare, m.index, m.hash)
    ensures Inv(AddPrepare(r, m), base, w)
  {
    var c := CacheAt(r, m.index);
    var c' := c.(index := m.index, prepares := AddVote(r.cfg.nodes, m.index, c.prepares, m));
    hide Inv, CacheOk, AuthCache, SelfOk, Justified;
    InvCache(r, m.index, base, w);
    PrepareVote(r.cfg, r.env.sent, w, c, m);
    VotesChanged(r, c, c', base, w);
  }

  lemma AddCommitKeeps(r: Replica, m: Msg, base: Proposal, w: World)
    requires Inv(r, base, w)
    requires m.kind == Commit && m.view >= r.cfg.view
    requires Justified(r.cfg.self, r.env.sent, w, m.from, Commit, m.index, m.hash)
    ensures Inv(AddCommit(r, m), base, w)
  {
    var c := CacheAt(r, m.index);
    var c' := c.(index := m.index, commits := AddVote(r.cfg.nodes, m.index, c.commits, m));
    hide Inv, CacheOk, AuthCache, SelfOk, Justified;
    InvCache(r, m.index, base, w);
    CommitVote(r.cfg, r.env.sent, w, c, m);
    VotesChanged(r, c, c', base, w);
  }

  lemma AddCheckPointKeeps(r: Replica, m: Msg, base: Proposal, w: World)
    requires Inv(r, base, w)
    requires m.kind == CheckPoint
    requires m.from < |r.cfg.nodes| ==> SigOf(m) == Sig(r.cfg.nodes[m.from].id, m.hash)
    requires Justified(r.cfg.self, r.env.sent, w, m.from, CheckPoint, m.index, m.hash)
    ensures Inv(AddCheckPointMsg(r, m), base, w)
  {
    var c := CacheAt(r, m.index);
    var c' := c.(index := m.index, checkpoints := AddVote(r.cfg.nodes, m.index, c.checkpoints, m));
    hide Inv, CacheOk, AuthCache, SelfOk, Justified;
    InvCache(r, m.index, base, w);
    CheckPointVote(r.cfg, r.env.sent, w, c, m);
    VotesChanged(r, c, c', base, w);
  }

  lemma VotesChanged(r: Replica, c: Cache, c': Cache, base: Proposal, w: World)
    requires Inv(r, base, w)
    requires c == CacheAt(r, c.index) && c' == c.(prepares := c'.prepares, commits := c'.commits, checkpoints := c'.checkpoints)
    requires CacheOk(r.cfg, c') && AuthCache(r.cfg.nodes, r.cfg.self, r.env.sent, w, c')
    ensures Inv(Put(r, c'), base, w)
  {
    hide Inv, CacheOk, AuthCache;
    PutKeeps(r, c', base, w);
  }

  lemma AddPrePrepareCacheKeeps(r: Replica, m: Msg, base: Proposal, w: World)
    requires Inv(r, base, w)
    requires PrePrepareOk(r, m) && m.WellFormed()
    ensures Inv(AddPrePrepareCache(r, m), base, w)
  {
    hide LockOk, Justified, QueueOk, AppliesOk, ExecOk, VotesOnce, LedgerOk, AllStable, AllReported, DecidedOk, ChainOk, ResultsOk;
    hide VotesFiled, VotesSigned, VotesCurrent, Certified, DistinctSigners;
    var c := CacheAt(r, m.index);
    CacheAtOk(r, m.index);
    CacheAtAuth(r, m.index, w);
    assert c.precommit.Some? ==> c.precommit.value.hash == m.hash;
    AddPrePrepareKeeps(r.cfg, c, m);
    PutKeeps(r, AddPrePrepare(c, m).(index := m.index), base, w);
  }

  // ---- Sending ----

  lemma {:induction false} TracedLonger(self: nat, sent: seq<Msg>, m: Msg, w: World, kind: Kind, i: int, book: VoteBook)
    requires TracedVotes(self, sent, w, kind, i, book)
    ensures TracedVotes(self, sent + [m], w, kind, i, book)
  {
    CastAppend(sent, m);
    hide Cast;
  }

  lemma ChainLonger(base: Proposal, committed: Proposal, applies: seq<ApplyCall>, sent: seq<Msg>, m: Msg, w: World)
    requires ChainOk(base, committed, applies, sent)
    ensures ChainOk(base, committed, applies, sent + [m])
    ensures ResultsOk(base.index + 1, applies, sent, w) && m.kind != CheckPoint
      ==> ResultsOk(base.index + 1, applies, sent + [m], w)
  {
    CastAppend(sent, m);
    hide Cast;
  }

  lemma StableLonger(nodes: seq<Node>, self: nat, sent: seq<Msg>, m: Msg, w: World, ps: seq<Proposal>)
    requires AllStable(nodes, self, sent, w, ps)
    ensures AllStable(nodes, self, sent + [m], w, ps)
  {
    hide Certified, DistinctSigners, Evidence;
    CastAppend(sent, m);
    hide Cast;
    forall p | StableOk(nodes, self, sent, w, p) ensures StableOk(nodes, self, sent + [m], w, p) {
      EvidenceGrows(nodes, self, sent, sent + [m], w, w, CheckPoint, p.index, p.hash);
    }
    hide StableOk;
  }

  lemma DecidedLonger(nodes: seq<Node>, self: nat, sent: seq<Msg>, m: Msg, w: World, ps: seq<Proposal>)
    requires DecidedOk(nodes, self, sent, w, ps)
    ensures DecidedOk(nodes, self, sent + [m], w, ps)
  {
    hide Certified, DistinctSigners, Evidence;
    CastAppend(sent, m);
    hide Cast;
    forall p | DecisionOk(nodes, self, sent, w, p) ensures DecisionOk(nodes, self, sent + [m], w, p) {
      EvidenceGrows(nodes, self, sent, sent + [m], w, w, Prepare, p.index, p.hash);
      EvidenceGrows(nodes, self, sent, sent + [m], w, w, Commit, p.index, p.hash);
    }
    hide DecisionOk;
  }

  lemma AuthLonger(nodes: seq<Node>, self: nat, caches: Caches, sent: seq<Msg>, m: Msg, w: World)
    requires AuthOk(nodes, self, caches, sent, w)
    ensures AuthOk(nodes, self, caches, sent + [m], w)
  {
    hide AuthCache;
    forall i | i in caches ensures AuthCache(nodes, self, sent + [m], w, caches[i]) {
      AuthCacheGrows(nodes, self, sent, m, w, caches[i]);
    }
  }

  /** Everything but the lock, the single checkpoint vote and the results survives sending more. */
  lemma SendKeepsRest(r: Replica, m: Msg, base: Proposal, w: World)
    requires Inv(r, base, w)
    ensures var sent := r.env.sent + [m];
      && AuthOk(r.cfg.nodes, r.cfg.self, r.caches, sent, w)
      && QueueOk(r.commitQueue, sent, r.env.decided)
      && ExecOk(r.cfg.expected, base.index + 1, r.env.applies, r.env.running, r.executing, sent)
      && AllStable(r.cfg.nodes, r.cfg.self, sent, w, r.env.ledger + r.stableQueue)
      && DecidedOk(r.cfg.nodes, r.cfg.self, sent, w, r.env.decided)
      && ChainOk(base, r.cfg.committed, r.env.applies, sent)
      && (m.kind != CheckPoint ==> ResultsOk(base.index + 1, r.env.applies, sent, w))
  {
    hide CfgOk, CachesOk, LockOk, VotesOnce, LedgerOk, AllReported, Sorted, AuthOk, AllStable, DecidedOk, ChainOk, ResultsOk;
    AuthLonger(r.cfg.nodes, r.cfg.self, r.caches, r.env.sent, m, w);
    StableLonger(r.cfg.nodes, r.cfg.self, r.env.sent, m, w, r.env.ledger + r.stableQueue);
    DecidedLonger(r.cfg.nodes, r.cfg.self, r.env.sent, m, w, r.env.decided);
    ChainLonger(base, r.cfg.committed, r.env.applies, r.env.sent, m, w);
    CastAppend(r.env.sent, m);
    hide Cast;
  }

  lemma OtherVote(expected: int, sent: seq<Msg>, m: Msg)
    requires VotesOnce(expected, sent) && m.kind != CheckPoint
    ensures VotesOnce(expected, sent + [m])
  {
    CastAppend(sent, m);
    hide Cast, OneVote;
    assert Cast(sent + [m], CheckPoint) == Cast(sent, CheckPoint);
  }

  lemma SendPrepareKeeps(r: Replica, m: Msg, base: Proposal, w: World)
    requires Inv(r, base, w) && m.kind == Prepare
    ensures Inv(Send(r, m), base, w)
  {
    hide CfgOk, CachesOk, LockOk, AuthOk, QueueOk, AppliesOk, ExecOk, VotesOnce, LedgerOk, AllStable, AllReported, DecidedOk, ChainOk, ResultsOk;
    SendKeepsRest(r, m, base, w);
    LockFloor(Floor(r.cfg), Floor(r.cfg), r.caches, r.env.sent, m);
    OtherVote(r.cfg.expected, r.env.sent, m);
  }

  // ---- Locking and committing ----

  /** Locking at an index: the new vote agrees with every earlier one at that index, because
      an index with an accepted message is not past, so an earlier vote is still held. */
  lemma LockGrows(floor: int, caches: Caches, c: Cache, sent: seq<Msg>, m: Msg)
    requires LockOk(floor, caches, sent)
    requires c.index in caches && caches[c.index].prePrepare.Some?
    requires caches[c.index].precommit.Some?
      ==> caches[c.index].precommit.value.hash == caches[c.index].prePrepare.value.hash
    requires m.kind == Commit && m.index == c.index && m.hash == caches[c.index].prePrepare.value.hash
    requires c.precommit.Some? && c.precommit.value.hash == m.hash
    ensures LockOk(floor, caches[c.index := c], sent + [m])
  {
    CastAppend(sent, m);
    hide Cast;
    var caches' := caches[c.index := c];
    var votes := Cast(sent, Commit);
    forall h | (c.index, h) in votes ensures h == m.hash {
      assert Held(caches, c.index, h) || Past(floor, caches, c.index);
    }
    forall i, h | (i, h) in Cast(sent + [m], Commit) ensures Held(caches', i, h) || Past(floor, caches', i) {
      if i != c.index {
        assert Held(caches, i, h) || Past(floor, caches, i);
      }
    }
  }

  /** The vote that locking the accepted proposal of `c` sends. */
  function LockVote(g: Cfg, c: Cache): Msg
    requires c.prePrepare.Some?
  {
    g.Own(Commit, c.prePrepare.value.index, c.prePrepare.value.hash)
  }

  /** The state in which `PrecommitAt` has locked and voted, before a possible commit. */
  function Locking(r: Replica, c: Cache): Replica
    requires c.prePrepare.Some?
  {
    Send(Put(r, CheckPrecommit(c, r.cfg).0), LockVote(r.cfg, c))
  }

  lemma LockingFields(g: Cfg, c: Cache)
    requires SelfOk(g) && CacheOk(g, c) && WillPrecommit(c, g)
    ensures c.prePrepare.Some? && c.prePrepare.value.index == c.index
    ensures var c' := CheckPrecommit(c, g).0;
      && c'.index == c.index && c'.stable == c.stable && c'.checkpoint == c.checkpoint
      && c'.prepares == c.prepares && c'.checkpoints == c.checkpoints
      && HasQuorum(g.nodes, c.prepares, c.prePrepare.value.hash)
      && c'.precommit.Some? && c'.precommit.value.hash == c.prePrepare.value.hash
      && c'.commits == AddVote(g.nodes, c.index, c.commits, LockVote(g, c))
  {
    hide HasQuorum, VotesFiled, VotesSigned, VotesCurrent, LockMessage, AddVote, SignatureList;
  }

  lemma AuthCacheGrows(nodes: seq<Node>, self: nat, sent: seq<Msg>, m: Msg, w: World, c: Cache)
    requires AuthCache(nodes, self, sent, w, c)
    ensures AuthCache(nodes, self, sent + [m], w, c)
  {
    TracedLonger(self, sent, m, w, Prepare, c.index, c.prepares);
    TracedLonger(self, sent, m, w, Commit, c.index, c.commits);
    TracedLonger(self, sent, m, w, CheckPoint, c.index, c.checkpoints);
    CastAppend(sent, m);
    hide Cast, TracedVotes;
    if c.precommit.Some? {
      EvidenceGrows(nodes, self, sent, sent + [m], w, w, Prepare, c.index, c.precommit.value.hash);
    }
    hide Evidence;
  }

  lemma AuthCacheVotes(g: Cfg, sent: seq<Msg>, w: World, c: Cache, c': Cache)
    requires AuthCache(g.nodes, g.self, sent, w, c) && c.prePrepare.Some? && c.prePrepare.value.index == c.index
    requires c'.index == c.index && c'.prepares == c.prepares && c'.checkpoints == c.checkpoints
    requires c'.commits == AddVote(g.nodes, c.index, c.commits, LockVote(g, c)) && c'.checkpoint == c.checkpoint
    requires c'.precommit.Some? && c'.precommit.value.hash == c.prePrepare.value.hash
    requires HasQuorum(g.nodes, c.prepares, c.prePrepare.value.hash)
    ensures AuthCache(g.nodes, g.self, sent + [LockVote(g, c)], w, c')
  {
    var m := LockVote(g, c);
    AuthCacheGrows(g.nodes, g.self, sent, m, w, c);
    PreparedEvidence(g, sent + [m], w, c, c.prePrepare.value.hash);
    VoteTraced(g, sent, w, c.index, c.commits, m);
    hide TracedVotes, Evidence, HasQuorum, AddVote;
  }

  lemma VoteTraced(g: Cfg, sent: seq<Msg>, w: World, i: int, book: VoteBook, m: Msg)
    requires TracedVotes(g.self, sent, w, m.kind, i, book) && m.from == g.self && m.index == i
    ensures TracedVotes(g.self, sent + [m], w, m.kind, i, AddVote(g.nodes, i, book, m))
  {
    CastAppend(sent, m);
    hide Cast;
  }

  /** A prepare quorum of traced votes is evidence of it. */
  lemma PreparedEvidence(g: Cfg, sent: seq<Msg>, w: World, c: Cache, h: Hash)
    requires TracedVotes(g.self, sent, w, Prepare, c.index, c.prepares) && HasQuorum(g.nodes, c.prepares, h)
    ensures Evidence(g.nodes, g.self, sent, w, Prepare, c.index, h)
  {
    hide Weight, QuorumOf, Justified;
    assert Witness(g.nodes, g.self, sent, w, Prepare, c.index, h, c.prepares[h].Keys);
  }

  lemma LockingAuth(r: Replica, c: Cache, w: World)
    requires SelfOk(r.cfg) && CacheOk(r.cfg, c) && AuthOk(r.cfg.nodes, r.cfg.self, r.caches, r.env.sent, w)
    requires AuthCache(r.cfg.nodes, r.cfg.self, r.env.sent, w, c) && WillPrecommit(c, r.cfg)
    ensures AuthOk(r.cfg.nodes, r.cfg.self, Locking(r, c).caches, Locking(r, c).env.sent, w)
  {
    LockingFields(r.cfg, c);
    AuthCacheVotes(r.cfg, r.env.sent, w, c, CheckPrecommit(c, r.cfg).0);
    hide CheckPrecommit, WillPrecommit, CacheOk, AuthCache, SelfOk;
    forall j | j in r.caches ensures AuthCache(r.cfg.nodes, r.cfg.self, r.env.sent + [LockVote(r.cfg, c)], w, r.caches[j]) {
      AuthCacheGrows(r.cfg.nodes, r.cfg.self, r.env.sent, LockVote(r.cfg, c), w, r.caches[j]);
    }
  }

  lemma LockingLock(r: Replica, c: Cache)
    requires CfgOk(r.cfg) && CachesOk(r.cfg, r.caches) && LockOk(Floor(r.cfg), r.caches, r.env.sent)
    requires c.index in r.caches && c == r.caches[c.index] && WillPrecommit(c, r.cfg)
    ensures LockOk(Floor(r.cfg), Locking(r, c).caches, Locking(r, c).env.sent)
  {
    LockingFields(r.cfg, c);
    hide CheckPrecommit, WillPrecommit, LockOk;
    LockGrows(Floor(r.cfg), r.caches, CheckPrecommit(c, r.cfg).0, r.env.sent, LockVote(r.cfg, c));
  }

  lemma LockingKeeps(r: Replica, c: Cache, base: Proposal, w: World)
    requires Inv(r, base, w)
    requires c.index in r.caches && c == r.caches[c.index] && WillPrecommit(c, r.cfg)
    ensures Inv(Locking(r, c), base, w)
  {
    hide LockOk, QueueOk, AppliesOk, ExecOk, LedgerOk, AllStable, DecidedOk, WillPrecommit, CheckPrecommit, ChainOk, ResultsOk,
      VotesOnce;
    CacheAtOk(r, c.index);
    CacheAtAuth(r, c.index, w);
    LockingFields(r.cfg, c);
    LockingAuth(r, c, w);
    hide AuthOk, AuthCache;
    LockingLock(r, c);
    SendKeepsRest(r, LockVote(r.cfg, c), base, w);
    CheckPrecommitKeeps(r.cfg, c);
    OtherVote(r.cfg.expected, r.env.sent, LockVote(r.cfg, c));
    hide CacheOk;
  }

  lemma LockAndCommitKeeps(r: Replica, c: Cache, base: Proposal, w: World)
    requires Inv(r, base, w)
    requires c.index in r.caches && c == r.caches[c.index] && WillPrecommit(c, r.cfg) && CheckPrecommit(c, r.cfg).1
    ensures c.prePrepare.Some?
    ensures Inv(Decide(Locking(r, c), CheckPrecommit(c, r.cfg).0), base, w)
  {
    InvCache(r, c.index, base, w);
    hide Inv, CacheOk, AuthCache, SelfOk, WillPrecommit, CheckPrecommit, Decide, CommitFacts;
    LockingKeeps(r, c, base, w);
    LockingFields(r.cfg, c);
    PrecommitCommitFacts(r.cfg, c);
    DecideKeeps(Locking(r, c), CheckPrecommit(c, r.cfg).0, base, w);
  }

  lemma LockAtIs(r: Replica, i: int)
    requires CacheAt(r, i).index == i && CheckPrecommit(CacheAt(r, i), r.cfg).0.index == i
    ensures var c := CacheAt(r, i);
      if WillPrecommit(c, r.cfg) then i in r.caches && LockAt(r, i) == Locking(r, c) else LockAt(r, i) == Put(r, c)
  {
    hide HasQuorum, CheckCommit, LockAndVote;
    assert r.env.sent + [] == r.env.sent;
  }

  lemma PrecommitIndex(g: Cfg, c: Cache)
    ensures CheckPrecommit(c, g).0.index == c.index
  {
    hide Enough, SignatureList, AddVote;
  }

  lemma PrecommitAtKeeps(r: Replica, i: int, base: Proposal, w: World)
    requires Inv(r, base, w)
    ensures Inv(PrecommitAt(r, i), base, w)
  {
    var c := CacheAt(r, i);
    InvCache(r, i, base, w);
    PrecommitIndex(r.cfg, c);
    LockAtIs(r, i);
    hide Inv, CacheOk, AuthCache, SelfOk, WillPrecommit, Decide, CommitFacts, LockAt, Locking;
    if WillPrecommit(c, r.cfg) {
      LockingFields(r.cfg, c);
      hide CheckPrecommit;
      LockingKeeps(r, c, base, w);
      if CheckPrecommit(c, r.cfg).1 {
        LockAndCommitKeeps(r, c, base, w);
      }
    } else {
      PutKeeps(r, c, base, w);
    }
  }

  lemma PrecommitCommitFacts(g: Cfg, c: Cache)
    requires SelfOk(g) && CacheOk(g, c) && CheckPrecommit(c, g).1
    ensures CommitFacts(g, CheckPrecommit(c, g).0)
  {
    CheckPrecommitKeeps(g, c);
    hide VotesFiled, VotesSigned, VotesCurrent, Certified, SignatureList, AddVote;
  }

  lemma {:induction false} PrecommitEachKeeps(r: Replica, ks: seq<int>, base: Proposal, w: World)
    requires Inv(r, base, w)
    ensures Inv(PrecommitEach(r, ks), base, w)
  {
    if ks != [] {
      PrecommitEachKeeps(r, ks[..|ks| - 1], base, w);
      hide Inv, PrecommitAt;
      PrecommitAtKeeps(PrecommitEach(r, ks[..|ks| - 1]), ks[|ks| - 1], base, w);
    }
  }

  lemma CommitFrame(g: Cfg, sent: seq<Msg>, w: World, c: Cache)
    requires AuthCache(g.nodes, g.self, sent, w, c)
    ensures var c' := CheckCommit(c, g).0;
      && Replaces(Floor(g), c, c') && AuthCache(g.nodes, g.self, sent, w, c')
      && c'.precommit == c.precommit && c'.commits == c.commits
  {
    hide Justified, Enough;
  }

  lemma CommitPutKeeps(r: Replica, c: Cache, base: Proposal, w: World)
    requires Inv(r, base, w) && c == CacheAt(r, c.index)
    ensures Inv(Put(r, CheckCommit(c, r.cfg).0), base, w)
    ensures CheckCommit(c, r.cfg).1 ==> CommitFacts(r.cfg, CheckCommit(c, r.cfg).0)
  {
    hide Inv, CacheOk, AuthCache, SelfOk, CheckCommit, Certified, DistinctSigners, HasQuorum;
    InvCache(r, c.index, base, w);
    var c' := CheckCommit(c, r.cfg).0;
    CheckCommitKeeps(r.cfg, c);
    CommitFrame(r.cfg, r.env.sent, w, c);
    if CheckCommit(c, r.cfg).1 {
      CommittedValueHasQuorum(r.cfg, c);
    }
    PutKeeps(r, c', base, w);
  }

  lemma CommitAtKeeps(r: Replica, i: int, base: Proposal, w: World)
    requires Inv(r, base, w)
    ensures Inv(CommitAt(r, i), base, w)
  {
    var c := CacheAt(r, i);
    CacheAtOk(r, i);
    hide Inv, CacheOk;
    CommitPutKeeps(r, c, base, w);
    var c' := CheckCommit(c, r.cfg).0;
    if CheckCommit(c, r.cfg).1 {
      hide CommitFacts, Decide;
      DecideKeeps(Put(r, c'), c', base, w);
      ResetToViewKeeps(Decide(Put(r, c'), c'), base, w);
    }
  }

  lemma ResetToViewKeeps(r: Replica, base: Proposal, w: World)
    requires Inv(r, base, w)
    ensures Inv(r.(cfg := r.cfg.ResetToView()), base, w)
  {
    ToViewKeeps(r, r.cfg.view, base, w);
  }

  lemma ToViewKeeps(r: Replica, v: nat, base: Proposal, w: World)
    requires Inv(r, base, w) && v >= r.cfg.view
    ensures Inv(r.(cfg := r.cfg.(toView := v)), base, w)
  {
    var g := r.cfg.(toView := v);
    hide LockOk, AuthOk, QueueOk, AppliesOk, ExecOk, VotesOnce, LedgerOk, AllStable, AllReported, DecidedOk, ChainOk, ResultsOk;
    forall i | i in r.caches ensures CacheOk(g, r.caches[i]) {
      CacheOkLater(r.cfg, g, r.caches[i]);
    }
    hide CacheOk;
  }

  lemma {:induction false} CommitEachKeeps(r: Replica, ks: seq<int>, base: Proposal, w: World)
    requires Inv(r, base, w)
    ensures Inv(CommitEach(r, ks), base, w)
  {
    if ks != [] {
      CommitEachKeeps(r, ks[..|ks| - 1], base, w);
      hide Inv, CommitAt;
      CommitAtKeeps(CommitEach(r, ks[..|ks| - 1]), ks[|ks| - 1], base, w);
    }
  }

  // ---- Execution results and checkpoints ----

  /** The cache of the executed index after recording the result. */
  function ExecutedCache(g: Cfg, c: Cache, executed: Proposal): Cache {
    var own := g.Own(CheckPoint, executed.index, executed.hash);
    c.(checkpoints := AddVote(g.nodes, c.index, c.checkpoints, own), checkpoint := Some(executed))
  }

  lemma ExecutedCacheOk(g: Cfg, sent: seq<Msg>, w: World, c: Cache, executed: Proposal)
    requires SelfOk(g) && CacheOk(g, c) && AuthCache(g.nodes, g.self, sent, w, c)
    requires c.index == executed.index == g.expected
    ensures CacheOk(g.SetExpected(executed.index + 1), ExecutedCache(g, c, executed))
    ensures AuthCache(g.nodes, g.self, sent + [g.Own(CheckPoint, executed.index, executed.hash)], w,
                      ExecutedCache(g, c, executed))
  {
    var own := g.Own(CheckPoint, executed.index, executed.hash);
    CastAppend(sent, own);
    AuthCacheGrows(g.nodes, g.self, sent, own, w, c);
    AddVoteFiled(g.nodes, 0, c.checkpoints, CheckPoint, c.index, own);
    AddVoteSigned(g.nodes, c.checkpoints, c.index, own);
    hide VotesFiled, VotesSigned, VotesCurrent, LockMessage, Cast;
  }

  lemma RecordExecutedIs(r: Replica, executed: Proposal)
    requires executed.index > r.cfg.committed.index
    requires CacheAt(r, executed.index).index == executed.index
    ensures var own := r.cfg.Own(CheckPoint, executed.index, executed.hash);
      RecordExecuted(r, executed) == Put(Send(r, own), ExecutedCache(r.cfg, CacheAt(r, executed.index), executed))
        .(cfg := r.cfg.SetExpected(executed.index + 1))
  {
    hide AddVote;
    var own := r.cfg.Own(CheckPoint, executed.index, executed.hash);
    var r' := RecordExecuted(r, executed);
    var c := CacheAt(r, executed.index);
    assert r'.caches[executed.index] == ExecutedCache(r.cfg, c, executed);
    assert r'.caches == r.caches[executed.index := ExecutedCache(r.cfg, c, executed)];
  }

  /** Recording the result of the one running execution advances the expected checkpoint
      past it and casts the only checkpoint vote for that index. */
  lemma RecordExecutedKeeps(r: Replica, executed: Proposal, base: Proposal, w: World)
    requires Inv(r, base, w)
    requires |r.env.running| == 1 && executed.index == r.env.running[0].proposal.index
    requires w.results(r.env.running[0].last.hash, r.env.running[0].proposal.hash, executed.hash)
    ensures executed.index == r.cfg.expected
    ensures r.env.running[0].proposal.hash in r.executing
    ensures Inv(RecordExecuted(r.(env := r.env.(running := [])), executed), base, w)
  {
    hide CacheOk, AuthCache, SelfOk, LockOk, QueueOk, AppliesOk, VotesOnce, LedgerOk, AllStable, AllReported, DecidedOk, ChainOk, ResultsOk;
    var r0 := r.(env := r.env.(running := []));
    var i := executed.index;
    var own := r.cfg.Own(CheckPoint, i, executed.hash);
    assert r.env.running[0] in r.env.running;
    assert i == r.cfg.expected;
    InvCache(r, i, base, w);
    hide CachesOk, AuthOk;
    RecordExecutedIs(r0, executed);
    var c' := ExecutedCache(r.cfg, CacheAt(r, i), executed);
    var r' := RecordExecuted(r0, executed);
    ExecutedCacheOk(r.cfg, r.env.sent, w, CacheAt(r, i), executed);
    SendKeepsRest(r, own, base, w);
    hide RecordExecuted, CacheOk, AuthCache, ExecutedCache;
    RecordedRest(r, r'.cfg, c', own, base, w);
    RecordedResults(base.index + 1, r.env.applies, r.env.sent, own, w);
  }

  lemma RecordedCaches(r: Replica, g: Cfg, c: Cache, own: Msg, w: World)
    requires CachesOk(r.cfg, r.caches) && AuthOk(r.cfg.nodes, r.cfg.self, r.caches, r.env.sent, w)
    requires g == r.cfg.(expected := r.cfg.expected + 1)
    requires CacheOk(g, c) && AuthCache(g.nodes, g.self, r.env.sent + [own], w, c)
    ensures CachesOk(g, r.caches[c.index := c])
    ensures AuthOk(g.nodes, g.self, r.caches[c.index := c], r.env.sent + [own], w)
  {
    hide CacheOk, AuthCache;
    forall i | i in r.caches ensures CacheOk(g, r.caches[i]) && AuthCache(g.nodes, g.self, r.env.sent + [own], w, r.caches[i]) {
      CacheOkLater(r.cfg, g, r.caches[i]);
      AuthCacheGrows(g.nodes, g.self, r.env.sent, own, w, r.caches[i]);
    }
  }

  lemma RecordedResults(base: int, applies: seq<ApplyCall>, sent: seq<Msg>, own: Msg, w: World)
    requires ResultsOk(base, applies, sent, w) && own.kind == CheckPoint
    requires applies != [] && own.index == base + |applies| - 1
    requires var call := applies[|applies| - 1]; w.results(call.last.hash, call.proposal.hash, own.hash)
    ensures ResultsOk(base, applies, sent + [own], w)
  {
    CastAppend(sent, own);
    hide Cast;
  }

  lemma RecordedVotes(expected: int, sent: seq<Msg>, own: Msg)
    requires VotesOnce(expected, sent) && own.kind == CheckPoint && own.index == expected
    ensures VotesOnce(expected + 1, sent + [own])
  {
    CastAppend(sent, own);
    hide Cast;
  }

  lemma RecordedReports(expected: int, caches: Caches, c: Cache, ps: seq<Proposal>)
    requires AllReported(expected, caches, ps) && c.index == expected
    ensures AllReported(expected + 1, caches[c.index := c], ps)
  {
    forall p | p in ps ensures Reported(expected + 1, caches[c.index := c], p.index) {
      assert Reported(expected, caches, p.index);
    }
  }

  lemma RecordedRest(r: Replica, g: Cfg, c: Cache, own: Msg, base: Proposal, w: World)
    requires Inv(r, base, w)
    requires g == r.cfg.(expected := r.cfg.expected + 1)
    requires own.kind == CheckPoint && own.index == c.index == r.cfg.expected
    requires SameLock(Floor(r.cfg), CacheAt(r, c.index), c)
    requires CacheOk(g, c) && AuthCache(g.nodes, g.self, r.env.sent + [own], w, c)
    ensures CfgOk(g)
    ensures CachesOk(g, r.caches[c.index := c])
    ensures LockOk(Floor(g), r.caches[c.index := c], r.env.sent + [own])
    ensures AuthOk(g.nodes, g.self, r.caches[c.index := c], r.env.sent + [own], w)
    ensures VotesOnce(g.expected, r.env.sent + [own])
    ensures AllReported(g.expected, r.caches[c.index := c], r.env.ledger + r.stableQueue)
  {
    hide CachesOk, LockOk, AuthOk, QueueOk, AppliesOk, ExecOk, VotesOnce, LedgerOk, AllStable, AllReported, DecidedOk,
      CacheOk, AuthCache, ChainOk, ResultsOk;
    RecordedCaches(r, g, c, own, w);
    LockKept(Floor(r.cfg), r.caches, c, r.env.sent);
    LockFloor(Floor(r.cfg), Floor(g), r.caches[c.index := c], r.env.sent, own);
    RecordedVotes(r.cfg.expected, r.env.sent, own);
    RecordedReports(r.cfg.expected, r.caches, c, r.env.ledger + r.stableQueue);
  }

  lemma LockFloor(floor: int, floor': int, caches: Caches, sent: seq<Msg>, m: Msg)
    requires LockOk(floor, caches, sent) && floor <= floor' && m.kind != Commit
    ensures LockOk(floor', caches, sent + [m])
    ensures LockOk(floor', caches, sent)
  {
    CastAppend(sent, m);
    hide Cast, OneVote;
    forall i, h | (i, h) in Cast(sent, Commit) ensures Held(caches, i, h) || Past(floor', caches, i) {
      assert Held(caches, i, h) || Past(floor, caches, i);
    }
    assert Cast(sent + [m], Commit) == Cast(sent, Commit);
  }

  // ---- Stable checkpoints ----

  /** Submitting in order moves the head of the queue to the end of the ledger log: nothing
      queued is ever dropped, and what is submitted is the successor of the last entry. */
  lemma TryCommitStableMoves(r: Replica, base: int)
    requires LedgerOk(r.cfg.committed.index, base, r.env.ledger, r.env.committing, r.stableQueue)
    ensures var r' := TryCommitStable(r);
      && LedgerOk(r.cfg.committed.index, base, r'.env.ledger, r'.env.committing, r'.stableQueue)
      && r'.env.ledger + r'.stableQueue == r.env.ledger + r.stableQueue
      && r' == r.(stableQueue := r'.stableQueue,
                  env := r.env.(ledger := r'.env.ledger, committing := r'.env.committing))
  {
    var q := r.stableQueue;
    NothingToDrop(q, r.cfg.committed.index + 1);
    hide DropBelow;
    var r' := TryCommitStable(r);
    if q != [] && q[0].index == r.cfg.committed.index + 1 {
      SubmitHead(r.cfg.committed.index, base, r.env.ledger, r.env.committing, q);
      assert r'.env.ledger + r'.stableQueue == r.env.ledger + q;
    }
  }

  lemma {:induction false} NothingToDrop(q: seq<Proposal>, k: int)
    requires q == [] || q[0].index >= k
    ensures DropBelow(q, k) == q
  {
  }

  lemma SubmitHead(committed: int, base: int, ledger: seq<Proposal>, committing: seq<Proposal>, q: seq<Proposal>)
    requires LedgerOk(committed, base, ledger, committing, q)
    requires q != [] && q[0].index == committed + 1
    ensures LedgerOk(committed, base, ledger + [q[0]], committing + [q[0]], q[1..])
    ensures ledger + [q[0]] + q[1..] == ledger + q
  {
  }

  /** No checkpoint that was queued or submitted is lost. */
  ghost predicate Kept(r: Replica, r': Replica) {
    forall p :: p in r.env.ledger + r.stableQueue ==> p in r'.env.ledger + r'.stableQueue
  }

  lemma TryCommitStableKeeps(r: Replica, base: Proposal, w: World)
    requires Inv(r, base, w)
    ensures Inv(TryCommitStable(r), base, w)
    ensures Kept(r, TryCommitStable(r))
  {
    hide TryCommitStable, CfgOk, CachesOk, LockOk, AuthOk, QueueOk, AppliesOk, ExecOk, VotesOnce, LedgerOk, AllStable,
      AllReported, DecidedOk, ChainOk, ResultsOk;
    TryCommitStableMoves(r, base.index + 1);
  }

  /** Checkpoints about to be queued: certified, above the committed index, in increasing
      order, and neither queued nor submitted before. */
  ghost predicate Pending(r: Replica, w: World, ps: seq<Proposal>) {
    && (forall j, k :: 0 <= j < k < |ps| ==> ps[j].index < ps[k].index)
    && AllStable(r.cfg.nodes, r.cfg.self, r.env.sent, w, ps)
    && AllReported(r.cfg.expected, r.caches, ps)
    && (forall p :: p in ps ==> p.index > r.cfg.committed.index)
    && (forall p, q :: p in ps && q in r.env.ledger + r.stableQueue ==> p.index != q.index)
  }

  lemma {:induction false} InsertAscending(q: seq<Proposal>, p: Proposal)
    requires forall j, k :: 0 <= j < k < |q| ==> q[j].index < q[k].index
    requires forall x :: x in q ==> x.index != p.index
    ensures var s := Insert(q, p); forall j, k :: 0 <= j < k < |s| ==> s[j].index < s[k].index
  {
    if !(q == [] || q[|q| - 1].index <= p.index) {
      var front, last := q[..|q| - 1], q[|q| - 1];
      InsertAscending(front, p);
      InsertMembers(front, p);
      var s := Insert(front, p);
      assert forall j :: 0 <= j < |s| ==> s[j] in s;
    }
  }

  lemma LoggedIndex(base: int, ledger: seq<Proposal>, i: int)
    requires forall k :: 0 <= k < |ledger| ==> ledger[k].index == base + k
    requires base <= i < base + |ledger|
    ensures exists q :: q in ledger && q.index == i
  {
    assert ledger[i - base] in ledger;
  }

  /** A new checkpoint lies after everything submitted. */
  lemma {:induction false} AfterLedger(committed: int, base: int, ledger: seq<Proposal>, committing: seq<Proposal>,
                    queue: seq<Proposal>, p: Proposal)
    requires LedgerOk(committed, base, ledger, committing, queue)
    requires p.index > committed && forall q :: q in ledger + queue ==> p.index != q.index
    ensures LedgerOk(committed, base, ledger, committing, Insert(queue, p))
  {
    InsertMembers(queue, p);
    InsertAscending(queue, p);
    if p.index < base + |ledger| {
      LoggedIndex(base, ledger, p.index);
      assert false;
    }
    var s := Insert(queue, p);
    assert forall k :: 0 <= k < |s| ==> s[k] in s;
  }

  lemma UpdateStableQueueKeeps(r: Replica, p: Proposal, base: Proposal, w: World)
    requires Inv(r, base, w) && Pending(r, w, [p])
    ensures var r' := UpdateStableQueue(r, p);
      && Inv(r', base, w) && r'.cfg == r.cfg && r'.caches == r.caches && r'.env.sent == r.env.sent
      && forall q :: q in r'.env.ledger + r'.stableQueue <==> q in r.env.ledger + r.stableQueue || q == p
  {
    hide CfgOk, CachesOk, LockOk, AuthOk, QueueOk, AppliesOk, ExecOk, VotesOnce, LedgerOk, StableOk, Reported, DecidedOk, ChainOk, ResultsOk;
    assert p in [p];
    AfterLedger(r.cfg.committed.index, base.index + 1, r.env.ledger, r.env.committing, r.stableQueue, p);
    InsertMembers(r.stableQueue, p);
    var r1 := r.(stableQueue := Insert(r.stableQueue, p));
    assert Inv(r1, base, w);
    TryCommitStableKeeps(r1, base, w);
    TryCommitStableMoves(r1, base.index + 1);
  }

  /** The next checkpoint may still be queued after some before it were. */
  lemma PendingNext(r: Replica, r1: Replica, w: World, ps: seq<Proposal>, k: nat)
    requires Pending(r, w, ps) && k < |ps|
    requires r1.cfg == r.cfg && r1.caches == r.caches && r1.env.sent == r.env.sent
    requires forall q :: q in r1.env.ledger + r1.stableQueue ==> q in r.env.ledger + r.stableQueue || q in ps[..k]
    ensures Pending(r1, w, [ps[k]])
  {
    hide StableOk, Reported;
    assert ps[k] in ps;
    forall q | q in ps[..k] ensures q.index != ps[k].index {
      var j :| 0 <= j < k && ps[j] == q;
    }
  }

  lemma {:induction false} QueueEachKeeps(r: Replica, ps: seq<Proposal>, k: nat, base: Proposal, w: World)
    requires Inv(r, base, w) && Pending(r, w, ps) && k <= |ps|
    ensures var r' := QueueEach(r, ps[..k]);
      && Inv(r', base, w) && r'.cfg == r.cfg && r'.caches == r.caches && r'.env.sent == r.env.sent
      && forall q :: q in r'.env.ledger + r'.stableQueue <==> q in r.env.ledger + r.stableQueue || q in ps[..k]
  {
    hide Inv, Pending, UpdateStableQueue;
    if k > 0 {
      QueueEachKeeps(r, ps, k - 1, base, w);
      var r1 := QueueEach(r, ps[..k - 1]);
      assert ps[..k][..k - 1] == ps[..k - 1] && ps[..k] == ps[..k - 1] + [ps[k - 1]];
      PendingNext(r, r1, w, ps, k - 1);
      UpdateStableQueueKeeps(r1, ps[k - 1], base, w);
    }
  }

  /** What the first pass leaves: only caches changed, and the collected checkpoints may be
      queued. */
  ghost predicate Collected(r: Replica, r1: Replica, ks: seq<int>, found: seq<Proposal>, w: World) {
    && r1 == r.(caches := r1.caches)
    && Pending(r1, w, found)
    && forall p :: p in found ==> p.index in ks
  }

  /** What the checkpoint pass does to one cache, and what it says about a reported one. */
  ghost predicate StableFacts(r: Replica, i: int, c': Cache, ok: bool, w: World) {
    && c'.index == i
    && Replaces(Floor(r.cfg), CacheAt(r, i), c')
    && CacheOk(r.cfg, c') && AuthCache(r.cfg.nodes, r.cfg.self, r.env.sent, w, c')
    && (ok ==>
          && c'.checkpoint.Some? && c'.checkpoint.value.index == i > r.cfg.committed.index
          && c'.stable && i < r.cfg.expected
          && StableOk(r.cfg.nodes, r.cfg.self, r.env.sent, w, c'.checkpoint.value)
          && i in r.caches && r.caches[i].checkpoint.Some? && !r.caches[i].stable)
  }

  lemma StableEvidence(g: Cfg, sent: seq<Msg>, w: World, c: Cache)
    requires CacheOk(g, c) && AuthCache(g.nodes, g.self, sent, w, c) && WillStabilize(c, g)
    ensures StableOk(g.nodes, g.self, sent, w, CheckStable(c, g).0.checkpoint.value)
  {
    CheckStableKeeps(g, c);
    var p := CheckStable(c, g).0.checkpoint.value;
    hide CacheOk, Certified, DistinctSigners, SignatureList, Justified;
    assert Witness(g.nodes, g.self, sent, w, CheckPoint, p.index, p.hash, c.checkpoints[p.hash].Keys);
  }

  lemma StableFrame(g: Cfg, sent: seq<Msg>, w: World, c: Cache)
    requires CacheOk(g, c) && AuthCache(g.nodes, g.self, sent, w, c)
    ensures var (c', ok) := CheckStable(c, g);
      && Replaces(Floor(g), c, c') && AuthCache(g.nodes, g.self, sent, w, c')
      && (ok ==>
            && WillStabilize(c, g) && c.checkpoint.Some? && !c.stable && c'.stable
            && c'.checkpoint.Some? && c'.checkpoint.value.index == c.index > g.committed.index
            && c.index < g.expected)
  {
    hide Justified, SignatureList, HasQuorum, VotesFiled, VotesSigned, VotesCurrent, LockMessage;
  }

  lemma StableCache(r: Replica, i: int, w: World)
    requires CachesOk(r.cfg, r.caches) && AuthOk(r.cfg.nodes, r.cfg.self, r.caches, r.env.sent, w)
    ensures var (c', ok) := CheckStable(CacheAt(r, i), r.cfg); StableFacts(r, i, c', ok, w)
  {
    var c := CacheAt(r, i);
    CacheAtOk(r, i);
    CacheAtAuth(r, i, w);
    hide CachesOk, AuthOk, CacheOk, AuthCache, StableOk, WillStabilize;
    StableFrame(r.cfg, r.env.sent, w, c);
    CheckStableKeeps(r.cfg, c);
    if WillStabilize(c, r.cfg) {
      StableEvidence(r.cfg, r.env.sent, w, c);
    }
    hide CheckStable;
  }

  lemma StableStep(r: Replica, i: int, base: Proposal, w: World)
    requires Inv(r, base, w)
    ensures var (c', ok) := CheckStable(CacheAt(r, i), r.cfg);
      Inv(Put(r, c'), base, w) && StableFacts(r, i, c', ok, w)
  {
    hide CachesOk, AuthOk, CheckStable;
    StableCache(r, i, w);
    hide Inv, CacheOk, AuthCache, Replaces, StableOk;
    PutKeeps(r, CheckStable(CacheAt(r, i), r.cfg).0, base, w);
  }

  lemma PutReported(floor: int, expected: int, caches: Caches, c: Cache, ps: seq<Proposal>)
    requires AllReported(expected, caches, ps)
    requires Replaces(floor, if c.index in caches then caches[c.index] else EmptyCache(c.index), c)
    ensures AllReported(expected, caches[c.index := c], ps)
  {
    hide SameLock;
    forall p | p in ps ensures Reported(expected, caches[c.index := c], p.index) {
      assert Reported(expected, caches, p.index);
    }
  }

  /** A checkpoint that is about to become stable was neither queued nor submitted. */
  lemma NotReportedYet(r: Replica, i: int, base: Proposal, w: World)
    requires Inv(r, base, w)
    requires i in r.caches && r.caches[i].checkpoint.Some? && !r.caches[i].stable
    ensures forall q :: q in r.env.ledger + r.stableQueue ==> q.index != i
  {
    hide CfgOk, CachesOk, LockOk, AuthOk, QueueOk, AppliesOk, ExecOk, VotesOnce, LedgerOk, AllStable, DecidedOk, ChainOk, ResultsOk;
    forall q | q in r.env.ledger + r.stableQueue ensures q.index != i {
      assert Reported(r.cfg.expected, r.caches, q.index);
    }
  }

  lemma PendingMore(r: Replica, w: World, found: seq<Proposal>, p: Proposal)
    requires Pending(r, w, found) && StableOk(r.cfg.nodes, r.cfg.self, r.env.sent, w, p)
    requires forall q :: q in found ==> q.index < p.index
    requires p.index > r.cfg.committed.index && Reported(r.cfg.expected, r.caches, p.index)
    requires forall q :: q in r.env.ledger + r.stableQueue ==> q.index != p.index
    ensures Pending(r, w, found + [p])
  {
    hide StableOk, Reported;
    MoreStable(r, found, p, w);
    assert forall k :: 0 <= k < |found| ==> found[k] in found;
    hide AllStable;
  }

  lemma CollectMore(r: Replica, r1: Replica, ks: seq<int>, found: seq<Proposal>, i: int, c: Cache, ok: bool,
                    base: Proposal, w: World)
    requires Inv(r1, base, w) && Collected(r, r1, ks, found, w)
    requires StableFacts(r1, i, c, ok, w)
    requires forall k :: 0 <= k < |ks| ==> ks[k] < i
    ensures Collected(r, Put(r1, c), ks + [i], if ok then found + [c.checkpoint.value] else found, w)
  {
    hide Inv, AllStable, AllReported, StableOk, CacheOk, AuthCache, SameLock, ChainOk, ResultsOk;
    var r' := Put(r1, c);
    PutReported(Floor(r1.cfg), r1.cfg.expected, r1.caches, c, found);
    assert Pending(r', w, found);
    if ok {
      NotReportedYet(r1, i, base, w);
      hide Pending;
      PendingMore(r', w, found, c.checkpoint.value);
    }
  }

  lemma MoreStable(r: Replica, found: seq<Proposal>, p: Proposal, w: World)
    requires AllStable(r.cfg.nodes, r.cfg.self, r.env.sent, w, found)
    requires StableOk(r.cfg.nodes, r.cfg.self, r.env.sent, w, p)
    ensures AllStable(r.cfg.nodes, r.cfg.self, r.env.sent, w, found + [p])
  {
    hide StableOk;
  }

  lemma StabilizeOneKeeps(r: Replica, r1: Replica, ks: seq<int>, found: seq<Proposal>, i: int, base: Proposal, w: World)
    requires Inv(r1, base, w) && Collected(r, r1, ks, found, w)
    requires forall k :: 0 <= k < |ks| ==> ks[k] < i
    ensures Inv(StabilizeOne(r1, found, i).0, base, w)
    ensures Collected(r, StabilizeOne(r1, found, i).0, ks + [i], StabilizeOne(r1, found, i).1, w)
  {
    hide Inv, Collected, CheckStable, CacheAt, CacheOk, AuthCache, Replaces, StableOk;
    StableStep(r1, i, base, w);
    var (c', ok) := CheckStable(CacheAt(r1, i), r1.cfg);
    CollectMore(r, r1, ks, found, i, c', ok, base, w);
  }

  lemma CollectedNone(r: Replica, w: World)
    ensures Collected(r, r, [], [], w)
  {
  }

  lemma {:induction false} StabilizeEachKeeps(r: Replica, ks: seq<int>, base: Proposal, w: World)
    requires Inv(r, base, w)
    requires forall j, k :: 0 <= j < k < |ks| ==> ks[j] < ks[k]
    ensures Inv(StabilizeEach(r, ks).0, base, w)
    ensures Collected(r, StabilizeEach(r, ks).0, ks, StabilizeEach(r, ks).1, w)
  {
    hide Inv, Collected, StabilizeOne;
    if ks == [] {
      CollectedNone(r, w);
    } else {
      var front, i := ks[..|ks| - 1], ks[|ks| - 1];
      StabilizeEachKeeps(r, front, base, w);
      var (r1, found) := StabilizeEach(r, front);
      assert ks == front + [i];
      StabilizeOneKeeps(r, r1, front, found, i, base, w);
    }
  }

  lemma CheckAndCommitStableKeeps(r: Replica, base: Proposal, w: World)
    requires Inv(r, base, w)
    ensures Inv(CheckAndCommitStable(r), base, w)
    ensures Kept(r, CheckAndCommitStable(r))
  {
    var ks := Ascending(r.caches.Keys);
    var (r1, found) := StabilizeEach(r, ks);
    hide Inv, StabilizeEach, QueueEach;
    StabilizeEachKeeps(r, ks, base, w);
    hide Pending;
    QueueEachKeeps(r1, found, |found|, base, w);
    assert found[..|found|] == found;
  }

  // ---- Eviction, view changes and finalization ----

  /** Evicting caches of finished indices loses no lock: an evicted index is at or below the
      committed one, or its checkpoint is stable and so below the expected one. */
  lemma RemoveConsensusedKeeps(r: Replica, v: nat, number: int, base: Proposal, w: World)
    requires Inv(r, base, w) && number <= r.cfg.committed.index
    ensures Inv(RemoveConsensused(r, v, number), base, w)
  {
    var r' := RemoveConsensused(r, v, number);
    assert LockOk(Floor(r.cfg), r'.caches, r.env.sent) by {
      hide Cast, AuthOk, QueueOk, AppliesOk, ExecOk, VotesOnce, LedgerOk, AllStable, AllReported, DecidedOk, ChainOk, ResultsOk;
      forall i, h | (i, h) in Cast(r.env.sent, Commit) ensures Held(r'.caches, i, h) || Past(Floor(r.cfg), r'.caches, i) {
        assert Held(r.caches, i, h) || Past(Floor(r.cfg), r.caches, i);
        assert i in r.caches ==> CacheOk(r.cfg, r.caches[i]);
      }
    }
    hide RemoveInvalidChanges, CfgOk, CacheOk, LockOk, AuthCache, QueueOk, AppliesOk, ExecOk, VotesOnce, LedgerOk, AllStable, DecidedOk, ChainOk, ResultsOk;
  }

  lemma ResetViewAuth(nodes: seq<Node>, self: nat, sent: seq<Msg>, w: World, c: Cache, v: nat)
    requires AuthCache(nodes, self, sent, w, c)
    ensures AuthCache(nodes, self, sent, w, ResetView(c, v))
  {
    hide Justified;
  }

  lemma ResetLock(floor: int, caches: Caches, sent: seq<Msg>, v: nat)
    requires LockOk(floor, caches, sent)
    ensures LockOk(floor, ResetCaches(caches, v), sent)
  {
    hide Cast, OneVote, SurvivingBook;
    var caches' := ResetCaches(caches, v);
    forall i, h | (i, h) in Cast(sent, Commit) ensures Held(caches', i, h) || Past(floor, caches', i) {
      assert Held(caches, i, h) || Past(floor, caches, i);
    }
  }

  lemma ResetEachCache(r: Replica, g: Cfg, v: nat, w: World)
    requires CachesOk(r.cfg, r.caches) && AuthOk(r.cfg.nodes, r.cfg.self, r.caches, r.env.sent, w)
    requires g == r.cfg.(view := g.view, toView := g.toView, timeout := g.timeout, recovered := g.recovered)
    requires r.cfg.view <= g.view && (g.view <= v || g.view == r.cfg.view)
    ensures CachesOk(g, ResetCaches(r.caches, v)) && AuthOk(g.nodes, g.self, ResetCaches(r.caches, v), r.env.sent, w)
  {
    hide CacheOk, AuthCache, SurvivingBook;
    forall i | i in r.caches
      ensures CacheOk(g, ResetView(r.caches[i], v)) && AuthCache(g.nodes, g.self, r.env.sent, w, ResetView(r.caches[i], v))
    {
      ResetViewKeeps(r.cfg, g, r.caches[i], v);
      ResetViewAuth(r.cfg.nodes, r.cfg.self, r.env.sent, w, r.caches[i], v);
    }
  }

  lemma ResetReported(expected: int, caches: Caches, ps: seq<Proposal>, v: nat)
    requires AllReported(expected, caches, ps)
    ensures AllReported(expected, ResetCaches(caches, v), ps)
  {
    hide SurvivingBook;
    forall p | p in ps ensures Reported(expected, ResetCaches(caches, v), p.index) {
      assert Reported(expected, caches, p.index);
    }
  }

  lemma ResetCachesKeeps(r: Replica, g: Cfg, v: nat, base: Proposal, w: World)
    requires Inv(r, base, w)
    requires g == r.cfg.(view := g.view, toView := g.toView, timeout := g.timeout, recovered := g.recovered)
    requires r.cfg.view <= g.view <= g.toView && (g.view <= v || g.view == r.cfg.view)
    ensures Inv(r.(cfg := g, caches := ResetCaches(r.caches, v)), base, w)
  {
    hide CachesOk, LockOk, AuthOk, QueueOk, AppliesOk, ExecOk, VotesOnce, LedgerOk, AllStable, AllReported, DecidedOk,
      ResetCaches, ChainOk, ResultsOk;
    ResetLock(Floor(r.cfg), r.caches, r.env.sent, v);
    ResetEachCache(r, g, v, w);
    ResetReported(r.cfg.expected, r.caches, r.env.ledger + r.stableQueue, v);
  }

  /** The view-change bookkeeping is not part of the invariant. */
  lemma OtherFieldsKeep(r: Replica, r': Replica, base: Proposal, w: World)
    requires Inv(r, base, w)
    requires r' == r.(changes := r'.changes, maxCommitted := r'.maxCommitted, maxPrecommit := r'.maxPrecommit,
                      newViewSent := r'.newViewSent, recovers := r'.recovers,
                      env := r.env.(sentChanges := r'.env.sentChanges, sentNewViews := r'.env.sentNewViews))
    ensures Inv(r', base, w)
  {
    hide CfgOk, CachesOk, LockOk, AuthOk, QueueOk, AppliesOk, ExecOk, VotesOnce, LedgerOk, AllStable, AllReported, DecidedOk, ChainOk, ResultsOk;
  }

  lemma ResetAfterKeeps(r: Replica, g: Cfg, v: nat, index: int, base: Proposal, w: World)
    requires Inv(r, base, w)
    requires g == r.cfg.(view := g.view, toView := g.toView, timeout := g.timeout, recovered := g.recovered)
    requires r.cfg.view <= g.view <= g.toView && (g.view <= v || g.view == r.cfg.view)
    ensures Inv(ResetAfterViewChange(r.(cfg := g), v, index), base, w)
  {
    hide Inv;
    ResetCachesKeeps(r, g, v, base, w);
    var r1 := r.(cfg := g, caches := ResetCaches(r.caches, v));
    OtherFieldsKeep(r1, ResetAfterViewChange(r.(cfg := g), v, index), base, w);
  }

  lemma ViewFacts(r: Replica, v: nat, base: Proposal, w: World)
    requires Inv(r, base, w)
    ensures var g := r.cfg.ResetNewView(v);
      && g == r.cfg.(view := g.view, toView := g.toView, timeout := g.timeout, recovered := g.recovered)
      && r.cfg.view <= g.view <= g.toView && (g.view <= v || g.view == r.cfg.view)
  {
    hide CachesOk, LockOk, AuthOk, QueueOk, AppliesOk, ExecOk, VotesOnce, LedgerOk, AllStable, AllReported, DecidedOk, ChainOk, ResultsOk;
  }

  lemma ReachNewViewKeeps(r: Replica, v: nat, base: Proposal, w: World)
    requires Inv(r, base, w)
    ensures Inv(ReachNewView(r, v), base, w)
  {
    ViewFacts(r, v, base, w);
    hide Inv, ResetAfterViewChange;
    var g := r.cfg.ResetNewView(v);
    ResetAfterKeeps(r, g, g.view, g.committed.index, base, w);
  }

  lemma TryRecoverKeeps(r: Replica, base: Proposal, w: World)
    requires Inv(r, base, w)
    ensures Inv(TryRecover(r).0, base, w)
  {
    var v := RecoveredView(r.cfg, r.recovers, Ascending(r.recovers.Keys));
    hide RecoveredView, Ascending;
    ViewFacts(r, v, base, w);
    if v != 0 {
      hide Inv, ResetAfterViewChange;
      ResetAfterKeeps(r, r.cfg.ResetNewView(v), v, r.cfg.committed.index, base, w);
      var r1 := ResetAfterViewChange(r.(cfg := r.cfg.ResetNewView(v)), v, r.cfg.committed.index);
      OtherFieldsKeep(r1, r1.(recovers := map[]), base, w);
    }
  }

  lemma WrittenLedger(r: Replica, base: Proposal, w: World)
    requires Inv(r, base, w) && |r.env.committing| == 1
    ensures var q := r.env.committing[0]; var c := r.cfg.committed.index + 1;
      && q.index == c < r.cfg.expected
      && (q.index, q.hash) in Cast(r.env.sent, CheckPoint) && c > base.index
      && LedgerOk(c, base.index + 1, r.env.ledger, [], r.stableQueue)
  {
    hide CfgOk, CachesOk, LockOk, AuthOk, QueueOk, AppliesOk, ExecOk, VotesOnce, DecidedOk, ChainOk, ResultsOk,
      Certified, DistinctSigners, Evidence, Cast;
    var q := r.env.committing[0];
    assert q in r.env.ledger + r.stableQueue;
  }

  lemma WrittenCaches(g: Cfg, g': Cfg, caches: Caches)
    requires CachesOk(g, caches) && g'.nodes == g.nodes && g'.expected >= g.expected && g'.view == g.view
    ensures CachesOk(g', caches)
  {
    hide CacheOk;
    forall i | i in caches ensures CacheOk(g', caches[i]) {
      CacheOkLater(g, g', caches[i]);
    }
  }

  lemma WrittenChain(base: Proposal, committed: Proposal, q: Proposal, applies: seq<ApplyCall>, sent: seq<Msg>)
    requires ChainOk(base, committed, applies, sent)
    requires (q.index, q.hash) in Cast(sent, CheckPoint) && q.index > base.index
    ensures ChainOk(base, BareProposal(q.index, q.hash), applies, sent)
  {
    hide Cast;
  }

  /** Writing the one submitted block advances the committed index by one, never past the
      expected checkpoint. */
  lemma WrittenKeeps(r: Replica, base: Proposal, w: World)
    requires Inv(r, base, w) && |r.env.committing| == 1
    ensures var q := r.env.committing[0];
      var g := r.cfg.ResetConfig(q.index, q.hash);
      && g.committed == BareProposal(q.index, q.hash)
      && q.index == r.cfg.committed.index + 1 && g.expected == r.cfg.expected
      && Inv(r.(cfg := g, env := r.env.(committing := [])), base, w)
  {
    hide Total, CachesOk, LockOk, AuthOk, QueueOk, AppliesOk, ExecOk, VotesOnce, LedgerOk, AllStable, AllReported, DecidedOk,
      ChainOk, ResultsOk;
    var q := r.env.committing[0];
    var g := r.cfg.ResetConfig(q.index, q.hash);
    WrittenLedger(r, base, w);
    WrittenCaches(r.cfg, g, r.caches);
    WrittenChain(base, r.cfg.committed, q, r.env.applies, r.env.sent);
    LockFloor(Floor(r.cfg), Floor(g), r.caches, r.env.sent, r.cfg.Own(Prepare, 0, 0));
  }

  lemma EraseExecutedKeeps(r: Replica, h: Hash, base: Proposal, w: World)
    requires Inv(r, base, w)
    requires forall call :: call in r.env.running ==> call.proposal.hash != h
    ensures Inv(EraseExecuted(r, h), base, w)
  {
    hide CfgOk, CachesOk, LockOk, AuthOk, QueueOk, AppliesOk, VotesOnce, LedgerOk, AllStable, AllReported, DecidedOk, Cast, ChainOk, ResultsOk;
  }

  lemma RunningIndex(r: Replica, base: int)
    requires ExecOk(r.cfg.expected, base, r.env.applies, r.env.running, r.executing, r.env.sent)
    ensures forall call :: call in r.env.running ==>
      && call.proposal.index == r.cfg.expected
      && call.proposal.hash in r.executing && r.executing[call.proposal.hash] == r.cfg.expected
  {
    hide Cast;
  }

  lemma ClearExpiredKeeps(r: Replica, base: Proposal, w: World)
    requires Inv(r, base, w)
    ensures Inv(ClearExpired(r), base, w)
  {
    hide SelfOk, CachesOk, LockOk, AuthOk, QueueOk, AppliesOk, VotesOnce, LedgerOk, AllStable, AllReported, DecidedOk, Cast, ChainOk, ResultsOk;
    RunningIndex(r, base.index + 1);
  }
}
