/** The same for the ledger: where the kind of a vote is not bound and an execution result has the
    hash of the block that was ordered, prepares count as checkpoint votes. */
module UntypedResults {
  import opened Types
  import opened Weights
  import opened ConfigModel
  import opened CacheModel
  import opened ReplicaModel
  import opened ReplicaInvariant
  import opened Network
  import opened Safety
  import opened UntypedVotes
  import L = LoneReplica

  // ---- Executing at index 1 ----

  /** The cache after the execution with result `e`. */
  function Executed1(c: Cache, g: Cfg, e: Hash): Cache {
    c.(checkpoints := map[e := map[g.self := g.Own(CheckPoint, 1, e)]], checkpoint := Some(BareProposal(1, e)))
  }

  /** A replica that is executing its first block and nothing else. */
  ghost predicate Running(r: Replica, c: Cache) {
    && r.cfg.nodes == THREE && r.cfg.self < 3 && r.cfg.id == r.cfg.self
    && r.cfg.committed == BareProposal(0, 0) && r.cfg.expected == 1 && r.cfg.limit == 10 && r.cfg.syncing == 0
    && r.caches == map[1 := c] && c.index == 1 && c.checkpoints == map[] && !c.stable && c.checkpoint.None?
    && r.commitQueue == [] && r.stableQueue == [] && r.env.ledger == [] && r.env.committing == []
    && |r.env.running| == 1 && r.env.running[0].proposal.index == 1
    && r.executing == map[r.env.running[0].proposal.hash := 1]
  }

  /** It has voted for the result `e`. */
  function VotedFor(r: Replica, c: Cache, e: Hash): Replica {
    r.(cfg := r.cfg.(expected := 2), caches := map[1 := Executed1(c, r.cfg, e)], executing := map[],
       env := r.env.(sent := r.env.sent + [r.cfg.Own(CheckPoint, 1, e)], running := []))
  }

  lemma RecordsResult(r: Replica, c: Cache, e: Hash)
    requires Running(r, c)
    ensures RecordExecuted(r.(env := r.env.(running := [])), BareProposal(1, e)) == VotedFor(r, c, e).(executing := r.executing)
  {
    hide RecordExecuted, Running, AddVote;
    RunningFacts(r, c);
    var r0 := r.(env := r.env.(running := []));
    RecordExecutedIs(r0, BareProposal(1, e));
    FirstResult(c, r.cfg, e);
    hide ExecutedCache, Executed1;
    assert r0.caches[1 := Executed1(c, r.cfg, e)] == map[1 := Executed1(c, r.cfg, e)];
  }

  lemma RunningFacts(r: Replica, c: Cache)
    requires Running(r, c)
    ensures r.caches == map[1 := c] && CacheAt(r, 1) == c && c.index == 1 && c.checkpoints == map[]
    ensures r.cfg.committed.index == 0 && r.cfg.expected == 1 && r.cfg.nodes == THREE && r.cfg.self < 3
  {
  }

  lemma FirstResult(c: Cache, g: Cfg, e: Hash)
    requires c.index == 1 && c.checkpoints == map[] && g.nodes == THREE && g.self < 3
    ensures ExecutedCache(g, c, BareProposal(1, e)) == Executed1(c, g, e)
    ensures Executed1(c, g, e).index == 1
  {
  }

  lemma {:induction false} OneStablePass(r: Replica)
    requires r.caches.Keys == {1}
    ensures StabilizeEach(r, Ascending(r.caches.Keys)) == StabilizeOne(r, [], 1)
  {
    L.OneKey(r.caches, 1);
    hide StabilizeOne, Ascending;
    var ks := [1];
    assert ks[..0] == [];
    assert StabilizeEach(r, []) == (r, []);
    assert StabilizeEach(r, ks) == StabilizeOne(StabilizeEach(r, ks[..|ks| - 1]).0, StabilizeEach(r, ks[..|ks| - 1]).1, ks[|ks| - 1]);
  }

  /** A checkpoint without its quorum is not reported. */
  lemma NotStableYet(r: Replica, c: Cache)
    requires r.caches == map[1 := c] && c.index == 1 && !WillStabilize(c, r.cfg)
    ensures CheckAndCommitStable(r) == r
  {
    hide StabilizeEach, Ascending, WillStabilize, StabilizeOne, UpdateStableQueue;
    OneStablePass(r);
    StaysUnstable(r, c);
  }

  lemma StaysUnstable(r: Replica, c: Cache)
    requires r.caches == map[1 := c] && c.index == 1 && !WillStabilize(c, r.cfg)
    ensures StabilizeOne(r, [], 1) == (r, [])
  {
    hide WillStabilize;
    assert r.caches[1 := c] == r.caches;
  }

  lemma TooFewResults(c: Cache, g: Cfg, e: Hash)
    requires g.nodes == THREE
    ensures !WillStabilize(Executed1(c, g, e), g)
  {
    hide HasQuorum;
    TwoMiss(Executed1(c, g, e).checkpoints, e, g.self, g.Own(CheckPoint, 1, e));
  }

  lemma NothingQueued(r: Replica)
    requires r.commitQueue == []
    ensures TryApply(r) == (r, false)
  {
  }

  lemma ForgetsRun(r: Replica, c: Cache, e: Hash)
    requires Running(r, c)
    ensures EraseExecuted(VotedFor(r, c, e).(executing := r.executing), r.env.running[0].proposal.hash) == VotedFor(r, c, e)
  {
    hide Executed1;
    var h := r.env.running[0].proposal.hash;
    assert EraseExecuted(VotedFor(r, c, e).(executing := r.executing), h).executing == map[];
  }

  lemma Executes(r: Replica, c: Cache, e: Hash)
    requires Running(r, c)
    ensures React(r, Executed(0, BareProposal(1, e))) == VotedFor(r, c, e)
  {
    var r1 := VotedFor(r, c, e).(executing := r.executing);
    hide RecordExecuted, CheckAndCommitStable, TryApply, EraseExecuted, WillStabilize, Executed1;
    assert Without(r.env.running, 0) == [];
    RecordsResult(r, c, e);
    TooFewResults(c, r.cfg, e);
    WillIgnores(Executed1(c, r.cfg, e), r.cfg, r1.cfg);
    ExecutedIndex(c, r.cfg, e);
    NotStableYet(r1, Executed1(c, r.cfg, e));
    NothingQueued(r1);
    ForgetsRun(r, c, e);
  }

  lemma ExecutedIndex(c: Cache, g: Cfg, e: Hash)
    ensures Executed1(c, g, e).index == c.index
  {
  }

  lemma WillIgnores(c: Cache, g: Cfg, g': Cfg)
    requires g'.nodes == g.nodes
    ensures WillStabilize(c, g') == WillStabilize(c, g)
  {
  }

  // ---- The checkpoint quorum ----

  function Stable1(c: Cache, g: Cfg, vote: Msg): Cache {
    var e := vote.hash;
    var votes := map[g.self := g.Own(CheckPoint, 1, e)][vote.from := vote];
    c.(checkpoints := map[e := votes], stable := true, checkpoint := Some(Result1(g, vote)))
  }

  /** The stable checkpoint. */
  function Result1(g: Cfg, vote: Msg): Proposal {
    BareProposal(1, vote.hash).(proofs := SignatureList(map[g.self := g.Own(CheckPoint, 1, vote.hash)][vote.from := vote]))
  }

  function Submitted1(r: Replica, c: Cache, vote: Msg): Replica {
    r.(caches := map[1 := Stable1(c, r.cfg, vote)],
       env := r.env.(ledger := [Result1(r.cfg, vote)], committing := [Result1(r.cfg, vote)]))
  }

  lemma CountsResult(r: Replica, c: Cache, vote: Msg)
    requires r.caches == map[1 := Executed1(c, r.cfg, vote.hash)] && c.index == 1 && r.cfg.nodes == THREE
    requires vote.index == 1 && vote.from < 3 && vote.from != r.cfg.self
    ensures AddCheckPointMsg(r, vote).caches == map[1 := Stable1(c, r.cfg, vote).(stable := c.stable, checkpoint := Some(BareProposal(1, vote.hash)))]
  {
    hide SignatureList;
    var e, c1 := vote.hash, Executed1(c, r.cfg, vote.hash);
    var own := r.cfg.Own(CheckPoint, 1, e);
    assert AddVote(THREE, 1, c1.checkpoints, vote) == map[e := map[r.cfg.self := own][vote.from := vote]];
    hide AddVote;
    assert CacheAt(r, 1) == c1;
    var c2 := c1.(checkpoints := map[e := map[r.cfg.self := own][vote.from := vote]]);
    assert r.caches[1 := c2] == map[1 := c2];
  }

  lemma BecomesStable(g: Cfg, c: Cache, vote: Msg)
    requires g.nodes == THREE && g.committed.index == 0 && !c.stable
    requires (g.self == 0 && vote.from == 2) || (g.self == 2 && vote.from == 1)
    ensures CheckStable(Stable1(c, g, vote).(stable := false, checkpoint := Some(BareProposal(1, vote.hash))), g)
      == (Stable1(c, g, vote), true)
  {
    hide HasQuorum, SignatureList;
    var own := g.Own(CheckPoint, 1, vote.hash);
    ThreeReach(Stable1(c, g, vote).checkpoints, vote.hash, g.self, own, vote.from, vote);
  }

  lemma {:induction false} QueuesResult(r: Replica, p: Proposal)
    requires r.stableQueue == [] && r.env.ledger == [] && r.env.committing == [] && r.cfg.committed.index == 0 && p.index == 1
    ensures QueueEach(r, [p]) == r.(env := r.env.(ledger := [p], committing := [p]))
  {
    hide UpdateStableQueue;
    assert [p][..0] == [];
    assert QueueEach(r, []) == r;
    QueuesOne(r, p);
  }

  lemma QueuesOne(r: Replica, p: Proposal)
    requires r.stableQueue == [] && r.env.ledger == [] && r.env.committing == [] && r.cfg.committed.index == 0 && p.index == 1
    ensures UpdateStableQueue(r, p) == r.(env := r.env.(ledger := [p], committing := [p]))
  {
    assert Insert([], p) == [p];
    assert DropBelow([p], 1) == [p];
  }

  lemma ReportsResult(r: Replica, c: Cache, c': Cache, p: Proposal)
    requires r.caches == map[1 := c] && c'.index == 1 && CheckStable(c, r.cfg) == (c', true) && c'.checkpoint == Some(p)
    requires r.stableQueue == [] && r.env.ledger == [] && r.env.committing == [] && r.cfg.committed.index == 0 && p.index == 1
    ensures CheckAndCommitStable(r) == r.(caches := map[1 := c'], env := r.env.(ledger := [p], committing := [p]))
  {
    OneStablePass(r);
    StabilizesOne(r, c, c', p);
    hide StabilizeEach, Ascending, CheckStable, QueueEach, StabilizeOne;
    QueuesResult(r.(caches := map[1 := c']), p);
  }

  lemma StabilizesOne(r: Replica, c: Cache, c': Cache, p: Proposal)
    requires r.caches == map[1 := c] && c'.index == 1 && CheckStable(c, r.cfg) == (c', true) && c'.checkpoint == Some(p)
    ensures StabilizeOne(r, [], 1) == (r.(caches := map[1 := c']), [p])
  {
    hide CheckStable;
    assert r.caches[1 := c'] == map[1 := c'];
    var none: seq<Proposal> := [];
    assert none + [p] == [p];
  }

  lemma ResultFacts(c: Cache, g: Cfg, vote: Msg)
    ensures Result1(g, vote).index == 1 && Result1(g, vote).hash == vote.hash
    ensures Stable1(c, g, vote).index == c.index && Stable1(c, g, vote).checkpoint == Some(Result1(g, vote))
  {
    hide SignatureList;
  }

  lemma VoteAccepted(r: Replica, v: nat, n: nat, e: Hash)
    requires r.cfg.nodes == THREE && n < 3 && r.cfg.committed.index == 0 && r.cfg.limit == 10 && r.cfg.syncing == 0
    ensures var m := Vote(CheckPoint, v, n, e);
      m.index > r.cfg.committed.index && !r.cfg.SyncingHigher() && r.cfg.SignatureOk(m) && r.cfg.ProposalSignatureOk(m.from, m.proposal)
  {
  }

  /** A checkpoint vote that completes the quorum submits the result. */
  lemma Submits(r: Replica, c: Cache, v: nat, n: nat, e: Hash)
    requires Running(r, c) && ((r.cfg.self == 0 && n == 2) || (r.cfg.self == 2 && n == 1))
    ensures React(VotedFor(r, c, e), CheckPointIn(Vote(CheckPoint, v, n, e)))
      == Submitted1(VotedFor(r, c, e), c, Vote(CheckPoint, v, n, e))
  {
    hide AddCheckPointMsg, TryApply, CheckAndCommitStable, CheckStable, Executed1, Stable1, Result1, Cfg.SyncingHigher,
      Cfg.SignatureOk, Cfg.ProposalSignatureOk;
    var r1, vote := VotedFor(r, c, e), Vote(CheckPoint, v, n, e);
    VoteAccepted(r1, v, n, e);
    SameExecuted(c, r.cfg, r1.cfg, vote);
    CountsResult(r1, c, vote);
    CountFrame(r1, vote);
    var r2 := AddCheckPointMsg(r1, vote);
    NothingQueued(r2);
    BecomesStable(r1.cfg, c, vote);
    ResultFacts(c, r1.cfg, vote);
    StaysBefore(c, r1.cfg, vote);
    ReportsResult(r2, Stable1(c, r1.cfg, vote).(stable := false, checkpoint := Some(BareProposal(1, vote.hash))),
                  Stable1(c, r1.cfg, vote), Result1(r1.cfg, vote));
  }

  lemma StaysBefore(c: Cache, g: Cfg, vote: Msg)
    ensures Stable1(c, g, vote).(stable := false, checkpoint := Some(BareProposal(1, vote.hash))).index == c.index
  {
    hide SignatureList;
  }

  lemma CountFrame(r: Replica, m: Msg)
    ensures AddCheckPointMsg(r, m) == r.(caches := AddCheckPointMsg(r, m).caches)
  {
    hide AddVote;
  }

  lemma SameExecuted(c: Cache, g: Cfg, g': Cfg, vote: Msg)
    requires g' == g.(expected := g'.expected)
    ensures Executed1(c, g', vote.hash) == Executed1(c, g, vote.hash)
  {
  }

  // ---- The run ----

  function FirstCache(): Cache {
    Committed1(RoundLock(EmptyCache(1), Accepted1(0).cfg, Proposed(0, 1, 1), 2), Accepted1(0).cfg, Vote(Commit, 0, 2, 1))
  }

  function SecondCache(): Cache {
    Committed1(RoundLock(LeftOver(), Again().cfg, Proposed(1, 2, EMPTY_BLOCK), 1), Again().cfg, Vote(Commit, 1, 1, EMPTY_BLOCK))
  }

  lemma RoundFrame(c: Cache, g: Cfg, m: Msg, n: nat)
    ensures var l := RoundLock(c, g, m, n); var c' := Committed1(l, g, Vote(Commit, m.view, n, m.hash));
      && c'.index == c.index && c'.checkpoints == c.checkpoints && c'.stable == c.stable && c'.checkpoint == c.checkpoint
  {
    hide AddVote, SignatureList;
  }

  lemma FirstRunning()
    ensures Running(FirstDecided(), FirstCache())
    ensures var call := FirstDecided().env.running[0]; call.last.hash == 0 && call.proposal.hash == 1
  {
    hide RoundLock, LockedBlock, Committed1;
    RoundFrame(EmptyCache(1), Accepted1(0).cfg, Proposed(0, 1, 1), 2);
    BlockIndex(EmptyCache(1), Accepted1(0).cfg, Proposed(0, 1, 1), 2);
  }

  lemma SecondRunning()
    ensures Running(SecondDecided(), SecondCache())
    ensures var call := SecondDecided().env.running[0]; call.last.hash == 0 && call.proposal.hash == EMPTY_BLOCK
    ensures Vote(Prepare, 0, 2, 1) in SecondDecided().env.sent
  {
    hide RoundLock, LockedBlock, Committed1, BuildNewView, AcceptedCache;
    RoundFrame(LeftOver(), Again().cfg, Proposed(1, 2, EMPTY_BLOCK), 1);
    BlockIndex(LeftOver(), Again().cfg, Proposed(1, 2, EMPTY_BLOCK), 1);
  }

  lemma RunIds(r: Replica, c: Cache, e: Hash, vote: Msg)
    ensures VotedFor(r, c, e).cfg.id == r.cfg.id && Submitted1(VotedFor(r, c, e), c, vote).cfg.id == r.cfg.id
  {
    hide Executed1, Stable1, Result1;
  }

  lemma ExecutionEnabled(s: Setting, net: Net, r: Replica, c: Cache, e: Hash)
    requires Running(r, c) && s.results(r.env.running[0].last.hash, r.env.running[0].proposal.hash, e)
    ensures Enabled(s, net, r, Executed(0, BareProposal(1, e)))
  {
  }

  lemma SelfOf()
    ensures FirstDecided().cfg.self == 0 && SecondDecided().cfg.self == 2 && SecondDecided().cfg.id == 2
  {
    hide RoundLock, LockedBlock, Committed1, BuildNewView;
  }

  function FirstSubmitted(): Replica {
    Submitted1(VotedFor(FirstDecided(), FirstCache(), 1), FirstCache(), Vote(CheckPoint, 0, 2, 1))
  }

  function SecondSubmitted(e: Hash): Replica {
    Submitted1(VotedFor(SecondDecided(), SecondCache(), e), SecondCache(), Vote(CheckPoint, 1, 1, e))
  }

  lemma FirstExecutes(s: Setting, b: Replica)
    requires s.results(0, 1, 1)
    ensures Follows(s, Pair(FirstDecided(), b), Step(0, Executed(0, BareProposal(1, 1))),
                    Pair(VotedFor(FirstDecided(), FirstCache(), 1), b))
  {
    hide *;
    FirstRunning();
    Executes(FirstDecided(), FirstCache(), 1);
    RunsOne(FirstDecided(), FirstCache());
    ExecutionEnabled(s, Pair(FirstDecided(), b), FirstDecided(), FirstCache(), 1);
    FirstMoves(s, FirstDecided(), b, Executed(0, BareProposal(1, 1)), VotedFor(FirstDecided(), FirstCache(), 1));
  }

  lemma RunsOne(r: Replica, c: Cache)
    requires Running(r, c)
    ensures |r.env.running| == 1
  {
  }

  /** The prepare of node 2, delivered as a checkpoint vote, makes node 0 submit. */
  lemma FirstSubmits(s: Setting)
    requires !s.typed
    ensures Follows(s, Pair(VotedFor(FirstDecided(), FirstCache(), 1), SecondDecided()),
                    Step(0, CheckPointIn(Vote(CheckPoint, 0, 2, 1))), Pair(FirstSubmitted(), SecondDecided()))
  {
    hide *;
    FirstRunning();
    SecondRunning();
    Identity();
    SelfOf();
    var a, b := VotedFor(FirstDecided(), FirstCache(), 1), SecondDecided();
    RunIds(FirstDecided(), FirstCache(), 1, Vote(CheckPoint, 0, 2, 1));
    Submits(FirstDecided(), FirstCache(), 0, 2, 1);
    IsFirstSubmitted();
    Untyped(s, a, b, CheckPoint);
    VoteEnabled(s, Pair(a, b), a, CheckPoint, 0, 2, 1);
    FirstMoves(s, a, b, CheckPointIn(Vote(CheckPoint, 0, 2, 1)), FirstSubmitted());
  }

  lemma IsFirstSubmitted()
    ensures FirstSubmitted() == Submitted1(VotedFor(FirstDecided(), FirstCache(), 1), FirstCache(), Vote(CheckPoint, 0, 2, 1))
  {
  }

  lemma IsSecondSubmitted(e: Hash)
    ensures SecondSubmitted(e) == Submitted1(VotedFor(SecondDecided(), SecondCache(), e), SecondCache(), Vote(CheckPoint, 1, 1, e))
  {
  }

  lemma SecondExecutes(s: Setting, a: Replica, e: Hash)
    requires s.results(0, EMPTY_BLOCK, e)
    ensures Follows(s, Pair(a, SecondDecided()), Step(2, Executed(0, BareProposal(1, e))),
                    Pair(a, VotedFor(SecondDecided(), SecondCache(), e)))
  {
    hide *;
    SecondRunning();
    Executes(SecondDecided(), SecondCache(), e);
    RunsOne(SecondDecided(), SecondCache());
    ExecutionEnabled(s, Pair(a, SecondDecided()), SecondDecided(), SecondCache(), e);
    SecondMoves(s, a, SecondDecided(), Executed(0, BareProposal(1, e)), VotedFor(SecondDecided(), SecondCache(), e));
  }

  lemma SecondSubmits(s: Setting, a: Replica, e: Hash)
    requires a.cfg.id == 0
    ensures Follows(s, Pair(a, VotedFor(SecondDecided(), SecondCache(), e)),
                    Step(2, CheckPointIn(Vote(CheckPoint, 1, 1, e))), Pair(a, SecondSubmitted(e)))
  {
    hide *;
    SecondRunning();
    SelfOf();
    var b := VotedFor(SecondDecided(), SecondCache(), e);
    RunIds(SecondDecided(), SecondCache(), e, Vote(CheckPoint, 1, 1, e));
    Submits(SecondDecided(), SecondCache(), 1, 1, e);
    IsSecondSubmitted(e);
    FaultyVote(s, a, b, CheckPoint, 1, e);
    VoteEnabled(s, Pair(a, b), b, CheckPoint, 1, 1, e);
    SecondMoves(s, a, b, CheckPointIn(Vote(CheckPoint, 1, 1, e)), SecondSubmitted(e));
  }

  lemma LedgerRun(s: Setting, e: Hash) returns (run: seq<Net>, steps: seq<Step>)
    requires !s.typed && s.results(0, 1, 1) && s.results(0, EMPTY_BLOCK, e)
    ensures IsRun(s, THREE, run, steps) && |run| == 14 && run[13] == Pair(FirstSubmitted(), SecondSubmitted(e))
  {
    hide *;
    run, steps := WholeRun(s);
    Identity();
    RunIds(FirstDecided(), FirstCache(), 1, Vote(CheckPoint, 0, 2, 1));
    IsFirstSubmitted();
    var a1, b := VotedFor(FirstDecided(), FirstCache(), 1), SecondDecided();
    var a2, b1 := FirstSubmitted(), VotedFor(SecondDecided(), SecondCache(), e);
    FirstExecutes(s, b);
    Extend(s, run, steps, Step(0, Executed(0, BareProposal(1, 1))), Pair(a1, b));
    run, steps := run + [Pair(a1, b)], steps + [Step(0, Executed(0, BareProposal(1, 1)))];
    FirstSubmits(s);
    Extend(s, run, steps, Step(0, CheckPointIn(Vote(CheckPoint, 0, 2, 1))), Pair(a2, b));
    run, steps := run + [Pair(a2, b)], steps + [Step(0, CheckPointIn(Vote(CheckPoint, 0, 2, 1)))];
    SecondExecutes(s, a2, e);
    Extend(s, run, steps, Step(2, Executed(0, BareProposal(1, e))), Pair(a2, b1));
    run, steps := run + [Pair(a2, b1)], steps + [Step(2, Executed(0, BareProposal(1, e)))];
    SecondSubmits(s, a2, e);
    Extend(s, run, steps, Step(2, CheckPointIn(Vote(CheckPoint, 1, 1, e))), Pair(a2, SecondSubmitted(e)));
    run, steps := run + [Pair(a2, SecondSubmitted(e))], steps + [Step(2, CheckPointIn(Vote(CheckPoint, 1, 1, e)))];
  }

  lemma SubmittedResults(e: Hash) returns (p: Proposal, q: Proposal)
    ensures var net := Pair(FirstSubmitted(), SecondSubmitted(e));
      0 in net && 2 in net && p in net[0].env.ledger && q in net[2].env.ledger
    ensures p.index == q.index == 1 && p.hash == 1 && q.hash == e
  {
    hide Stable1, FirstDecided, SecondDecided, FirstCache, SecondCache, Executed1, SignatureList;
    p := Result1(VotedFor(FirstDecided(), FirstCache(), 1).cfg, Vote(CheckPoint, 0, 2, 1));
    q := Result1(VotedFor(SecondDecided(), SecondCache(), e).cfg, Vote(CheckPoint, 1, 1, e));
  }

  /** Where the kind is not bound and the result of executing block 1 may have the hash of that
      block, there is a run in which two honest replicas submit different blocks. */
  lemma BothSubmit(s: Setting, e: Hash) returns (run: seq<Net>, steps: seq<Step>, p: Proposal, q: Proposal)
    requires !s.typed && s.results(0, 1, 1) && s.results(0, EMPTY_BLOCK, e) && e != 1
    ensures SubmittedIn(s, THREE, run, steps, 13, 0, p) && SubmittedIn(s, THREE, run, steps, 13, 2, q)
    ensures p.index == q.index == 1 && p.hash != q.hash
  {
    hide IsRun, FirstSubmitted, SecondSubmitted, Pair;
    run, steps := LedgerRun(s, e);
    p, q := SubmittedResults(e);
  }

  /** No two honest replicas submit differently, in whatever run. */
  ghost predicate LedgerAgrees(s: Setting) {
    forall nodes, run, steps, j, k, a, b, p, q ::
      SubmittedIn(s, nodes, run, steps, j, a, p) && SubmittedIn(s, nodes, run, steps, k, b, q) && p.index == q.index
      ==> p.hash == q.hash
  }

  /** As long as executions may have any result, ledger agreement holds exactly if the signature
      of a vote binds its kind. */
  lemma LedgerAgreesIff(s: Setting)
    requires CheckPoint in s.signed && forall last, proposal, h :: s.results(last, proposal, h)
    ensures LedgerAgrees(s) <==> s.typed
  {
    hide SubmittedIn;
    if s.typed {
      forall nodes, run, steps, j, k, a, b, p, q |
        SubmittedIn(s, nodes, run, steps, j, a, p) && SubmittedIn(s, nodes, run, steps, k, b, q) && p.index == q.index
        ensures p.hash == q.hash
      {
        LedgerInBounds(s, nodes, run, steps, j, a, p);
        LedgerInBounds(s, nodes, run, steps, k, b, q);
        LedgerAgreement(s, nodes, run, steps, j, k, a, b, p, q);
      }
    } else {
      var run, steps, p, q := BothSubmit(s, 2);
    }
  }

  lemma LedgerInBounds(s: Setting, nodes: NodeList, run: seq<Net>, steps: seq<Step>, k: nat, n: nat, p: Proposal)
    requires SubmittedIn(s, nodes, run, steps, k, n, p)
    ensures k < |run|
  {
  }
}
