/** The smallest network that works with a faulty node in it: one honest replica, beside a faulty
    node of the tolerated weight, orders a block, executes it and submits it to the ledger. What
    `Safety` says about runs is therefore not empty. */
module LoneReplica {
  import opened Types
  import opened Weights
  import opened ConfigModel
  import opened CacheModel
  import opened ReplicaModel
  import opened Network
  import opened Safety

  /** Node 0 is faulty; node 1 is honest and a quorum of its own. */
  function Nodes(id: NodeId): NodeList {
    [Node(id + 1, 1), Node(id, 3)]
  }

  function Start(id: NodeId): Replica {
    Replica(Cfg(Nodes(id), 1, id, 1, 10, BareProposal(0, 0), 1, 1, 1, 0, 0, 0, false, true),
            Env([], [], [], [], [], [], [], []), map[], [], map[], [], map[], map[], map[], false, map[])
  }

  lemma OneIsEnough(id: NodeId)
    ensures Total(Nodes(id)) == 4 && QuorumOf(Nodes(id)) == 3 && MaxFaulty(4) == 1
    ensures Weight(Nodes(id), {1}) == 3 && Weight(Nodes(id), {0}) == 1
  {
    var nodes := Nodes(id);
    assert nodes[..1] == [nodes[0]] && nodes[..1][..0] == [];
    assert Total([]) == 0 && Total(nodes[..1]) == 1;
    assert WeightUpTo(nodes, {1}, 1) == 0 && WeightUpTo(nodes, {0}, 1) == 1;
  }

  lemma OneKey<V>(m: map<int, V>, k: int)
    requires m.Keys == {k}
    ensures Ascending(m.Keys) == [k]
  {
    var ks := Ascending(m.Keys);
    assert k in ks;
    assert forall j :: 0 <= j < |ks| ==> ks[j] in ks;
  }

  lemma OnePass(r: Replica, i: int)
    requires r.caches.Keys == {i}
    ensures CheckAndPreCommit(r) == PrecommitAt(r, i)
  {
    OneKey(r.caches, i);
    hide PrecommitAt, Ascending;
    var ks := [i];
    assert ks[..0] == [];
    assert PrecommitEach(r, []) == r;
    assert PrecommitEach(r, ks) == PrecommitAt(PrecommitEach(r, ks[..|ks| - 1]), ks[|ks| - 1]);
  }

  /** The pre-prepare of block 1. */
  function Block(id: NodeId, h: Hash): Msg {
    Msg(PrePrepare, 0, 1, h, 1, id, Some(BareProposal(1, h)))
  }

  function Voted(id: NodeId, h: Hash): Replica {
    var r := Start(id);
    var own := r.cfg.Own(Prepare, 1, h);
    r.(caches := map[1 := EmptyCache(1).(prePrepare := Some(Block(id, h)), prepares := map[h := map[1 := own]])],
       env := r.env.(sent := [own]))
  }

  lemma Accepted(id: NodeId, h: Hash)
    ensures AcceptsPrePrepare(Start(id), Block(id, h), false, true)
    ensures var r1 := AddPrePrepareCache(Start(id), Block(id, h));
      BroadcastPrepare(r1, Block(id, h)) == CheckAndPreCommit(Voted(id, h))
  {
    hide CheckAndPreCommit;
    var r1 := AddPrePrepareCache(Start(id), Block(id, h));
    var own := r1.cfg.Own(Prepare, 1, h);
    assert r1.caches == map[1 := EmptyCache(1).(prePrepare := Some(Block(id, h)))];
    assert Send(AddPrepare(r1, own), own) == Voted(id, h);
  }

  // ---- Ordering ----

  function Signatures(id: NodeId, h: Hash): seq<Proof> {
    SignatureList(map[1 := Start(id).cfg.Own(Prepare, 1, h)])
  }

  function Ordered(id: NodeId, h: Hash): Proposal {
    BareProposal(1, h).(proofs := Signatures(id, h))
  }

  function LockedCache(id: NodeId, h: Hash): Cache {
    var g := Start(id).cfg;
    var locked := Block(id, h).(proposal := Some(Ordered(id, h)));
    Cache(1, true, false, true, map[h := map[1 := g.Own(Prepare, 1, h)]], map[h := map[1 := g.Own(Commit, 1, h)]], map[],
          Some(locked), Some(locked), Some(locked), None)
  }

  function Call(id: NodeId, h: Hash): ApplyCall {
    ApplyCall(BareProposal(0, 0), Ordered(id, h))
  }

  /** After the pre-prepare: ordered, locked, decided and being executed. */
  function Decided(id: NodeId, h: Hash): Replica {
    var r, call := Start(id), Call(id, h);
    r.(caches := map[1 := LockedCache(id, h)], executing := map[h := 1],
       env := Env([r.cfg.Own(Prepare, 1, h), r.cfg.Own(Commit, 1, h)], [], [], [call], [call], [], [], [Ordered(id, h)]))
  }

  lemma OneVoteCounts(id: NodeId, h: Hash, m: Msg)
    ensures HasQuorum(Nodes(id), map[h := map[1 := m]], h)
  {
    OneIsEnough(id);
    hide Weight, QuorumOf, Total;
    assert map[1 := m].Keys == {1};
  }

  lemma Locks(id: NodeId, h: Hash)
    ensures var c := Voted(id, h).caches[1]; var g := Start(id).cfg;
      && WillPrecommit(c, g) && CheckPrecommit(c, g) == (LockedCache(id, h), true)
      && CheckPrecommit(LockedCache(id, h), g) == (LockedCache(id, h), false)
      && VotesCast(c, g) == [g.Own(Commit, 1, h)] && VotesCast(LockedCache(id, h), g) == []
  {
    var c, g := Voted(id, h).caches[1], Start(id).cfg;
    var vote := g.Own(Commit, 1, h);
    OneVoteCounts(id, h, g.Own(Prepare, 1, h));
    OneVoteCounts(id, h, vote);
    hide HasQuorum, SignatureList;
    assert LockAndVote(c, g) == LockedCache(id, h).(submitted := false);
  }

  lemma LocksAndSends(id: NodeId, h: Hash)
    ensures var r := Voted(id, h);
      LockAt(r, 1) == r.(caches := Decided(id, h).caches, env := r.env.(sent := Decided(id, h).env.sent))
  {
    Locks(id, h);
    hide CheckPrecommit, VotesCast, Signatures;
    var r := Voted(id, h);
    assert r.caches[1 := LockedCache(id, h)] == Decided(id, h).caches;
  }

  lemma Executes(id: NodeId, h: Hash)
    ensures var r, d := Voted(id, h), Decided(id, h);
      Decide(r.(caches := d.caches, env := r.env.(sent := d.env.sent)), LockedCache(id, h)) == d
  {
    hide Signatures, Insert, DropBelow;
    OneQueued(Ordered(id, h));
  }

  lemma {:induction false} OneQueued(p: Proposal)
    ensures Insert([], p) == [p]
    ensures p.index >= 1 ==> DropBelow([p], 1) == [p]
  {
  }

  lemma Decides(id: NodeId, h: Hash)
    ensures CheckAndPreCommit(Voted(id, h)) == Decided(id, h)
  {
    Locks(id, h);
    LocksAndSends(id, h);
    Executes(id, h);
    OnePass(Voted(id, h), 1);
    hide CheckPrecommit, LockAt, Decide, CheckAndPreCommit, LockedCache, Decided;
  }

  lemma NothingToLock(r: Replica, i: int)
    requires i in r.caches && r.caches[i].index == i
    requires CheckPrecommit(r.caches[i], r.cfg) == (r.caches[i], false) && VotesCast(r.caches[i], r.cfg) == []
    ensures PrecommitAt(r, i) == r
  {
    hide CheckPrecommit, VotesCast;
    assert r.caches[i := r.caches[i]] == r.caches;
    assert r.env.sent + [] == r.env.sent;
  }

  lemma Settled(id: NodeId, h: Hash)
    ensures CheckAndPreCommit(Decided(id, h)) == Decided(id, h)
  {
    var d := Decided(id, h);
    Locks(id, h);
    hide CheckPrecommit, VotesCast, CheckAndPreCommit, Signatures, PrecommitAt;
    OnePass(d, 1);
    NothingToLock(d, 1);
  }

  lemma OrdersBlock(id: NodeId, h: Hash)
    ensures React(Start(id), PrePrepareIn(Block(id, h), false, false, true)) == Decided(id, h)
  {
    Accepted(id, h);
    Decides(id, h);
    Settled(id, h);
    hide AcceptsPrePrepare, CheckAndPreCommit, BroadcastPrepare, AddPrePrepareCache, Decided, Voted;
  }

  // ---- Execution and checkpoint ----

  function Result(id: NodeId, h: Hash): Proposal {
    BareProposal(1, h).(proofs := SignatureList(map[1 := Start(id).cfg.Own(CheckPoint, 1, h)]))
  }

  /** The execution with result `h'` is voted for and remembered. */
  function Recorded(id: NodeId, h: Hash, h': Hash): Replica {
    var d, vote := Decided(id, h), Start(id).cfg.Own(CheckPoint, 1, h');
    d.(cfg := d.cfg.(expected := 2),
       caches := map[1 := LockedCache(id, h).(checkpoints := map[h' := map[1 := vote]], checkpoint := Some(BareProposal(1, h')))],
       env := d.env.(sent := d.env.sent + [vote], running := []))
  }

  function Submitted(id: NodeId, h: Hash, h': Hash): Replica {
    var r := Recorded(id, h, h');
    r.(caches := map[1 := r.caches[1].(stable := true, checkpoint := Some(Result(id, h')))], executing := map[],
       env := r.env.(ledger := [Result(id, h')], committing := [Result(id, h')]))
  }

  lemma Records(id: NodeId, h: Hash, h': Hash)
    ensures var d := Decided(id, h);
      RecordExecuted(d.(env := d.env.(running := [])), BareProposal(1, h')) == Recorded(id, h, h')
  {
    hide Signatures;
    var d := Decided(id, h);
    var own := d.cfg.Own(CheckPoint, 1, h');
    var r1 := AddCheckPointMsg(Send(d.(env := d.env.(running := [])), own), own);
    assert r1.caches == map[1 := LockedCache(id, h).(checkpoints := map[h' := map[1 := own]])];
    assert SetCheckPointProposal(r1, BareProposal(1, h')).caches == Recorded(id, h, h').caches;
  }

  lemma Stabilizes(id: NodeId, h: Hash, h': Hash)
    ensures var r, s := Recorded(id, h, h'), Submitted(id, h, h');
      StabilizeEach(r, [1]) == (r.(caches := s.caches), [Result(id, h')])
  {
    var r, s := Recorded(id, h, h'), Submitted(id, h, h');
    OneVoteCounts(id, h', Start(id).cfg.Own(CheckPoint, 1, h'));
    hide HasQuorum, SignatureList, Signatures;
    assert [1][..0] == [];
    assert StabilizeEach(r, []) == (r, []);
    assert CheckStable(r.caches[1], r.cfg) == (s.caches[1], true);
    assert r.caches[1 := s.caches[1]] == s.caches;
    var none: seq<Proposal> := [];
    assert none + [Result(id, h')] == [Result(id, h')];
    assert StabilizeOne(r, none, 1) == (r.(caches := s.caches), [Result(id, h')]);
  }

  lemma Submits(id: NodeId, h: Hash, h': Hash)
    ensures var r, s := Recorded(id, h, h'), Submitted(id, h, h');
      QueueEach(r.(caches := s.caches), [Result(id, h')]) == s.(executing := r.executing)
  {
    hide SignatureList, Signatures, LockedCache;
    var r, s, p := Recorded(id, h, h'), Submitted(id, h, h'), Result(id, h');
    var r1 := r.(caches := s.caches);
    assert [p][..0] == [];
    assert QueueEach(r1, []) == r1;
    assert Insert([], p) == [p];
    assert DropBelow([p], 1) == [p];
  }

  lemma {:induction false} OneSettling(r: Replica, i: int)
    requires r.caches.Keys == {i}
    ensures CheckAndCommitStable(r) == QueueEach(StabilizeEach(r, [i]).0, StabilizeEach(r, [i]).1)
  {
    hide StabilizeEach, QueueEach, Ascending;
    OneKey(r.caches, i);
  }

  lemma Reports(id: NodeId, h: Hash, h': Hash)
    ensures var r, s := Recorded(id, h, h'), Submitted(id, h, h');
      CheckAndCommitStable(r) == s.(executing := r.executing)
  {
    hide StabilizeEach, QueueEach, SignatureList, Signatures, LockedCache, CheckAndCommitStable, Submitted;
    Stabilizes(id, h, h');
    Submits(id, h, h');
    OneSettling(Recorded(id, h, h'), 1);
  }

  lemma Forgets(id: NodeId, h: Hash, h': Hash)
    ensures var r, s := Recorded(id, h, h'), Submitted(id, h, h');
      EraseExecuted(TryApply(s.(executing := r.executing)).0, h) == s
  {
    hide SignatureList, Signatures, LockedCache;
    assert (map k | k in map[h := 1] && k != h :: map[h := 1][k]) == map[];
  }

  lemma ExecutesBlock(id: NodeId, h: Hash, h': Hash)
    ensures React(Decided(id, h), Executed(0, BareProposal(1, h'))) == Submitted(id, h, h')
  {
    Records(id, h, h');
    Reports(id, h, h');
    Forgets(id, h, h');
    hide RecordExecuted, CheckAndCommitStable, TryApply, EraseExecuted, Recorded, Submitted, Signatures;
    assert Without(Decided(id, h).env.running, 0) == [];
  }

  lemma WritesBlock(id: NodeId, h: Hash, h': Hash)
    ensures var r := React(Submitted(id, h, h'), Written(0));
      r.cfg.committed.index == 1 && r.cfg.committed.hash == h' && r.caches == map[] && r.env.committing == []
  {
    hide SignatureList, Signatures, LockedCache;
    var s := Submitted(id, h, h');
    assert Without(s.env.committing, 0) == [];
  }

  // ---- The run ----

  function Path(id: NodeId, h: Hash, h': Hash): seq<Net> {
    [map[1 := Start(id)], map[1 := Decided(id, h)], map[1 := Submitted(id, h, h')],
     map[1 := React(Submitted(id, h, h'), Written(0))]]
  }

  function Steps(id: NodeId, h: Hash, h': Hash): seq<Step> {
    [Step(1, PrePrepareIn(Block(id, h), false, false, true)), Step(1, Executed(0, BareProposal(1, h'))), Step(1, Written(0))]
  }

  lemma StartIsInitial(id: NodeId)
    ensures Init(Nodes(id), map[1 := Start(id)])
  {
    OneIsEnough(id);
    var net: Net := map[1 := Start(id)];
    assert All(Nodes(id)) - net.Keys == {0};
    hide Weight, Total;
    assert Started(Nodes(id), 1, net[1]);
  }

  lemma LogsGrow(id: NodeId, h: Hash, h': Hash)
    ensures Ordered(id, h) in Decided(id, h).env.decided && Ordered(id, h).index == 1 && Ordered(id, h).hash == h
    ensures Result(id, h') in Submitted(id, h, h').env.ledger && Result(id, h').index == 1 && Result(id, h').hash == h'
  {
    hide Signatures, SignatureList, LockedCache;
  }

  lemma PathIsRun(s: Setting, id: NodeId, h: Hash, h': Hash)
    requires s.results(0, h, h')
    ensures IsRun(s, Nodes(id), Path(id, h, h'), Steps(id, h, h'))
  {
    var run, steps := Path(id, h, h'), Steps(id, h, h');
    StartIsInitial(id);
    OrdersBlock(id, h);
    ExecutesBlock(id, h, h');
    hide React, Init, Signatures, SignatureList;
    assert run[1] == Next(run[0], steps[0]);
    assert run[2] == Next(run[1], steps[1]);
    assert run[3] == Next(run[2], steps[2]);
  }

  /** A run in which every block and every possible result can be ordered, executed and written,
      whatever votes can be relied on: after the pre-prepare the block is decided, after its
      execution the result is submitted, and after the write it is the committed block. */
  lemma BlockReachesLedger(s: Setting, id: NodeId, h: Hash, h': Hash)
    returns (run: seq<Net>, steps: seq<Step>, p: Proposal, q: Proposal)
    requires s.results(0, h, h')
    ensures DecidedIn(s, Nodes(id), run, steps, 1, 1, p) && p.index == 1 && p.hash == h
    ensures SubmittedIn(s, Nodes(id), run, steps, 2, 1, q) && q.index == 1 && q.hash == h'
    ensures |run| == 4 && 1 in run[3] && run[3][1].cfg.committed.index == 1 && run[3][1].cfg.committed.hash == h'
  {
    hide IsRun, React, Submitted, Decided, Ordered, Result, Start;
    run, steps, p, q := Path(id, h, h'), Steps(id, h, h'), Ordered(id, h), Result(id, h');
    PathIsRun(s, id, h, h');
    LogsGrow(id, h, h');
    WritesBlock(id, h, h');
  }
}
