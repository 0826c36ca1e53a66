/** What happens when the signature of a vote does not bind its kind: two honest replicas decide
    different blocks at one index, because prepares of one of them count as its commits. */
module UntypedVotes {
  import opened Types
  import opened Weights
  import opened ConfigModel
  import opened CacheModel
  import opened ReplicaModel
  import opened ReplicaInvariant
  import opened ViewChangeInvariant
  import opened Network
  import opened Safety
  import L = LoneReplica

  // ---- Three nodes: an honest one, a faulty one that leads view 0, and a heavier honest one ----

  const THREE: NodeList := [Node(0, 1), Node(1, 1), Node(2, 2)]

  lemma Shares(q: set<nat>)
    ensures QuorumOf(THREE) == 3 && MaxFaulty(Total(THREE)) == 1 && Total(THREE) == 4
    ensures Weight(THREE, q) == (if 0 in q then 1 else 0) + (if 1 in q then 1 else 0) + (if 2 in q then 2 else 0)
  {
    assert THREE[..2][..1] == [THREE[0]] && THREE[..2] == [THREE[0], THREE[1]];
    assert Total([]) == 0 && [THREE[0]][..0] == [];
    assert Total([THREE[0]]) == 1;
    assert Total(THREE[..2]) == 2;
    assert WeightUpTo(THREE, q, 1) == if 0 in q then 1 else 0;
    assert WeightUpTo(THREE, q, 2) == WeightUpTo(THREE, q, 1) + if 1 in q then 1 else 0;
  }

  function Fresh(n: nat): Replica {
    Replica(Cfg(THREE, n, n, 1, 10, BareProposal(0, 0), 1, 1, 1, 0, 0, 0, false, true),
            Env([], [], [], [], [], [], [], []), map[], [], map[], [], map[], map[], map[], false, map[])
  }

  // ---- Rounds at index 1 ----

  /** The cache after accepting `m` and the own prepare for it. */
  function AcceptedCache(c: Cache, g: Cfg, m: Msg): Cache {
    c.(prePrepare := Some(m), prepares := map[m.hash := map[g.self := g.Own(Prepare, m.index, m.hash)]])
  }

  lemma Accepts(r: Replica, m: Msg, fromNewView: bool)
    requires r.caches.Keys <= {1} && m.index == 1 && AcceptsPrePrepare(r, m, fromNewView, true)
    requires m.proposal.Some? && m.WellFormed() && r.cfg.self < |r.cfg.nodes|
    requires var c := CacheAt(r, 1); c.index == 1 && c.prepares == map[] && !c.stable && c.checkpoint.None?
    requires !WillPrecommit(AcceptedCache(CacheAt(r, 1), r.cfg, m), r.cfg)
    ensures React(r, PrePrepareIn(m, false, fromNewView, true))
      == r.(caches := map[1 := AcceptedCache(CacheAt(r, 1), r.cfg, m)],
            env := r.env.(sent := r.env.sent + [r.cfg.Own(Prepare, 1, m.hash)]))
  {
    hide CheckAndPreCommit, AcceptsPrePrepare, WillPrecommit, AcceptedCache, AddPrePrepareCache, AddPrepare;
    var c := AcceptedCache(CacheAt(r, 1), r.cfg, m);
    CountsOwn(r, m);
    AcceptedIndex(CacheAt(r, 1), r.cfg, m);
    Idle(Send(AddPrepare(AddPrePrepareCache(r, m), r.cfg.Own(Prepare, 1, m.hash)), r.cfg.Own(Prepare, 1, m.hash)), c);
  }

  lemma AcceptedIndex(c: Cache, g: Cfg, m: Msg)
    ensures AcceptedCache(c, g, m).index == c.index
  {
  }

  lemma CountsOwn(r: Replica, m: Msg)
    requires r.caches.Keys <= {1} && m.index == 1 && m.proposal.Some? && m.WellFormed() && r.cfg.self < |r.cfg.nodes|
    requires var c := CacheAt(r, 1); c.index == 1 && c.prepares == map[] && !c.stable && c.checkpoint.None?
    ensures var own, r1 := r.cfg.Own(Prepare, 1, m.hash), AddPrePrepareCache(r, m);
      && r1.cfg == r.cfg
      && Send(AddPrepare(r1, own), own)
         == r.(caches := map[1 := AcceptedCache(CacheAt(r, 1), r.cfg, m)], env := r.env.(sent := r.env.sent + [own]))
  {
    var c := AcceptedCache(CacheAt(r, 1), r.cfg, m);
    var r1 := AddPrePrepareCache(r, m);
    assert r1.caches == map[1 := CacheAt(r, 1).(prePrepare := Some(m))];
    var own := r.cfg.Own(Prepare, 1, m.hash);
    assert AddPrepare(r1, own).caches == map[1 := c];
  }

  /** Nothing can be locked. */
  lemma Idle(r: Replica, c: Cache)
    requires r.caches == map[1 := c] && c.index == 1 && !WillPrecommit(c, r.cfg)
    ensures CheckAndPreCommit(r) == r
  {
    L.OnePass(r, 1);
    hide CheckAndPreCommit, WillPrecommit, PrecommitAt;
    L.NothingToLock(r, 1);
  }

  function Prepared1(c: Cache, g: Cfg, m: Msg): Cache {
    c.(prepares := AddVote(g.nodes, 1, c.prepares, m))
  }

  /** A prepare that completes the quorum locks, without completing the commit quorum. */
  lemma Locks(r: Replica, c: Cache, m: Msg)
    requires r.caches == map[1 := c] && c.index == 1 && m.index == 1
    requires VoteOk(r, m) && r.cfg.ProposalSignatureOk(m.from, m.proposal)
    requires WillPrecommit(Prepared1(c, r.cfg, m), r.cfg)
    requires !CheckCommit(LockAndVote(Prepared1(c, r.cfg, m), r.cfg), r.cfg).1
    ensures var c1 := Prepared1(c, r.cfg, m);
      HandlePrepare(r, m) == (r.(caches := map[1 := LockAndVote(c1, r.cfg)],
                                 env := r.env.(sent := r.env.sent + VotesCast(c1, r.cfg))), true)
  {
    hide VoteOk, WillPrecommit, CheckCommit, LockAndVote, VotesCast, CheckAndPreCommit, AddVote;
    var c1 := Prepared1(c, r.cfg, m);
    var r1 := AddPrepare(r, m);
    assert r1.caches == map[1 := c1];
    LocksNow(r1, c1);
  }

  lemma LocksNow(r: Replica, c: Cache)
    requires r.caches == map[1 := c] && c.index == 1 && WillPrecommit(c, r.cfg)
    requires !CheckCommit(LockAndVote(c, r.cfg), r.cfg).1
    ensures CheckAndPreCommit(r)
      == r.(caches := map[1 := LockAndVote(c, r.cfg)], env := r.env.(sent := r.env.sent + VotesCast(c, r.cfg)))
  {
    L.OnePass(r, 1);
    WillAccepted(c, r.cfg);
    LockIndex(r, c);
    RefusesCommit(c, r.cfg);
    hide WillPrecommit, VotesCast, CheckAndPreCommit, LockAndVote, CheckCommit, CheckPrecommit, PrecommitAt;
    PutsLock(r, c, LockAndVote(c, r.cfg));
  }

  lemma WillAccepted(c: Cache, g: Cfg)
    requires WillPrecommit(c, g)
    ensures c.prePrepare.Some?
  {
    hide HasQuorum;
  }

  lemma RefusesCommit(c: Cache, g: Cfg)
    requires WillPrecommit(c, g) && c.prePrepare.Some? && !CheckCommit(LockAndVote(c, g), g).1
    ensures CheckPrecommit(c, g) == (LockAndVote(c, g), false)
  {
    hide WillPrecommit, LockAndVote, CheckCommit;
    RefusedCommit(LockAndVote(c, g), g);
  }

  lemma PutsLock(r: Replica, c: Cache, c': Cache)
    requires r.caches == map[1 := c] && c'.index == 1 && CheckPrecommit(c, r.cfg) == (c', false)
    ensures PrecommitAt(r, 1) == r.(caches := map[1 := c'], env := r.env.(sent := r.env.sent + VotesCast(c, r.cfg)))
  {
    hide CheckPrecommit, VotesCast;
    assert r.caches[1 := c'] == map[1 := c'];
  }

  lemma LockIndex(r: Replica, c: Cache)
    requires c.prePrepare.Some?
    ensures LockAndVote(c, r.cfg).index == c.index
  {
    hide AddVote, SignatureList;
  }

  lemma RefusedCommit(c: Cache, g: Cfg)
    requires !CheckCommit(c, g).1
    ensures CheckCommit(c, g).0 == c
  {
    hide Enough;
  }

  function Committed1(c: Cache, g: Cfg, m: Msg): Cache {
    c.(commits := AddVote(g.nodes, 1, c.commits, m), submitted := true)
  }

  /** A commit vote that completes the quorum decides the locked proposal and executes it. */
  lemma Decides(r: Replica, c: Cache, m: Msg, p: Proposal)
    requires r.caches == map[1 := c] && c.index == 1 && m.index == 1 && VoteOk(r, m)
    requires c.precommit.Some? && c.precommit.value.proposal == Some(p) && !c.submitted
    requires Enough(Committed1(c, r.cfg, m), r.cfg, AddVote(r.cfg.nodes, 1, c.commits, m))
    requires r.commitQueue == [] && r.executing == map[] && p.index == r.cfg.expected == r.cfg.committed.index + 1 == 1
    ensures var call := ApplyCall(r.cfg.committed, p);
      HandleCommit(r, m) ==
        (r.(cfg := r.cfg.ResetToView(), caches := map[1 := Committed1(c, r.cfg, m)], executing := map[p.hash := 1],
            env := r.env.(decided := r.env.decided + [p], applies := r.env.applies + [call], running := r.env.running + [call])),
         true)
  {
    hide VoteOk, Enough, CheckAndCommit, AddVote;
    var c1 := c.(commits := AddVote(r.cfg.nodes, 1, c.commits, m));
    var r1 := AddCommit(r, m);
    assert r1.caches == map[1 := c1];
    DecidesNow(r1, c1, p);
  }

  lemma DecidesNow(r: Replica, c: Cache, p: Proposal)
    requires r.caches == map[1 := c] && c.index == 1
    requires c.precommit.Some? && c.precommit.value.proposal == Some(p) && !c.submitted
    requires Enough(c.(submitted := true), r.cfg, c.commits)
    requires r.commitQueue == [] && r.executing == map[] && p.index == r.cfg.expected == r.cfg.committed.index + 1 == 1
    ensures var call := ApplyCall(r.cfg.committed, p);
      CheckAndCommit(r) ==
        r.(cfg := r.cfg.ResetToView(), caches := map[1 := c.(submitted := true)], executing := map[p.hash := 1],
           env := r.env.(decided := r.env.decided + [p], applies := r.env.applies + [call], running := r.env.running + [call]))
  {
    var c1 := c.(submitted := true);
    OneCommitPass(r);
    SubmittedIsIgnored(c, r.cfg);
    CommitsNow(c, r.cfg);
    hide CheckAndCommit, CheckCommit, Enough, Decide, CommitAt;
    PutsCommit(r, c, c1);
    ExecutesNow(r.(caches := map[1 := c1]), c1, p);
  }

  lemma CommitsNow(c: Cache, g: Cfg)
    requires c.precommit.Some? && !c.submitted && Enough(c, g, c.commits)
    ensures CheckCommit(c, g) == (c.(submitted := true), true)
  {
    hide Enough;
  }

  lemma PutsCommit(r: Replica, c: Cache, c': Cache)
    requires r.caches == map[1 := c] && c'.index == 1 && CheckCommit(c, r.cfg) == (c', true)
    ensures var r2 := Decide(r.(caches := map[1 := c']), c'); CommitAt(r, 1) == r2.(cfg := r2.cfg.ResetToView())
  {
    hide CheckCommit, Decide;
    assert r.caches[1 := c'] == map[1 := c'];
  }

  lemma SubmittedIsIgnored(c: Cache, g: Cfg)
    ensures Enough(c.(submitted := true), g, c.commits) == Enough(c, g, c.commits)
  {
    hide HasQuorum;
  }

  lemma ExecutesNow(r: Replica, c: Cache, p: Proposal)
    requires c.precommit.Some? && c.precommit.value.proposal == Some(p)
    requires r.commitQueue == [] && r.executing == map[] && p.index == r.cfg.expected == r.cfg.committed.index + 1 == 1
    ensures var call := ApplyCall(r.cfg.committed, p);
      Decide(r, c) == r.(executing := map[p.hash := 1],
        env := r.env.(decided := r.env.decided + [p], applies := r.env.applies + [call], running := r.env.running + [call]))
  {
    assert Insert([], p) == [p] && DropBelow([p], 1) == [p];
  }

  lemma OneCommitPass(r: Replica)
    requires r.caches.Keys == {1}
    ensures CheckAndCommit(r) == CommitAt(r, 1)
  {
    L.OneKey(r.caches, 1);
    hide CommitAt, Ascending;
    var ks := [1];
    assert ks[..0] == [];
    assert CommitEach(r, []) == r;
    assert CommitEach(r, ks) == CommitAt(CommitEach(r, ks[..|ks| - 1]), ks[|ks| - 1]);
  }

  // ---- The messages ----

  /** The proposal of block `h` by node `n` in view `v`. */
  function Proposed(v: nat, n: nat, h: Hash): Msg {
    Msg(PrePrepare, v, 1, h, n, n, Some(BareProposal(1, h)))
  }

  /** The vote of node `n` for `h`, header and proposal signed by it. */
  function Vote(kind: Kind, v: nat, n: nat, h: Hash): Msg {
    Msg(kind, v, 1, h, n, n, Some(Proposal(1, h, false, "", Some(Sig(n, h)), [])))
  }

  // ---- View 0: both honest nodes prepare block 1, and the lighter one decides it ----

  /** Node 0 or 2 after the pre-prepare of the faulty leader. */
  function Accepted1(n: nat): Replica {
    var r := Fresh(n);
    r.(caches := map[1 := AcceptedCache(EmptyCache(1), r.cfg, Proposed(0, 1, 1))],
       env := r.env.(sent := [Vote(Prepare, 0, n, 1)]))
  }

  lemma TooLight(c: Cache, g: Cfg, m: Msg)
    requires g.nodes == THREE && g.self != 1
    ensures !WillPrecommit(AcceptedCache(c, g, m), g)
  {
    var c' := AcceptedCache(c, g, m);
    assert c'.prepares[m.hash].Keys == {g.self};
    Shares({g.self});
    hide Weight, QuorumOf, Total;
  }

  lemma Acceptable(n: nat)
    requires n == 0 || n == 2
    ensures AcceptsPrePrepare(Fresh(n), Proposed(0, 1, 1), false, true)
  {
  }

  lemma FirstFacts(n: nat)
    requires n == 0 || n == 2
    ensures var r, m := Fresh(n), Proposed(0, 1, 1);
      && r.caches.Keys <= {1} && m.index == 1 && m.proposal.Some? && m.WellFormed() && r.cfg.self < |r.cfg.nodes|
      && CacheAt(r, 1) == EmptyCache(1)
      && r.cfg.nodes == THREE && r.cfg.self != 1
      && Accepted1(n) == r.(caches := map[1 := AcceptedCache(CacheAt(r, 1), r.cfg, m)],
                            env := r.env.(sent := r.env.sent + [r.cfg.Own(Prepare, 1, m.hash)]))
  {
    assert Fresh(n).env.sent + [Vote(Prepare, 0, n, 1)] == [Vote(Prepare, 0, n, 1)];
  }

  lemma EmptyFacts()
    ensures var c := EmptyCache(1); c.index == 1 && c.prepares == map[] && !c.stable && c.checkpoint.None?
  {
  }

  lemma AcceptsFirst(n: nat)
    requires n == 0 || n == 2
    ensures React(Fresh(n), PrePrepareIn(Proposed(0, 1, 1), false, false, true)) == Accepted1(n)
  {
    hide *;
    FirstFacts(n);
    EmptyFacts();
    TooLight(EmptyCache(1), Fresh(n).cfg, Proposed(0, 1, 1));
    Acceptable(n);
    Accepts(Fresh(n), Proposed(0, 1, 1), false);
  }

  /** A quorum of the three nodes. */
  lemma ThreeReach(book: VoteBook, h: Hash, n: nat, m: Msg, n': nat, m': Msg)
    requires book == map[h := map[n := m][n' := m']] && ((n == 2 && n' < 2) || (n < 2 && n' == 2))
    ensures HasQuorum(THREE, book, h)
  {
    assert book[h].Keys == {n, n'};
    Shares({n, n'});
    hide Weight, QuorumOf, Total;
  }

  lemma TwoMiss(book: VoteBook, h: Hash, n: nat, m: Msg)
    requires book == map[h := map[n := m]]
    ensures !HasQuorum(THREE, book, h)
  {
    assert book[h].Keys == {n};
    Shares({n});
    hide Weight, QuorumOf, Total;
  }

  /** The round can be locked once the prepares of the own node and of `n'` make a quorum. */
  lemma QuorumPrepares(c: Cache, g: Cfg, m: Msg, n': nat)
    requires g.nodes == THREE && g.view == m.view && g.id == g.self && m.proposal.Some?
    requires (g.self == 0 && n' == 2) || (g.self == 2 && n' == 1)
    requires c.index == 1 && m.index == 1 && !c.precommitted && c.precommit.None?
    ensures var c1 := Prepared1(AcceptedCache(c, g, m), g, Vote(Prepare, m.view, n', m.hash));
      && WillPrecommit(c1, g) && VotesCast(c1, g) == [Vote(Commit, m.view, g.self, m.hash)]
      && c1.prePrepare == Some(m) && c1.commits == c.commits && c1.submitted == c.submitted && c1.index == 1
  {
    hide Weight, QuorumOf, Total, HasQuorum;
    var own, other := Vote(Prepare, m.view, g.self, m.hash), Vote(Prepare, m.view, n', m.hash);
    var c1 := Prepared1(AcceptedCache(c, g, m), g, other);
    assert c1.prepares == map[m.hash := map[g.self := own][n' := other]];
    ThreeReach(c1.prepares, m.hash, g.self, own, n', other);
  }

  /** The own commit vote alone does not commit. */
  lemma LockedOnly(c: Cache, g: Cfg)
    requires c.prePrepare.Some? && c.index == 1 && c.commits == map[] && c.prePrepare.value.index == 1 && g.self < 3 && g.nodes == THREE
    ensures var m, c2 := c.prePrepare.value, LockAndVote(c, g);
      && c2.commits == map[m.hash := map[g.self := g.Own(Commit, 1, m.hash)]]
      && c2.prePrepare.Some? && c2.prePrepare.value.hash == m.hash && c2.prePrepare.value.view == m.view
      && c2.precommit == c2.prePrepare && c2.index == 1 && c2.submitted == c.submitted
      && c2.precommit.value.proposal == Locked(c, g, m).proposal
      && !CheckCommit(c2, g).1
  {
    hide Weight, QuorumOf, Total, HasQuorum, SignatureList;
    var m, c2 := c.prePrepare.value, LockAndVote(c, g);
    assert c2.commits == map[m.hash := map[g.self := g.Own(Commit, 1, m.hash)]];
    TwoMiss(c2.commits, m.hash, g.self, g.Own(Commit, 1, m.hash));
  }

  predicate Ground(g: Cfg) {
    && g.nodes == THREE && g.id == g.self && g.committed == BareProposal(0, 0) && g.syncing == 0
    && g.low == g.expected == g.progressed == 1 && g.limit == 10
  }

  lemma VoteIsOk(r: Replica, c: Cache, kind: Kind, n: nat)
    requires Ground(r.cfg) && r.caches == map[1 := c] && n < 3 && n != r.cfg.self
    requires c.prePrepare.Some? && c.prePrepare.value.view == r.cfg.view
    ensures var m := Vote(kind, r.cfg.view, n, c.prePrepare.value.hash);
      VoteOk(r, m) && r.cfg.ProposalSignatureOk(m.from, m.proposal)
  {
  }

  /** The proposal that the round on `m` locks. */
  function LockedBlock(c: Cache, g: Cfg, m: Msg, n: nat): Proposal
    requires m.proposal.Some?
  {
    var c1 := Prepared1(AcceptedCache(c, g, m), g, Vote(Prepare, m.view, n, m.hash));
    if m.hash in c1.prepares then m.proposal.value.(proofs := SignatureList(c1.prepares[m.hash])) else m.proposal.value
  }

  function RoundLock(c: Cache, g: Cfg, m: Msg, n: nat): Cache {
    LockAndVote(Prepared1(AcceptedCache(c, g, m), g, Vote(Prepare, m.view, n, m.hash)), g)
  }

  /** A replica that has accepted `m` and gets the prepare of `n`. */
  function RoundPrepared(r: Replica, c: Cache, m: Msg, n: nat): Replica {
    r.(caches := map[1 := RoundLock(c, r.cfg, m, n)], env := r.env.(sent := r.env.sent + [Vote(Commit, m.view, r.cfg.self, m.hash)]))
  }

  /** And then a vote of `n` to commit it. */
  function RoundDecided(r: Replica, c: Cache, m: Msg, n: nat): Replica
    requires m.proposal.Some?
  {
    var r1, p := RoundPrepared(r, c, m, n), LockedBlock(c, r.cfg, m, n);
    var call := ApplyCall(r.cfg.committed, p);
    r1.(cfg := r.cfg.ResetToView(),
        caches := map[1 := Committed1(RoundLock(c, r.cfg, m, n), r.cfg, Vote(Commit, m.view, n, m.hash))],
        executing := map[p.hash := 1],
        env := r1.env.(decided := r1.env.decided + [p], applies := r1.env.applies + [call], running := r1.env.running + [call]))
  }

  ghost predicate RoundReady(r: Replica, c: Cache, m: Msg, n: nat) {
    && Ground(r.cfg) && r.caches == map[1 := AcceptedCache(c, r.cfg, m)]
    && ((r.cfg.self == 0 && n == 2) || (r.cfg.self == 2 && n == 1))
    && m.kind == PrePrepare && m.view == r.cfg.view && m.index == 1 && m.proposal.Some? && m.WellFormed()
    && c.index == 1 && !c.precommitted && c.precommit.None? && !c.submitted && c.commits == map[]
    && r.commitQueue == [] && r.executing == map[]
  }

  lemma RoundPrepares(r: Replica, c: Cache, m: Msg, n: nat)
    requires RoundReady(r, c, m, n)
    ensures React(r, PrepareIn(Vote(Prepare, m.view, n, m.hash))) == RoundPrepared(r, c, m, n)
  {
    var c0, vote := AcceptedCache(c, r.cfg, m), Vote(Prepare, m.view, n, m.hash);
    var c1 := Prepared1(c0, r.cfg, vote);
    hide VoteOk, WillPrecommit, CheckCommit, LockAndVote, VotesCast, AddVote, HandlePrepare;
    VoteIsOk(r, c0, Prepare, n);
    QuorumPrepares(c, r.cfg, m, n);
    LockedOnly(c1, r.cfg);
    Locks(r, c0, vote);
  }

  lemma RoundLockFacts(r: Replica, c: Cache, m: Msg, n: nat)
    requires RoundReady(r, c, m, n)
    ensures var l, vote := RoundLock(c, r.cfg, m, n), Vote(Commit, m.view, n, m.hash);
      && l.index == 1 && !l.submitted && l.precommit.Some? && l.precommit.value.proposal == Some(LockedBlock(c, r.cfg, m, n))
      && l.prePrepare.Some? && l.prePrepare.value.view == m.view && l.prePrepare.value.hash == m.hash
      && Enough(Committed1(l, r.cfg, vote), r.cfg, AddVote(THREE, 1, l.commits, vote))
  {
    var l, vote := RoundLock(c, r.cfg, m, n), Vote(Commit, m.view, n, m.hash);
    var c1 := Prepared1(AcceptedCache(c, r.cfg, m), r.cfg, Vote(Prepare, m.view, n, m.hash));
    hide WillPrecommit, LockAndVote, HasQuorum, SignatureList, CheckCommit, VotesCast;
    QuorumPrepares(c, r.cfg, m, n);
    LockedOnly(c1, r.cfg);
    var own := r.cfg.Own(Commit, 1, m.hash);
    assert AddVote(THREE, 1, l.commits, vote) == map[m.hash := map[r.cfg.self := own][n := vote]];
    ThreeReach(AddVote(THREE, 1, l.commits, vote), m.hash, r.cfg.self, own, n, vote);
  }

  lemma RoundDecides(r: Replica, c: Cache, m: Msg, n: nat)
    requires RoundReady(r, c, m, n)
    ensures React(RoundPrepared(r, c, m, n), CommitIn(Vote(Commit, m.view, n, m.hash))) == RoundDecided(r, c, m, n)
  {
    hide VoteOk, RoundLock, LockedBlock, AddVote, HandleCommit, Enough;
    var r1, l := RoundPrepared(r, c, m, n), RoundLock(c, r.cfg, m, n);
    RoundLockFacts(r, c, m, n);
    VoteIsOk(r1, l, Commit, n);
    assert LockedBlock(c, r.cfg, m, n).index == 1 by { BlockIndex(c, r.cfg, m, n); }
    Decides(r1, l, Vote(Commit, m.view, n, m.hash), LockedBlock(c, r.cfg, m, n));
  }

  lemma BlockIndex(c: Cache, g: Cfg, m: Msg, n: nat)
    requires m.proposal.Some? && m.WellFormed()
    ensures LockedBlock(c, g, m, n).index == m.index && LockedBlock(c, g, m, n).hash == m.hash
  {
    hide SignatureList, AddVote;
  }

  // ---- The heavier honest node times out and leads view 1 ----

  function Change(n: nat): ViewChange {
    ViewChange(1, 0, 0, n, n, BareProposal(0, 0), [])
  }

  /** Node 2 has timed out and asked for view 1. */
  function TimedOut(): Replica {
    var r := Accepted1(2);
    r.(cfg := r.cfg.(timeout := true, toView := 1), changes := map[1 := map[2 := Change(2)]], maxCommitted := map[1 := 0],
       env := r.env.(sentChanges := [Change(2)]))
  }

  /** What is left of its cache in view 1. */
  function LeftOver(): Cache {
    EmptyCache(1).(prePrepare := Some(Proposed(0, 1, 1)))
  }

  function Asked(): Replica {
    TimedOut().(changes := map[1 := map[2 := Change(2)][1 := Change(1)]])
  }

  /** Node 2 leads view 1. */
  function Leading(): Replica {
    var r := TimedOut();
    r.(cfg := r.cfg.(view := 1, timeout := false), caches := map[1 := LeftOver()], changes := map[], maxCommitted := map[],
       env := r.env.(sentNewViews := [BuildNewView(Asked())]))
  }

  lemma NothingPrepared()
    ensures var r := Accepted1(2); Prepared(r) == [] && r.caches[1].bare.None?
  {
    var r := Accepted1(2);
    L.OneKey(r.caches, 1);
    hide Ascending;
    assert PreparedOf(r.caches, []) == [];
    assert [1][..0] == [];
  }

  lemma SameCachesPrepared(r: Replica, r': Replica)
    requires r'.caches == r.caches
    ensures Prepared(r') == Prepared(r)
  {
    hide PreparedOf, Ascending;
  }

  function Waiting(): Replica {
    var r := Accepted1(2);
    r.(cfg := r.cfg.(timeout := true, toView := 1))
  }

  lemma NothingToRun()
    ensures var r := Accepted1(2); TryApply(r) == (r, false) && ClearExpired(r) == r && |r.executing| == 0
  {
    var r := Accepted1(2);
    assert ClearExpired(r).executing == map[];
  }

  lemma OwnChange()
    ensures OwnViewChange(Waiting()) == Change(2)
  {
    NothingPrepared();
    SameCachesPrepared(Accepted1(2), Waiting());
    hide Prepared, AcceptedCache;
  }

  lemma FilesOwn()
    ensures var r := Waiting();
      AddViewChange(r.(env := r.env.(sentChanges := r.env.sentChanges + [Change(2)])), Change(2)) == TimedOut()
  {
    hide AcceptedCache;
    assert RaiseToAll(map[], 1, []) == map[];
  }

  lemma NotYet()
    ensures TryNewView(TimedOut()) == TimedOut()
  {
    hide AcceptedCache, BuildNewView, ReachNewView, Weight, QuorumOf;
    Shares({2});
    assert TimedOut().changes[1].Keys == {2};
  }

  lemma TimesOut()
    ensures React(Accepted1(2), TimerFired) == TimedOut()
  {
    hide AcceptedCache, TryApply, ClearExpired, TryNewView, AddViewChange, OwnViewChange;
    NothingToRun();
    OwnChange();
    FilesOwn();
    NotYet();
    var r := Accepted1(2);
    assert StillValid(r.changes, 0, 0) == map[];
    assert RemoveInvalidChanges(Waiting(), 0, 0) == Waiting();
  }

  lemma AskedIsValid()
    ensures Judge(TimedOut(), Change(1)) == (TimedOut(), true)
    ensures AddViewChange(TimedOut(), Change(1)) == Asked()
  {
    hide AcceptedCache, BroadcastViewChange;
    assert RaiseToAll(map[], 1, []) == map[];
  }

  lemma NothingLater()
    ensures JoinLater(Asked(), 1) == Asked()
  {
    hide AcceptedCache, TriggerTimeout, Weight;
    L.OneKey(Asked().changes, 1);
    hide Ascending;
    assert [1][..0] == [] && [1][1..] == [];
    assert SmallestAbove(1, [1]) == 0;
  }

  lemma LeadsNow()
    ensures CanBuildNewView(Asked())
  {
    hide AcceptedCache, Weight, QuorumOf;
    Shares({1, 2});
    assert Asked().changes[1].Keys == {1, 2};
  }

  lemma DropsVotes()
    ensures ResetCaches(TimedOut().caches, 1) == map[1 := LeftOver()]
  {
    var c := TimedOut().caches[1];
    assert Surviving(c.prepares[1], 1) == map[];
    assert SurvivingBook(c.prepares, 1) == map[];
    assert SurvivingBook(c.commits, 1) == map[];
  }

  lemma ResetsView()
    ensures var r := Asked().(newViewSent := true, env := Asked().env.(sentNewViews := [BuildNewView(Asked())]));
      ReachNewView(r, 1) == Leading()
  {
    hide AcceptedCache, BuildNewView, ResetCaches;
    DropsVotes();
    assert StillValid(Asked().changes, 1, 0) == map[];
    assert AfterView(Asked().recovers, 1) == map[];
  }

  lemma NewViewOfAsked()
    ensures BuildNewView(Asked()).view == 1 && Asked().env.sentNewViews == []
  {
    hide GeneratePrePrepares, ChangeList, AcceptedCache;
  }

  lemma EntersView()
    ensures TryNewView(Asked()) == Leading()
  {
    hide CanBuildNewView, BuildNewView, ReachNewView, Asked, Leading;
    LeadsNow();
    NewViewOfAsked();
    ResetsView();
    var none: seq<NewView> := [];
    assert none + [BuildNewView(Asked())] == [BuildNewView(Asked())];
  }

  lemma LeadsView()
    ensures React(TimedOut(), ViewChangeIn(Change(1))) == Leading()
  {
    hide AcceptedCache, Judge, JoinLater, AddViewChange, TryNewView, Asked, Leading;
    AskedIsValid();
    NothingLater();
    EntersView();
  }

  // ---- View 1: the new leader proposes an empty block, and it is decided ----

  /** Node 2 after accepting its own proposal of view 1. */
  function Again(): Replica {
    var r := Leading();
    r.(caches := map[1 := AcceptedCache(LeftOver(), r.cfg, Proposed(1, 2, EMPTY_BLOCK))],
       env := r.env.(sent := r.env.sent + [Vote(Prepare, 1, 2, EMPTY_BLOCK)]))
  }

  lemma AcceptableAgain()
    ensures AcceptsPrePrepare(Leading(), Proposed(1, 2, EMPTY_BLOCK), true, true)
  {
    hide BuildNewView;
  }

  lemma AgainFacts()
    ensures var r, m := Leading(), Proposed(1, 2, EMPTY_BLOCK);
      && r.caches.Keys <= {1} && m.index == 1 && m.proposal.Some? && m.WellFormed() && r.cfg.self < |r.cfg.nodes|
      && CacheAt(r, 1) == LeftOver() && r.cfg.nodes == THREE && r.cfg.self != 1
      && Again() == r.(caches := map[1 := AcceptedCache(CacheAt(r, 1), r.cfg, m)],
                       env := r.env.(sent := r.env.sent + [r.cfg.Own(Prepare, 1, m.hash)]))
    ensures var c := LeftOver(); c.index == 1 && c.prepares == map[] && !c.stable && c.checkpoint.None?
  {
    hide BuildNewView;
  }

  lemma AcceptsAgain()
    ensures React(Leading(), PrePrepareIn(Proposed(1, 2, EMPTY_BLOCK), false, true, true)) == Again()
  {
    hide *;
    AgainFacts();
    TooLight(LeftOver(), Leading().cfg, Proposed(1, 2, EMPTY_BLOCK));
    AcceptableAgain();
    Accepts(Leading(), Proposed(1, 2, EMPTY_BLOCK), true);
  }

  lemma FirstReady()
    ensures RoundReady(Accepted1(0), EmptyCache(1), Proposed(0, 1, 1), 2)
  {
  }

  lemma AgainReady()
    ensures RoundReady(Again(), LeftOver(), Proposed(1, 2, EMPTY_BLOCK), 1)
  {
    hide BuildNewView;
  }

  // ---- The run ----

  function FirstDecided(): Replica {
    RoundDecided(Accepted1(0), EmptyCache(1), Proposed(0, 1, 1), 2)
  }

  function SecondDecided(): Replica {
    RoundDecided(Again(), LeftOver(), Proposed(1, 2, EMPTY_BLOCK), 1)
  }

  function Pair(a: Replica, b: Replica): Net {
    map[0 := a, 2 := b]
  }

  lemma FirstMoves(s: Setting, a: Replica, b: Replica, e: Event, a': Replica)
    requires Enabled(s, Pair(a, b), a, e) && React(a, e) == a'
    ensures Follows(s, Pair(a, b), Step(0, e), Pair(a', b))
  {
    hide React, Enabled;
    assert Pair(a, b)[0 := a'] == Pair(a', b);
  }

  lemma SecondMoves(s: Setting, a: Replica, b: Replica, e: Event, b': Replica)
    requires Enabled(s, Pair(a, b), b, e) && React(b, e) == b'
    ensures Follows(s, Pair(a, b), Step(2, e), Pair(a, b'))
  {
    hide React, Enabled;
    assert Pair(a, b)[2 := b'] == Pair(a, b');
  }

  /** The header of a vote of node 2 was signed by it, and node 1 is faulty. */
  lemma Untyped(s: Setting, a: Replica, b: Replica, kind: Kind)
    requires !s.typed && kind != RecoverResponse && kind != PrePrepare
    requires a.cfg.id == 0 && b.cfg.id == 2 && Vote(Prepare, 0, 2, 1) in b.env.sent
    ensures Genuine(s, Pair(a, b), Vote(kind, 0, 2, 1))
  {
  }

  lemma FromFaulty(s: Setting, a: Replica, b: Replica, m: Msg)
    requires a.cfg.id == 0 && b.cfg.id == 2 && m.signer == 1
    ensures Genuine(s, Pair(a, b), m)
  {
  }

  lemma StartIsInitial()
    ensures Init(THREE, Pair(Fresh(0), Fresh(2)))
  {
    var net := Pair(Fresh(0), Fresh(2));
    assert All(THREE) - net.Keys == {1};
    Shares({1});
    hide Weight, Total, MaxFaulty, QuorumOf;
    assert Started(THREE, 0, net[0]) && Started(THREE, 2, net[2]);
  }

  /** One step more of a run. */
  lemma Extend(s: Setting, run: seq<Net>, steps: seq<Step>, step: Step, net: Net)
    requires IsRun(s, THREE, run, steps) && Follows(s, run[|run| - 1], step, net)
    ensures IsRun(s, THREE, run + [net], steps + [step])
  {
    hide Init, Follows;
  }

  lemma StartsRun(s: Setting)
    ensures IsRun(s, THREE, [Pair(Fresh(0), Fresh(2))], [])
  {
    hide Init;
    StartIsInitial();
  }

  /** Node 0 locked in view 0. */
  function First2(): Replica {
    RoundPrepared(Accepted1(0), EmptyCache(1), Proposed(0, 1, 1), 2)
  }

  /** Node 2 locked in view 1. */
  function Second2(): Replica {
    RoundPrepared(Again(), LeftOver(), Proposed(1, 2, EMPTY_BLOCK), 1)
  }

  lemma Identity()
    ensures Accepted1(0).cfg.id == Fresh(0).cfg.id == 0 && Accepted1(2).cfg.id == 2
    ensures First2().cfg.id == 0 && FirstDecided().cfg.id == 0
    ensures Leading().cfg.id == 2 && Again().cfg.id == 2 && Second2().cfg.id == 2 && TimedOut().cfg.id == 2
    ensures Vote(Prepare, 0, 2, 1) in Accepted1(2).env.sent
  {
    hide RoundLock, LockedBlock, BuildNewView, AcceptedCache;
  }

  lemma FirstStep(s: Setting, b: Replica)
    ensures Follows(s, Pair(Fresh(0), b), Step(0, PrePrepareIn(Proposed(0, 1, 1), false, false, true)), Pair(Accepted1(0), b))
  {
    hide React, Follows;
    AcceptsFirst(0);
    FirstMoves(s, Fresh(0), b, PrePrepareIn(Proposed(0, 1, 1), false, false, true), Accepted1(0));
  }

  lemma SecondStep(s: Setting, a: Replica)
    ensures Follows(s, Pair(a, Fresh(2)), Step(2, PrePrepareIn(Proposed(0, 1, 1), false, false, true)), Pair(a, Accepted1(2)))
  {
    hide React, Follows;
    AcceptsFirst(2);
    SecondMoves(s, a, Fresh(2), PrePrepareIn(Proposed(0, 1, 1), false, false, true), Accepted1(2));
  }

  lemma VoteEnabled(s: Setting, net: Net, r: Replica, kind: Kind, v: nat, n: nat, h: Hash)
    requires Genuine(s, net, Vote(kind, v, n, h))
    ensures kind == Prepare ==> Enabled(s, net, r, PrepareIn(Vote(kind, v, n, h)))
    ensures kind == Commit ==> Enabled(s, net, r, CommitIn(Vote(kind, v, n, h)))
    ensures kind == CheckPoint ==> Enabled(s, net, r, CheckPointIn(Vote(kind, v, n, h)))
  {
    hide Genuine;
  }

  lemma FirstPrepared(s: Setting)
    requires !s.typed
    ensures Follows(s, Pair(Accepted1(0), Accepted1(2)), Step(0, PrepareIn(Vote(Prepare, 0, 2, 1))), Pair(First2(), Accepted1(2)))
  {
    hide *;
    Identity();
    FirstReady();
    RoundPrepares(Accepted1(0), EmptyCache(1), Proposed(0, 1, 1), 2);
    FirstTerms();
    Untyped(s, Accepted1(0), Accepted1(2), Prepare);
    VoteEnabled(s, Pair(Accepted1(0), Accepted1(2)), Accepted1(0), Prepare, 0, 2, 1);
    FirstMoves(s, Accepted1(0), Accepted1(2), PrepareIn(Vote(Prepare, 0, 2, 1)), First2());
  }

  lemma FirstTerms()
    ensures var m := Proposed(0, 1, 1);
      && m.view == 0 && m.hash == 1 && m.proposal.Some?
      && First2() == RoundPrepared(Accepted1(0), EmptyCache(1), m, 2)
      && FirstDecided() == RoundDecided(Accepted1(0), EmptyCache(1), m, 2)
  {
    hide RoundPrepared, RoundDecided, Accepted1;
  }

  /** The prepare of node 2, delivered as a commit vote, makes node 0 decide. */
  lemma FirstDecides(s: Setting)
    requires !s.typed
    ensures Follows(s, Pair(First2(), Accepted1(2)), Step(0, CommitIn(Vote(Commit, 0, 2, 1))), Pair(FirstDecided(), Accepted1(2)))
  {
    hide *;
    Identity();
    FirstReady();
    RoundDecides(Accepted1(0), EmptyCache(1), Proposed(0, 1, 1), 2);
    FirstTerms();
    Untyped(s, First2(), Accepted1(2), Commit);
    VoteEnabled(s, Pair(First2(), Accepted1(2)), First2(), Commit, 0, 2, 1);
    FirstMoves(s, First2(), Accepted1(2), CommitIn(Vote(Commit, 0, 2, 1)), FirstDecided());
  }

  lemma QuietEnabled(s: Setting, net: Net, r: Replica, m: Msg)
    requires m.WellFormed()
    ensures Enabled(s, net, r, TimerFired) && Enabled(s, net, r, PrePrepareIn(m, false, true, true))
  {
  }

  lemma ChangeEnabled(s: Setting, a: Replica, b: Replica, r: Replica)
    requires a.cfg.id == 0 && b.cfg.id == 2
    ensures Enabled(s, Pair(a, b), r, ViewChangeIn(Change(1)))
  {
  }

  /** Node 2 gets to lead view 1. */
  lemma SecondLeads(s: Setting, a: Replica)
    requires a.cfg.id == 0
    ensures Follows(s, Pair(a, Accepted1(2)), Step(2, TimerFired), Pair(a, TimedOut()))
    ensures Follows(s, Pair(a, TimedOut()), Step(2, ViewChangeIn(Change(1))), Pair(a, Leading()))
  {
    hide *;
    Identity();
    TimesOut();
    LeadsView();
    ProposedWellFormed();
    QuietEnabled(s, Pair(a, Accepted1(2)), Accepted1(2), Proposed(1, 2, EMPTY_BLOCK));
    ChangeEnabled(s, a, TimedOut(), TimedOut());
    SecondMoves(s, a, Accepted1(2), TimerFired, TimedOut());
    SecondMoves(s, a, TimedOut(), ViewChangeIn(Change(1)), Leading());
  }

  lemma ProposedWellFormed()
    ensures var m := Proposed(1, 2, EMPTY_BLOCK);
      && m.WellFormed() && m.view == 1 && m.hash == EMPTY_BLOCK && m.proposal.Some?
      && Second2() == RoundPrepared(Again(), LeftOver(), m, 1)
      && SecondDecided() == RoundDecided(Again(), LeftOver(), m, 1)
  {
    hide RoundPrepared, RoundDecided, Again;
  }

  lemma SecondAgain(s: Setting, a: Replica)
    requires a.cfg.id == 0
    ensures Follows(s, Pair(a, Leading()), Step(2, PrePrepareIn(Proposed(1, 2, EMPTY_BLOCK), false, true, true)), Pair(a, Again()))
    ensures Follows(s, Pair(a, Again()), Step(2, PrepareIn(Vote(Prepare, 1, 1, EMPTY_BLOCK))), Pair(a, Second2()))
    ensures Follows(s, Pair(a, Second2()), Step(2, CommitIn(Vote(Commit, 1, 1, EMPTY_BLOCK))), Pair(a, SecondDecided()))
  {
    hide *;
    Identity();
    AcceptsAgain();
    AgainReady();
    ProposedWellFormed();
    var m := Proposed(1, 2, EMPTY_BLOCK);
    RoundPrepares(Again(), LeftOver(), m, 1);
    RoundDecides(Again(), LeftOver(), m, 1);
    FaultyVote(s, a, Again(), Prepare, 1, EMPTY_BLOCK);
    FaultyVote(s, a, Second2(), Commit, 1, EMPTY_BLOCK);
    VoteEnabled(s, Pair(a, Again()), Again(), Prepare, 1, 1, EMPTY_BLOCK);
    VoteEnabled(s, Pair(a, Second2()), Second2(), Commit, 1, 1, EMPTY_BLOCK);
    QuietEnabled(s, Pair(a, Leading()), Leading(), m);
    SecondMoves(s, a, Leading(), PrePrepareIn(m, false, true, true), Again());
    SecondMoves(s, a, Again(), PrepareIn(Vote(Prepare, 1, 1, EMPTY_BLOCK)), Second2());
    SecondMoves(s, a, Second2(), CommitIn(Vote(Commit, 1, 1, EMPTY_BLOCK)), SecondDecided());
  }

  lemma FaultyVote(s: Setting, a: Replica, b: Replica, kind: Kind, v: nat, h: Hash)
    requires a.cfg.id == 0 && b.cfg.id == 2
    ensures Genuine(s, Pair(a, b), Vote(kind, v, 1, h))
  {
    FromFaulty(s, a, b, Vote(kind, v, 1, h));
    hide Genuine;
  }

  lemma FirstHalf(s: Setting) returns (run: seq<Net>, steps: seq<Step>)
    requires !s.typed
    ensures IsRun(s, THREE, run, steps) && |run| == 5 && run[4] == Pair(FirstDecided(), Accepted1(2))
  {
    hide *;
    StartsRun(s);
    run, steps := [Pair(Fresh(0), Fresh(2))], [];
    var e := PrePrepareIn(Proposed(0, 1, 1), false, false, true);
    FirstStep(s, Fresh(2));
    Extend(s, run, steps, Step(0, e), Pair(Accepted1(0), Fresh(2)));
    run, steps := run + [Pair(Accepted1(0), Fresh(2))], steps + [Step(0, e)];
    SecondStep(s, Accepted1(0));
    Extend(s, run, steps, Step(2, e), Pair(Accepted1(0), Accepted1(2)));
    run, steps := run + [Pair(Accepted1(0), Accepted1(2))], steps + [Step(2, e)];
    FirstPrepared(s);
    Extend(s, run, steps, Step(0, PrepareIn(Vote(Prepare, 0, 2, 1))), Pair(First2(), Accepted1(2)));
    run, steps := run + [Pair(First2(), Accepted1(2))], steps + [Step(0, PrepareIn(Vote(Prepare, 0, 2, 1)))];
    FirstDecides(s);
    Extend(s, run, steps, Step(0, CommitIn(Vote(Commit, 0, 2, 1))), Pair(FirstDecided(), Accepted1(2)));
    run, steps := run + [Pair(FirstDecided(), Accepted1(2))], steps + [Step(0, CommitIn(Vote(Commit, 0, 2, 1)))];
  }

  lemma WholeRun(s: Setting) returns (run: seq<Net>, steps: seq<Step>)
    requires !s.typed
    ensures IsRun(s, THREE, run, steps) && |run| == 10 && run[9] == Pair(FirstDecided(), SecondDecided())
  {
    hide *;
    run, steps := FirstHalf(s);
    var a, m := FirstDecided(), Proposed(1, 2, EMPTY_BLOCK);
    Identity();
    SecondLeads(s, a);
    SecondAgain(s, a);
    Extend(s, run, steps, Step(2, TimerFired), Pair(a, TimedOut()));
    run, steps := run + [Pair(a, TimedOut())], steps + [Step(2, TimerFired)];
    Extend(s, run, steps, Step(2, ViewChangeIn(Change(1))), Pair(a, Leading()));
    run, steps := run + [Pair(a, Leading())], steps + [Step(2, ViewChangeIn(Change(1)))];
    Extend(s, run, steps, Step(2, PrePrepareIn(m, false, true, true)), Pair(a, Again()));
    run, steps := run + [Pair(a, Again())], steps + [Step(2, PrePrepareIn(m, false, true, true))];
    Extend(s, run, steps, Step(2, PrepareIn(Vote(Prepare, 1, 1, EMPTY_BLOCK))), Pair(a, Second2()));
    run, steps := run + [Pair(a, Second2())], steps + [Step(2, PrepareIn(Vote(Prepare, 1, 1, EMPTY_BLOCK)))];
    Extend(s, run, steps, Step(2, CommitIn(Vote(Commit, 1, 1, EMPTY_BLOCK))), Pair(a, SecondDecided()));
    run, steps := run + [Pair(a, SecondDecided())], steps + [Step(2, CommitIn(Vote(Commit, 1, 1, EMPTY_BLOCK)))];
  }

  lemma DecidedBlocks() returns (p: Proposal, q: Proposal)
    ensures var net := Pair(FirstDecided(), SecondDecided());
      0 in net && 2 in net && p in net[0].env.decided && q in net[2].env.decided
    ensures p.index == q.index == 1 && p.hash == 1 && q.hash == EMPTY_BLOCK
  {
    hide LockedBlock, RoundLock, Again, Accepted1;
    var m, m' := Proposed(0, 1, 1), Proposed(1, 2, EMPTY_BLOCK);
    p, q := LockedBlock(EmptyCache(1), Accepted1(0).cfg, m, 2), LockedBlock(LeftOver(), Again().cfg, m', 1);
    BlockIndex(EmptyCache(1), Accepted1(0).cfg, m, 2);
    BlockIndex(LeftOver(), Again().cfg, m', 1);
  }

  /** Where the kind is not bound there is a run in which one honest replica decides block 1 in
      view 0 and another one an empty block for the same index in view 1. */
  lemma BothDecide(s: Setting) returns (run: seq<Net>, steps: seq<Step>, p: Proposal, q: Proposal)
    requires !s.typed
    ensures DecidedIn(s, THREE, run, steps, 9, 0, p) && DecidedIn(s, THREE, run, steps, 9, 2, q)
    ensures p.index == q.index == 1 && p.hash != q.hash
  {
    hide IsRun, FirstDecided, SecondDecided, Pair;
    run, steps := WholeRun(s);
    p, q := DecidedBlocks();
  }

  /** No two honest replicas decide differently, in whatever run. */
  ghost predicate OrderingAgrees(s: Setting) {
    forall nodes, run, steps, j, k, a, b, p, q ::
      DecidedIn(s, nodes, run, steps, j, a, p) && DecidedIn(s, nodes, run, steps, k, b, q) && p.index == q.index
      ==> p.hash == q.hash
  }

  /** Ordering agreement holds exactly if the signature of a vote binds its kind. */
  lemma OrderingAgreesIff(s: Setting)
    requires Commit in s.signed
    ensures OrderingAgrees(s) <==> s.typed
  {
    hide DecidedIn;
    if s.typed {
      forall nodes, run, steps, j, k, a, b, p, q |
        DecidedIn(s, nodes, run, steps, j, a, p) && DecidedIn(s, nodes, run, steps, k, b, q) && p.index == q.index
        ensures p.hash == q.hash
      {
        OrderingAgreement(s, nodes, run, steps, j, k, a, b, p, q);
      }
    } else {
      var run, steps, p, q := BothDecide(s);
    }
  }
}
