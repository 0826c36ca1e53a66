/** Replicas that get votes before they accept what these are for: they vote without locking, and
    decide in the step in which they accept. */
module Collecting {
  import opened Types
  import opened Weights
  import opened ConfigModel
  import opened CacheModel
  import opened ReplicaModel
  import opened Monotone
  import opened Network
  import opened NewViewProofs
  import opened UntypedVotes
  import L = LoneReplica

  predicate DistinctIds(nodes: NodeList) {
    forall i, j :: 0 <= i < j < |nodes| ==> nodes[i].id != nodes[j].id
  }

  // ---- The messages ----

  /** The leader of index 1. */
  function LeaderOf(nodes: NodeList, v: nat): (n: nat)
    ensures n < |nodes|
  {
    (1 + v) % |nodes|
  }

  /** A proposal for index 1. */
  function ProposalOf(nodes: NodeList, v: nat, h: Hash): Msg {
    var leader := LeaderOf(nodes, v);
    Msg(PrePrepare, v, 1, h, leader, nodes[leader].id, Some(BareProposal(1, h)))
  }

  /** The vote of node `n` for `h`, header and proposal signed by it. */
  function VoteOf(nodes: NodeList, kind: Kind, v: nat, n: nat, h: Hash): Msg
    requires n < |nodes|
  {
    var id := nodes[n].id;
    Msg(kind, v, 1, h, n, id, Some(Proposal(1, h, false, "", Some(Sig(id, h)), [])))
  }

  function ChangeOf(nodes: NodeList, v: nat, n: nat): ViewChange
    requires n < |nodes|
  {
    ViewChange(v, 0, 0, n, nodes[n].id, BareProposal(0, 0), [])
  }

  function ChangesOf(nodes: NodeList, v: nat, k: nat): (vcs: seq<ViewChange>)
    requires k <= |nodes|
    ensures |vcs| == k && forall i :: 0 <= i < k ==> vcs[i] == ChangeOf(nodes, v, i)
  {
    seq(k, i requires 0 <= i < k => ChangeOf(nodes, v, i))
  }

  /** The new view for `v`, with a view change of every node. */
  function NewViewOf(nodes: NodeList, v: nat, m: Msg): NewView {
    var leader := LeaderOf(nodes, v);
    NewView(v, 0, 0, leader, nodes[leader].id, ChangesOf(nodes, v, |nodes|), [m])
  }

  // ---- The replicas ----

  /** A replica in view `v` that has cached and sent nothing. */
  function Blank(nodes: NodeList, v: nat): Replica {
    Replica(Cfg(nodes, 0, nodes[0].id, 1, 10, BareProposal(0, 0), 1, 1, 1, 0, v, v, false, true),
            Env([], [], [], [], [], [], [], []), map[], [], map[], [], map[], map[], map[], false, map[])
  }

  /** Node `n` in view `v` with these caches and these votes sent, and nothing else. */
  function At(nodes: NodeList, n: nat, v: nat, caches: Caches, sent: seq<Msg>): Replica
    requires n < |nodes|
  {
    var r := Blank(nodes, v);
    r.(cfg := r.cfg.(self := n, id := nodes[n].id), caches := caches, env := r.env.(sent := sent))
  }

  lemma OwnIsVote(nodes: NodeList, n: nat, v: nat, caches: Caches, sent: seq<Msg>, kind: Kind, h: Hash)
    requires n < |nodes|
    ensures At(nodes, n, v, caches, sent).cfg.Own(kind, 1, h) == VoteOf(nodes, kind, v, n, h)
  {
  }

  lemma LeaderIs(nodes: NodeList, n: nat, v0: nat, v: nat, caches: Caches, sent: seq<Msg>)
    requires n < |nodes|
    ensures At(nodes, n, v0, caches, sent).cfg.LeaderIn(1, v) == LeaderOf(nodes, v)
  {
  }

  // ---- Entering a view ----

  lemma {:induction false} ChangesWeigh(nodes: NodeList, v: nat, k: nat)
    requires k <= |nodes|
    ensures ChangesWeight(nodes, ChangesOf(nodes, v, k)) == Total(nodes[..k])
  {
    if k > 0 {
      ChangesWeigh(nodes, v, k - 1);
      assert ChangesOf(nodes, v, k)[..k - 1] == ChangesOf(nodes, v, k - 1);
      assert nodes[..k][..k - 1] == nodes[..k - 1];
    }
  }

  lemma {:induction false} JudgesAll(r: Replica, vcs: seq<ViewChange>)
    requires !r.cfg.timeout
    ensures JudgeAll(r, vcs).0 == r && (JudgeAll(r, vcs).1 <==> AllValid(r.cfg, vcs))
  {
    hide ValidViewChange, BroadcastViewChange;
    if vcs != [] {
      var n := |vcs| - 1;
      JudgesAll(r, vcs[..n]);
      assert AllValid(r.cfg, vcs) <==> AllValid(r.cfg, vcs[..n]) && ValidViewChange(r.cfg, vcs[n]);
      OutdatedIsInvalid(r.cfg, vcs[n]);
    }
  }

  lemma OutdatedIsInvalid(g: Cfg, vc: ViewChange)
    ensures vc.committed.index < g.committed.index ==> !ValidViewChange(g, vc)
  {
    hide PrecommitOk;
  }

  /** The configuration of a replica that has only changed views. */
  predicate Plain(nodes: NodeList, r: Replica) {
    r.cfg.self < |nodes| && r.cfg == At(nodes, r.cfg.self, r.cfg.view, map[], []).cfg
  }

  lemma ChangeIsValid(nodes: NodeList, r: Replica, v: nat, k: nat)
    requires Plain(nodes, r) && k < |nodes| && r.cfg.view < v
    ensures ValidViewChange(r.cfg, ChangeOf(nodes, v, k))
  {
  }

  lemma {:induction false} NewViewValid(nodes: NodeList, r: Replica, v: nat, m: Msg)
    requires Plain(nodes, r) && r.cfg.view < v && 1 <= Total(nodes) < UINT64
    ensures JudgeNewView(r, NewViewOf(nodes, v, m)) == (r, true)
  {
    hide JudgeAll, ChangesWeight, Total, ValidViewChange, Cfg.LeaderIn, LeaderOf, MaxFaulty, MinQuorum, At;
    var nv := NewViewOf(nodes, v, m);
    ChangesWeigh(nodes, v, |nodes|);
    assert nodes[..|nodes|] == nodes;
    PlainCfg(nodes, r, v);
    JudgesAll(r, nv.viewChanges);
    QuorumArithmetic(Total(nodes));
    forall k | 0 <= k < |nodes| ensures ValidViewChange(r.cfg, nv.viewChanges[k]) {
      ChangeIsValid(nodes, r, v, k);
    }
  }

  lemma PlainCfg(nodes: NodeList, r: Replica, v: nat)
    requires Plain(nodes, r)
    ensures r.cfg.nodes == nodes && !r.cfg.timeout && r.cfg.LeaderIn(1, v) == LeaderOf(nodes, v)
  {
  }

  lemma NewViewReaction(r: Replica, nv: NewView)
    requires JudgeNewView(r, nv) == (r, true)
    ensures React(r, NewViewIn(nv)) == ReachNewView(r, nv.view)
  {
    hide JudgeNewView, ReachNewView, HandlePrePrepare, HandlePrepare, HandleCommit, HandleCheckPoint, HandleViewChange,
      HandleRecover, OnTimeout, TriggerTimeout, OnApplied, Finalize;
  }

  lemma AtIsPlain(nodes: NodeList, n: nat, v: nat, caches: Caches, sent: seq<Msg>)
    requires n < |nodes|
    ensures Plain(nodes, At(nodes, n, v, caches, sent)) && At(nodes, n, v, caches, sent).cfg.view == v
  {
  }

  lemma {:induction false} EntersView(nodes: NodeList, n: nat, v0: nat, v: nat, caches: Caches, sent: seq<Msg>, m: Msg)
    requires n < |nodes| && v0 < v && 1 <= Total(nodes) < UINT64
    ensures React(At(nodes, n, v0, caches, sent), NewViewIn(NewViewOf(nodes, v, m)))
      == At(nodes, n, v, ResetCaches(caches, v), sent)
  {
    AtIsPlain(nodes, n, v0, caches, sent);
    hide At, JudgeNewView, ReachNewView, React, ResetCaches, Total;
    NewViewValid(nodes, At(nodes, n, v0, caches, sent), v, m);
    NewViewReaction(At(nodes, n, v0, caches, sent), NewViewOf(nodes, v, m));
    Reaches(nodes, n, v0, v, caches, sent);
  }

  lemma Reaches(nodes: NodeList, n: nat, v0: nat, v: nat, caches: Caches, sent: seq<Msg>)
    requires n < |nodes| && v0 < v
    ensures ReachNewView(At(nodes, n, v0, caches, sent), v) == At(nodes, n, v, ResetCaches(caches, v), sent)
  {
    hide ResetCaches;
    assert StillValid(map[], v, 0) == map[];
    assert AfterView<map<nat, Msg>>(map[], v) == map[];
  }

  // ---- Voting without locking ----

  /** The one cache of a replica that votes before it enters the view of what it accepted. */
  function VotedCache(nodes: NodeList, n: nat, v: nat, c: Cache, m: Msg): Cache
    requires n < |nodes|
  {
    AcceptedCache(c, At(nodes, n, v, map[], []).cfg, m)
  }

  /** A proposal of a later view than the own one is accepted and voted for, but not locked. */
  lemma VotesOnly(nodes: NodeList, n: nat, v: nat, c: Cache, caches: Caches, sent: seq<Msg>, m: Msg)
    requires n < |nodes| && caches.Keys <= {1} && c == (if 1 in caches then caches[1] else EmptyCache(1))
    requires c.index == 1 && c.prepares == map[] && !c.stable && c.checkpoint.None? && c.precommit.None?
    requires m.index == 1 && m.view > v && m.proposal.Some? && m.WellFormed()
    requires c.prePrepare.Some? ==> c.prePrepare.value.view < m.view && c.prePrepare.value.hash != m.hash
    ensures React(At(nodes, n, v, caches, sent), PrePrepareIn(m, false, true, true))
      == At(nodes, n, v, map[1 := VotedCache(nodes, n, v, c, m)], sent + [VoteOf(nodes, Prepare, v, n, m.hash)])
  {
    var r := At(nodes, n, v, caches, sent);
    OwnIsVote(nodes, n, v, caches, sent, Prepare, m.hash);
    assert CacheAt(r, 1) == c;
    assert AcceptsPrePrepare(r, m, true, true);
    assert !WillPrecommit(AcceptedCache(c, r.cfg, m), r.cfg);
    hide AcceptsPrePrepare, WillPrecommit, React;
    Accepts(r, m, true);
    hide AcceptedCache;
  }

  // ---- Collecting votes for a proposal that is not accepted yet ----

  /** The senders of votes for `h` in view `v` or later. */
  function LateSenders(book: VoteBook, h: Hash, v: nat): set<nat> {
    if h in book then set n | n in book[h] && book[h][n].view >= v else {}
  }

  /** Exactly the nodes in `q` voted for `h`, all of them in view `v` or later. */
  predicate From(book: VoteBook, h: Hash, v: nat, q: set<nat>) {
    Senders(book, h) == q && LateSenders(book, h, v) == q
  }

  /** Nothing is accepted in the current view and nothing is locked. */
  predicate Open(r: Replica, h: Hash) {
    var c := CacheAt(r, 1);
    && r.caches.Keys <= {1} && c.index == 1 && c.precommit.None?
    && (c.prePrepare.Some? ==> c.prePrepare.value.view != r.cfg.view && c.prePrepare.value.hash != h)
  }

  /** The replica `r` has got prepare and commit votes of `q` since it was `r0`, and nothing else. */
  ghost predicate Gathered(r0: Replica, r: Replica, h: Hash, v: nat, q: set<nat>) {
    var c0, c := CacheAt(r0, 1), CacheAt(r, 1);
    && r == r0.(caches := r.caches) && r.caches.Keys <= {1}
    && c == c0.(prepares := c.prepares, commits := c.commits)
    && From(c.prepares, h, v, q) && From(c.commits, h, v, q)
  }

  lemma VoteAdds(nodes: NodeList, book: VoteBook, h: Hash, v: nat, q: set<nat>, n: nat, kind: Kind)
    requires n < |nodes| && n !in q && From(book, h, v, q)
    ensures From(AddVote(nodes, 1, book, VoteOf(nodes, kind, v, n, h)), h, v, q + {n})
  {
  }

  lemma PrepareStays(r: Replica, c: Cache)
    requires r.caches == map[1 := c] && c.index == 1 && (c.prePrepare.Some? ==> c.prePrepare.value.view != r.cfg.view)
    ensures CheckAndPreCommit(r) == r
  {
    hide CheckAndPreCommit, HasQuorum;
    Idle(r, c);
  }

  lemma NoCommit(c: Cache, g: Cfg)
    requires c.precommit.None?
    ensures CheckCommit(c, g) == (c, false)
  {
    hide Enough;
  }

  lemma CommitStays(r: Replica, c: Cache)
    requires r.caches == map[1 := c] && c.index == 1 && c.precommit.None?
    ensures CheckAndCommit(r) == r
  {
    hide CheckAndCommit, CheckCommit, Decide;
    NoCommit(c, r.cfg);
    OneCommitPass(r);
    assert r.caches[1 := c] == r.caches;
  }

  lemma VoteIsOk(nodes: NodeList, r: Replica, kind: Kind, v: nat, n: nat, h: Hash)
    requires Plain(nodes, r) && r.cfg.view <= v && n < |nodes| && n != r.cfg.self && Open(r, h)
    ensures var m := VoteOf(nodes, kind, v, n, h); VoteOk(r, m) && r.cfg.ProposalSignatureOk(m.from, m.proposal)
  {
  }

  lemma OpenStays(r0: Replica, r: Replica, h: Hash)
    requires Open(r0, h) && r == r0.(caches := r.caches) && r.caches.Keys <= {1}
    requires var c0, c := CacheAt(r0, 1), CacheAt(r, 1); c == c0.(prepares := c.prepares, commits := c.commits)
    ensures Open(r, h)
  {
  }

  lemma PrepareArrives(nodes: NodeList, r: Replica, v: nat, n: nat, h: Hash)
    requires Plain(nodes, r) && r.cfg.view <= v && n < |nodes| && n != r.cfg.self && Open(r, h)
    ensures var m := VoteOf(nodes, Prepare, v, n, h); var c := CacheAt(r, 1);
      React(r, PrepareIn(m)) == r.(caches := map[1 := c.(prepares := AddVote(nodes, 1, c.prepares, m))])
  {
    var m, c := VoteOf(nodes, Prepare, v, n, h), CacheAt(r, 1);
    VoteIsOk(nodes, r, Prepare, v, n, h);
    hide VoteOk, AddVote, CheckAndPreCommit;
    var r1 := AddPrepare(r, m);
    assert r1.caches == map[1 := c.(prepares := AddVote(nodes, 1, c.prepares, m))];
    PrepareStays(r1, r1.caches[1]);
    VoteReaction(r, m);
    hide React;
  }

  lemma CommitArrives(nodes: NodeList, r: Replica, v: nat, n: nat, h: Hash)
    requires Plain(nodes, r) && r.cfg.view <= v && n < |nodes| && n != r.cfg.self && Open(r, h)
    ensures var m := VoteOf(nodes, Commit, v, n, h); var c := CacheAt(r, 1);
      React(r, CommitIn(m)) == r.(caches := map[1 := c.(commits := AddVote(nodes, 1, c.commits, m))])
  {
    var m, c := VoteOf(nodes, Commit, v, n, h), CacheAt(r, 1);
    VoteIsOk(nodes, r, Commit, v, n, h);
    hide VoteOk, AddVote, CheckAndCommit;
    var r1 := AddCommit(r, m);
    assert r1.caches == map[1 := c.(commits := AddVote(nodes, 1, c.commits, m))];
    CommitStays(r1, r1.caches[1]);
    VoteReaction(r, m);
    hide React;
  }

  /** The state after both votes of one node more. */
  function WithVotes(nodes: NodeList, r: Replica, h: Hash, v: nat, n: nat): Replica
    requires n < |nodes|
  {
    var c := CacheAt(r, 1);
    r.(caches := map[1 := c.(prepares := AddVote(nodes, 1, c.prepares, VoteOf(nodes, Prepare, v, n, h)),
                             commits := AddVote(nodes, 1, c.commits, VoteOf(nodes, Commit, v, n, h)))])
  }

  lemma VotesArrive(nodes: NodeList, r: Replica, v: nat, n: nat, h: Hash)
    requires Plain(nodes, r) && r.cfg.view <= v && n < |nodes| && n != r.cfg.self && Open(r, h)
    ensures var r1 := React(r, PrepareIn(VoteOf(nodes, Prepare, v, n, h)));
      React(r1, CommitIn(VoteOf(nodes, Commit, v, n, h))) == WithVotes(nodes, r, h, v, n)
  {
    PrepareArrives(nodes, r, v, n, h);
    var r1 := React(r, PrepareIn(VoteOf(nodes, Prepare, v, n, h)));
    hide React, AddVote, VoteOf, Plain;
    assert Plain(nodes, r1) by { PlainStays(nodes, r, r1); }
    OpenStays(r, r1, h);
    CommitArrives(nodes, r1, v, n, h);
  }

  lemma PlainStays(nodes: NodeList, r: Replica, r': Replica)
    requires Plain(nodes, r) && r'.cfg == r.cfg
    ensures Plain(nodes, r')
  {
  }

  /** Both votes of one node more. */
  lemma CollectsVotes(nodes: NodeList, r0: Replica, r: Replica, h: Hash, v: nat, q: set<nat>, n: nat)
    requires Gathered(r0, r, h, v, q) && Plain(nodes, r0) && r0.cfg.view <= v && Open(r0, h)
    requires n < |nodes| && n !in q && n != r0.cfg.self
    ensures var r1 := React(r, PrepareIn(VoteOf(nodes, Prepare, v, n, h)));
      Gathered(r0, React(r1, CommitIn(VoteOf(nodes, Commit, v, n, h))), h, v, q + {n})
  {
    var c := CacheAt(r, 1);
    OpenStays(r0, r, h);
    PlainStays(nodes, r0, r);
    VotesArrive(nodes, r, v, n, h);
    VoteAdds(nodes, c.prepares, h, v, q, n, Prepare);
    VoteAdds(nodes, c.commits, h, v, q, n, Commit);
    hide React, From, AddVote, Open, Plain, VoteOf;
  }

  // ---- Accepting, locking and deciding in one step ----

  lemma OwnVoteCounts(nodes: NodeList, book: VoteBook, m: Msg)
    requires m.index == 1 && m.from < |nodes|
    requires Weight(nodes, Senders(book, m.hash) + {m.from}) >= QuorumOf(nodes)
    ensures HasQuorum(nodes, AddVote(nodes, 1, book, m), m.hash)
  {
    var book' := AddVote(nodes, 1, book, m);
    assert Senders(book', m.hash) == Senders(book, m.hash) + {m.from};
    hide Weight, QuorumOf;
  }

  /** The cache after accepting `m` and the own prepare. */
  function ReadyCache(nodes: NodeList, c: Cache, g: Cfg, m: Msg): Cache {
    c.(prePrepare := Some(m), prepares := AddVote(nodes, 1, c.prepares, g.Own(Prepare, 1, m.hash)))
  }

  /** Together with the own vote there is a quorum of each kind for `m`. */
  predicate QuorumsReady(nodes: NodeList, c: Cache, g: Cfg, m: Msg) {
    && g.nodes == nodes && g.self < |nodes|
    && c.index == 1 && !c.stable && c.checkpoint.None? && c.precommit.None? && !c.precommitted && !c.submitted
    && m.index == 1 && m.view == g.view && m.proposal.Some? && m.WellFormed()
    && Weight(nodes, Senders(c.prepares, m.hash) + {g.self}) >= QuorumOf(nodes)
    && Weight(nodes, Senders(c.commits, m.hash) + {g.self}) >= QuorumOf(nodes)
  }

  lemma LocksAndCommits(nodes: NodeList, c: Cache, g: Cfg, m: Msg)
    requires QuorumsReady(nodes, c, g, m)
    ensures var c' := ReadyCache(nodes, c, g, m);
      && CheckPrecommit(c', g).1
      && var l := CheckPrecommit(c', g).0;
         l.precommit.Some? && l.precommit.value.proposal.Some? && l.precommitted && l.index == 1
         && l.precommit.value.proposal.value.index == 1 && l.precommit.value.proposal.value.hash == m.hash
  {
    OwnVoteCounts(nodes, c.prepares, g.Own(Prepare, 1, m.hash));
    OwnVoteCounts(nodes, c.commits, g.Own(Commit, 1, m.hash));
    hide HasQuorum, AddVote, SignatureList, Weight, QuorumOf;
  }

  /** A replica that is executing nothing on the block 0. */
  predicate Unused(r: Replica) {
    && r.commitQueue == [] && r.executing == map[] && r.env.running == []
    && r.cfg.committed == BareProposal(0, 0) && r.cfg.expected == 1
  }

  /** It is executing block `h` at index 1 and has decided it. */
  ghost predicate Busy(r: Replica, h: Hash) {
    && HasDecided(r, h)
    && |r.env.running| == 1 && r.env.running[0].proposal.index == 1 && r.env.running[0].proposal.hash == h
    && r.env.running[0].last == BareProposal(0, 0)
  }

  lemma BusyWith(r: Replica, c: Cache)
    requires Unused(r) && c.precommit.Some? && c.precommit.value.proposal.Some? && c.precommit.value.proposal.value.index == 1
    ensures Busy(Decide(r, c), c.precommit.value.proposal.value.hash)
    ensures Decide(r, c).caches == r.caches && Decide(r, c).cfg == r.cfg && Decide(r, c).env.sent == r.env.sent
  {
    hide Insert, DropBelow;
    var p := c.precommit.value.proposal.value;
    L.OneQueued(p);
    assert p in Decide(r, c).env.decided;
  }

  lemma PrecommitsAt(r: Replica, c: Cache)
    requires r.caches == map[1 := c] && CheckPrecommit(c, r.cfg).1 && CheckPrecommit(c, r.cfg).0.index == 1
    ensures PrecommitAt(r, 1) == Decide(LockAt(r, 1), CheckPrecommit(c, r.cfg).0)
    ensures LockAt(r, 1).caches == map[1 := CheckPrecommit(c, r.cfg).0]
    ensures Unused(r) ==> Unused(LockAt(r, 1))
  {
    hide CheckPrecommit, Decide, VotesCast;
    assert r.caches[1 := CheckPrecommit(c, r.cfg).0] == map[1 := CheckPrecommit(c, r.cfg).0];
  }

  /** The first pass locks, decides and executes; the second one has nothing left to lock. */
  lemma DecidesLocked(r: Replica, c: Cache)
    requires r.caches == map[1 := c] && CheckPrecommit(c, r.cfg).1 && Unused(r)
    requires var l := CheckPrecommit(c, r.cfg).0;
      && l.precommit.Some? && l.precommit.value.proposal.Some? && l.precommitted && l.index == 1
      && l.precommit.value.proposal.value.index == 1
    ensures Busy(CheckAndPreCommit(CheckAndPreCommit(r)), CheckPrecommit(c, r.cfg).0.precommit.value.proposal.value.hash)
  {
    hide CheckAndPreCommit, CheckPrecommit, LockAt, Decide, PrecommitAt, Busy;
    var l := CheckPrecommit(c, r.cfg).0;
    L.OnePass(r, 1);
    PrecommitsAt(r, c);
    BusyWith(LockAt(r, 1), l);
    LockedStays(CheckAndPreCommit(r), l);
  }

  lemma LockedStays(r: Replica, c: Cache)
    requires r.caches == map[1 := c] && c.index == 1 && c.precommitted
    ensures CheckAndPreCommit(r) == r
  {
    hide CheckAndPreCommit, Enough;
    Idle(r, c);
  }

  lemma AcceptsReady(nodes: NodeList, r: Replica, m: Msg)
    requires r.caches.Keys <= {1} && QuorumsReady(nodes, CacheAt(r, 1), r.cfg, m)
    ensures var r1 := AddPrePrepareCache(r, m);
      BroadcastPrepare(r1, m)
        == CheckAndPreCommit(r.(caches := map[1 := ReadyCache(nodes, CacheAt(r, 1), r.cfg, m)],
                                env := r.env.(sent := r.env.sent + [r.cfg.Own(Prepare, 1, m.hash)])))
  {
    hide CheckAndPreCommit, AddVote, Weight, QuorumOf;
    var c, r1 := CacheAt(r, 1), AddPrePrepareCache(r, m);
    var own := r.cfg.Own(Prepare, 1, m.hash);
    assert r1.caches == map[1 := c.(prePrepare := Some(m))];
    assert AddPrepare(r1, own).caches == map[1 := ReadyCache(nodes, c, r.cfg, m)];
  }

  /** The state right after accepting `m`, before anything is locked. */
  function Readied(nodes: NodeList, r: Replica, m: Msg): Replica {
    r.(caches := map[1 := ReadyCache(nodes, CacheAt(r, 1), r.cfg, m)],
       env := r.env.(sent := r.env.sent + [r.cfg.Own(Prepare, 1, m.hash)]))
  }

  ghost predicate HasDecided(r: Replica, h: Hash) {
    exists p :: p in r.env.decided && p.index == 1 && p.hash == h
  }

  predicate NoResults(r: Replica) {
    forall m :: m in r.env.sent ==> m.kind != CheckPoint
  }

  lemma DecideSends(r: Replica, c: Cache)
    ensures Decide(r, c).env.sent == r.env.sent
  {
    hide Insert, DropBelow;
  }

  lemma PrecommitSends(r: Replica, i: int)
    requires NoResults(r)
    ensures NoResults(PrecommitAt(r, i))
  {
    var c' := CheckPrecommit(CacheAt(r, i), r.cfg).0;
    DecideSends(LockAt(r, i), c');
    hide Decide, CheckPrecommit, WillPrecommit;
  }

  lemma {:induction false} PrecommitEachSends(r: Replica, ks: seq<int>)
    requires NoResults(r)
    ensures NoResults(PrecommitEach(r, ks))
  {
    hide PrecommitAt, NoResults;
    if ks != [] {
      PrecommitEachSends(r, ks[..|ks| - 1]);
      PrecommitSends(PrecommitEach(r, ks[..|ks| - 1]), ks[|ks| - 1]);
    }
  }

  lemma CheckSends(r: Replica)
    requires NoResults(r)
    ensures NoResults(CheckAndPreCommit(r))
    ensures CheckAndPreCommit(r).cfg == r.cfg
  {
    hide PrecommitEach, Ascending, NoResults;
    PrecommitEachSends(r, Ascending(r.caches.Keys));
    PrecommitEachLater(r, Ascending(r.caches.Keys));
  }

  lemma ReadyDecides(nodes: NodeList, r: Replica, m: Msg)
    requires QuorumsReady(nodes, CacheAt(r, 1), r.cfg, m) && Unused(r)
    ensures Busy(CheckAndPreCommit(CheckAndPreCommit(Readied(nodes, r, m))), m.hash)
  {
    hide QuorumsReady, CheckPrecommit, CheckAndPreCommit, ReadyCache, Busy;
    LocksAndCommits(nodes, CacheAt(r, 1), r.cfg, m);
    DecidesLocked(Readied(nodes, r, m), ReadyCache(nodes, CacheAt(r, 1), r.cfg, m));
  }

  lemma ReadiedSends(nodes: NodeList, r: Replica, m: Msg)
    requires NoResults(r)
    ensures NoResults(Readied(nodes, r, m)) && Readied(nodes, r, m).cfg == r.cfg
  {
    hide ReadyCache;
  }

  /** A replica that has collected the votes decides when it accepts the proposal. */
  lemma DecidesAtOnce(nodes: NodeList, r: Replica, m: Msg, fromNewView: bool)
    requires r.caches.Keys <= {1} && QuorumsReady(nodes, CacheAt(r, 1), r.cfg, m) && NoResults(r) && Unused(r)
    requires AcceptsPrePrepare(r, m, fromNewView, true)
    ensures var r' := React(r, PrePrepareIn(m, false, fromNewView, true));
      Busy(r', m.hash) && NoResults(r') && r'.cfg == r.cfg
  {
    hide CheckAndPreCommit, BroadcastPrepare, AcceptsPrePrepare, AddPrePrepareCache, Busy, NoResults, ReadyCache, React;
    PrePrepareReaction(r, m, fromNewView);
    AcceptsReady(nodes, r, m);
    ReadyDecides(nodes, r, m);
    ReadiedSends(nodes, r, m);
    hide QuorumsReady;
    CheckSends(Readied(nodes, r, m));
    CheckSends(CheckAndPreCommit(Readied(nodes, r, m)));
  }

  lemma PrePrepareReaction(r: Replica, m: Msg, fromNewView: bool)
    requires AcceptsPrePrepare(r, m, fromNewView, true)
    ensures React(r, PrePrepareIn(m, false, fromNewView, true))
      == CheckAndPreCommit(BroadcastPrepare(AddPrePrepareCache(r, m), m))
  {
    hide AcceptsPrePrepare, CheckAndPreCommit, BroadcastPrepare, AddPrePrepareCache, HandlePrepare, HandleCommit,
      HandleCheckPoint, HandleViewChange, HandleNewView, HandleRecover, OnTimeout, TriggerTimeout, OnApplied, Finalize;
  }
}
