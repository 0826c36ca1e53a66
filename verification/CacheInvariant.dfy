/** What every cache of a running replica satisfies, and that each cache transition keeps it. */
module CacheInvariant {
  import opened Types
  import opened Weights
  import opened ConfigModel
  import opened CacheModel

  /** Every vote is filed under its own hash and sender and belongs to this index. */
  ghost predicate VotesFiled(nodes: seq<Node>, book: VoteBook, kind: Kind, index: int) {
    forall h, n :: h in book && n in book[h] ==>
      && book[h][n].kind == kind
      && book[h][n].index == index
      && book[h][n].hash == h
      && book[h][n].from == n
      && n < |nodes|
  }

  /** No vote of an earlier view is kept. */
  ghost predicate VotesCurrent(view: nat, book: VoteBook) {
    forall h, n :: h in book && n in book[h] ==> book[h][n].view >= view
  }

  ghost predicate VotesSigned(nodes: seq<Node>, book: VoteBook) {
    forall h :: h in book ==> SignedVotes(nodes, h, book[h])
  }

  /** A message that locks its hash: it carries a prepare certificate of distinct signers. */
  ghost predicate LockMessage(nodes: seq<Node>, view: nat, m: Msg, index: int) {
    && m.index == index
    && m.view <= view
    && m.proposal.Some?
    && m.WellFormed()
    && Certified(nodes, m.hash, m.proposal.value.proofs)
    && DistinctSigners(m.proposal.value.proofs)
  }

  ghost predicate CacheOk(g: Cfg, c: Cache) {
    && VotesFiled(g.nodes, c.prepares, Prepare, c.index)
    && VotesFiled(g.nodes, c.commits, Commit, c.index)
    && VotesFiled(g.nodes, c.checkpoints, CheckPoint, c.index)
    && VotesCurrent(g.view, c.prepares) && VotesCurrent(g.view, c.commits)
    && VotesSigned(g.nodes, c.prepares) && VotesSigned(g.nodes, c.checkpoints)
    && (c.prePrepare.Some? ==>
          var m := c.prePrepare.value;
          m.index == c.index && m.proposal.Some? && m.WellFormed())
    && (c.precommit.Some? ==>
          && c.prePrepare.Some?
          && c.prePrepare.value.hash == c.precommit.value.hash
          && LockMessage(g.nodes, g.view, c.precommit.value, c.index))
    && (c.bare.Some? <==> c.precommit.Some?)
    && (c.bare.Some? ==>
          && c.bare.value.hash == c.precommit.value.hash && c.bare.value.view == c.precommit.value.view
          && LockMessage(g.nodes, g.view, c.bare.value, c.index))
    && (c.stable ==> c.checkpoint.Some?)
    && (c.checkpoint.Some? ==> c.checkpoint.value.index == c.index < g.expected)
  }

  ghost predicate SelfOk(g: Cfg) {
    && g.self < |g.nodes|
    && g.nodes[g.self].id == g.id
    && 1 <= Total(g.nodes) < UINT64
  }

  lemma EmptyCacheOk(g: Cfg, index: int)
    ensures CacheOk(g, EmptyCache(index))
  {
  }

  /** Advancing the watermark and the view does not disturb a cache without old votes. */
  lemma CacheOkLater(g: Cfg, g': Cfg, c: Cache)
    requires CacheOk(g, c)
    requires g'.nodes == g.nodes && g'.expected >= g.expected && g'.view == g.view
    ensures CacheOk(g', c)
  {
  }

  lemma AddVoteFiled(nodes: seq<Node>, view: nat, book: VoteBook, kind: Kind, index: int, m: Msg)
    requires VotesFiled(nodes, book, kind, index) && m.kind == kind
    ensures VotesFiled(nodes, AddVote(nodes, index, book, m), kind, index)
    ensures VotesCurrent(view, book) && m.view >= view
      ==> VotesCurrent(view, AddVote(nodes, index, book, m))
  {
  }

  lemma AddVoteSigned(nodes: seq<Node>, book: VoteBook, index: int, m: Msg)
    requires VotesSigned(nodes, book)
    requires m.from < |nodes| ==> SigOf(m) == Sig(nodes[m.from].id, m.hash)
    ensures VotesSigned(nodes, AddVote(nodes, index, book, m))
  {
    hide SigOf;
  }

  lemma AddPrePrepareKeeps(g: Cfg, c: Cache, m: Msg)
    requires CacheOk(g, c)
    requires m.index == c.index && m.proposal.Some? && m.WellFormed()
    requires c.precommit.Some? ==> c.precommit.value.hash == m.hash
    ensures CacheOk(g, AddPrePrepare(c, m))
  {
  }

  lemma CheckCommitKeeps(g: Cfg, c: Cache)
    requires CacheOk(g, c)
    ensures CacheOk(g, CheckCommit(c, g).0)
  {
  }

  /** A commit is reported for the locked hash, not merely for the accepted one: the locked
      proposal has a commit quorum now and carries the prepare quorum it was locked on. */
  lemma CommittedValueHasQuorum(g: Cfg, c: Cache)
    requires CacheOk(g, c) && CheckCommit(c, g).1
    ensures c.precommit.Some? && c.precommit.value.proposal.Some?
    ensures HasQuorum(g.nodes, c.commits, c.precommit.value.hash)
    ensures var p := c.precommit.value.proposal.value;
      p.hash == c.precommit.value.hash && p.index == c.index
      && Certified(g.nodes, p.hash, p.proofs) && DistinctSigners(p.proofs)
  {
  }

  /** The assertion of `setSignatureList` holds: the locked hash has a list of votes. */
  lemma IntoPrecommitKeeps(g: Cfg, c: Cache)
    requires CacheOk(g, c) && Enough(c, g, c.prepares)
    ensures c.prePrepare.value.hash in c.prepares
    ensures CacheOk(g, IntoPrecommit(c, g))
  {
    var m := c.prePrepare.value;
    SignatureListCertifies(g.nodes, m.hash, c.prepares[m.hash]);
  }

  lemma CheckPrecommitKeeps(g: Cfg, c: Cache)
    requires SelfOk(g) && CacheOk(g, c)
    ensures CacheOk(g, CheckPrecommit(c, g).0)
    ensures CheckPrecommit(c, g).1 ==> WillPrecommit(c, g)
  {
    if WillPrecommit(c, g) {
      var m := c.prePrepare.value;
      var c1 := IntoPrecommit(c, g);
      IntoPrecommitKeeps(g, c);
      var own := g.Own(Commit, m.index, m.hash);
      AddVoteFiled(g.nodes, g.view, c1.commits, Commit, c.index, own);
      var c2 := c1.(commits := AddVote(g.nodes, c.index, c1.commits, own), precommitted := true);
      CheckCommitKeeps(g, c2);
    }
  }

  /** A view change keeps votes of the new view on, with their weights' senders, and no lock
      is touched. */
  lemma ResetViewKeeps(g: Cfg, g': Cfg, c: Cache, v: nat)
    requires CacheOk(g, c)
    requires g'.nodes == g.nodes && g'.expected == g.expected && g'.view >= g.view
    requires g'.view <= v || g'.view == g.view
    ensures CacheOk(g', ResetView(c, v))
  {
    hide SigOf, Certified, DistinctSigners;
    SurvivingFiled(g, g', c.prepares, Prepare, c.index, v);
    SurvivingFiled(g, g', c.commits, Commit, c.index, v);
    SurvivingSigned(g.nodes, c.prepares, v);
    hide VotesFiled, VotesCurrent, VotesSigned;
  }

  lemma SurvivingFiled(g: Cfg, g': Cfg, book: VoteBook, kind: Kind, index: int, v: nat)
    requires VotesFiled(g.nodes, book, kind, index) && VotesCurrent(g.view, book)
    requires g'.view <= v || g'.view == g.view
    ensures VotesFiled(g.nodes, SurvivingBook(book, v), kind, index)
    ensures VotesCurrent(g'.view, SurvivingBook(book, v))
  {
  }

  lemma SurvivingSigned(nodes: seq<Node>, book: VoteBook, v: nat)
    requires VotesSigned(nodes, book)
    ensures VotesSigned(nodes, SurvivingBook(book, v))
  {
    forall h | h in SurvivingBook(book, v) ensures SignedVotes(nodes, h, SurvivingBook(book, v)[h]) {
      assert SignedVotes(nodes, h, book[h]);
    }
  }

  lemma CheckStableKeeps(g: Cfg, c: Cache)
    requires CacheOk(g, c)
    ensures CacheOk(g, CheckStable(c, g).0)
    ensures WillStabilize(c, g) ==>
      var p := CheckStable(c, g).0.checkpoint.value;
      && p.index == c.index && p.hash == c.checkpoint.value.hash
      && Certified(g.nodes, p.hash, p.proofs) && DistinctSigners(p.proofs)
      && HasQuorum(g.nodes, c.checkpoints, p.hash)
  {
    if WillStabilize(c, g) {
      var h := c.checkpoint.value.hash;
      SignatureListCertifies(g.nodes, h, c.checkpoints[h]);
    }
  }
}
