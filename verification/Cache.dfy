/** The votes, lock and checkpoint of one index as the object the cache processor owns. Weights
    are kept incrementally beside the votes; `Valid` says they are what a recount would give. */
module Cache {
  import opened Types
  import opened Weights
  import opened ConfigModel
  import opened Config
  import CM = CacheModel
  import opened Steps
  import opened CacheInvariant

  type WeightBook = map<Hash, nat>

  /** Each entry is the weight of the distinct senders cached for that hash. */
  ghost predicate WeightsOk(nodes: seq<Node>, book: VoteBook, weights: WeightBook) {
    weights.Keys == book.Keys && forall h :: h in book ==> weights[h] == Weight(nodes, book[h].Keys)
  }

  ghost predicate FiledBySender(book: VoteBook) {
    forall h, n :: h in book && n in book[h] ==> book[h][n].from == n
  }

  ghost predicate BookOk(nodes: seq<Node>, book: VoteBook, weights: WeightBook) {
    WeightsOk(nodes, book, weights) && FiledBySender(book)
  }

  /** The hashes in `done` have been cleaned, the others are untouched. */
  ghost predicate Swept(book: VoteBook, book': VoteBook, v: nat, done: set<nat>) {
    && (forall h :: h in book' <==> h in book && (h in done ==> CM.Surviving(book[h], v) != map[]))
    && (forall h :: h in book' ==> book'[h] == if h in done then CM.Surviving(book[h], v) else book[h])
  }

  lemma SweptEnds(book: VoteBook, v: nat)
    ensures Swept(book, book, v, {})
    ensures forall left :: Swept(book, left, v, book.Keys) ==> left == CM.SurvivingBook(book, v)
  {
    hide CM.Surviving;
    var all := CM.SurvivingBook(book, v);
    forall left | Swept(book, left, v, book.Keys) ensures left == all {
      assert forall h :: h in left <==> h in all;
      assert forall h :: h in all ==> left[h] == all[h];
    }
  }

  lemma SweptMore(book: VoteBook, left: VoteBook, v: nat, done: set<nat>, h: Hash)
    requires Swept(book, left, v, done) && h in book && h !in done
    ensures var votes := CM.Surviving(book[h], v);
      Swept(book, if votes == map[] then left - {h} else left[h := votes], v, done + {h})
  {
    hide CM.Surviving;
  }

  /** Of the senders in `done` only votes from view `v` on are left. */
  ghost predicate Purged(votes: map<nat, Msg>, left: map<nat, Msg>, v: nat, done: set<nat>) {
    && (forall n :: n in left <==> n in votes && (n in done ==> votes[n].view >= v))
    && (forall n :: n in left ==> left[n] == votes[n])
  }

  lemma PurgedEnds(votes: map<nat, Msg>, v: nat)
    ensures Purged(votes, votes, v, {})
    ensures forall left :: Purged(votes, left, v, votes.Keys) ==> left == CM.Surviving(votes, v)
  {
  }

  lemma PurgedMore(votes: map<nat, Msg>, left: map<nat, Msg>, v: nat, done: set<nat>, n: nat)
    requires Purged(votes, left, v, done) && n in votes
    ensures Purged(votes, if votes[n].view < v then left - {n} else left, v, done + {n})
  {
  }

  /** The hashes in `done` have their weight. */
  ghost predicate Tallied(nodes: seq<Node>, book: VoteBook, weights: WeightBook, done: set<nat>) {
    && weights.Keys == done && done <= book.Keys
    && forall h :: h in done ==> weights[h] == Weight(nodes, book[h].Keys)
  }

  lemma TalliedEnds(nodes: seq<Node>, book: VoteBook)
    ensures Tallied(nodes, book, map[], {})
    ensures forall weights :: Tallied(nodes, book, weights, book.Keys) ==> WeightsOk(nodes, book, weights)
  {
  }

  lemma TalliedMore(nodes: seq<Node>, book: VoteBook, weights: WeightBook, done: set<nat>, h: Hash)
    requires Tallied(nodes, book, weights, done) && h in book
    ensures Tallied(nodes, book, weights[h := Weight(nodes, book[h].Keys)], done + {h})
  {
    hide Weight;
  }

  lemma SurvivorsFiled(book: VoteBook, v: nat)
    requires FiledBySender(book)
    ensures FiledBySender(CM.SurvivingBook(book, v))
  {
  }

  class PBFTCache {
    const config: PBFTConfig
    const index: int
    var submitted: bool
    var stableCommitted: bool
    var precommitted: bool
    var prepareCacheList: VoteBook
    var prepareReqWeight: WeightBook
    var commitCacheList: VoteBook
    var commitReqWeight: WeightBook
    var checkpointCacheList: VoteBook
    var checkpointCacheWeight: WeightBook
    var prePrepare: Option<Msg>
    var precommit: Option<Msg>
    var precommitWithoutData: Option<Msg>
    var checkpointProposal: Option<Proposal>

    constructor (config: PBFTConfig, index: int)
      ensures this.config == config && this.index == index
      ensures Valid() && Abs() == CM.EmptyCache(index)
    {
      this.config, this.index := config, index;
      submitted, stableCommitted, precommitted := false, false, false;
      prepareCacheList, prepareReqWeight := map[], map[];
      commitCacheList, commitReqWeight := map[], map[];
      checkpointCacheList, checkpointCacheWeight := map[], map[];
      prePrepare, precommit, precommitWithoutData, checkpointProposal := None, None, None, None;
    }

    /** The incremental weights equal a recount, and a locked message stays accepted. */
    ghost predicate Valid()
      reads this, config`nodes
    {
      && BookOk(config.nodes, prepareCacheList, prepareReqWeight)
      && BookOk(config.nodes, commitCacheList, commitReqWeight)
      && BookOk(config.nodes, checkpointCacheList, checkpointCacheWeight)
      && (prePrepare.Some? ==> prePrepare.value.proposal.Some?)
      && (precommit.Some? ==> prePrepare.Some? && precommit.value.proposal.Some?)
    }

    function Abs(): CM.Cache
      reads this
    {
      CM.Cache(index, submitted, stableCommitted, precommitted, prepareCacheList, commitCacheList,
               checkpointCacheList, prePrepare, precommit, precommitWithoutData, checkpointProposal)
    }

    // ---- Votes and weights ----

    /** Count the first vote of a known sender: its weight is added exactly when the vote is. */
    method AddCache(book: VoteBook, weights: WeightBook, m: Msg) returns (book': VoteBook, weights': WeightBook)
      requires BookOk(config.nodes, book, weights)
      ensures book' == CM.AddVote(config.nodes, index, book, m)
      ensures BookOk(config.nodes, book', weights')
    {
      book', weights' := book, weights;
      if m.index != index {
        return;
      }
      if m.hash in book && m.from in book[m.hash] {
        return;
      }
      var node := config.NodeByIndex(m.from);
      if node.None? {
        return;
      }
      WeightAdd(config.nodes, CM.Senders(book, m.hash), m.from);
      WeightEmpty(config.nodes, |config.nodes|);
      hide Weight;
      if m.hash !in weights' {
        weights' := weights'[m.hash := 0];
        book' := book'[m.hash := map[]];
      }
      weights' := weights'[m.hash := weights'[m.hash] + node.value.weight];
      var votes: map<nat, Msg> := book'[m.hash];
      votes := votes[m.from := m];
      assert votes.Keys == CM.Senders(book, m.hash) + {m.from};
      book' := book'[m.hash := votes];
    }

    method CollectEnoughQuorum(h: Hash, ghost book: VoteBook, weights: WeightBook) returns (enough: bool)
      requires config.Sound() && BookOk(config.nodes, book, weights)
      ensures enough <==> CM.HasQuorum(config.nodes, book, h)
    {
      if h !in weights {
        return false;
      }
      return weights[h] >= config.minRequiredQuorum;
    }

    method AddPrepareCache(m: Msg)
      requires Valid()
      modifies `prepareCacheList, `prepareReqWeight
      ensures Valid()
      ensures Abs() == old(Abs()).(prepares := CM.AddVote(config.nodes, index, old(prepareCacheList), m))
    {
      prepareCacheList, prepareReqWeight := AddCache(prepareCacheList, prepareReqWeight, m);
    }

    method AddCommitCache(m: Msg)
      requires Valid()
      modifies `commitCacheList, `commitReqWeight
      ensures Valid()
      ensures Abs() == old(Abs()).(commits := CM.AddVote(config.nodes, index, old(commitCacheList), m))
    {
      commitCacheList, commitReqWeight := AddCache(commitCacheList, commitReqWeight, m);
    }

    method AddCheckPointMsg(m: Msg)
      requires Valid()
      modifies `checkpointCacheList, `checkpointCacheWeight
      ensures Valid()
      ensures Abs() == old(Abs()).(checkpoints := CM.AddVote(config.nodes, index, old(checkpointCacheList), m))
    {
      checkpointCacheList, checkpointCacheWeight := AddCache(checkpointCacheList, checkpointCacheWeight, m);
    }

    // ---- Conflicts ----

    method ExistPrePrepare(m: Msg) returns (found: bool)
      ensures found == CM.ExistPrePrepare(Abs(), m)
    {
      if prePrepare.None? {
        return false;
      }
      return m.hash == prePrepare.value.hash && prePrepare.value.view >= m.view;
    }

    method ConflictWithProcessedReq(m: Msg) returns (conflict: bool)
      requires config.Ready()
      ensures conflict == CM.ConflictWithProcessed(Abs(), config.Abs(), m)
    {
      if m.view < config.view {
        return true;
      }
      if prePrepare.None? {
        return false;
      }
      if m.view < prePrepare.value.view {
        return true;
      }
      if m.view == prePrepare.value.view {
        return m.hash != prePrepare.value.hash;
      }
      return false;
    }

    method ConflictWithPrecommitReq(m: Msg) returns (conflict: bool)
      requires config.Ready()
      ensures conflict == CM.ConflictWithPrecommit(Abs(), config.Abs(), m)
    {
      if precommit.None? {
        return false;
      }
      if precommit.value.index < config.progressedIndex {
        return false;
      }
      return m.index == precommit.value.index && m.hash != precommit.value.hash;
    }

    // ---- Ordering ----

    method AddPrePrepareCache(m: Msg)
      requires Valid() && m.proposal.Some?
      modifies `prePrepare
      ensures Valid() && Abs() == CM.AddPrePrepare(old(Abs()), m)
    {
      if stableCommitted {
        return;
      }
      if checkpointProposal.Some? && prePrepare.Some?
         && m.proposal.value.hash != prePrepare.value.proposal.value.hash {
        return;
      }
      prePrepare := Some(m);
    }

    /** Enough votes in `book` for the proposal accepted in the current view. */
    method CollectEnough(ghost book: VoteBook, weights: WeightBook) returns (enough: bool)
      requires config.Sound() && BookOk(config.nodes, book, weights)
      ensures enough == CM.Enough(Abs(), config.Abs(), book)
    {
      if prePrepare.None? || prePrepare.value.view != config.view {
        return false;
      }
      enough := CollectEnoughQuorum(prePrepare.value.hash, book, weights);
    }

    /** The signatures of all votes for one hash replace those the proposal carried. */
    method SetSignatureList(p: Proposal, votes: map<nat, Msg>) returns (p': Proposal)
      ensures p' == p.(proofs := CM.SignatureList(votes))
    {
      hide Ascending, CM.SigOf;
      var ks := CM.Voters(votes);
      p' := p.(proofs := []);
      for i := 0 to |ks|
        invariant p' == p.(proofs := p'.proofs) && |p'.proofs| == i
        invariant forall k :: 0 <= k < i ==> ks[k] in votes && p'.proofs[k] == Proof(ks[k], CM.SigOf(votes[ks[k]]))
      {
        assert ks[i] in ks;
        p' := p'.(proofs := p'.proofs + [Proof(ks[i], CM.SigOf(votes[ks[i]]))]);
      }
      assert p'.proofs == CM.SignatureList(votes);
    }

    /** Lock the accepted message; the message and the lock are one object. */
    method IntoPrecommit()
      requires Valid() && config.Ready() && prePrepare.Some? && prePrepare.value.hash in prepareCacheList
      modifies `prePrepare, `precommit, `precommitWithoutData
      ensures Valid() && precommit.Some? && Abs() == CM.IntoPrecommit(old(Abs()), config.Abs())
    {
      hide BookOk, CM.SignatureList;
      var m := prePrepare.value;
      var p := SetSignatureList(m.proposal.value, prepareCacheList[m.hash]);
      var locked := m.(from := config.nodeIndex, proposal := Some(p));
      prePrepare := Some(locked);
      precommit := prePrepare;
      precommitWithoutData := Some(m.(proposal := Some(BareProposal(p.index, p.hash).(proofs := p.proofs))));
    }

    method CheckAndCommit() returns (committed: bool)
      requires Valid() && config.Sound()
      modifies `submitted
      ensures Valid() && (Abs(), committed) == CM.CheckCommit(old(Abs()), config.Abs())
      ensures committed ==> precommit.Some? && precommit.value.proposal.Some?
    {
      hide BookOk, PBFTConfig.Sound, CM.Enough;
      if submitted {
        return false;
      }
      if precommit.None? {
        return false;
      }
      var enough := CollectEnough(commitCacheList, commitReqWeight);
      if !enough {
        return false;
      }
      submitted := true;
      return true;
    }

    /** The proposal accepted in the current view has a prepare quorum, no vote to commit was cast since
        that view was entered, and what was locked before was locked in an earlier view. */
    ghost predicate ReadyToLock()
      reads this, config`nodes, config`view
    {
      && prePrepare.Some? && prePrepare.value.view == config.view
      && prePrepare.value.hash in prepareCacheList
      && Weight(config.nodes, prepareCacheList[prePrepare.value.hash].Keys) >= QuorumOf(config.nodes)
      && !precommitted && (precommit.Some? ==> precommit.value.view < config.view)
    }

    method ShouldPrecommit() returns (should: bool)
      requires Valid() && config.Sound()
      ensures should == ReadyToLock() == CM.WillPrecommit(Abs(), config.Abs())
      ensures should ==> prePrepare.Some? && prePrepare.value.view == config.view
    {
      hide BookOk, PBFTConfig.Sound, Weight, QuorumOf;
      if precommitted {
        return false;
      }
      if precommit.Some? && precommit.value.view >= prePrepare.value.view {
        return false;
      }
      should := CollectEnough(prepareCacheList, prepareReqWeight);
    }

    /** One message was sent: the own vote of the current view to commit this hash. */
    ghost predicate Votes(sent: seq<Msg>, before: seq<Msg>, h: Hash)
      reads config`view, config`nodeIndex
    {
      && |sent| == |before| + 1 && before <= sent
      && var vote := sent[|before|];
         vote.kind == Commit && vote.hash == h && vote.view == config.view && vote.from == config.nodeIndex && vote.signer == config.id
    }

    /** Lock the accepted proposal, count the own vote and broadcast it. */
    method LockAndVote()
      requires Valid() && config.Sound() && CM.WillPrecommit(Abs(), config.Abs())
      modifies `prePrepare, `precommit, `precommitWithoutData, `commitCacheList, `commitReqWeight, `precommitted,
        config`env
      ensures Valid() && precommit.Some? && Abs() == CM.LockAndVote(old(Abs()), config.Abs())
      ensures config.env == old(config.env).(sent := old(config.env).sent + CM.VotesCast(old(Abs()), config.Abs()))
      ensures old(prePrepare).Some? && precommitted
      ensures precommit.value.hash == old(prePrepare).value.hash && precommit.value.view == old(prePrepare).value.view
      ensures Votes(config.env.sent, old(config.env).sent, precommit.value.hash)
    {
      hide BookOk, CM.SignatureList, CM.AddVote, PBFTConfig.Sound, Weight, QuorumOf;
      IntoPrecommit();
      var vote := config.Abs().Own(Commit, precommit.value.index, precommit.value.hash);
      AddCommitCache(vote);
      config.env := config.env.(sent := config.env.sent + [vote]);
      precommitted := true;
    }

    /** Lock and vote to commit, once the accepted proposal has its prepare quorum. */
    method CheckAndPreCommit() returns (committed: bool)
      requires Valid() && config.Sound()
      modifies `prePrepare, `precommit, `precommitWithoutData, `commitCacheList, `commitReqWeight, `precommitted,
        `submitted, config`env
      ensures Valid() && (Abs(), committed) == CM.CheckPrecommit(old(Abs()), config.Abs())
      ensures committed ==> precommit.Some? && precommit.value.proposal.Some?
      ensures config.env == old(config.env).(sent := old(config.env).sent + CM.VotesCast(old(Abs()), config.Abs()))
      ensures old(ReadyToLock()) ==>
        && old(prePrepare).Some? && precommit.Some? && precommitted
        && precommit.value.hash == old(prePrepare).value.hash && precommit.value.view == config.view
        && Votes(config.env.sent, old(config.env).sent, precommit.value.hash)
      ensures !old(ReadyToLock()) ==> Abs() == old(Abs()) && !committed && config.env == old(config.env)
    {
      hide PBFTCache.Valid, PBFTConfig.Sound, CM.WillPrecommit, CM.LockAndVote, CM.CheckCommit, PBFTCache.Votes, PBFTCache.ReadyToLock;
      var should := ShouldPrecommit();
      if !should {
        return false;
      }
      LockAndVote();
      committed := CheckAndCommit();
    }

    // ---- View changes ----

    /** Erase every vote of a view before `v`, and every hash that is left without votes. */
    method ResetCacheAfterViewChange(book: VoteBook, v: nat) returns (book': VoteBook)
      ensures book' == CM.SurvivingBook(book, v)
    {
      var hs := CM.Voters(book);
      Visit(book, 0);
      SweptEnds(book, v);
      hide *;
      book' := book;
      for i := 0 to |hs|
        invariant Swept(book, book', v, FirstVoters(hs, i))
      {
        Visit(book, i);
        SweptMore(book, book', v, FirstVoters(hs, i), hs[i]);
        var votes := EraseOutdated(book[hs[i]], v);
        if |votes| == 0 {
          assert votes == map[];
          book' := book' - {hs[i]};
        } else {
          book' := book'[hs[i] := votes];
        }
      }
      Visit(book, |hs|);
    }

    method EraseOutdated(votes: map<nat, Msg>, v: nat) returns (kept: map<nat, Msg>)
      ensures kept == CM.Surviving(votes, v)
    {
      var ns := CM.Voters(votes);
      Visit(votes, 0);
      PurgedEnds(votes, v);
      hide *;
      kept := votes;
      for i := 0 to |ns|
        invariant Purged(votes, kept, v, FirstVoters(ns, i))
      {
        Visit(votes, i);
        PurgedMore(votes, kept, v, FirstVoters(ns, i), ns[i]);
        if votes[ns[i]].view < v {
          kept := kept - {ns[i]};
        }
      }
      Visit(votes, |ns|);
    }

    /** Recount the weights of a book from scratch. */
    method RecalculateQuorum(book: VoteBook) returns (weights: WeightBook)
      requires FiledBySender(book)
      ensures WeightsOk(config.nodes, book, weights)
    {
      var hs := CM.Voters(book);
      Visit(book, 0);
      TalliedEnds(config.nodes, book);
      hide WeightsOk, Tallied, FirstVoters, Weight, CM.Voters, Ascending;
      weights := map[];
      for i := 0 to |hs|
        invariant Tallied(config.nodes, book, weights, FirstVoters(hs, i))
      {
        Visit(book, i);
        TalliedMore(config.nodes, book, weights, FirstVoters(hs, i), hs[i]);
        var weight := CountVotes(book[hs[i]]);
        weights := weights[hs[i] := weight];
      }
      Visit(book, |hs|);
    }

    method CountVotes(votes: map<nat, Msg>) returns (weight: nat)
      requires forall n :: n in votes ==> votes[n].from == n
      ensures weight == Weight(config.nodes, votes.Keys)
    {
      hide *;
      var ns := CM.Voters(votes);
      Visit(votes, 0);
      WeightOfNone(config.nodes);
      weight := 0;
      for i := 0 to |ns|
        invariant weight == Weight(config.nodes, FirstVoters(ns, i))
      {
        Visit(votes, i);
        WeightAdd(config.nodes, FirstVoters(ns, i), ns[i]);
        var node := config.NodeByIndex(votes[ns[i]].from);
        if node.Some? {
          weight := weight + node.value.weight;
        }
      }
      Visit(votes, |ns|);
    }

    method ResetBook(book: VoteBook, ghost recorded: WeightBook, v: nat) returns (book': VoteBook, weights: WeightBook)
      requires BookOk(config.nodes, book, recorded)
      ensures book' == CM.SurvivingBook(book, v) && BookOk(config.nodes, book', weights)
    {
      hide FiledBySender, WeightsOk, CM.SurvivingBook;
      SurvivorsFiled(book, v);
      book' := ResetCacheAfterViewChange(book, v);
      weights := RecalculateQuorum(book');
    }

    method ResetCache(v: nat)
      requires Valid()
      modifies `submitted, `precommitted, `prepareCacheList, `commitCacheList, `prepareReqWeight, `commitReqWeight
      ensures Valid() && Abs() == CM.ResetView(old(Abs()), v)
    {
      hide BookOk, CM.SurvivingBook;
      var prepares, prepareWeights := ResetBook(prepareCacheList, prepareReqWeight, v);
      var commits, commitWeights := ResetBook(commitCacheList, commitReqWeight, v);
      submitted, precommitted := false, false;
      prepareCacheList, prepareReqWeight := prepares, prepareWeights;
      commitCacheList, commitReqWeight := commits, commitWeights;
    }

    // ---- Checkpoints ----

    method SetCheckPointProposal(p: Proposal)
      requires Valid() && config.Ready()
      modifies `checkpointProposal
      ensures Valid() && Abs() == CM.SetCheckPoint(old(Abs()), config.Abs(), p)
    {
      if p.index <= config.committedProposal.value.index {
        return;
      }
      if p.index != index {
        return;
      }
      checkpointProposal := Some(p);
    }

    method CheckAndCommitStableCheckPoint() returns (stable: bool)
      requires Valid() && config.Sound()
      modifies `stableCommitted, `checkpointProposal
      ensures Valid() && (Abs(), stable) == CM.CheckStable(old(Abs()), config.Abs())
    {
      hide BookOk, PBFTConfig.Sound, Weight, QuorumOf, CM.SignatureList;
      if stableCommitted || checkpointProposal.None? {
        return false;
      }
      var p := checkpointProposal.value;
      var enough := CollectEnoughQuorum(p.hash, checkpointCacheList, checkpointCacheWeight);
      if !enough {
        return false;
      }
      p := SetSignatureList(p, checkpointCacheList[p.hash]);
      checkpointProposal := Some(p);
      stableCommitted := true;
      return config.committedProposal.value.index < p.index;
    }
  }
}
