/** All caches, queues and view-change books of a replica as one object. Every method is proved
    against the function of `ReplicaModel` for that operation. */
module CacheProcessor {
  import opened Types
  import opened Weights
  import opened ConfigModel
  import opened Config
  import opened Cache
  import Sealing
  import opened Steps
  import CM = CacheModel
  import RM = ReplicaModel

  class PBFTCacheProcessor {
    const config: PBFTConfig
    var caches: map<int, PBFTCache>
    var viewChangeCache: RM.ChangeBook
    var viewChangeWeight: map<nat, nat>
    var maxCommittedIndex: map<nat, int>
    var maxPrecommitIndex: map<nat, int>
    var newViewGenerated: bool
    var committedQueue: seq<Proposal>
    var executingProposals: map<Hash, int>
    var stableCheckPointQueue: seq<Proposal>
    var recoverReqCache: RM.RecoverBook
    var recoverCacheWeight: map<nat, nat>
    ghost var owned: set<PBFTCache>

    constructor (config: PBFTConfig)
      requires config.Sound()
      ensures this.config == config && Valid() && caches == map[] && owned == {}
    {
      this.config := config;
      caches := map[];
      viewChangeCache, viewChangeWeight := map[], map[];
      maxCommittedIndex, maxPrecommitIndex, newViewGenerated := map[], map[], false;
      committedQueue, executingProposals, stableCheckPointQueue := [], map[], [];
      recoverReqCache, recoverCacheWeight := map[], map[];
      owned := {};
    }

    /** The caches are among the objects this one has created. */
    ghost predicate Owned()
      reads `caches, `owned
    {
      forall i :: i in caches ==> caches[i] in owned
    }

    ghost predicate CachesOk()
      reads `caches, `owned, owned, config`nodes
    {
      && Owned()
      && forall i :: i in caches ==> caches[i].config == config && caches[i].index == i && caches[i].Valid()
    }

    ghost predicate Valid()
      reads `caches, `owned, `viewChangeCache, `viewChangeWeight, `recoverReqCache, `recoverCacheWeight, owned
      reads config`nodes, config`nodesNum, config`nodeIndex, config`totalQuorum, config`maxFaultyQuorum,
        config`minRequiredQuorum, config`committedProposal
      ensures Valid() ==> config.Sound() && Owned()
    {
      && config.Sound()
      && CachesOk()
      && ChangesOk(config.nodes, viewChangeCache, viewChangeWeight)
      && RecoversOk(config.nodes, recoverReqCache, recoverCacheWeight)
    }

    ghost function AbsCaches(): map<int, CM.Cache>
      requires Owned()
      reads `caches, `owned, owned
    {
      map i | i in caches :: caches[i].Abs()
    }

    lemma AbsKeys()
      requires Owned()
      ensures AbsCaches().Keys == caches.Keys
    {
      hide PBFTCache.Abs;
    }

    ghost function Abs(): RM.Replica
      requires config.Ready() && Owned()
      reads this, config, owned
    {
      RM.Replica(config.Abs(), config.env, AbsCaches(), committedQueue, executingProposals,
                 stableCheckPointQueue, viewChangeCache, maxCommittedIndex, maxPrecommitIndex,
                 newViewGenerated, recoverReqCache)
    }

    /** This object is in the state `r`. */
    ghost predicate Is(r: RM.Replica)
      reads this, config, owned
    {
      Valid() && Abs() == r
    }

    /** Changing one cache and sending changes one entry and the log of what was sent. */
    twostate lemma OneChanged(i: int)
      requires unchanged(this) && i in caches && config.Sound() && config.nodes == old(config.nodes)
      requires old(Valid()) && caches[i].Valid()
      requires forall j :: j in caches && j != i ==> unchanged(caches[j])
      ensures Valid()
      ensures Abs() == RM.Put(old(Abs()), caches[i].Abs()).(cfg := config.Abs(), env := config.env)
    {
      hide ChangesOk, RecoversOk;
      forall j | j in caches && j != i ensures caches[j].Valid() && caches[j].Abs() == old(caches[j].Abs()) {
      }
      assert AbsCaches() == old(AbsCaches())[i := caches[i].Abs()];
    }

    // ---- Votes ----

    /** The cache of an index, as one entry of the abstract state. */
    method CacheAt(i: int) returns (c: PBFTCache)
      requires Valid() && i in caches
      ensures c == caches[i] && c.config == config && c.index == i && c.Valid()
      ensures forall j :: j in caches && j != i ==> caches[j] != c
      ensures c.Abs() == RM.CacheAt(Abs(), i) && RM.Put(Abs(), c.Abs()) == Abs()
    {
      hide ChangesOk, RecoversOk, PBFTCache.Valid;
      c := caches[i];
      assert AbsCaches()[i := c.Abs()] == AbsCaches();
    }

    /** Take over a fresh cache. */
    method Insert(c: PBFTCache)
      requires Valid() && c.index !in caches
      requires c.config == config && c.Valid() && c.Abs() == CM.EmptyCache(c.index)
      modifies `caches, `owned
      ensures Valid() && owned == old(owned) + {c} && caches == old(caches)[c.index := c]
      ensures Abs() == RM.Put(old(Abs()), CM.EmptyCache(c.index))
    {
      hide ChangesOk, RecoversOk, PBFTCache.Valid, PBFTConfig.Sound, PBFTConfig.Abs;
      caches := caches[c.index := c];
      owned := owned + {c};
      assert AbsCaches() == old(AbsCaches())[c.index := c.Abs()];
    }

    /** The cache of an index, created on first use. */
    method CacheFor(i: int) returns (c: PBFTCache)
      requires Valid()
      modifies `caches, `owned
      ensures Valid() && i in caches && caches[i] == c && fresh(owned - old(owned))
      ensures c.config == config && c.index == i && c.Valid()
      ensures forall j :: j in caches && j != i ==> caches[j] != c
      ensures c.Abs() == RM.CacheAt(old(Abs()), i) && Abs() == RM.Put(old(Abs()), c.Abs())
    {
      hide PBFTCacheProcessor.Valid, PBFTCache.Valid, PBFTCacheProcessor.AbsCaches, PBFTConfig.Sound, PBFTConfig.Abs;
      Filed(i);
      if i !in caches {
        Create(i);
      }
      c := CacheAt(i);
    }

    lemma Filed(i: int)
      requires Valid()
      ensures i in Abs().caches <==> i in caches
    {
      hide ChangesOk, RecoversOk;
    }

    method Create(i: int)
      requires Valid() && i !in caches
      modifies `caches, `owned
      ensures Valid() && i in caches && fresh(owned - old(owned))
      ensures Abs() == RM.Put(old(Abs()), CM.EmptyCache(i))
    {
      hide PBFTCacheProcessor.Valid, PBFTCache.Valid, PBFTCacheProcessor.AbsCaches, PBFTConfig.Sound, PBFTConfig.Abs;
      var c := new PBFTCache(config, i);
      Insert(c);
    }

    method AddPrePrepareCache(m: Msg)
      requires Valid() && m.proposal.Some?
      modifies `caches, `owned, owned
      ensures Valid() && fresh(owned - old(owned))
      ensures Abs() == RM.AddPrePrepareCache(old(Abs()), m)
    {
      hide CM.AddPrePrepare, PBFTCache.Valid, PBFTCacheProcessor.Valid;
      var c := CacheFor(m.index);
      label found:
      c.AddPrePrepareCache(m);
      OneChanged@found(m.index);
      PutAgain(old(Abs()), old@found(c.Abs()), c.Abs());
    }

    method AddPrepareCache(m: Msg)
      requires Valid()
      modifies `caches, `owned, owned
      ensures Valid() && fresh(owned - old(owned))
      ensures Abs() == RM.AddPrepare(old(Abs()), m)
    {
      hide CM.AddVote, PBFTCache.Valid, PBFTCacheProcessor.Valid;
      var c := CacheFor(m.index);
      label found:
      c.AddPrepareCache(m);
      OneChanged@found(m.index);
      PutAgain(old(Abs()), old@found(c.Abs()), c.Abs());
    }

    method AddCommitReq(m: Msg)
      requires Valid()
      modifies `caches, `owned, owned
      ensures Valid() && fresh(owned - old(owned))
      ensures Abs() == RM.AddCommit(old(Abs()), m)
    {
      hide CM.AddVote, PBFTCache.Valid, PBFTCacheProcessor.Valid;
      var c := CacheFor(m.index);
      label found:
      c.AddCommitCache(m);
      OneChanged@found(m.index);
      PutAgain(old(Abs()), old@found(c.Abs()), c.Abs());
    }

    method AddCheckPointMsg(m: Msg)
      requires Valid()
      modifies `caches, `owned, owned
      ensures Valid() && fresh(owned - old(owned))
      ensures Abs() == RM.AddCheckPointMsg(old(Abs()), m)
    {
      hide CM.AddVote, PBFTCache.Valid, PBFTCacheProcessor.Valid;
      var c := CacheFor(m.index);
      label found:
      c.AddCheckPointMsg(m);
      OneChanged@found(m.index);
      PutAgain(old(Abs()), old@found(c.Abs()), c.Abs());
    }

    method SetCheckPointProposal(p: Proposal)
      requires Valid()
      modifies `caches, `owned, owned
      ensures Valid() && fresh(owned - old(owned))
      ensures Abs() == RM.SetCheckPointProposal(old(Abs()), p)
    {
      hide CM.SetCheckPoint, PBFTCache.Valid, PBFTCacheProcessor.Valid;
      var c := CacheFor(p.index);
      label found:
      c.SetCheckPointProposal(p);
      OneChanged@found(p.index);
      PutAgain(old(Abs()), old@found(c.Abs()), c.Abs());
    }

    method SendViewChange(vc: ViewChange)
      requires Valid()
      modifies config`env
      ensures Valid()
      ensures Abs() == old(Abs()).(env := old(Abs()).env.(sentChanges := old(Abs()).env.sentChanges + [vc]))
    {
      hide PBFTCacheProcessor.Valid, PBFTCacheProcessor.AbsCaches, PBFTConfig.Sound, PBFTConfig.Abs;
      config.env := config.env.(sentChanges := config.env.sentChanges + [vc]);
    }

    method ExistPrePrepare(m: Msg) returns (found: bool)
      requires Valid()
      ensures found == RM.ExistPrePrepareAt(Abs(), m)
    {
      assert Abs().caches.Keys == caches.Keys;
      hide PBFTCacheProcessor.Valid, PBFTCacheProcessor.AbsCaches, PBFTConfig.Sound, CM.ExistPrePrepare;
      if m.index !in caches {
        return false;
      }
      var c := CacheAt(m.index);
      found := c.ExistPrePrepare(m);
    }

    method ConflictWithProcessedReq(m: Msg) returns (conflict: bool)
      requires Valid()
      ensures conflict == RM.ProcessedConflict(Abs(), m)
    {
      assert Abs().caches.Keys == caches.Keys;
      hide PBFTCacheProcessor.Valid, PBFTCacheProcessor.AbsCaches, PBFTConfig.Sound, CM.ConflictWithProcessed;
      if m.index !in caches {
        return false;
      }
      var c := CacheAt(m.index);
      conflict := c.ConflictWithProcessedReq(m);
    }

    method ConflictWithPrecommitReq(m: Msg) returns (conflict: bool)
      requires Valid()
      ensures conflict == RM.PrecommitConflict(Abs(), m)
    {
      assert Abs().caches.Keys == caches.Keys;
      hide PBFTCacheProcessor.Valid, PBFTCacheProcessor.AbsCaches, PBFTConfig.Sound, CM.ConflictWithPrecommit;
      if m.index !in caches {
        return false;
      }
      var c := CacheAt(m.index);
      conflict := c.ConflictWithPrecommitReq(m);
    }

    /** Broadcast a message. */
    method Send(m: Msg)
      requires Valid()
      modifies config`env
      ensures Valid() && Abs() == RM.Send(old(Abs()), m)
    {
      hide PBFTCacheProcessor.Valid, PBFTCacheProcessor.AbsCaches, PBFTConfig.Sound, PBFTConfig.Abs;
      config.env := config.env.(sent := config.env.sent + [m]);
    }

    // ---- Execution ----

    method GetAppliedCheckPointProposal(i: int) returns (p: Option<Proposal>)
      requires Valid()
      ensures p == RM.AppliedCheckPoint(config.Abs(), AbsCaches(), i)
    {
      if i == config.committedProposal.value.index {
        return config.committedProposal;
      }
      if i !in caches {
        return None;
      }
      return caches[i].checkpointProposal;
    }

    /** Drop the proposals that were executed already. */
    method PopExecuted()
      modifies `committedQueue
      ensures committedQueue == RM.DropBelow(old(committedQueue), config.expectedCheckPoint)
    {
      while committedQueue != [] && committedQueue[0].index < config.expectedCheckPoint
        invariant RM.DropBelow(committedQueue, config.expectedCheckPoint)
               == RM.DropBelow(old(committedQueue), config.expectedCheckPoint)
      {
        committedQueue := committedQueue[1..];
      }
    }

    /** Start the execution of the head of the queue. */
    method StartHead(last: Proposal)
      requires Valid() && committedQueue != []
      modifies `committedQueue, `executingProposals, config`env
      ensures Valid()
      ensures var r := old(Abs()); var p := r.commitQueue[0]; var call := ApplyCall(last, p);
        Abs() == r.(commitQueue := r.commitQueue[1..], executing := r.executing[p.hash := p.index],
                    env := r.env.(applies := r.env.applies + [call], running := r.env.running + [call]))
    {
      hide PBFTCacheProcessor.Valid, PBFTConfig.Sound, PBFTCacheProcessor.AbsCaches, PBFTConfig.Abs;
      var proposal := committedQueue[0];
      committedQueue := committedQueue[1..];
      executingProposals := executingProposals[proposal.hash := proposal.index];
      ApplyStateMachine(last, proposal);
    }

    /** Execute the expected proposal if it is next in line, its predecessor was applied and it
        is not running yet. */
    method TryToApplyCommitQueue() returns (applied: bool)
      requires Valid()
      modifies `committedQueue, `executingProposals, config`env
      ensures Valid() && (Abs(), applied) == RM.TryApply(old(Abs()))
    {
      hide PBFTCacheProcessor.Valid, PBFTConfig.Sound, RM.DropBelow, RM.AppliedCheckPoint, PBFTCacheProcessor.AbsCaches;
      PopExecuted();
      if committedQueue != [] && committedQueue[0].index == config.expectedCheckPoint {
        var last := GetAppliedCheckPointProposal(config.expectedCheckPoint - 1);
        if last.None? {
          return false;
        }
        if committedQueue[0].hash in executingProposals {
          return false;
        }
        StartHead(last.value);
        return true;
      }
      return false;
    }

    method ApplyStateMachine(last: Proposal, proposal: Proposal)
      modifies config`env
      ensures var call := ApplyCall(last, proposal);
        config.env == old(config.env).(applies := old(config.env).applies + [call],
                                       running := old(config.env).running + [call])
    {
      var call := ApplyCall(last, proposal);
      config.env := config.env.(applies := config.env.applies + [call], running := config.env.running + [call]);
    }

    method UpdateCommitQueue(p: Proposal)
      requires Valid()
      modifies `committedQueue, `executingProposals, config`env
      ensures Valid() && Abs() == RM.UpdateCommitQueue(old(Abs()), p)
    {
      hide PBFTCacheProcessor.Valid, PBFTConfig.Sound, RM.TryApply;
      if p.hash in executingProposals {
        return;
      }
      committedQueue := RM.Insert(committedQueue, p);
      var applied := TryToApplyCommitQueue();
    }

    /** A cache saw a commit quorum for `p`. */
    method Decide(p: Proposal, ghost r: RM.Replica)
      requires Is(r)
      modifies `committedQueue, `executingProposals, config`env
      ensures Is(RM.UpdateCommitQueue(r.(env := r.env.(decided := r.env.decided + [p])), p))
    {
      hide PBFTCacheProcessor.Valid, PBFTCacheProcessor.AbsCaches, PBFTConfig.Sound, PBFTCache.Valid, RM.UpdateCommitQueue;
      config.env := config.env.(decided := config.env.decided + [p]);
      UpdateCommitQueue(p);
    }

    // ---- Ordering ----

    method LockAt(i: int, ghost r: RM.Replica) returns (decided: Option<Proposal>)
      requires Is(r) && i in caches
      modifies owned, config`env
      ensures Is(RM.LockAt(r, i))
      ensures var (c, enough) := CM.CheckPrecommit(RM.CacheAt(r, i), r.cfg);
        if enough then c.precommit.Some? && decided.Some? && decided == c.precommit.value.proposal else decided.None?
    {
      hide PBFTCache.Valid, PBFTCacheProcessor.Valid, PBFTCacheProcessor.AbsCaches, PBFTConfig.Sound,
        PBFTConfig.Abs, CM.CheckPrecommit, CM.VotesCast, PBFTCache.ReadyToLock, PBFTCache.Votes;
      var c := CacheAt(i);
      label before:
      var enough := c.CheckAndPreCommit();
      OneChanged@before(i);
      decided := if enough then c.precommit.value.proposal else None;
    }

    method PrecommitAt(i: int, ghost r: RM.Replica)
      requires Is(r) && i in caches
      modifies owned, config`env, `committedQueue, `executingProposals
      ensures Is(RM.PrecommitAt(r, i))
    {
      hide PBFTCacheProcessor.Is, CM.CheckPrecommit, RM.LockAt, RM.UpdateCommitQueue;
      var decided := LockAt(i, r);
      if decided.Some? {
        Decide(decided.value, RM.LockAt(r, i));
      }
    }

    method PrecommitAll(ks: seq<int>, ghost r: RM.Replica)
      requires Is(r) && forall k :: k in ks ==> k in caches
      modifies owned, config`env, `committedQueue, `executingProposals
      ensures Is(RM.PrecommitEach(r, ks))
    {
      hide *;
      PrecommitStep(r, ks, 0);
      for n := 0 to |ks|
        invariant Is(RM.PrecommitEach(r, ks[..n]))
      {
        PrecommitStep(r, ks, n);
        PrecommitAt(ks[n], RM.PrecommitEach(r, ks[..n]));
      }
      PrecommitStep(r, ks, |ks|);
    }

    method CheckAndPreCommit()
      requires Valid()
      modifies owned, config`env, `committedQueue, `executingProposals
      ensures Valid() && Abs() == RM.CheckAndPreCommit(old(Abs()))
    {
      hide PBFTCacheProcessor.Valid, RM.PrecommitEach, Ascending;
      assert Abs().caches.Keys == caches.Keys;
      PrecommitAll(Ascending(caches.Keys), Abs());
    }

    method SubmitAt(i: int, ghost r: RM.Replica) returns (decided: Option<Proposal>)
      requires Is(r) && i in caches
      modifies owned
      ensures var (c, enough) := CM.CheckCommit(RM.CacheAt(r, i), r.cfg);
        && Is(RM.Put(r, c.(index := i)))
        && if enough then c.precommit.Some? && decided.Some? && decided == c.precommit.value.proposal else decided.None?
    {
      hide PBFTCache.Valid, PBFTCacheProcessor.Valid, PBFTCacheProcessor.AbsCaches, PBFTConfig.Sound,
        PBFTConfig.Abs, CM.CheckCommit;
      var c := CacheAt(i);
      label before:
      var enough := c.CheckAndCommit();
      OneChanged@before(i);
      decided := if enough then c.precommit.value.proposal else None;
    }

    method CommitAt(i: int, ghost r: RM.Replica)
      requires Is(r) && i in caches
      modifies owned, config`env, config`toView, `committedQueue, `executingProposals
      ensures Is(RM.CommitAt(r, i))
    {
      hide PBFTCacheProcessor.Is, CM.CheckCommit, RM.UpdateCommitQueue;
      ghost var r1 := RM.Put(r, CM.CheckCommit(RM.CacheAt(r, i), r.cfg).0.(index := i));
      var decided := SubmitAt(i, r);
      if decided.Some? {
        Decide(decided.value, r1);
        ResetToView(RM.UpdateCommitQueue(r1.(env := r1.env.(decided := r1.env.decided + [decided.value])), decided.value));
      }
    }

    method ResetToView(ghost r: RM.Replica)
      requires Is(r)
      modifies config`toView
      ensures Is(r.(cfg := r.cfg.ResetToView()))
    {
      hide PBFTCacheProcessor.Valid;
      config.ResetToView();
    }

    method CommitAll(ks: seq<int>, ghost r: RM.Replica)
      requires Is(r) && forall k :: k in ks ==> k in caches
      modifies owned, config`env, config`toView, `committedQueue, `executingProposals
      ensures Is(RM.CommitEach(r, ks))
    {
      hide *;
      CommitStep(r, ks, 0);
      for n := 0 to |ks|
        invariant Is(RM.CommitEach(r, ks[..n]))
      {
        CommitStep(r, ks, n);
        CommitAt(ks[n], RM.CommitEach(r, ks[..n]));
      }
      CommitStep(r, ks, |ks|);
    }

    method CheckAndCommit()
      requires Valid()
      modifies owned, config`env, config`toView, `committedQueue, `executingProposals
      ensures Valid() && Abs() == RM.CheckAndCommit(old(Abs()))
    {
      hide PBFTCacheProcessor.Valid, RM.CommitEach, Ascending;
      assert Abs().caches.Keys == caches.Keys;
      CommitAll(Ascending(caches.Keys), Abs());
    }

    method EraseExecutedProposal(h: Hash)
      requires Valid()
      modifies `executingProposals
      ensures Valid() && Abs() == RM.EraseExecuted(old(Abs()), h)
    {
      hide PBFTCacheProcessor.Valid, PBFTConfig.Sound;
      if h !in executingProposals {
        assert executingProposals == map k | k in executingProposals && k != h :: executingProposals[k];
        return;
      }
      executingProposals := executingProposals - {h};
      assert executingProposals == map k | k in old(executingProposals) && k != h :: old(executingProposals)[k];
    }

    /** Erase the executions for committed indices. */
    method EraseExpired(all: map<Hash, int>, committed: int) returns (left: map<Hash, int>)
      ensures left == map h | h in all && all[h] > committed :: all[h]
    {
      var hs := CM.Voters(all);
      Visit(all, 0);
      ClearedEnds(all, committed);
      hide *;
      left := all;
      for n := 0 to |hs|
        invariant Cleared(all, left, FirstVoters(hs, n), committed)
      {
        Visit(all, n);
        ClearedMore(all, left, FirstVoters(hs, n), hs[n], committed);
        if all[hs[n]] <= committed {
          left := left - {hs[n]};
        }
      }
      Visit(all, |hs|);
    }

    method ClearExpiredExecutingProposal()
      requires Valid()
      modifies `executingProposals
      ensures Valid() && Abs() == RM.ClearExpired(old(Abs()))
    {
      hide PBFTCacheProcessor.Valid;
      executingProposals := EraseExpired(executingProposals, config.committedProposal.value.index);
    }

    // ---- Checkpoints ----

    method TryToCommitStableCheckPoint()
      requires Valid()
      modifies `stableCheckPointQueue, config`env
      ensures Valid() && Abs() == RM.TryCommitStable(old(Abs()))
    {
      hide PBFTCacheProcessor.Valid, PBFTConfig.Sound, RM.DropBelow, PBFTCacheProcessor.AbsCaches;
      PopCommitted();
      var committed := config.committedProposal.value.index;
      if stableCheckPointQueue != [] && stableCheckPointQueue[0].index == committed + 1 {
        var p := stableCheckPointQueue[0];
        stableCheckPointQueue := stableCheckPointQueue[1..];
        config.env := config.env.(ledger := config.env.ledger + [p], committing := config.env.committing + [p]);
      }
    }

    /** Drop the checkpoints of blocks that reached the ledger already. */
    method PopCommitted()
      requires config.Ready()
      modifies `stableCheckPointQueue
      ensures stableCheckPointQueue
        == RM.DropBelow(old(stableCheckPointQueue), config.committedProposal.value.index + 1)
    {
      var committed := config.committedProposal.value.index;
      while stableCheckPointQueue != [] && stableCheckPointQueue[0].index <= committed
        invariant RM.DropBelow(stableCheckPointQueue, committed + 1)
               == RM.DropBelow(old(stableCheckPointQueue), committed + 1)
      {
        stableCheckPointQueue := stableCheckPointQueue[1..];
      }
    }

    method UpdateStableCheckPointQueue(p: Proposal, ghost r: RM.Replica)
      requires Is(r)
      modifies `stableCheckPointQueue, config`env
      ensures Is(RM.UpdateStableQueue(r, p))
    {
      hide PBFTCacheProcessor.Valid, RM.TryCommitStable, RM.Insert;
      stableCheckPointQueue := RM.Insert(stableCheckPointQueue, p);
      TryToCommitStableCheckPoint();
    }

    method StabilizeAt(i: int, found: seq<Proposal>, ghost r: RM.Replica) returns (more: seq<Proposal>)
      requires Is(r) && i in caches
      modifies owned
      ensures Is(RM.StabilizeOne(r, found, i).0) && more == RM.StabilizeOne(r, found, i).1
    {
      hide PBFTCache.Valid, PBFTCacheProcessor.Valid, PBFTCacheProcessor.AbsCaches, PBFTConfig.Sound,
        PBFTConfig.Abs, CM.CheckStable;
      var c := CacheAt(i);
      label before:
      var stable := c.CheckAndCommitStableCheckPoint();
      OneChanged@before(i);
      more := if stable && c.checkpointProposal.Some? then found + [c.checkpointProposal.value] else found;
    }

    method StabilizeAll(ks: seq<int>, ghost r: RM.Replica) returns (found: seq<Proposal>)
      requires Is(r) && forall k :: k in ks ==> k in caches
      modifies owned
      ensures Is(RM.StabilizeEach(r, ks).0) && found == RM.StabilizeEach(r, ks).1
    {
      hide *;
      StabilizeStep(r, ks, 0);
      found := [];
      for n := 0 to |ks|
        invariant Is(RM.StabilizeEach(r, ks[..n]).0) && found == RM.StabilizeEach(r, ks[..n]).1
      {
        StabilizeStep(r, ks, n);
        found := StabilizeAt(ks[n], found, RM.StabilizeEach(r, ks[..n]).0);
      }
      StabilizeStep(r, ks, |ks|);
    }

    method QueueAll(ps: seq<Proposal>, ghost r: RM.Replica)
      requires Is(r)
      modifies `stableCheckPointQueue, config`env
      ensures Is(RM.QueueEach(r, ps))
    {
      hide *;
      QueueStep(r, ps, 0);
      for n := 0 to |ps|
        invariant Is(RM.QueueEach(r, ps[..n]))
      {
        QueueStep(r, ps, n);
        UpdateStableCheckPointQueue(ps[n], RM.QueueEach(r, ps[..n]));
      }
      QueueStep(r, ps, |ps|);
    }

    method CheckAndCommitStableCheckPoint()
      requires Valid()
      modifies owned, `stableCheckPointQueue, config`env
      ensures Valid() && Abs() == RM.CheckAndCommitStable(old(Abs()))
    {
      hide PBFTCacheProcessor.Valid, RM.StabilizeEach, RM.QueueEach, Ascending;
      ghost var r := Abs();
      assert r.caches.Keys == caches.Keys;
      var stabled := StabilizeAll(Ascending(caches.Keys), r);
      QueueAll(stabled, RM.StabilizeEach(r, Ascending(r.caches.Keys)).0);
    }

    // ---- View changes ----

    method AddViewChangeReq(vc: ViewChange)
      requires Valid()
      modifies `viewChangeCache, `viewChangeWeight, `maxCommittedIndex, `maxPrecommitIndex
      ensures Valid() && Abs() == RM.AddViewChange(old(Abs()), vc)
    {
      assert Abs().cfg.nodes == config.nodes && Abs().changes == viewChangeCache;
      hide PBFTCacheProcessor.Valid, PBFTCacheProcessor.Abs, PBFTConfig.Sound, RM.RaiseTo, RM.RaiseToAll;
      if vc.view in viewChangeCache && vc.from in viewChangeCache[vc.view] {
        return;
      }
      var node := config.NodeByIndex(vc.from);
      if node.None? {
        return;
      }
      hide RM.ChangesFor;
      FileViewChange(vc, node.value.weight);
      RaiseLimits(vc);
    }

    /** Cache the view change of a new sender and add the weight of that sender. */
    method FileViewChange(vc: ViewChange, weight: nat)
      requires Valid() && vc.from < |config.nodes| && config.nodes[vc.from].weight == weight
      requires !(vc.view in viewChangeCache && vc.from in viewChangeCache[vc.view])
      modifies `viewChangeCache, `viewChangeWeight
      ensures Valid()
      ensures Abs() == old(Abs()).(changes :=
        old(Abs()).changes[vc.view := RM.ChangesFor(old(Abs()), vc.view)[vc.from := vc]])
    {
      hide PBFTCacheProcessor.CachesOk, PBFTCacheProcessor.AbsCaches, RecoversOk, PBFTConfig.Sound, PBFTConfig.Abs;
      var filed: map<nat, ViewChange> := if vc.view in viewChangeCache then viewChangeCache[vc.view] else map[];
      var before := if vc.view in viewChangeWeight then viewChangeWeight[vc.view] else 0;
      FiledMore(config.nodes, viewChangeCache, viewChangeWeight, vc, before + weight);
      hide ChangesOk;
      viewChangeCache := viewChangeCache[vc.view := filed[vc.from := vc]];
      viewChangeWeight := viewChangeWeight[vc.view := before + weight];
    }

    /** Raise the highest committed and prepared indices seen for the view. */
    method RaiseLimits(vc: ViewChange)
      requires Valid()
      modifies `maxCommittedIndex, `maxPrecommitIndex
      ensures Valid()
      ensures Abs() == old(Abs()).(maxCommitted := RM.RaiseTo(old(Abs()).maxCommitted, vc.view, vc.committed.index),
                                   maxPrecommit := RM.RaiseToAll(old(Abs()).maxPrecommit, vc.view, vc.prepared))
    {
      hide PBFTCacheProcessor.Valid, PBFTCacheProcessor.AbsCaches, PBFTConfig.Sound, PBFTConfig.Abs, RM.RaiseToAll;
      if vc.view !in maxCommittedIndex || maxCommittedIndex[vc.view] < vc.committed.index {
        maxCommittedIndex := maxCommittedIndex[vc.view := vc.committed.index];
      }
      maxPrecommitIndex := RaiseAll(maxPrecommitIndex, vc.view, vc.prepared);
    }

    method RaiseAll(limits: map<nat, int>, v: nat, ms: seq<Msg>) returns (raised: map<nat, int>)
      ensures raised == RM.RaiseToAll(limits, v, ms)
    {
      raised := limits;
      for n := 0 to |ms|
        invariant raised == RM.RaiseToAll(limits, v, ms[..n])
      {
        assert ms[..n + 1][..n] == ms[..n];
        if v !in raised || raised[v] < ms[n].index {
          raised := raised[v := ms[n].index];
        }
      }
      assert ms[..|ms|] == ms;
    }

    method BareAt(i: int) returns (bare: Option<Msg>)
      requires Valid() && i in caches
      ensures i in AbsCaches() && BareList(AbsCaches()[i]) == if bare.Some? then [bare.value] else []
    {
      bare := caches[i].precommitWithoutData;
    }

    /** The lock certificates of the caches, in index order. */
    method BareLocks(ks: seq<int>) returns (ms: seq<Msg>)
      requires Valid() && forall k :: 0 <= k < |ks| ==> ks[k] in caches
      ensures ms == RM.PreparedOf(AbsCaches(), ks)
    {
      hide *;
      ghost var all := AbsCaches();
      AbsKeys();
      PreparedStep(all, ks, 0);
      ms := [];
      for n := 0 to |ks|
        invariant ms == RM.PreparedOf(all, ks[..n])
      {
        PreparedStep(all, ks, n);
        var bare := BareAt(ks[n]);
        if bare.Some? {
          ms := ms + [bare.value];
        }
      }
      PreparedStep(all, ks, |ks|);
    }

    method PreCommitCachesWithoutData() returns (ms: seq<Msg>)
      requires Valid()
      ensures ms == RM.Prepared(Abs())
      ensures forall m :: m in ms <==> exists i :: i in caches && caches[i].precommitWithoutData == Some(m)
    {
      hide PBFTCacheProcessor.Valid, RM.PreparedOf, Ascending;
      assert AbsCaches().Keys == caches.Keys;
      var ks := Ascending(caches.Keys);
      assert forall k :: 0 <= k < |ks| ==> ks[k] in ks;
      PreparedMembers(AbsCaches(), ks);
      ms := BareLocks(ks);
    }

    /** Keep what was asked for after view `v` by replicas whose last block is not outdated. */
    method EraseInvalid(book: RM.ChangeBook, v: nat, index: int) returns (left: RM.ChangeBook)
      ensures left == RM.StillValid(book, v, index)
    {
      var vs := CM.Voters(book);
      Visit(book, 0);
      LeftOverEnds(book, v, index);
      hide *;
      left := book;
      for k := 0 to |vs|
        invariant LeftOver(book, left, v, index, FirstVoters(vs, k))
      {
        Visit(book, k);
        LeftOverMore(book, left, v, index, FirstVoters(vs, k), vs[k]);
        if vs[k] <= v {
          left := left - {vs[k]};
        } else {
          var valid := EraseOutdated(book[vs[k]], index);
          left := left[vs[k] := valid];
        }
      }
      Visit(book, |vs|);
    }

    method EraseOutdated(vcs: map<nat, ViewChange>, index: int) returns (valid: map<nat, ViewChange>)
      ensures valid == RM.UpToDate(vcs, index)
    {
      var ns := CM.Voters(vcs);
      Visit(vcs, 0);
      SiftedEnds(vcs, index);
      hide *;
      valid := vcs;
      for k := 0 to |ns|
        invariant Sifted(vcs, valid, index, FirstVoters(ns, k))
      {
        Visit(vcs, k);
        SiftedMore(vcs, valid, index, FirstVoters(ns, k), ns[k]);
        if vcs[ns[k]].index < index {
          valid := valid - {ns[k]};
        }
      }
      Visit(vcs, |ns|);
    }

    /** Recount the weight of every view. */
    method ReCalculateViewChangeWeight(book: RM.ChangeBook) returns (weights: map<nat, nat>)
      requires forall v, n :: v in book && n in book[v] ==> book[v][n].from == n
      ensures ChangesOk(config.nodes, book, weights)
    {
      var vs := CM.Voters(book);
      Visit(book, 0);
      RecountedEnds(config.nodes, book);
      hide *;
      weights := map[];
      for k := 0 to |vs|
        invariant Recounted(config.nodes, book, weights, FirstVoters(vs, k))
      {
        Visit(book, k);
        RecountedMore(config.nodes, book, weights, FirstVoters(vs, k), vs[k]);
        var weight := CountSenders(book[vs[k]]);
        weights := weights[vs[k] := weight];
      }
      Visit(book, |vs|);
    }

    method CountSenders(vcs: map<nat, ViewChange>) returns (weight: nat)
      ensures weight == Weight(config.nodes, vcs.Keys)
    {
      hide *;
      var ns := CM.Voters(vcs);
      Visit(vcs, 0);
      WeightOfNone(config.nodes);
      weight := 0;
      for k := 0 to |ns|
        invariant weight == Weight(config.nodes, FirstVoters(ns, k))
      {
        Visit(vcs, k);
        WeightAdd(config.nodes, FirstVoters(ns, k), ns[k]);
        var node := config.NodeByIndex(ns[k]);
        if node.Some? {
          weight := weight + node.value.weight;
        }
      }
      Visit(vcs, |ns|);
    }

    lemma FiledChanges()
      requires Valid()
      ensures forall w, n :: w in viewChangeCache && n in viewChangeCache[w] ==> viewChangeCache[w][n].from == n
    {
      hide PBFTCacheProcessor.CachesOk, RecoversOk;
    }

    method SetViewChanges(book: RM.ChangeBook, weights: map<nat, nat>)
      requires Valid() && ChangesOk(config.nodes, book, weights)
      modifies `viewChangeCache, `viewChangeWeight
      ensures Valid() && viewChangeCache == book
    {
      hide PBFTCacheProcessor.CachesOk, RecoversOk, ChangesOk;
      viewChangeCache, viewChangeWeight := book, weights;
    }

    method RemoveInvalidViewChange(v: nat, index: int)
      requires Valid()
      modifies `viewChangeCache, `viewChangeWeight
      ensures Valid() && Abs() == RM.RemoveInvalidChanges(old(Abs()), v, index)
    {
      hide PBFTCacheProcessor.Valid, PBFTCacheProcessor.AbsCaches, PBFTConfig.Sound, RM.StillValid, ChangesOk;
      var left := EraseInvalid(viewChangeCache, v, index);
      FiledChanges();
      StillFiled(viewChangeCache, v, index);
      var weights := ReCalculateViewChangeWeight(left);
      SetViewChanges(left, weights);
    }

    // ---- Eviction and reset ----

    method EvictAt(i: int, number: int, ghost r: RM.Replica)
      requires Is(r)
      modifies `caches
      ensures Is(r.(caches := EvictOne(r.caches, number, i)))
    {
      hide ChangesOk, RecoversOk, PBFTCache.Valid, PBFTConfig.Sound, PBFTConfig.Abs;
      if i in caches && (i <= number || caches[i].stableCommitted) {
        caches := caches - {i};
        assert AbsCaches() == old(AbsCaches()) - {i};
      }
    }

    method EvictCaches(ks: seq<int>, number: int, ghost r: RM.Replica)
      requires Is(r)
      modifies `caches
      ensures Is(r.(caches := EvictEach(r.caches, number, ks)))
    {
      hide *;
      EvictStep(r.caches, number, ks, 0);
      for n := 0 to |ks|
        invariant Is(r.(caches := EvictEach(r.caches, number, ks[..n])))
      {
        EvictStep(r.caches, number, ks, n);
        EvictAt(ks[n], number, r.(caches := EvictEach(r.caches, number, ks[..n])));
      }
      EvictStep(r.caches, number, ks, |ks|);
    }

    method RemoveConsensusedCache(v: nat, number: int)
      requires Valid()
      modifies `caches, `viewChangeCache, `viewChangeWeight, `maxPrecommitIndex, `maxCommittedIndex, `newViewGenerated
      ensures Valid() && Abs() == RM.RemoveConsensused(old(Abs()), v, number)
    {
      assert Abs().caches.Keys == caches.Keys;
      EvictAll(Abs().caches, number);
      hide PBFTCacheProcessor.Valid, PBFTConfig.Sound, PBFTConfig.Abs, PBFTCacheProcessor.AbsCaches, EvictEach, Ascending,
        RM.Unfinished, RM.StillValid;
      EvictCaches(Ascending(caches.Keys), number, Abs());
      RemoveInvalidViewChange(v, number);
      ClearLimits();
    }

    method ClearLimits()
      requires Valid()
      modifies `maxPrecommitIndex, `maxCommittedIndex, `newViewGenerated
      ensures Valid() && Abs() == old(Abs()).(maxPrecommit := map[], maxCommitted := map[], newViewSent := false)
    {
      hide PBFTCacheProcessor.Valid, PBFTConfig.Sound, PBFTConfig.Abs, PBFTCacheProcessor.AbsCaches;
      maxPrecommitIndex, maxCommittedIndex, newViewGenerated := map[], map[], false;
    }

    method ResetAt(i: int, v: nat, ghost r: RM.Replica)
      requires Is(r) && i in caches
      modifies owned
      ensures Is(r.(caches := ResetOne(r.caches, v, i)))
    {
      hide PBFTCache.Valid, ChangesOk, RecoversOk, PBFTConfig.Sound, PBFTConfig.Abs, CM.ResetView, PBFTCache.Abs;
      assert Abs().caches.Keys == caches.Keys;
      hide PBFTCacheProcessor.Valid, PBFTCacheProcessor.AbsCaches;
      var c := CacheAt(i);
      label before:
      c.ResetCache(v);
      OneChanged@before(i);
    }

    method ResetCaches(ks: seq<int>, v: nat, ghost r: RM.Replica)
      requires Is(r) && forall k :: k in ks ==> k in caches
      modifies owned
      ensures Is(r.(caches := ResetEach(r.caches, v, ks)))
    {
      hide *;
      ResetStep(r.caches, v, ks, 0);
      for n := 0 to |ks|
        invariant Is(r.(caches := ResetEach(r.caches, v, ks[..n])))
      {
        ResetStep(r.caches, v, ks, n);
        ResetAt(ks[n], v, r.(caches := ResetEach(r.caches, v, ks[..n])));
      }
      ResetStep(r.caches, v, ks, |ks|);
    }

    method EraseUpTo<V>(book: map<nat, V>, v: nat) returns (left: map<nat, V>)
      ensures left == RM.AfterView(book, v)
    {
      var vs := CM.Voters(book);
      Visit(book, 0);
      TrimmedEnds(book, v);
      hide *;
      left := book;
      for k := 0 to |vs|
        invariant Trimmed(book, left, v, FirstVoters(vs, k))
      {
        Visit(book, k);
        TrimmedMore(book, left, v, FirstVoters(vs, k), vs[k]);
        if vs[k] <= v {
          left := left - {vs[k]};
        }
      }
      Visit(book, |vs|);
    }

    method RemoveInvalidRecoverCache(v: nat)
      requires Valid()
      modifies `recoverReqCache, `recoverCacheWeight
      ensures Valid() && Abs() == old(Abs()).(recovers := RM.AfterView(old(Abs()).recovers, v))
    {
      hide PBFTCacheProcessor.CachesOk, ChangesOk, PBFTConfig.Sound, PBFTConfig.Abs, PBFTCacheProcessor.AbsCaches,
        RM.AfterView, RecoversOk;
      RecoversAfter(config.nodes, recoverReqCache, recoverCacheWeight, v);
      recoverReqCache := EraseUpTo(recoverReqCache, v);
      recoverCacheWeight := EraseUpTo(recoverCacheWeight, v);
    }

    method ResetCacheAfterViewChange(v: nat, index: int)
      requires Valid()
      modifies owned, `maxPrecommitIndex, `maxCommittedIndex, `newViewGenerated, `viewChangeCache, `viewChangeWeight,
        `recoverReqCache, `recoverCacheWeight
      ensures Valid() && Abs() == RM.ResetAfterViewChange(old(Abs()), v, index)
    {
      assert Abs().caches.Keys == caches.Keys;
      ResetAll(Abs().caches, v);
      hide PBFTCacheProcessor.Valid, PBFTConfig.Sound, PBFTConfig.Abs, PBFTCacheProcessor.AbsCaches, ResetEach, Ascending,
        RM.ResetCaches, RM.StillValid, RM.AfterView;
      ResetCaches(Ascending(caches.Keys), v, Abs());
      ClearLimits();
      RemoveInvalidViewChange(v, index);
      RemoveInvalidRecoverCache(v);
    }

    // ---- Recovery ----

    method AddRecoverReqCache(m: Msg)
      requires Valid()
      modifies `recoverReqCache, `recoverCacheWeight
      ensures Valid() && Abs() == RM.AddRecover(old(Abs()), m)
    {
      hide PBFTCacheProcessor.CachesOk, ChangesOk, PBFTConfig.Sound, PBFTConfig.Abs, PBFTCacheProcessor.AbsCaches, RecoversOk;
      if m.view in recoverReqCache && m.from in recoverReqCache[m.view] {
        return;
      }
      RecoveredMore(config.nodes, recoverReqCache, recoverCacheWeight, m);
      var votes: map<nat, Msg> := if m.view in recoverReqCache then recoverReqCache[m.view] else map[];
      recoverReqCache := recoverReqCache[m.view := votes[m.from := m]];
      var node := config.NodeByIndex(m.from);
      if node.Some? {
        var before := if m.view in recoverCacheWeight then recoverCacheWeight[m.view] else 0;
        recoverCacheWeight := recoverCacheWeight[m.view := before + node.value.weight];
      }
    }

    /** The highest positive view that a quorum reports, or zero. */
    method RecoveredView() returns (best: nat)
      requires Valid()
      ensures best == RM.RecoveredView(config.Abs(), recoverReqCache, Ascending(recoverReqCache.Keys))
    {
      hide *;
      RecoverFacts();
      var vs := CM.Voters(recoverCacheWeight);
      Visit(recoverCacheWeight, 0);
      HighestNone(config.Abs(), recoverReqCache);
      best := 0;
      for k := 0 to |vs|
        invariant Highest(config.Abs(), recoverReqCache, FirstVoters(vs, k), best)
      {
        Visit(recoverCacheWeight, k);
        HighestMore(config.Abs(), recoverReqCache, recoverCacheWeight, FirstVoters(vs, k), vs[k], best);
        if recoverCacheWeight[vs[k]] >= config.minRequiredQuorum && best < vs[k] {
          best := vs[k];
        }
      }
      Visit(recoverCacheWeight, |vs|);
      RecordedSuffices(config.Abs(), recoverReqCache, recoverCacheWeight, best);
    }

    lemma RecoverFacts()
      requires Valid()
      ensures config.minRequiredQuorum == config.Abs().Quorum() > 0
      ensures RecoversOk(config.Abs().nodes, recoverReqCache, recoverCacheWeight)
    {
      hide PBFTCacheProcessor.CachesOk, ChangesOk, RecoversOk, Total;
      QuorumIsPositive(config.nodes);
    }

    method EnterView(v: nat)
      requires Valid()
      modifies config`startRecovered, config`view, config`toView, config`timeoutState
      ensures Valid() && Abs() == old(Abs()).(cfg := old(Abs()).cfg.ResetNewView(v))
    {
      hide PBFTCacheProcessor.Valid, PBFTConfig.Sound, PBFTCacheProcessor.AbsCaches;
      config.ResetNewViewState(v);
    }

    method ClearRecovers()
      requires Valid()
      modifies `recoverReqCache, `recoverCacheWeight
      ensures Valid() && Abs() == old(Abs()).(recovers := map[])
    {
      hide PBFTCacheProcessor.CachesOk, ChangesOk, PBFTConfig.Sound, PBFTConfig.Abs, PBFTCacheProcessor.AbsCaches;
      recoverReqCache, recoverCacheWeight := map[], map[];
    }

    method CheckAndTryToRecover() returns (recovered: bool)
      requires Valid()
      modifies owned, `maxPrecommitIndex, `maxCommittedIndex, `newViewGenerated, `viewChangeCache, `viewChangeWeight,
        `recoverReqCache, `recoverCacheWeight, config`startRecovered, config`view, config`toView, config`timeoutState
      ensures Valid() && (Abs(), recovered) == RM.TryRecover(old(Abs()))
    {
      hide PBFTCacheProcessor.Valid, PBFTConfig.Sound, PBFTCacheProcessor.AbsCaches, RM.RecoveredView, RM.ResetAfterViewChange;
      var v := RecoveredView();
      if v == 0 {
        return false;
      }
      EnterView(v);
      ResetCacheAfterViewChange(v, config.committedProposal.value.index);
      ClearRecovers();
      return true;
    }

    // ---- New views ----

    lemma NewViewFacts()
      requires Valid()
      ensures config.committedProposal.Some? && config.nodes != [] && config.Derived()
      ensures config.toView in viewChangeWeight <==> config.toView in viewChangeCache
      ensures RM.CanBuildNewView(Abs()) <==>
        && config.committedProposal.value.index >= config.syncingHighestNumber && !newViewGenerated
        && config.LeaderInPeriod(config.progressedIndex, config.toView) == config.nodeIndex
        && config.toView in viewChangeWeight && viewChangeWeight[config.toView] >= config.minRequiredQuorum
    {
      assert config.minRequiredQuorum == QuorumOf(config.nodes);
      hide PBFTCacheProcessor.CachesOk, PBFTCacheProcessor.AbsCaches, RecoversOk, Weight, Sealing.IndexOf,
        PBFTConfig.LeaderInPeriod, Cfg.LeaderIn, QuorumOf;
    }

    /** This node leads the view to reach and holds a quorum of view changes for it. */
    method CanBuildNewView() returns (can: bool)
      requires Valid()
      ensures can == RM.CanBuildNewView(Abs())
      ensures can ==> config.toView in viewChangeCache
    {
      hide *;
      NewViewFacts();
      if config.committedProposal.value.index < config.syncingHighestNumber {
        return false;
      }
      if newViewGenerated || config.LeaderInPeriod(config.progressedIndex, config.toView) != config.nodeIndex {
        return false;
      }
      if config.toView !in viewChangeWeight {
        return false;
      }
      return viewChangeWeight[config.toView] >= config.minRequiredQuorum;
    }

    method BuildNewView() returns (nv: NewView)
      requires Valid() && config.toView in viewChangeCache
      ensures nv == RM.BuildNewView(Abs())
    {
      hide PBFTCacheProcessor.Valid, PBFTCacheProcessor.AbsCaches, PBFTConfig.Sound, RM.GeneratePrePrepares, RM.ChangeList;
      var vcs := ListViewChanges(viewChangeCache[config.toView]);
      var list := GeneratePrePrepareMsg(vcs);
      nv := NewView(config.toView, config.committedProposal.value.index, config.committedProposal.value.hash,
                    config.nodeIndex, config.id, vcs, list);
    }

    method CheckAndTryIntoNewView() returns (nv: Option<NewView>)
      requires Valid()
      modifies `newViewGenerated, config`env
      ensures Valid() && (Abs(), nv) == RM.CheckIntoNewView(old(Abs()))
    {
      hide PBFTCacheProcessor.Valid, PBFTCacheProcessor.AbsCaches, PBFTConfig.Sound, PBFTConfig.Abs, RM.CanBuildNewView,
        RM.BuildNewView;
      var can := CanBuildNewView();
      if !can {
        return None;
      }
      var msg := BuildNewView();
      newViewGenerated := true;
      config.env := config.env.(sentNewViews := config.env.sentNewViews + [msg]);
      return Some(msg);
    }

    method ListViewChanges(vcs: map<nat, ViewChange>) returns (l: seq<ViewChange>)
      ensures l == RM.ChangeList(vcs)
    {
      var ns := CM.Voters(vcs);
      l := [];
      for k := 0 to |ns|
        invariant |l| == k && forall j :: 0 <= j < k ==> ns[j] in vcs && l[j] == vcs[ns[j]]
      {
        assert ns[k] in ns;
        l := l + [vcs[ns[k]]];
      }
    }

    /** Offer one prepared proposal after another to the slot of its index. */
    method OfferProposals(slots: map<int, Msg>, floor: int, from: nat, ms: seq<Msg>) returns (filled: map<int, Msg>)
      ensures filled == RM.OfferAll(slots, floor, from, ms)
    {
      hide RM.OfferAll;
      OfferStep(slots, floor, from, ms, 0);
      filled := slots;
      for n := 0 to |ms|
        invariant filled == RM.OfferAll(slots, floor, from, ms[..n])
      {
        OfferStep(slots, floor, from, ms, n);
        var m := ms[n];
        if m.index < floor {
          continue;
        }
        if m.index in filled {
          var kept := filled[m.index];
          if kept.hash != m.hash {
            if kept.view < m.view {
              filled := filled[m.index := m];
            }
          }
          continue;
        }
        filled := filled[m.index := m.(from := from)];
      }
      OfferStep(slots, floor, from, ms, |ms|);
    }

    method FillSlots(vcs: seq<ViewChange>, floor: int) returns (slots: map<int, Msg>)
      ensures slots == RM.Slots(vcs, floor)
    {
      hide *;
      SlotsStep(vcs, floor, 0);
      slots := map[];
      for n := 0 to |vcs|
        invariant slots == RM.Slots(vcs[..n], floor)
      {
        SlotsStep(vcs, floor, n);
        slots := OfferProposals(slots, floor, vcs[n].from, vcs[n].prepared);
      }
      SlotsStep(vcs, floor, |vcs|);
    }

    /** The message that proposes index `i` again. */
    method Repropose(slots: map<int, Msg>, i: int) returns (m: Msg)
      requires config.Ready()
      ensures m == RM.Reproposal(config.Abs(), slots, i)
    {
      var p, from := BareProposal(i, RM.EMPTY_BLOCK), config.nodeIndex;
      if i in slots && slots[i].proposal.Some? {
        p, from := slots[i].proposal.value, slots[i].from;
      }
      m := Msg(PrePrepare, config.toView, p.index, p.hash, from, config.id, Some(p));
    }

    /** Propose again everything after the highest committed index up to the highest prepared
        one. */
    method GeneratePrePrepareMsg(vcs: seq<ViewChange>) returns (list: seq<Msg>)
      requires Valid()
      ensures list == RM.GeneratePrePrepares(Abs(), vcs)
    {
      hide PBFTCacheProcessor.Valid, PBFTCacheProcessor.AbsCaches, PBFTConfig.Sound, RM.Slots, RM.Reproposal;
      var first := config.committedProposal.value.index;
      if config.toView in maxCommittedIndex {
        first := maxCommittedIndex[config.toView];
      }
      var last := config.progressedIndex;
      if config.toView in maxPrecommitIndex {
        last := maxPrecommitIndex[config.toView];
      }
      assert first == RM.FirstCommitted(Abs()) && last == RM.LastPrepared(Abs());
      var slots := FillSlots(vcs, first);
      list := ReproposeAll(slots, first, last);
    }

    method ReproposeAll(slots: map<int, Msg>, first: int, last: int) returns (list: seq<Msg>)
      requires config.Ready()
      ensures |list| == MaxInt(0, last - first)
      ensures forall k :: 0 <= k < |list| ==> list[k] == RM.Reproposal(config.Abs(), slots, first + 1 + k)
    {
      hide RM.Reproposal, PBFTConfig.Abs;
      list := [];
      var i := first + 1;
      while i <= last
        invariant |list| == i - first - 1 && (i <= last + 1 || i == first + 1)
        invariant forall k :: 0 <= k < |list| ==> list[k] == RM.Reproposal(config.Abs(), slots, first + 1 + k)
      {
        var m := Repropose(slots, i);
        list := list + [m];
        i := i + 1;
      }
    }

    method AimBelow(target: nat)
      requires Valid() && target > 0
      modifies config`toView
      ensures Valid() && Abs() == old(Abs()).(cfg := old(Abs()).cfg.(toView := target - 1))
    {
      hide PBFTCacheProcessor.Valid, PBFTCacheProcessor.AbsCaches, PBFTConfig.Sound;
      config.toView := target - 1;
    }

    lemma FastFacts()
      requires Valid()
      ensures config.maxFaultyQuorum == config.Abs().Faulty() && config.Abs().toView == config.toView
      ensures Abs().cfg == config.Abs() && Abs().changes == viewChangeCache
      ensures var vs := Ascending(viewChangeCache.Keys);
        && (forall k :: 0 <= k < |vs| ==> vs[k] in viewChangeCache)
        && (forall i, j :: 0 <= i < j < |vs| ==> vs[i] < vs[j])
    {
      hide PBFTCacheProcessor.CachesOk, ChangesOk, RecoversOk, Total;
      var vs := Ascending(viewChangeCache.Keys);
      assert forall k :: 0 <= k < |vs| ==> vs[k] in vs;
    }

    /** Enough weight asks for views above the one to reach: aim just below the smallest. */
    method TryToTriggerFastViewChange() returns (target: nat)
      requires Valid()
      modifies config`toView
      ensures Valid() && (Abs(), target) == RM.TryFastViewChange(old(Abs()))
    {
      hide *;
      FastIs(Abs());
      FastFacts();
      var vs := Ascending(viewChangeCache.Keys);
      RM.SmallestAmong(config.toView, vs);
      var weight: nat;
      weight, target := LaterViews(vs);
      if weight < config.maxFaultyQuorum + 1 {
        return 0;
      }
      if config.toView >= target {
        return 0;
      }
      if target > 0 {
        AimBelow(target);
      }
    }

    /** The weight behind the views above the one to reach, and the smallest such view. */
    method LaterViews(vs: seq<int>) returns (weight: nat, target: nat)
      requires config.Ready() && (forall i, j :: 0 <= i < j < |vs| ==> vs[i] < vs[j])
      requires forall k :: 0 <= k < |vs| ==> vs[k] in viewChangeCache
      ensures weight == RM.GreaterWeight(config.Abs(), viewChangeCache, vs)
      ensures target == RM.SmallestAbove(config.toView, vs)
    {
      hide RM.GreaterWeight, RM.SmallestAbove, Weight;
      weight, target := 0, 0;
      GreaterStep(config.Abs(), viewChangeCache, vs, 0);
      SmallestStep(config.toView, vs, 0);
      for n := 0 to |vs|
        invariant weight == RM.GreaterWeight(config.Abs(), viewChangeCache, vs[..n])
        invariant target == RM.SmallestAbove(config.toView, vs[..n])
      {
        GreaterStep(config.Abs(), viewChangeCache, vs, n);
        SmallestStep(config.toView, vs, n);
        var view := vs[n];
        if view <= config.toView {
          continue;
        }
        if target == 0 || target > view {
          target := view;
        }
        var more := CountSenders(viewChangeCache[view]);
        weight := weight + more;
      }
      GreaterStep(config.Abs(), viewChangeCache, vs, |vs|);
      SmallestStep(config.toView, vs, |vs|);
    }

    // ---- Certificates of others ----

    method CheckPrecommitMsg(m: Msg) returns (ok: bool)
      requires Valid()
      ensures ok == RM.PrecommitOk(config.Abs(), m)
      ensures ok <==>
        && (config.startRecovered ==> m.view <= config.view) && m.proposal.Some?
        && var p := m.proposal.value;
        && (forall k :: 0 <= k < |p.proofs| ==>
              && p.proofs[k].node < |config.nodes|
              && p.proofs[k].sig == Sig(config.nodes[p.proofs[k].node].id, p.hash))
        && Sum(config.nodes, CM.Listed(p.proofs)) >= QuorumOf(config.nodes)
    {
      hide PBFTCacheProcessor.Valid, PBFTConfig.Sound, Sum, QuorumOf;
      if config.startRecovered && m.view > config.view {
        return false;
      }
      if m.proposal.None? {
        return false;
      }
      ok := CheckPrecommitWeight(m.proposal.value);
    }

    /** Every listed signature verifies and the listed weights add up to a quorum. */
    method CheckPrecommitWeight(p: Proposal) returns (ok: bool)
      requires Valid()
      ensures ok == CM.Certified(config.nodes, p.hash, p.proofs)
    {
      hide *;
      config.QuorumIs();
      CM.ProofsStep(config.nodes, p.hash, p.proofs, 0);
      var weight := 0;
      for i := 0 to |p.proofs|
        invariant CM.ProofsValid(config.nodes, p.hash, p.proofs[..i])
        invariant weight == CM.ListWeight(config.nodes, p.proofs[..i])
      {
        CM.ProofsStep(config.nodes, p.hash, p.proofs, i);
        CM.ProofsStep(config.nodes, p.hash, p.proofs, i + 1);
        var proof := p.proofs[i];
        var node := config.NodeByIndex(proof.node);
        if node.None? {
          return false;
        }
        if proof.sig != Sig(node.value.id, p.hash) {
          return false;
        }
        weight := weight + node.value.weight;
      }
      CM.ProofsStep(config.nodes, p.hash, p.proofs, |p.proofs|);
      return weight >= config.minRequiredQuorum;
    }

    // ---- Changes of the shared configuration ----

    /** A block reached the ledger while the node list and the leader period stayed. */
    method ResetConfig(number: nat, hash: Hash, list: seq<Node>, period: Period)
      requires Valid()
      requires list != [] && Sealing.SortNodes(list) == config.nodes && period == config.leaderSwitchPeriod
      modifies config
      ensures Valid() && config.env == old(config.env)
      ensures Abs() == old(Abs()).(cfg := old(Abs()).cfg.ResetConfig(number, hash))
    {
      hide PBFTCacheProcessor.CachesOk, PBFTCacheProcessor.AbsCaches, ChangesOk, RecoversOk, Sealing.SortNodes,
        Sealing.IndexOf, Total, MaxFaulty, MinQuorum;
      var ok := config.ResetConfig(number, hash, list, period);
      SameNodes();
    }

    /** Nothing of this object depends on the configuration but through the node list. */
    twostate lemma SameNodes()
      requires unchanged(this) && config.nodes == old(config.nodes) && old(Valid()) && config.Sound()
      requires forall c :: c in owned ==> unchanged(c)
      ensures Valid() && AbsCaches() == old(AbsCaches())
    {
      hide ChangesOk, RecoversOk;
      forall i | i in caches ensures caches[i].Valid() && caches[i].Abs() == old(caches[i].Abs()) {
        assert caches[i] in owned;
      }
      assert AbsCaches() == old(AbsCaches());
    }

    method Expect(e: int)
      requires Valid()
      modifies config`expectedCheckPoint
      ensures Valid() && Abs() == old(Abs()).(cfg := old(Abs()).cfg.SetExpected(e))
    {
      hide PBFTCacheProcessor.Valid, PBFTCacheProcessor.AbsCaches, PBFTConfig.Sound;
      config.SetExpectedCheckPoint(e);
    }

    method TimeOut()
      requires Valid()
      modifies config`timeoutState, config`toView
      ensures Valid() && Abs() == old(Abs()).(cfg := old(Abs()).cfg.ResetTimeout())
    {
      hide PBFTCacheProcessor.Valid, PBFTCacheProcessor.AbsCaches, PBFTConfig.Sound;
      config.ResetTimeoutState();
    }
  }
}
