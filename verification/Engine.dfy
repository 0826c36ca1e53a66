/** The engine of a replica: message checks and handlers, each one atomic step, proved against
    the functions the network runs on. */
module Engine {
  import opened Types
  import opened Weights
  import opened ConfigModel
  import opened Config
  import opened CacheProcessor
  import opened Steps
  import F = FastViewChange
  import Sealing
  import CM = CacheModel
  import RM = ReplicaModel

  class PBFTEngine {
    const config: PBFTConfig
    const processor: PBFTCacheProcessor

    constructor (config: PBFTConfig, processor: PBFTCacheProcessor)
      requires processor.config == config && processor.Valid()
      ensures this.config == config && this.processor == processor && Valid()
    {
      this.config, this.processor := config, processor;
    }

    ghost predicate Valid()
      reads processor, processor.owned, config
      ensures Valid() ==> processor.config == config && processor.Valid() && config.Sound()
    {
      processor.config == config && processor.Valid()
    }

    // ---- Checks ----

    method CheckPBFTMsgState(m: Msg) returns (valid: bool)
      requires config.Ready()
      ensures valid == config.Abs().MsgStateOk(m)
    {
      if m.proposal.None? {
        return false;
      }
      if m.index < config.lowWaterMark || m.index < config.expectedCheckPoint
         || m.index >= config.progressedIndex + config.limit || m.index <= config.syncingHighestNumber {
        return false;
      }
      if m.view < config.view {
        return false;
      }
      return true;
    }

    method CheckPrePrepareMsg(m: Msg) returns (valid: bool)
      requires Valid()
      ensures valid == RM.PrePrepareOk(processor.Abs(), m)
    {
      hide PBFTCacheProcessor.Valid, PBFTConfig.Sound, PBFTCacheProcessor.AbsCaches, RM.ExistPrePrepareAt,
        RM.ProcessedConflict, RM.PrecommitConflict, Cfg.MsgStateOk;
      valid := CheckPBFTMsgState(m);
      if !valid {
        return false;
      }
      var found := processor.ExistPrePrepare(m);
      if found {
        return false;
      }
      var conflict := processor.ConflictWithProcessedReq(m);
      if conflict {
        return false;
      }
      conflict := processor.ConflictWithPrecommitReq(m);
      return !conflict;
    }

    method CheckSignature(from: nat, signer: NodeId) returns (valid: bool)
      requires config.Ready()
      ensures valid == config.Abs().SignedBy(from, signer)
    {
      var node := config.NodeByIndex(from);
      if node.None? {
        return false;
      }
      return node.value.id == signer;
    }

    method CheckProposalSignature(from: nat, p: Option<Proposal>) returns (valid: bool)
      requires config.Ready()
      ensures valid == config.Abs().ProposalSignatureOk(from, p)
    {
      if p.None? || p.value.sig.None? {
        return false;
      }
      var node := config.NodeByIndex(from);
      if node.None? {
        return false;
      }
      return p.value.sig.value == Sig(node.value.id, p.value.hash);
    }

    method IsSyncingHigher() returns (syncing: bool)
      requires config.Ready()
      ensures syncing == config.Abs().SyncingHigher()
    {
      var committed := config.committedProposal.value.index;
      if config.syncingHighestNumber < committed + config.limit {
        return false;
      }
      return true;
    }

    method CheckPBFTMsg(m: Msg) returns (valid: bool)
      requires Valid()
      ensures valid == RM.VoteOk(processor.Abs(), m)
    {
      hide PBFTCacheProcessor.Valid, PBFTConfig.Sound, PBFTCacheProcessor.AbsCaches, RM.ExistPrePrepareAt,
        RM.ProcessedConflict, Cfg.MsgStateOk, Cfg.SignedBy;
      valid := CheckPBFTMsgState(m);
      if !valid {
        return false;
      }
      if m.from == config.nodeIndex {
        return false;
      }
      var found := processor.ExistPrePrepare(m);
      if found {
        var conflict := processor.ConflictWithProcessedReq(m);
        if conflict {
          return false;
        }
      }
      valid := CheckSignature(m.from, m.signer);
    }

    // ---- Ordering ----

    method BroadcastPrepareMsg(m: Msg)
      requires Valid()
      modifies processor, processor.owned, config`env
      ensures Valid() && fresh(processor.owned - old(processor.owned))
      ensures processor.Abs() == RM.BroadcastPrepare(old(processor.Abs()), m)
    {
      hide PBFTCacheProcessor.Valid, PBFTConfig.Sound, PBFTCacheProcessor.AbsCaches, RM.AddPrepare, RM.CheckAndPreCommit;
      var own := config.Abs().Own(Prepare, m.index, CM.CarriedHash(m));
      processor.AddPrepareCache(own);
      processor.Send(own);
      processor.CheckAndPreCommit();
    }

    /** The message names as its sender the leader of its index in the current view. */
    ghost predicate FromLeader(m: Msg)
      reads config`nodes, config`leaderSwitchPeriod, config`view
    {
      config.nodes != [] && m.from == ((m.index % UINT64) / config.leaderSwitchPeriod + config.view) % |config.nodes|
    }

    ghost predicate SignedBySender(m: Msg)
      reads config`nodes
    {
      m.from < |config.nodes| && config.nodes[m.from].id == m.signer
    }

    lemma LeaderIs(m: Msg)
      requires Valid()
      ensures config.LeaderInPeriod(m.index, config.view) == m.from <==> FromLeader(m)
      ensures config.Abs().SignedBy(m.from, m.signer) <==> SignedBySender(m)
    {
      hide PBFTCacheProcessor.Valid;
    }

    method HandlePrePrepareMsg(m: Msg, verify: bool, fromNewView: bool, checkSignature: bool) returns (ok: bool)
      requires Valid()
      modifies processor, processor.owned, config`env
      ensures Valid() && fresh(processor.owned - old(processor.owned))
      ensures (processor.Abs(), ok) == RM.HandlePrePrepare(old(processor.Abs()), m, verify, fromNewView, checkSignature)
      ensures ok && !fromNewView ==> FromLeader(m) && (checkSignature ==> SignedBySender(m))
      ensures !ok || verify ==> processor.Abs() == old(processor.Abs())
    {
      hide PBFTCacheProcessor.Valid, PBFTConfig.Sound, PBFTCacheProcessor.Abs, RM.AddPrePrepareCache, RM.BroadcastPrepare,
        RM.CheckAndPreCommit, RM.AcceptsPrePrepare, PBFTEngine.FromLeader, PBFTEngine.SignedBySender;
      ok := Accepts(m, fromNewView, checkSignature);
      if !ok {
        return false;
      }
      if !verify {
        processor.AddPrePrepareCache(m);
        BroadcastPrepareMsg(m);
        processor.CheckAndPreCommit();
        return true;
      }
      var leader := config.NodeByIndex(m.from);
      return leader.Some?;
    }

    /** The checks at the start of `HandlePrePrepareMsg`. */
    method Accepts(m: Msg, fromNewView: bool, checkSignature: bool) returns (ok: bool)
      requires Valid()
      ensures ok == RM.AcceptsPrePrepare(processor.Abs(), m, fromNewView, checkSignature)
      ensures ok && !fromNewView ==> FromLeader(m) && (checkSignature ==> SignedBySender(m))
      ensures ok ==> m.proposal.Some?
      ensures |config.nodes| == |processor.Abs().cfg.nodes|
    {
      hide PBFTCacheProcessor.Valid, PBFTConfig.Sound, PBFTCacheProcessor.AbsCaches, RM.PrePrepareOk, Cfg.LeaderIn,
        PBFTConfig.LeaderInPeriod, Cfg.SyncingHigher, Cfg.SignedBy, PBFTEngine.FromLeader, PBFTEngine.SignedBySender;
      LeaderIs(m);
      var syncing := IsSyncingHigher();
      if syncing {
        return false;
      }
      if m.hash in processor.executingProposals {
        return false;
      }
      ok := CheckPrePrepareMsg(m);
      if !ok {
        return false;
      }
      CarriesProposal(m);
      if !fromNewView {
        if config.LeaderInPeriod(m.index, config.view) != m.from {
          return false;
        }
        if checkSignature {
          ok := CheckSignature(m.from, m.signer);
        }
      }
    }

    lemma CarriesProposal(m: Msg)
      requires Valid() && RM.PrePrepareOk(processor.Abs(), m)
      ensures m.proposal.Some?
    {
    }

    method HandlePrepareMsg(m: Msg) returns (ok: bool)
      requires Valid()
      modifies processor, processor.owned, config`env
      ensures Valid() && fresh(processor.owned - old(processor.owned))
      ensures (processor.Abs(), ok) == RM.HandlePrepare(old(processor.Abs()), m)
    {
      hide PBFTCacheProcessor.Valid, PBFTConfig.Sound, PBFTCacheProcessor.AbsCaches, RM.AddPrepare, RM.CheckAndPreCommit,
        RM.VoteOk, Cfg.ProposalSignatureOk;
      ok := CheckPBFTMsg(m);
      if !ok {
        return false;
      }
      ok := CheckProposalSignature(m.from, m.proposal);
      if !ok {
        return false;
      }
      hide PBFTCacheProcessor.Abs;
      processor.AddPrepareCache(m);
      processor.CheckAndPreCommit();
    }

    method HandleCommitMsg(m: Msg) returns (ok: bool)
      requires Valid()
      modifies processor, processor.owned, config`env, config`toView
      ensures Valid() && fresh(processor.owned - old(processor.owned))
      ensures (processor.Abs(), ok) == RM.HandleCommit(old(processor.Abs()), m)
    {
      hide PBFTCacheProcessor.Valid, PBFTConfig.Sound, PBFTCacheProcessor.Abs, RM.AddCommit, RM.CheckAndCommit, RM.VoteOk;
      ok := CheckPBFTMsg(m);
      if !ok {
        return false;
      }
      processor.AddCommitReq(m);
      processor.CheckAndCommit();
    }

    // ---- Checkpoints ----

    method HandleCheckPointMsg(m: Msg) returns (ok: bool)
      requires Valid()
      modifies processor, processor.owned, config`env
      ensures Valid() && fresh(processor.owned - old(processor.owned))
      ensures (processor.Abs(), ok) == RM.HandleCheckPoint(old(processor.Abs()), m)
    {
      hide PBFTCacheProcessor.Valid, PBFTConfig.Sound, PBFTCacheProcessor.AbsCaches, RM.AddCheckPointMsg, RM.TryApply,
        RM.CheckAndCommitStable, Cfg.SyncingHigher, Cfg.SignedBy, Cfg.ProposalSignatureOk;
      if m.index <= config.committedProposal.value.index {
        return false;
      }
      var syncing := IsSyncingHigher();
      if syncing {
        return false;
      }
      ok := CheckSignature(m.from, m.signer);
      if !ok {
        return false;
      }
      ok := CheckProposalSignature(m.from, m.proposal);
      if !ok {
        return false;
      }
      hide PBFTCacheProcessor.Abs;
      processor.AddCheckPointMsg(m);
      var applied := processor.TryToApplyCommitQueue();
      processor.CheckAndCommitStableCheckPoint();
    }

    /** Cast the checkpoint vote for an execution result. */
    method VoteCheckPoint(own: Msg)
      requires Valid()
      modifies processor, processor.owned, config`env
      ensures Valid() && fresh(processor.owned - old(processor.owned))
      ensures processor.Abs() == RM.AddCheckPointMsg(RM.Send(old(processor.Abs()), own), own)
    {
      hide PBFTCacheProcessor.Valid, PBFTConfig.Sound, PBFTCacheProcessor.Abs, RM.AddCheckPointMsg, RM.Send;
      processor.Send(own);
      processor.AddCheckPointMsg(own);
    }

    /** Vote for an execution result and expect the next index. */
    method RecordExecuted(executed: Proposal)
      requires Valid()
      modifies processor, processor.owned, config`env, config`expectedCheckPoint
      ensures Valid() && fresh(processor.owned - old(processor.owned))
      ensures processor.Abs() == RM.RecordExecuted(old(processor.Abs()), executed)
    {
      ViewOf();
      var own := config.Abs().Own(CheckPoint, executed.index, executed.hash);
      hide PBFTCacheProcessor.Valid, PBFTConfig.Sound, PBFTCacheProcessor.Abs, RM.AddCheckPointMsg,
        RM.SetCheckPointProposal, RM.Send;
      VoteCheckPoint(own);
      processor.SetCheckPointProposal(executed);
      processor.Expect(executed.index + 1);
    }

    /** After an execution: report stable checkpoints, execute what is next, forget `h`. */
    method Settle(h: Hash)
      requires Valid()
      modifies processor, processor.owned, config`env
      ensures Valid() && processor.owned == old(processor.owned)
      ensures processor.Abs() == RM.EraseExecuted(RM.TryApply(RM.CheckAndCommitStable(old(processor.Abs()))).0, h)
    {
      hide PBFTCacheProcessor.Valid, PBFTConfig.Sound, PBFTCacheProcessor.Abs, RM.TryApply, RM.CheckAndCommitStable,
        RM.EraseExecuted;
      processor.CheckAndCommitStableCheckPoint();
      var applied := processor.TryToApplyCommitQueue();
      processor.EraseExecutedProposal(h);
    }

    /** The state machine finished: the callback of `ApplyStateMachine` and, unless the block
        is committed already, `onProposalApplySuccess`. */
    method OnProposalApplied(proposal: Proposal, executed: Proposal)
      requires Valid()
      modifies processor, processor.owned, config`env, config`expectedCheckPoint
      ensures Valid() && fresh(processor.owned - old(processor.owned))
      ensures processor.Abs() == RM.OnApplied(old(processor.Abs()), proposal, executed)
    {
      ViewOf();
      hide PBFTCacheProcessor.Valid, PBFTConfig.Sound, PBFTCacheProcessor.Abs, RM.RecordExecuted, RM.TryApply,
        RM.CheckAndCommitStable, RM.EraseExecuted;
      if config.committedProposal.value.index >= proposal.index {
        return;
      }
      RecordExecuted(executed);
      Settle(proposal.hash);
    }

    method Tidy(number: nat)
      requires Valid()
      modifies processor, processor.owned, config`env
      ensures Valid() && processor.owned == old(processor.owned)
      ensures var r := old(processor.Abs());
        processor.Abs() == RM.TryCommitStable(RM.RemoveConsensused(r, r.cfg.view, number))
    {
      ViewOf();
      hide PBFTCacheProcessor.Valid, PBFTConfig.Sound, PBFTCacheProcessor.Abs, RM.RemoveConsensused, RM.TryCommitStable;
      processor.RemoveConsensusedCache(config.view, number);
      processor.TryToCommitStableCheckPoint();
    }

    /** A block of this replica reached the ledger. */
    method FinalizeConsensus(number: nat, hash: Hash, list: seq<Node>, period: Period)
      requires Valid()
      requires list != [] && Sealing.SortNodes(list) == config.nodes && period == config.leaderSwitchPeriod
      modifies processor, processor.owned, config
      ensures Valid() && processor.owned == old(processor.owned)
      ensures processor.Abs() == RM.Finalize(old(processor.Abs()), number, hash)
    {
      hide PBFTCacheProcessor.Valid, PBFTConfig.Sound, PBFTCacheProcessor.Abs, RM.TryApply, RM.RemoveConsensused,
        RM.TryCommitStable, Cfg.ResetConfig, Sealing.SortNodes;
      processor.ResetConfig(number, hash, list, period);
      var applied := processor.TryToApplyCommitQueue();
      Tidy(number);
    }

    lemma Intact()
      requires processor.config == config && processor.Valid()
      ensures Valid()
    {
    }

    lemma ViewOf()
      requires Valid()
      ensures processor.Abs().cfg == config.Abs()
    {
      hide PBFTCacheProcessor.Valid;
    }

    // ---- View changes ----

    method GenerateViewChange() returns (vc: ViewChange)
      requires Valid()
      ensures vc == RM.OwnViewChange(processor.Abs())
      ensures forall m :: m in vc.prepared <==>
        exists i :: i in processor.caches && processor.caches[i].precommitWithoutData == Some(m)
    {
      hide PBFTCacheProcessor.Valid, PBFTConfig.Sound, PBFTCacheProcessor.AbsCaches, RM.Prepared;
      var committed := config.committedProposal.value;
      var prepared := processor.PreCommitCachesWithoutData();
      vc := ViewChange(config.toView, committed.index, committed.hash, config.nodeIndex, config.id, committed, prepared);
    }

    method BroadcastViewChangeReq()
      requires Valid()
      modifies processor, processor.owned, config`env, config`startRecovered, config`view, config`toView,
        config`timeoutState, config`seals
      ensures Valid() && fresh(processor.owned - old(processor.owned))
      ensures processor.Abs() == RM.BroadcastViewChange(old(processor.Abs()))
    {
      hide PBFTCacheProcessor.Valid, PBFTConfig.Sound, PBFTCacheProcessor.Abs, RM.OwnViewChange, RM.AddViewChange,
        RM.TryNewView;
      var vc := GenerateViewChange();
      processor.SendViewChange(vc);
      processor.AddViewChangeReq(vc);
      TryNewView();
    }

    /** Build the new view if possible, and then enter it. */
    method TryNewView()
      requires Valid()
      modifies processor, processor.owned, config`env, config`startRecovered, config`view, config`toView,
        config`timeoutState, config`seals
      ensures Valid() && fresh(processor.owned - old(processor.owned))
      ensures processor.Abs() == RM.TryNewView(old(processor.Abs()))
    {
      hide PBFTCacheProcessor.Valid, PBFTConfig.Sound, PBFTCacheProcessor.Abs, RM.CheckIntoNewView, RM.ReachNewView;
      var nv := processor.CheckAndTryIntoNewView();
      if nv.Some? {
        ReHandlePrePrepareProposals(nv.value);
      }
    }

    method ReachNewView(v: nat)
      requires Valid()
      modifies processor, processor.owned, config`startRecovered, config`view, config`toView, config`timeoutState
      ensures Valid() && fresh(processor.owned - old(processor.owned))
      ensures processor.Abs() == RM.ReachNewView(old(processor.Abs()), v)
    {
      hide PBFTCacheProcessor.Valid, PBFTConfig.Sound, PBFTCacheProcessor.Abs, RM.ResetAfterViewChange, Cfg.ResetNewView;
      processor.EnterView(v);
      ViewOf();
      processor.ResetCacheAfterViewChange(config.view, config.committedProposal.value.index);
    }

    /** Enter the view of a new view and hand its proposals over to verification: the messages
        come back when they are verified, so that only the view changes now. */
    method ReHandlePrePrepareProposals(nv: NewView)
      requires Valid()
      modifies processor, processor.owned, config`env, config`startRecovered, config`view, config`toView,
        config`timeoutState, config`seals
      ensures Valid() && fresh(processor.owned - old(processor.owned))
      ensures processor.Abs() == RM.ReachNewView(old(processor.Abs()), nv.view)
      ensures 0 <= processor.Abs().cfg.committed.index
      ensures config.seals
        == Sealing.AfterNewView(processor.Abs().cfg, old(config.seals), nv.prePrepares, config.resettingProposals)
      ensures old(Sealing.SealsOk(config.seals)) ==> Sealing.SealsOk(config.seals)
    {
      hide *;
      ReachNewView(nv.view);
      Committed();
      Sealing.HighestIndexIs(nv.prePrepares, processor.Abs().cfg.committed.index);
      NewViewSeals(processor.Abs().cfg, config.seals, nv.prePrepares, config.resettingProposals);
      ClearSealing();
      var last := HandOver(nv.prePrepares);
      HoldSealing(|nv.prePrepares| > 0, last);
    }

    lemma {:induction false} NewViewSeals(g: Cfg, s: Sealing.Seals, ms: seq<Msg>, resetting: nat)
      requires 0 <= g.committed.index
      ensures var s1, last := Sealing.Clear(g, s), Sealing.HighestIndex(ms, g.committed.index);
        Sealing.AfterNewView(g, s, ms, resetting) ==
          if |ms| > 0 then s1.(waitReseal := last) else Sealing.Renotify(g, s1, last + 1, resetting)
    {
      hide Sealing.Clear, Sealing.Renotify, Sealing.HighestIndex;
    }

    /** Pass every proposal to verification; the result is the highest index seen. */
    method HandOver(ms: seq<Msg>) returns (last: int)
      requires Valid()
      modifies processor, processor.owned, config`env
      ensures Valid() && fresh(processor.owned - old(processor.owned))
      ensures processor.Abs() == old(processor.Abs())
      ensures last == Sealing.HighestIndex(ms, processor.Abs().cfg.committed.index)
    {
      hide *;
      ghost var r := processor.Abs();
      last := CommittedIndex();
      HighestStep(ms, r.cfg.committed.index, 0);
      for k := 0 to |ms|
        invariant Valid() && fresh(processor.owned - old(processor.owned)) && processor.Abs() == r
        invariant last == Sealing.HighestIndex(ms[..k], r.cfg.committed.index)
      {
        HighestStep(ms, r.cfg.committed.index, k);
        if ms[k].index > last {
          last := ms[k].index;
        }
        var ok := HandlePrePrepareMsg(ms[k], true, true, false);
        VerifyFirst(r, ms[k]);
      }
      HighestStep(ms, r.cfg.committed.index, |ms|);
    }

    lemma {:induction false} HighestStep(ms: seq<Msg>, floor: int, k: nat)
      requires k <= |ms|
      ensures k == 0 ==> Sealing.HighestIndex(ms[..k], floor) == floor
      ensures k < |ms| ==> var h := Sealing.HighestIndex(ms[..k], floor);
        Sealing.HighestIndex(ms[..k + 1], floor) == if ms[k].index > h then ms[k].index else h
      ensures k == |ms| ==> ms[..k] == ms
    {
      assert k < |ms| ==> ms[..k + 1][..k] == ms[..k];
    }

    lemma Committed()
      requires Valid()
      ensures config.committedProposal.Some? && 0 <= config.committedProposal.value.index
      ensures processor.Abs().cfg.committed.index == config.committedProposal.value.index
    {
      hide PBFTCacheProcessor.Valid;
    }

    /** A proposal that still has to be verified changes nothing yet. */
    lemma VerifyFirst(r: RM.Replica, m: Msg)
      ensures RM.HandlePrePrepare(r, m, true, true, false).0 == r
    {
    }

    method ClearSealing()
      requires Valid()
      modifies config`seals
      ensures Valid() && processor.Abs() == old(processor.Abs())
      ensures config.seals == Sealing.Clear(processor.Abs().cfg, old(config.seals))
      ensures old(Sealing.SealsOk(config.seals)) ==> Sealing.SealsOk(config.seals)
    {
      ViewOf();
      hide PBFTCacheProcessor.Valid, PBFTCacheProcessor.AbsCaches, PBFTConfig.Sound, Sealing.Clear;
      config.NotifyResetSealing();
    }

    method AwaitProposals(last: int)
      requires Valid()
      modifies config`seals
      ensures Valid() && processor.Abs() == old(processor.Abs())
      ensures config.seals == old(config.seals).(waitReseal := last)
      ensures old(Sealing.SealsOk(config.seals)) ==> Sealing.SealsOk(config.seals)
    {
      hide PBFTCacheProcessor.Valid, PBFTCacheProcessor.AbsCaches, PBFTConfig.Sound, PBFTConfig.Abs;
      KeepsSeals(config.seals, last);
      config.SetWaitResealUntil(last);
    }

    method StartAfresh(index: int)
      requires Valid()
      modifies config`seals
      ensures Valid() && processor.Abs() == old(processor.Abs()) && 0 <= processor.Abs().cfg.committed.index
      ensures config.seals == Sealing.Renotify(processor.Abs().cfg, old(config.seals), index, config.resettingProposals)
      ensures old(Sealing.SealsOk(config.seals)) ==> Sealing.SealsOk(config.seals)
    {
      Committed();
      ViewOf();
      hide PBFTCacheProcessor.Valid, PBFTCacheProcessor.AbsCaches, PBFTConfig.Sound, Sealing.Renotify;
      config.ReNotifySealer(index);
    }

    /** Hold sealing back until the proposals of the new view are committed, or start afresh. */
    method HoldSealing(proposed: bool, last: int)
      requires Valid()
      modifies config`seals
      ensures Valid() && processor.Abs() == old(processor.Abs()) && 0 <= processor.Abs().cfg.committed.index
      ensures config.seals ==
        if proposed then old(config.seals).(waitReseal := last)
        else Sealing.Renotify(processor.Abs().cfg, old(config.seals), last + 1, config.resettingProposals)
      ensures old(Sealing.SealsOk(config.seals)) ==> Sealing.SealsOk(config.seals)
    {
      hide *;
      Committed();
      if proposed {
        AwaitProposals(last);
      } else {
        StartAfresh(last + 1);
      }
    }

    lemma KeepsSeals(s: Sealing.Seals, index: int)
      ensures Sealing.SealsOk(s) ==> Sealing.SealsOk(s.(waitReseal := index))
    {
    }

    method TriggerTimeout()
      requires Valid()
      modifies processor, processor.owned, config`env, config`startRecovered, config`view, config`toView,
        config`timeoutState, config`seals
      ensures Valid() && fresh(processor.owned - old(processor.owned))
      ensures processor.Abs() == RM.TriggerTimeout(old(processor.Abs()))
    {
      hide PBFTCacheProcessor.Valid, PBFTConfig.Sound, PBFTCacheProcessor.Abs, RM.RemoveInvalidChanges,
        RM.BroadcastViewChange, Cfg.ResetTimeout;
      processor.TimeOut();
      ViewOf();
      processor.RemoveInvalidViewChange(config.view, config.committedProposal.value.index);
      BroadcastViewChangeReq();
    }

    method OnTimeout()
      requires Valid()
      modifies processor, processor.owned, config`env, config`startRecovered, config`view, config`toView,
        config`timeoutState, config`seals
      ensures Valid() && fresh(processor.owned - old(processor.owned))
      ensures processor.Abs() == RM.OnTimeout(old(processor.Abs()))
    {
      hide PBFTCacheProcessor.Valid, PBFTConfig.Sound, PBFTCacheProcessor.AbsCaches, PBFTConfig.Abs, RM.TryApply,
        RM.ClearExpired, RM.TriggerTimeout;
      var applied := processor.TryToApplyCommitQueue();
      if applied {
        return;
      }
      processor.ClearExpiredExecutingProposal();
      if |processor.executingProposals| > 0 {
        return;
      }
      TriggerTimeout();
    }

    /** Every listed signature is that of a known node over the hash of the proposal, and the listed
        weights add up to a quorum. */
    ghost predicate Signed(m: Msg)
      reads config`nodes
    {
      && m.proposal.Some?
      && var p := m.proposal.value;
      && (forall k :: 0 <= k < |p.proofs| ==>
            && p.proofs[k].node < |config.nodes|
            && p.proofs[k].sig == Sig(config.nodes[p.proofs[k].node].id, p.hash))
      && Sum(config.nodes, CM.Listed(p.proofs)) >= QuorumOf(config.nodes)
    }

    /** The checks of a view change that do not depend on who has fallen behind. */
    method CheckViewChange(vc: ViewChange) returns (valid: bool)
      requires Valid()
      ensures valid == RM.ValidViewChange(processor.Abs().cfg, vc)
      ensures valid ==> forall k :: 0 <= k < |vc.prepared| ==> Signed(vc.prepared[k])
    {
      ViewOf();
      hide PBFTCacheProcessor.Valid, PBFTConfig.Sound, RM.PrecommitOk, Cfg.SignedBy, Sum, QuorumOf;
      var committed := config.committedProposal.value;
      if vc.committed.index < committed.index {
        return false;
      }
      if vc.view < config.view {
        return false;
      }
      if vc.committed.index == committed.index && vc.committed.hash != committed.hash {
        return false;
      }
      for k := 0 to |vc.prepared|
        invariant forall j :: 0 <= j < k ==> RM.PrecommitOk(config.Abs(), vc.prepared[j]) && Signed(vc.prepared[j])
      {
        var ok := processor.CheckPrecommitMsg(vc.prepared[k]);
        if !ok {
          return false;
        }
      }
      valid := CheckSignature(vc.from, vc.signer);
    }

    /** A sender that has fallen behind is answered with the own view change while a timeout
        lasts. The answer goes to that node alone, but is filed and acted on like any other. */
    method AnswerFallenBehind(vc: ViewChange)
      requires Valid()
      modifies processor, processor.owned, config`env, config`startRecovered, config`view, config`toView,
        config`timeoutState, config`seals
      ensures Valid() && fresh(processor.owned - old(processor.owned))
      ensures var r := old(processor.Abs());
        processor.Abs() == if RM.FallenBehind(r.cfg, vc) && r.cfg.timeout then RM.BroadcastViewChange(r) else r
    {
      ViewOf();
      hide PBFTCacheProcessor.Valid, PBFTConfig.Sound, PBFTCacheProcessor.Abs, RM.BroadcastViewChange;
      if (vc.view < config.view || vc.view + 1 < config.toView) && config.timeoutState {
        BroadcastViewChangeReq();
      }
    }

    method CommittedIndex() returns (i: int)
      requires Valid()
      ensures i == processor.Abs().cfg.committed.index
    {
      ViewOf();
      hide PBFTCacheProcessor.Valid, PBFTCacheProcessor.Abs;
      i := config.committedProposal.value.index;
    }

    method IsValidViewChangeMsg(vc: ViewChange) returns (valid: bool)
      requires Valid()
      modifies processor, processor.owned, config`env, config`startRecovered, config`view, config`toView,
        config`timeoutState, config`seals
      ensures Valid() && fresh(processor.owned - old(processor.owned))
      ensures (processor.Abs(), valid) == RM.Judge(old(processor.Abs()), vc)
      ensures valid ==> forall k :: 0 <= k < |vc.prepared| ==> Signed(vc.prepared[k])
    {
      hide *;
      JudgeIs(processor.Abs(), vc);
      var committed := CommittedIndex();
      if vc.committed.index < committed {
        return false;
      }
      AnswerFallenBehind(vc);
      valid := CheckViewChange(vc);
    }

    method CurrentLeader() returns (n: nat)
      requires Valid()
      ensures n == processor.Abs().cfg.Leader(processor.Abs().cfg.SealStart())
    {
      ViewOf();
      hide PBFTCacheProcessor.Valid, PBFTConfig.Sound, PBFTCacheProcessor.Abs, Cfg.LeaderIn, PBFTConfig.LeaderInPeriod;
      n := config.LeaderInPeriod(
        MaxInt(config.expectedCheckPoint, config.committedProposal.value.index + 1), config.view);
    }

    method JoinLaterView(from: nat)
      requires Valid()
      modifies processor, processor.owned, config`env, config`startRecovered, config`view, config`toView,
        config`timeoutState, config`seals
      ensures Valid() && fresh(processor.owned - old(processor.owned))
      ensures processor.Abs() == RM.JoinLater(old(processor.Abs()), from)
    {
      hide PBFTCacheProcessor.Valid, PBFTConfig.Sound, PBFTCacheProcessor.Abs, RM.TryFastViewChange, RM.TriggerTimeout,
        Cfg.Leader, Cfg.SealStart;
      var leader := CurrentLeader();
      if from == leader {
        var target := processor.TryToTriggerFastViewChange();
        if target > 0 {
          TriggerTimeout();
        }
      }
    }

    /** Cache a valid view change and react to it. */
    method HandleViewChangeMsg(vc: ViewChange) returns (ok: bool)
      requires Valid()
      modifies processor, processor.owned, config`env, config`startRecovered, config`view, config`toView,
        config`timeoutState, config`seals
      ensures Valid() && fresh(processor.owned - old(processor.owned))
      ensures (processor.Abs(), ok) == RM.HandleViewChange(old(processor.Abs()), vc)
      ensures ok ==> forall k :: 0 <= k < |vc.prepared| ==> Signed(vc.prepared[k])
    {
      hide *;
      HandleViewChangeIs(processor.Abs(), vc);
      ViewOf();
      ok := IsValidViewChangeMsg(vc);
      if !ok {
        return false;
      }
      processor.AddViewChangeReq(vc);
      Intact();
      JoinLaterView(vc.from);
      TryNewView();
    }

    method IsValidNewViewMsg(nv: NewView) returns (valid: bool)
      requires Valid()
      modifies processor, processor.owned, config`env, config`startRecovered, config`view, config`toView,
        config`timeoutState, config`seals
      ensures Valid() && fresh(processor.owned - old(processor.owned))
      ensures (processor.Abs(), valid) == RM.JudgeNewView(old(processor.Abs()), nv)
    {
      hide *;
      JudgeNewViewIs(processor.Abs(), nv);
      ViewOf();
      valid := FromExpectedLeader(nv);
      if !valid {
        return;
      }
      var ok, weight := CheckViewChanges(nv.viewChanges);
      if !ok {
        return false;
      }
      valid := HasWeightAndSignature(nv, weight);
    }

    method FromExpectedLeader(nv: NewView) returns (ok: bool)
      requires Valid()
      ensures ok == (nv.from == processor.Abs().cfg.LeaderIn(nv.index + 1, nv.view) && nv.view > processor.Abs().cfg.view)
    {
      ViewOf();
      hide PBFTCacheProcessor.Valid, PBFTConfig.Sound, Cfg.LeaderIn, PBFTConfig.LeaderInPeriod, PBFTCacheProcessor.Abs;
      if config.LeaderInPeriod(nv.index + 1, nv.view) != nv.from {
        return false;
      }
      if nv.view <= config.view {
        return false;
      }
      return true;
    }

    method HasWeightAndSignature(nv: NewView, weight: nat) returns (valid: bool)
      requires Valid()
      ensures valid == (weight >= processor.Abs().cfg.Quorum() && processor.Abs().cfg.SignedBy(nv.from, nv.signer))
    {
      ViewOf();
      config.QuorumIs();
      hide PBFTCacheProcessor.Valid, PBFTConfig.Sound, PBFTCacheProcessor.Abs, Cfg.SignedBy, QuorumOf;
      if weight < config.minRequiredQuorum {
        return false;
      }
      valid := CheckSignature(nv.from, nv.signer);
    }

    /** Judge each view change and add up the weights of their senders. */
    method CheckViewChanges(vcs: seq<ViewChange>) returns (ok: bool, weight: nat)
      requires Valid()
      modifies processor, processor.owned, config`env, config`startRecovered, config`view, config`toView,
        config`timeoutState, config`seals
      ensures Valid() && fresh(processor.owned - old(processor.owned))
      ensures (processor.Abs(), ok) == RM.JudgeAll(old(processor.Abs()), vcs)
      ensures ok ==> weight == RM.ChangesWeight(processor.Abs().cfg.nodes, vcs)
    {
      hide *;
      ghost var r := processor.Abs();
      JudgeStep(r, vcs, 0);
      ok, weight := true, 0;
      for k := 0 to |vcs|
        invariant Valid() && fresh(processor.owned - old(processor.owned))
        invariant RM.JudgeAll(r, vcs[..k]) == (processor.Abs(), true)
        invariant weight == RM.ChangesWeight(r.cfg.nodes, vcs[..k])
      {
        JudgeStep(r, vcs, k);
        ok := IsValidViewChangeMsg(vcs[k]);
        if !ok {
          RefusedStays(r, vcs, k + 1);
          return;
        }
        weight := AddSender(vcs[k].from, weight);
        JudgeStep(r, vcs, k + 1);
      }
      JudgeStep(r, vcs, |vcs|);
      ok := true;
    }

    method AddSender(from: nat, weight: nat) returns (more: nat)
      requires Valid()
      ensures var nodes := processor.Abs().cfg.nodes;
        more == weight + if from < |nodes| then nodes[from].weight else 0
    {
      ViewOf();
      hide PBFTCacheProcessor.Valid, PBFTConfig.Sound, PBFTCacheProcessor.Abs;
      var node := config.NodeByIndex(from);
      more := weight;
      if node.Some? {
        more := weight + node.value.weight;
      }
    }

    method HandleNewViewMsg(nv: NewView) returns (ok: bool)
      requires Valid()
      modifies processor, processor.owned, config`env, config`startRecovered, config`view, config`toView,
        config`timeoutState, config`seals
      ensures Valid() && fresh(processor.owned - old(processor.owned))
      ensures (processor.Abs(), ok) == RM.HandleNewView(old(processor.Abs()), nv)
    {
      hide PBFTCacheProcessor.Valid, PBFTConfig.Sound, PBFTCacheProcessor.Abs, RM.JudgeNewView, RM.ReachNewView;
      ok := IsValidNewViewMsg(nv);
      if !ok {
        return false;
      }
      ReHandlePrePrepareProposals(nv);
    }

    method HandleRecoverResponse(m: Msg)
      requires Valid()
      modifies processor, processor.owned, config`startRecovered, config`view, config`toView, config`timeoutState
      ensures Valid() && fresh(processor.owned - old(processor.owned))
      ensures processor.Abs() == RM.HandleRecover(old(processor.Abs()), m)
    {
      ViewOf();
      hide PBFTCacheProcessor.Valid, PBFTConfig.Sound, PBFTCacheProcessor.Abs, RM.AddRecover, RM.TryRecover, Cfg.SignedBy;
      var ok := CheckSignature(m.from, m.signer);
      if !ok {
        return;
      }
      processor.AddRecoverReqCache(m);
      var recovered := processor.CheckAndTryToRecover();
    }

    // ---- Disconnected leaders ----

    /** The own index is in the list or marked, as the recursion below assumes. */
    lemma SelfIsKnown()
      requires Valid()
      ensures F.SelfKnown(processor.Abs().cfg)
    {
      ViewOf();
      hide PBFTCacheProcessor.Valid, PBFTCacheProcessor.Abs, Total, MaxFaulty, MinQuorum, Sealing.IndexFrom;
      Sealing.IndexFromFinds(config.nodes, config.id, 0);
    }

    method TimeOutAgain(leader: nat) returns (next: nat)
      requires Valid() && F.LeaderLost(config.Abs(), config.connected, leader)
      modifies processor, processor.owned, config`env, config`startRecovered, config`view, config`toView,
        config`timeoutState, config`seals
      ensures Valid() && fresh(processor.owned - old(processor.owned))
      ensures processor.Abs() == RM.TriggerTimeout(old(processor.Abs())) && processor.Abs().cfg == config.Abs()
      ensures next == F.NextLeader(config.Abs())
    {
      hide PBFTCacheProcessor.Valid, PBFTConfig.Sound, PBFTCacheProcessor.Abs, RM.TriggerTimeout, Cfg.LeaderIn,
        PBFTConfig.LeaderInPeriod, F.LeaderLost;
      TriggerTimeout();
      ViewOf();
      next := config.LeaderInPeriod(config.progressedIndex, config.toView);
    }

    /** The guards of `TryTriggerFastViewChange`. */
    method IsLeaderLost(leader: nat) returns (lost: bool)
      requires config.Ready()
      ensures lost == F.LeaderLost(config.Abs(), config.connected, leader)
    {
      if config.connected == {} {
        return false;
      }
      if config.nodeIndex == NON_CONSENSUS_NODE {
        return false;
      }
      if leader == config.nodeIndex {
        return false;
      }
      var node := config.NodeByIndex(leader);
      if node.None? {
        return false;
      }
      return node.value.id !in config.connected;
    }

    /** One round of the recursion of `TryTriggerFastViewChange`. */
    method Round(leader: nat) returns (next: Option<nat>)
      requires Valid()
      modifies processor, processor.owned, config`env, config`startRecovered, config`view, config`toView,
        config`timeoutState, config`seals
      ensures Valid() && fresh(processor.owned - old(processor.owned))
      ensures var r := old(processor.Abs());
        if F.LeaderLost(r.cfg, config.connected, leader)
        then processor.Abs() == RM.TriggerTimeout(r) && next == Some(F.NextLeader(RM.TriggerTimeout(r).cfg))
        else processor.Abs() == r && next == None
    {
      hide *;
      ViewOf();
      var lost := IsLeaderLost(leader);
      if !lost {
        return None;
      }
      var leader' := TimeOutAgain(leader);
      return Some(leader');
    }

    /** The leader may be disconnected: time out until the leader of the view to reach is this
        node or a connected one. */
    method TryTriggerFastViewChange(leader: nat) returns (triggered: bool)
      requires Valid()
      modifies processor, processor.owned, config`env, config`startRecovered, config`view, config`toView,
        config`timeoutState, config`seals
      ensures Valid() && fresh(processor.owned - old(processor.owned))
      ensures F.SelfKnown(old(processor.Abs()).cfg)
      ensures processor.Abs() == F.Escape(old(processor.Abs()), config.connected, leader).0 && !triggered
      decreases if F.SelfKnown(processor.Abs().cfg) then F.Rounds(processor.Abs().cfg, config.connected, leader) else 0
    {
      hide *;
      SelfIsKnown();
      F.EscapeStep(processor.Abs(), config.connected, leader);
      var next := Round(leader);
      if next.None? {
        return false;
      }
      triggered := TryTriggerFastViewChange(next.value);
    }
  }
}
