/** From a result to the ledger: what a result, a checkpoint vote and a written block change, and that
    in every run no checkpoint with a quorum is left lying. */
module Settlement {
  import opened Types
  import opened Weights
  import opened ConfigModel
  import opened CacheModel
  import opened ReplicaModel
  import opened CacheInvariant
  import opened ReplicaInvariant
  import opened HandlerInvariant
  import opened Monotone
  import opened ViewChangeInvariant
  import opened Network
  import opened Runs
  import opened Safety
  import opened Progress
  import opened Admission
  import opened Outcomes
  import opened Announcements

  // ---- What the steps change ----

  /** A result for a proposal above the committed block: the expected checkpoint passes it, the own
      checkpoint vote is counted and broadcast, and the result becomes the checkpoint of its index.
      Then what has a quorum is reported, what can be executed is, and the mark of the proposal is
      dropped. Any other result changes nothing. */
  lemma ResultExact(r: Replica, proposal: Proposal, executed: Proposal, base: Proposal, w: World)
    requires Inv(r, base, w)
    ensures var g := r.cfg; var own := OwnVote(g, CheckPoint, executed.index, executed.hash);
      OnApplied(r, proposal, executed) ==
        if g.committed.index >= proposal.index then r
        else
          var c := Counted(r, own, CheckPoint);
          var r1 := r.(cfg := g.(expected := MaxInt(g.committed.index, executed.index) + 1),
                       caches := r.caches[executed.index :=
                         if executed.index <= g.committed.index then c else c.(checkpoint := Some(executed))],
                       env := r.env.(sent := r.env.sent + [own]));
          var r2 := TryApply(CheckAndCommitStable(r1)).0;
          r2.(executing := map h | h in r2.executing && h != proposal.hash :: r2.executing[h])
  {
    hide Inv, AddVote, TryApply, CheckAndCommitStable;
    IndexedAt(r, executed.index, base, w);
    var own := OwnVote(r.cfg, CheckPoint, executed.index, executed.hash);
    assert own == r.cfg.Own(CheckPoint, executed.index, executed.hash);
    RecordExact(r, executed, own);
  }

  lemma RecordExact(r: Replica, executed: Proposal, own: Msg)
    requires CacheAt(r, executed.index).index == executed.index
    requires own == r.cfg.Own(CheckPoint, executed.index, executed.hash)
    ensures var g := r.cfg; var c := Counted(r, own, CheckPoint);
      RecordExecuted(r, executed)
      == r.(cfg := g.(expected := MaxInt(g.committed.index, executed.index) + 1),
            caches := r.caches[executed.index :=
              if executed.index <= g.committed.index then c else c.(checkpoint := Some(executed))],
            env := r.env.(sent := r.env.sent + [own]))
  {
    hide AddVote;
  }

  /** An accepted checkpoint vote is counted at its index; then what can be executed is, and what has a
      quorum is reported. */
  lemma CheckPointFiled(r: Replica, m: Msg, base: Proposal, w: World)
    requires Inv(r, base, w) && HandleCheckPoint(r, m).1
    ensures HandleCheckPoint(r, m).0
      == CheckAndCommitStable(TryApply(r.(caches := r.caches[m.index := Counted(r, m, CheckPoint)])).0)
  {
    hide Inv, AddVote, TryApply, CheckAndCommitStable;
    IndexedAt(r, m.index, base, w);
    var c := CacheAt(r, m.index);
    assert c.(index := m.index) == c;
  }

  /** A written block, unless it is old news, becomes the committed one, the watermarks pass it, and the
      timeout ends if no higher block is known. Then what can be executed is, the caches of exactly the
      committed and the stable indices are evicted, view changes that are outdated are dropped, and the
      marks of a view change under way are cleared. */
  lemma WrittenExact(r: Replica, number: int, hash: Hash)
    ensures var g, r' := r.cfg, Finalize(r, number, hash);
      && r'.cfg == (if number <= g.committed.index && g.committed.index > 0 then g
                    else g.(committed := BareProposal(number, hash), progressed := MaxInt(g.progressed, number + 1),
                            expected := MaxInt(g.expected, number + 1), low := MaxInt(g.low, number + 1),
                            timeout := g.syncing > number))
      && (forall i :: i in r'.caches <==> i in r.caches && i > number && !r.caches[i].stable)
      && (forall i :: i in r'.caches ==> r'.caches[i] == r.caches[i])
      && StillFiled(r.changes, r'.changes, g.view, number)
      && r'.maxCommitted == map[] && r'.maxPrecommit == map[] && !r'.newViewSent && r'.recovers == r.recovers
      && var applied := TryApply(r.(cfg := r'.cfg)).0;
         r'.commitQueue == applied.commitQueue && r'.executing == applied.executing
         && r'.env == applied.env.(ledger := r'.env.ledger, committing := r'.env.committing)
  {
    hide TryApply, TryCommitStable;
    var g := r.cfg.ResetConfig(number, hash);
    TryApplyLater(r.(cfg := g));
    ApplyFrame(r.(cfg := g));
    var r1 := TryApply(r.(cfg := g)).0;
    TryCommitStableLater(RemoveConsensused(r1, r1.cfg.view, number));
    ApplyOthers(r.(cfg := g));
  }

  lemma ApplyOthers(r: Replica)
    ensures var r' := TryApply(r).0;
      r' == r.(commitQueue := r'.commitQueue, executing := r'.executing, env := r'.env)
  {
    hide DropBelow, AppliedCheckPoint;
  }

  // ---- Nothing is left lying ----

  /** Some proposal for index `i` with hash `h` is in the list. */
  ghost predicate OnItsWay(ps: seq<Proposal>, i: int, h: Hash) {
    exists p :: p in ps && p.index == i && p.hash == h
  }

  /** A checkpoint above the committed block that has its quorum is stable, and a stable one is queued
      for the ledger or submitted. */
  ghost predicate CacheSettled(g: Cfg, ps: seq<Proposal>, i: int, c: Cache) {
    c.checkpoint.Some? && i > g.committed.index ==>
      && (Backed(g, c.checkpoints, c.checkpoint.value.hash) ==> c.stable)
      && (c.stable ==> OnItsWay(ps, i, c.checkpoint.value.hash))
  }

  ghost predicate NextSubmitted(g: Cfg, queue: seq<Proposal>) {
    forall p :: p in queue ==> p.index > g.committed.index + 1
  }

  ghost predicate Settled(r: Replica) {
    && NextSubmitted(r.cfg, r.stableQueue)
    && forall i :: i in r.caches ==> CacheSettled(r.cfg, r.env.ledger + r.stableQueue, i, r.caches[i])
  }

  // ---- Steps that leave checkpoints alone ----

  ghost predicate SameCheckPoint(c: Cache, c': Cache) {
    c'.checkpoint == c.checkpoint && c'.checkpoints == c.checkpoints && c'.stable == c.stable
  }

  /** New caches have no checkpoint, and all others keep theirs. */
  ghost predicate SameCheckPoints(caches: Caches, caches': Caches) {
    forall i :: i in caches' && caches'[i].checkpoint.Some? ==> i in caches && SameCheckPoint(caches[i], caches'[i])
  }

  lemma SteadySettled(r: Replica, r': Replica)
    requires Settled(r) && SameCheckPoints(r.caches, r'.caches)
    requires r'.cfg.nodes == r.cfg.nodes && r'.cfg.committed == r.cfg.committed && Untouched(r, r')
    ensures Settled(r')
  {
    hide Weight, QuorumOf, OnItsWay;
    forall i | i in r'.caches ensures CacheSettled(r'.cfg, r'.env.ledger + r'.stableQueue, i, r'.caches[i]) {
      if r'.caches[i].checkpoint.Some? {
        assert CacheSettled(r.cfg, r.env.ledger + r.stableQueue, i, r.caches[i]);
      }
    }
  }

  lemma SamePut(r: Replica, caches: Caches, i: int, c: Cache)
    requires SameCheckPoints(r.caches, caches)
    requires SameCheckPoint(if i in caches then caches[i] else EmptyCache(i), c)
    ensures SameCheckPoints(r.caches, caches[i := c])
  {
  }

  lemma LockFields(c: Cache, g: Cfg)
    ensures SameCheckPoint(c, CheckPrecommit(c, g).0) && SameCheckPoint(c, CheckCommit(c, g).0)
  {
    hide HasQuorum, SignatureList, AddVote;
  }

  lemma {:induction false} PrecommitSame(r: Replica, ks: seq<int>)
    ensures SameCheckPoints(r.caches, PrecommitEach(r, ks).caches)
  {
    hide CheckPrecommit, Decide, VotesCast, SameCheckPoint;
    if ks == [] {
      forall c: Cache ensures SameCheckPoint(c, c) {
        CheckPointItself(c);
      }
    } else {
      var r1, i := PrecommitEach(r, ks[..|ks| - 1]), ks[|ks| - 1];
      PrecommitSame(r, ks[..|ks| - 1]);
      LockFields(CacheAt(r1, i), r1.cfg);
      IndexIrrelevant(CacheAt(r1, i), CheckPrecommit(CacheAt(r1, i), r1.cfg).0, i);
      SamePut(r, r1.caches, i, CheckPrecommit(CacheAt(r1, i), r1.cfg).0.(index := i));
      DecideFrame(LockAt(r1, i), CheckPrecommit(CacheAt(r1, i), r1.cfg).0);
    }
  }

  lemma CheckPointItself(c: Cache)
    ensures SameCheckPoint(c, c)
  {
  }

  lemma IndexIrrelevant(c: Cache, c': Cache, i: int)
    requires SameCheckPoint(c, c')
    ensures SameCheckPoint(c, c'.(index := i))
  {
  }

  lemma {:induction false} CommitSame(r: Replica, ks: seq<int>)
    ensures SameCheckPoints(r.caches, CommitEach(r, ks).caches)
  {
    hide CheckCommit, Decide, SameCheckPoint;
    if ks == [] {
      forall c: Cache ensures SameCheckPoint(c, c) {
        CheckPointItself(c);
      }
    } else {
      var r1, i := CommitEach(r, ks[..|ks| - 1]), ks[|ks| - 1];
      CommitSame(r, ks[..|ks| - 1]);
      var c' := CheckCommit(CacheAt(r1, i), r1.cfg).0;
      LockFields(CacheAt(r1, i), r1.cfg);
      IndexIrrelevant(CacheAt(r1, i), c', i);
      SamePut(r, r1.caches, i, c'.(index := i));
      DecideFrame(Put(r1, c'.(index := i)), c');
    }
  }

  lemma SameTrans(a: Caches, b: Caches, c: Caches)
    requires SameCheckPoints(a, b) && SameCheckPoints(b, c)
    ensures SameCheckPoints(a, c)
  {
  }

  lemma PrePrepareSame(r: Replica, m: Msg, verify: bool, fromNewView: bool, checkSignature: bool)
    ensures SameCheckPoints(r.caches, HandlePrePrepare(r, m, verify, fromNewView, checkSignature).0.caches)
  {
    hide AcceptsPrePrepare, AddVote, PrecommitEach, Ascending;
    var r1 := AddPrePrepareCache(r, m);
    var own := r1.cfg.Own(Prepare, m.index, CarriedHash(m));
    var r2 := Send(AddPrepare(r1, own), own);
    var r3 := CheckAndPreCommit(r2);
    PrecommitSame(r2, Ascending(r2.caches.Keys));
    PrecommitSame(r3, Ascending(r3.caches.Keys));
    SameTrans(r.caches, r2.caches, r3.caches);
    SameTrans(r.caches, r3.caches, CheckAndPreCommit(r3).caches);
  }

  lemma PrepareSame(r: Replica, m: Msg)
    ensures SameCheckPoints(r.caches, HandlePrepare(r, m).0.caches)
  {
    hide VoteOk, AddVote, PrecommitEach, Ascending, Cfg.ProposalSignatureOk;
    var r1 := AddPrepare(r, m);
    PrecommitSame(r1, Ascending(r1.caches.Keys));
    SameTrans(r.caches, r1.caches, CheckAndPreCommit(r1).caches);
  }

  lemma CommitInSame(r: Replica, m: Msg)
    ensures SameCheckPoints(r.caches, HandleCommit(r, m).0.caches)
  {
    hide VoteOk, AddVote, CommitEach, Ascending;
    var r1 := AddCommit(r, m);
    CommitSame(r1, Ascending(r1.caches.Keys));
    SameTrans(r.caches, r1.caches, CheckAndCommit(r1).caches);
  }

  lemma OrderingSettled(r: Replica, e: Event)
    requires Settled(r) && (e.PrePrepareIn? || e.PrepareIn? || e.CommitIn?)
    ensures Settled(React(r, e))
  {
    hide HandlePrePrepare, HandlePrepare, HandleCommit, EnvLater, Settled, SameCheckPoints, Untouched;
    match e
    case PrePrepareIn(m, verify, fromNewView, checkSignature) =>
      PrePrepareSame(r, m, verify, fromNewView, checkSignature);
      HandlePrePrepareLater(r, m, verify, fromNewView, checkSignature);
      SteadySettled(r, React(r, e));
    case PrepareIn(m) =>
      PrepareSame(r, m);
      HandlePrepareLater(r, m);
      SteadySettled(r, React(r, e));
    case CommitIn(m) =>
      CommitInSame(r, m);
      HandleCommitLater(r, m);
      SteadySettled(r, React(r, e));
  }

  lemma AnnouncedSame(r: Replica, r': Replica)
    requires SendsLocks(r, r')
    ensures SameCheckPoints(r.caches, r'.caches) && r'.cfg.committed == r.cfg.committed
  {
    hide Announced;
    assert forall i :: i in r.caches ==> SameButVotes(r.caches[i], r'.caches[i]);
  }

  lemma ViewsSettled(r: Replica, e: Event)
    requires Settled(r)
    requires e.ViewChangeIn? || e.NewViewIn? || e.RecoverIn? || e.TimerFired? || e.LeaderLost?
    ensures Settled(React(r, e))
  {
    hide HandleViewChange, HandleNewView, HandleRecover, OnTimeout, TriggerTimeout, EnvLater, Settled, SameCheckPoints,
      Untouched, SendsLocks;
    match e {
      case ViewChangeIn(vc) =>
        HandleViewChangeAnnounces(r, vc);
        HandleViewChangeLater(r, vc);
      case NewViewIn(nv) =>
        HandleNewViewAnnounces(r, nv);
        HandleNewViewLater(r, nv);
      case RecoverIn(m) =>
        HandleRecoverAnnounces(r, m);
        HandleRecoverLater(r, m);
      case TimerFired =>
        OnTimeoutAnnounces(r);
        OnTimeoutLater(r);
      case _ =>
        TimeoutAnnounces(r);
        TriggerTimeoutLater(r);
    }
    AnnouncedSame(r, React(r, e));
    SteadySettled(r, React(r, e));
  }

  // ---- Steps that settle ----

  /** A stable checkpoint above the committed block is queued or submitted. */
  ghost predicate StableReported(r: Replica) {
    forall i :: i in r.caches && r.caches[i].stable && r.caches[i].checkpoint.Some? && i > r.cfg.committed.index ==>
      OnItsWay(r.env.ledger + r.stableQueue, i, r.caches[i].checkpoint.value.hash)
  }

  lemma ReportedMore(ps: seq<Proposal>, ps': seq<Proposal>, i: int, h: Hash)
    requires OnItsWay(ps, i, h) && forall p :: p in ps ==> p in ps'
    ensures OnItsWay(ps', i, h)
  {
  }

  /** Reporting what is stable settles every cache. */
  lemma PassSettles(r: Replica, base: Proposal, w: World)
    requires Inv(r, base, w) && StableReported(r) && NextSubmitted(r.cfg, r.stableQueue)
    ensures Settled(CheckAndCommitStable(r))
  {
    hide Inv, CheckAndCommitStable, Backed, OnItsWay, Certified, DistinctSigners, ToStabilize;
    var r' := CheckAndCommitStable(r);
    StableExact(r, base, w);
    StableLater(r);
    CheckAndCommitStableKeeps(r, base, w);
    QueueSubmitted(r, base, w);
    forall i | i in r'.caches ensures CacheSettled(r'.cfg, r'.env.ledger + r'.stableQueue, i, r'.caches[i]) {
      if r.caches[i].checkpoint.Some? {
        InvCheckPoint(r, i, base, w);
      }
      CachePasses(r, r', i);
    }
  }

  lemma InvCheckPoint(r: Replica, i: int, base: Proposal, w: World)
    requires Inv(r, base, w) && i in r.caches && r.caches[i].checkpoint.Some?
    ensures r.caches[i].checkpoint.value.index == i
  {
    hide CfgOk, LockOk, AuthOk, QueueOk, AppliesOk, ExecOk, VotesOnce, LedgerOk, AllStable, AllReported, DecidedOk, ChainOk,
      ResultsOk, VotesFiled, VotesSigned, VotesCurrent, LockMessage;
    assert CacheOk(r.cfg, r.caches[i]);
  }

  /** Unless a block is being written, the head of the queue is not next in order. */
  ghost predicate HeadLater(r: Replica) {
    r.env.committing == [] ==> r.stableQueue == [] || r.stableQueue[0].index != r.cfg.committed.index + 1
  }

  lemma SubmitHeadLater(r: Replica)
    ensures HeadLater(TryCommitStable(r))
  {
    hide DropBelow;
  }

  lemma {:induction false} QueueEachHead(r: Replica, ps: seq<Proposal>)
    ensures ps == [] ==> QueueEach(r, ps) == r
    ensures ps != [] ==> HeadLater(QueueEach(r, ps))
  {
    hide TryCommitStable, HeadLater, Insert;
    if ps != [] {
      var r1 := QueueEach(r, ps[..|ps| - 1]);
      SubmitHeadLater(r1.(stableQueue := Insert(r1.stableQueue, ps[|ps| - 1])));
    }
  }

  lemma NextFromHead(r: Replica, base: Proposal, w: World)
    requires Inv(r, base, w) && HeadLater(r)
    ensures NextSubmitted(r.cfg, r.stableQueue)
  {
    hide CfgOk, CachesOk, LockOk, AuthOk, QueueOk, AppliesOk, ExecOk, VotesOnce, AllStable, AllReported, DecidedOk, ChainOk, ResultsOk;
    var q := r.stableQueue;
    forall p | p in q ensures p.index > r.cfg.committed.index + 1 {
      var k :| 0 <= k < |q| && q[k] == p;
    }
  }

  lemma QueueSubmitted(r: Replica, base: Proposal, w: World)
    requires Inv(r, base, w) && NextSubmitted(r.cfg, r.stableQueue)
    ensures var r' := CheckAndCommitStable(r); NextSubmitted(r'.cfg, r'.stableQueue)
  {
    hide Inv, StabilizeEach, QueueEach, HeadLater, NextSubmitted;
    CheckAndCommitStableKeeps(r, base, w);
    var ks := Ascending(r.caches.Keys);
    var (r1, found) := StabilizeEach(r, ks);
    StabilizeEachLater(r, ks);
    QueueEachHead(r1, found);
    if found != [] {
      NextFromHead(CheckAndCommitStable(r), base, w);
    }
  }

  lemma CachePasses(r: Replica, r': Replica, i: int)
    requires StableReported(r) && i in r.caches && i in r'.caches && r'.cfg == r.cfg
    requires r.caches[i].checkpoint.Some? ==> r.caches[i].checkpoint.value.index == i
    requires if i in ToStabilize(r.cfg, r.caches) then StableWith(r.cfg, r.caches[i], r'.caches[i])
      else r'.caches[i] == r.caches[i]
    requires forall p :: p in r.env.ledger + r.stableQueue ==> p in r'.env.ledger + r'.stableQueue
    requires i in ToStabilize(r.cfg, r.caches) && r.cfg.committed.index < i ==>
      forall p :: r'.caches[i].checkpoint == Some(p) ==> p in r'.env.ledger + r'.stableQueue
    ensures CacheSettled(r'.cfg, r'.env.ledger + r'.stableQueue, i, r'.caches[i])
  {
    hide Backed;
    var ps' := r'.env.ledger + r'.stableQueue;
    if i in ToStabilize(r.cfg, r.caches) {
      var p := r'.caches[i].checkpoint.value;
      assert i > r.cfg.committed.index ==> p in ps' && p.index == i;
    } else if r.caches[i].checkpoint.Some? && r.caches[i].stable && i > r.cfg.committed.index {
      ReportedMore(r.env.ledger + r.stableQueue, ps', i, r.caches[i].checkpoint.value.hash);
    }
  }

  lemma SettledStable(r: Replica)
    requires Settled(r)
    ensures StableReported(r) && NextSubmitted(r.cfg, r.stableQueue)
  {
    hide Backed, OnItsWay;
    forall i | i in r.caches ensures CacheSettled(r.cfg, r.env.ledger + r.stableQueue, i, r.caches[i]) {
    }
  }

  /** Counting a checkpoint vote changes no checkpoint. */
  lemma CountedStable(r: Replica, r': Replica, m: Msg)
    requires StableReported(r) && Untouched(r, r') && r'.cfg.committed == r.cfg.committed
    requires r'.caches == r.caches[m.index := Counted(r, m, CheckPoint)]
    ensures StableReported(r')
  {
    hide AddVote, OnItsWay;
  }

  lemma CheckPointSettled(r: Replica, m: Msg, base: Proposal, w: World)
    requires Inv(r, base, w) && Settled(r) && m.kind == CheckPoint && m.WellFormed()
    requires Justified(r.cfg.self, r.env.sent, w, m.from, CheckPoint, m.index, m.hash)
    ensures Settled(HandleCheckPoint(r, m).0)
  {
    if HandleCheckPoint(r, m).1 {
      ProposalSigned(r.cfg, m);
      hide Inv, Settled, Justified, TryApply, CheckAndCommitStable, SigOf, AddVote, HandleCheckPoint, StableReported, CfgLater,
        EnvLater;
      CheckPointAccepted(r, m);
      AddCheckPointKeeps(r, m, base, w);
      var r1 := AddCheckPointMsg(r, m);
      TryApplyKeeps(r1, base, w);
      CheckPointFiled(r, m, base, w);
      IndexedAt(r, m.index, base, w);
      var r2 := TryApply(r1).0;
      TryApplyLater(r1);
      ApplyFrame(r1);
      SettledStable(r);
      CountedStable(r, r2, m);
      PassSettles(r2, base, w);
    } else {
      hide Settled;
      CheckPointAccepted(r, m);
    }
  }

  /** The result of the running execution becomes a checkpoint where there was none. */
  lemma ResultStable(r: Replica, executed: Proposal, base: Proposal, w: World)
    requires Inv(r, base, w) && StableReported(r) && executed.index >= r.cfg.expected
    ensures StableReported(RecordExecuted(r.(env := r.env.(running := [])), executed))
  {
    hide AddVote, OnItsWay, LockOk, AuthOk, QueueOk, AppliesOk, ExecOk, VotesOnce, LedgerOk, AllStable, AllReported, DecidedOk,
      ChainOk, ResultsOk, VotesFiled, VotesSigned, VotesCurrent, LockMessage;
    assert executed.index in r.caches ==> CacheOk(r.cfg, r.caches[executed.index]);
  }

  lemma RecordFrame(r: Replica, executed: Proposal)
    ensures var r' := RecordExecuted(r, executed);
      r'.cfg.committed == r.cfg.committed && r'.stableQueue == r.stableQueue && r'.cfg.nodes == r.cfg.nodes
  {
    hide AddVote;
  }

  lemma ExecutedSettled(r: Replica, executed: Proposal, base: Proposal, w: World)
    requires Inv(r, base, w) && Settled(r)
    requires |r.env.running| == 1 && executed.index == r.env.running[0].proposal.index
    requires w.results(r.env.running[0].last.hash, r.env.running[0].proposal.hash, executed.hash)
    ensures Settled(OnApplied(r.(env := r.env.(running := [])), r.env.running[0].proposal, executed))
  {
    hide Inv, Settled, RecordExecuted, TryApply, CheckAndCommitStable, SameCheckPoints, StableReported, CfgLater, EnvLater;
    var r0 := r.(env := r.env.(running := []));
    var r1 := RecordExecuted(r0, executed);
    SettledStable(r);
    OnAppliedKeeps(r, executed, base, w);
    RecordExecutedKeeps(r, executed, base, w);
    ResultStable(r, executed, base, w);
    RecordFrame(r0, executed);
    PassSettles(r1, base, w);
    var r2 := CheckAndCommitStable(r1);
    var r3 := TryApply(r2).0;
    TryApplyLater(r2);
    ApplyFrame(r2);
    SameItself(r2.caches);
    SteadySettled(r2, EraseExecuted(r3, r.env.running[0].proposal.hash));
  }

  lemma SameItself(caches: Caches)
    ensures SameCheckPoints(caches, caches)
  {
  }

  lemma WrittenSettled(r: Replica, base: Proposal, w: World)
    requires Inv(r, base, w) && Settled(r) && |r.env.committing| == 1
    ensures var q := r.env.committing[0];
      Settled(Finalize(r.(env := r.env.(committing := [])), q.index, q.hash))
  {
    var q := r.env.committing[0];
    var r0 := r.(env := r.env.(committing := []));
    var r' := Finalize(r0, q.index, q.hash);
    hide Inv, HeadLater, CacheSettled, Finalize, NextSubmitted, StillFiled, TryApply;
    WrittenKeeps(r, base, w);
    FinalizeKeeps(r, base, w);
    FinalizeHead(r0, q.index, q.hash);
    WrittenExact(r0, q.index, q.hash);
    NextFromHead(r', base, w);
    forall i | i in r'.caches ensures CacheSettled(r'.cfg, r'.env.ledger + r'.stableQueue, i, r'.caches[i]) {
      LeftSettled(r.cfg, r'.cfg, r.env.ledger + r.stableQueue, r'.env.ledger + r'.stableQueue, i, r.caches[i]);
    }
  }

  lemma LeftSettled(g: Cfg, g': Cfg, ps: seq<Proposal>, ps': seq<Proposal>, i: int, c: Cache)
    requires CacheSettled(g, ps, i, c) && !c.stable && i > g.committed.index && g'.nodes == g.nodes
    ensures CacheSettled(g', ps', i, c)
  {
    hide Weight, QuorumOf;
  }

  lemma FinalizeHead(r: Replica, number: int, hash: Hash)
    ensures HeadLater(Finalize(r, number, hash))
  {
    hide TryApply, RemoveConsensused, TryCommitStable, HeadLater;
    var r1 := TryApply(r.(cfg := r.cfg.ResetConfig(number, hash))).0;
    SubmitHeadLater(RemoveConsensused(r1, r1.cfg.view, number));
  }

  // ---- Runs ----

  lemma InFlightSettled(nodes: NodeList, n: nat, r: Replica, e: Event, base: Proposal, w: World)
    requires ReplicaOk(nodes, n, r, base, w) && Settled(r)
    requires match e
      case Executed(k, executed) =>
        && k < |r.env.running| && executed.index == r.env.running[k].proposal.index
        && w.results(r.env.running[k].last.hash, r.env.running[k].proposal.hash, executed.hash)
      case Written(k) => k < |r.env.committing|
      case _ => false
    ensures Settled(React(r, e))
  {
    hide Inv, VcInv, Settled, OnApplied, Finalize;
    OneRunning(r, base, w);
    if e.Executed? {
      assert Without(r.env.running, e.k) == [];
      ExecutedSettled(r, e.executed, base, w);
    } else {
      assert Without(r.env.committing, e.k) == [];
      WrittenSettled(r, base, w);
    }
  }

  lemma CheckPointInSettled(s: Setting, nodes: NodeList, start: Net, net: Net, n: nat, m: Msg)
    requires NetInv(s, nodes, start, net) && n in net && Settled(net[n])
    requires m.kind == CheckPoint && m.WellFormed() && Genuine(s, net, m)
    ensures Settled(HandleCheckPoint(net[n], m).0)
  {
    ReplicaOf(s, nodes, start, net, n);
    hide NetInv, Inv, VcInv, Genuine, Justified, Settled, CheckAndCommitStable, TryApply, AddCheckPointMsg, WorldOf;
    if net[n].cfg.SignatureOk(m) {
      VoteJustified(s, nodes, start, net, n, m);
      CheckPointSettled(net[n], m, Base(start, n), WorldOf(s, net));
    }
  }

  lemma ReactSettled(s: Setting, nodes: NodeList, start: Net, net: Net, n: nat, e: Event)
    requires NetInv(s, nodes, start, net) && n in net && Enabled(s, net, net[n], e) && Settled(net[n])
    ensures Settled(React(net[n], e))
  {
    hide NetInv, ReplicaOk, Genuine, GenuineChange, Settled, HandleCheckPoint, HandlePrePrepare, HandlePrepare, HandleCommit,
      HandleViewChange, HandleNewView, HandleRecover, OnTimeout, TriggerTimeout, OnApplied, Finalize;
    var r := net[n];
    if e.Executed? || e.Written? {
      ReplicaOf(s, nodes, start, net, n);
      InFlightSettled(nodes, n, r, e, Base(start, n), WorldOf(s, net));
    } else if e.CheckPointIn? {
      CheckPointInSettled(s, nodes, start, net, n, e.m);
    } else if e.PrePrepareIn? || e.PrepareIn? || e.CommitIn? {
      OrderingSettled(r, e);
    } else if e.SyncNotice? {
      SyncSettled(r, e.number);
    } else {
      ViewsSettled(r, e);
    }
  }

  lemma SyncSettled(r: Replica, number: int)
    requires Settled(r)
    ensures Settled(r.(cfg := r.cfg.(syncing := number)))
  {
    hide Settled, SameCheckPoints;
    SameItself(r.caches);
    SteadySettled(r, r.(cfg := r.cfg.(syncing := number)));
  }

  lemma {:induction false} RunSettled(s: Setting, nodes: NodeList, run: seq<Net>, steps: seq<Step>, k: nat, n: nat)
    requires IsRun(s, nodes, run, steps) && k < |run| && n in run[k]
    ensures Settled(run[k][n])
  {
    hide Init, Enabled, NetInv, Settled, React;
    if k == 0 {
      StartsSettled(s, nodes, run, steps, n);
    } else {
      RunKeeps(s, nodes, run, steps, k - 1);
      RunKeeps(s, nodes, run, steps, k);
      SameReplicas(s, nodes, run[0], run[k - 1], run[k]);
      assert Follows(s, run[k - 1], steps[k - 1], run[k]);
      RunSettled(s, nodes, run, steps, k - 1, n);
      if steps[k - 1].node == n {
        ReactSettled(s, nodes, run[0], run[k - 1], n, steps[k - 1].event);
      }
    }
  }

  lemma StartsSettled(s: Setting, nodes: NodeList, run: seq<Net>, steps: seq<Step>, n: nat)
    requires IsRun(s, nodes, run, steps) && n in run[0]
    ensures Settled(run[0][n])
  {
    hide Tolerable, CanStep, Next, OnItsWay, Backed;
  }

  /** In every reachable state: nothing that is next in order waits in the queue; a checkpoint above the
      committed block that has its quorum of votes is queued or submitted; and the one for the next
      index, as soon as it has its quorum, is the block being written. */
  lemma NothingLeftLying(s: Setting, nodes: NodeList, run: seq<Net>, steps: seq<Step>, k: nat, n: nat, i: int)
    requires IsRun(s, nodes, run, steps) && k < |run| && n in run[k]
    ensures forall p :: p in run[k][n].stableQueue ==> p.index > run[k][n].cfg.committed.index + 1
    ensures var r := run[k][n]; var next := r.cfg.committed.index + 1;
      i in r.caches && r.caches[i].checkpoint.Some? && i >= next
      && Backed(r.cfg, r.caches[i].checkpoints, r.caches[i].checkpoint.value.hash) ==>
        var h := r.caches[i].checkpoint.value.hash;
        && (exists p :: p in r.env.ledger + r.stableQueue && p.index == i && p.hash == h)
        && (i == next ==> |r.env.committing| == 1 && r.env.committing[0].index == i && r.env.committing[0].hash == h)
  {
    hide Init, CanStep, Next, NetInv, Inv, VcInv, Backed;
    RunKeeps(s, nodes, run, steps, k);
    ReplicaOf(s, nodes, run[0], run[k], n);
    RunSettled(s, nodes, run, steps, k, n);
    var r := run[k][n];
    if i in r.caches && r.caches[i].checkpoint.Some? && i > r.cfg.committed.index
       && Backed(r.cfg, r.caches[i].checkpoints, r.caches[i].checkpoint.value.hash) {
      assert CacheSettled(r.cfg, r.env.ledger + r.stableQueue, i, r.caches[i]);
      var p :| p in r.env.ledger + r.stableQueue && p.index == i && p.hash == r.caches[i].checkpoint.value.hash;
      if i == r.cfg.committed.index + 1 {
        NextIsWritten(r, p, Base(run[0], n), WorldOf(s, run[k]));
      }
    }
  }

  lemma NextIsWritten(r: Replica, p: Proposal, base: Proposal, w: World)
    requires Inv(r, base, w) && p in r.env.ledger + r.stableQueue && p !in r.stableQueue
    requires p.index == r.cfg.committed.index + 1
    ensures |r.env.committing| == 1 && r.env.committing[0] == p
  {
    hide CfgOk, CachesOk, LockOk, AuthOk, QueueOk, AppliesOk, ExecOk, VotesOnce, AllStable, AllReported, DecidedOk, ChainOk, ResultsOk;
    var k :| 0 <= k < |r.env.ledger| && r.env.ledger[k] == p;
  }
}
