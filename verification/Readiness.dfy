/** No proposal that could be executed waits: in every run the proposal of the expected index is being
    executed as soon as it is decided and its predecessor is there. */
module Readiness {
  import opened Types
  import opened Weights
  import opened ConfigModel
  import opened CacheModel
  import opened ReplicaModel
  import opened CacheInvariant
  import opened ReplicaInvariant
  import opened HandlerInvariant
  import opened Monotone
  import opened ViewChangeInvariant
  import opened Network
  import opened Runs
  import opened Safety
  import opened Progress
  import opened Announcements
  import opened Outcomes
  import opened Settlement

  /** Nothing queued could be executed now. */
  predicate Idle(r: Replica) {
    !TryApply(r).1
  }

  /** What is marked as executing is being executed. */
  ghost predicate MarksRun(executing: map<Hash, int>, running: seq<ApplyCall>) {
    forall h :: h in executing ==>
      exists call :: call in running && call.proposal.hash == h && call.proposal.index == executing[h]
  }

  /** Decided proposals of one index have one hash. */
  ghost predicate OneHash(ps: seq<Proposal>) {
    forall p, q :: p in ps && q in ps && p.index == q.index ==> p.hash == q.hash
  }

  /** No hash is decided at two indices. */
  ghost predicate UsedOnce(ps: seq<Proposal>) {
    forall p, q :: p in ps && q in ps && p.hash == q.hash ==> p.index == q.index
  }

  ghost predicate Ready(r: Replica) {
    Idle(r) && MarksRun(r.executing, r.env.running)
  }

  // ---- Trying to execute ----

  lemma ApplyVerdict(r: Replica)
    requires Sorted(r.commitQueue) && OneHash(r.commitQueue)
    ensures TryApply(r).1 <==>
      && AppliedCheckPoint(r.cfg, r.caches, r.cfg.expected - 1).Some?
      && exists p :: p in r.commitQueue && p.index == r.cfg.expected && p.hash !in r.executing
  {
    hide DropBelow, AppliedCheckPoint;
    DropBelowKeeps(r.commitQueue, r.cfg.expected);
    var d := DropBelow(r.commitQueue, r.cfg.expected);
    forall p | p in r.commitQueue && p.index == r.cfg.expected ensures d != [] && d[0].index == r.cfg.expected {
      HeadIsLeast(r.commitQueue, r.cfg.expected, p);
    }
    if d != [] {
      assert d[0] in d;
    }
  }

  /** Trying to execute leaves nothing that could be executed. */
  lemma ApplyIdles(r: Replica)
    requires Sorted(r.commitQueue) && OneHash(r.commitQueue)
    ensures Idle(TryApply(r).0)
  {
    hide Sorted, OneHash, AppliedCheckPoint, Executes;
    var r' := TryApply(r).0;
    ApplyVerdict(r);
    ApplyEffect(r);
    ApplyFrame(r);
    AppliedQueue(r);
    ApplyVerdict(r');
    hide TryApply;
    if call :| Executes(r, r', call) {
      ExecutedStays(r, r', call);
    }
  }

  lemma AppliedQueue(r: Replica)
    requires Sorted(r.commitQueue) && OneHash(r.commitQueue)
    ensures Sorted(TryApply(r).0.commitQueue) && OneHash(TryApply(r).0.commitQueue)
  {
    hide Sorted, OneHash, Executes;
    ApplyEffect(r);
    FewerHashes(TryApply(r).0.commitQueue, r.commitQueue);
    QueueTail(r);
  }

  lemma QueueTail(r: Replica)
    requires Sorted(r.commitQueue)
    ensures Sorted(TryApply(r).0.commitQueue)
  {
    hide DropBelow, AppliedCheckPoint, Sorted;
    var q, d := r.commitQueue, DropBelow(r.commitQueue, r.cfg.expected);
    DropBelowKeeps(q, r.cfg.expected);
    SortedTail(q, |q| - |d|);
    if d != [] {
      SortedTail(q, |q| - |d| + 1);
      assert d[1..] == q[|q| - |d| + 1..];
    }
  }

  lemma SortedTail(q: seq<Proposal>, k: nat)
    requires Sorted(q) && k <= |q|
    ensures Sorted(q[k..])
  {
  }

  lemma ExecutedStays(r: Replica, r': Replica, call: ApplyCall)
    requires Executes(r, r', call) && OneHash(r.commitQueue) && forall p :: p in r'.commitQueue ==> p in r.commitQueue
    ensures forall p :: p in r'.commitQueue && p.index == r.cfg.expected ==> p.hash in r'.executing
  {
  }

  lemma ApplyMarks(r: Replica)
    requires Sorted(r.commitQueue) && MarksRun(r.executing, r.env.running)
    ensures MarksRun(TryApply(r).0.executing, TryApply(r).0.env.running)
  {
    hide Sorted, TryApply;
    ApplyEffect(r);
  }

  // ---- Steps that touch neither queue nor checkpoints ----

  lemma StillIdle(r: Replica, r': Replica)
    requires Idle(r) && SameCheckPoints(r.caches, r'.caches)
    requires r'.commitQueue == r.commitQueue && r'.executing == r.executing
    requires r'.cfg.expected == r.cfg.expected && r'.cfg.committed == r.cfg.committed
    ensures Idle(r')
  {
    hide DropBelow;
  }

  lemma StillReady(r: Replica, r': Replica)
    requires Ready(r) && SameCheckPoints(r.caches, r'.caches)
    requires r'.commitQueue == r.commitQueue && r'.executing == r.executing && r'.env.running == r.env.running
    requires r'.cfg.expected == r.cfg.expected && r'.cfg.committed == r.cfg.committed
    ensures Ready(r')
  {
    hide Idle, SameCheckPoints, MarksRun;
    StillIdle(r, r');
  }

  // ---- Deciding ----

  lemma QueueIsDecided(r: Replica, base: Proposal, w: World)
    requires Inv(r, base, w)
    ensures Sorted(r.commitQueue) && (forall p :: p in r.commitQueue ==> p in r.env.decided) && OneHash(r.env.decided)
  {
    hide CfgOk, CachesOk, AuthOk, AppliesOk, ExecOk, VotesOnce, LedgerOk, AllStable, AllReported, ChainOk, ResultsOk,
      Certified, DistinctSigners, Evidence, Cast;
    forall p, q | p in r.env.decided && q in r.env.decided && p.index == q.index ensures p.hash == q.hash {
      assert DecisionOk(r.cfg.nodes, r.cfg.self, r.env.sent, w, p) && DecisionOk(r.cfg.nodes, r.cfg.self, r.env.sent, w, q);
    }
  }

  lemma FewerHashes(ps: seq<Proposal>, qs: seq<Proposal>)
    requires OneHash(qs) && forall p :: p in ps ==> p in qs
    ensures OneHash(ps)
  {
  }

  /** A decision is queued and tried at once, so nothing is left that could be executed. */
  lemma DecideReady(r: Replica, c: Cache, decided: seq<Proposal>)
    requires Ready(r) && Sorted(r.commitQueue) && OneHash(decided) && decided == Decide(r, c).env.decided
    requires forall p :: p in r.commitQueue ==> p in r.env.decided
    ensures Ready(Decide(r, c))
  {
    hide TryApply, Insert, Idle, MarksRun, Sorted, OneHash;
    DecideFrame(r, c);
    if c.precommit.Some? && c.precommit.value.proposal.Some? {
      var p := c.precommit.value.proposal.value;
      var r1 := r.(env := r.env.(decided := r.env.decided + [p]));
      SameItself(r.caches);
      StillReady(r, r1);
      if p.hash !in r1.executing {
        InsertMembers(r1.commitQueue, p);
        InsertSorted(r1.commitQueue, p);
        var r2 := r1.(commitQueue := Insert(r1.commitQueue, p));
        FewerHashes(r2.commitQueue, decided);
        ApplyIdles(r2);
        ApplyMarks(r2);
      }
    }
  }

  lemma PrecommitAtReady(r: Replica, i: int, base: Proposal, w: World)
    requires Inv(r, base, w) && Ready(r)
    ensures Ready(PrecommitAt(r, i))
  {
    hide Inv, Ready, Decide, CheckPrecommit, VotesCast, OneHash, Sorted, SameCheckPoint;
    var c' := CheckPrecommit(CacheAt(r, i), r.cfg).0;
    var r1 := LockAt(r, i);
    LockFields(CacheAt(r, i), r.cfg);
    IndexIrrelevant(CacheAt(r, i), c', i);
    CachesAlike(r.caches);
    SamePut(r, r.caches, i, c'.(index := i));
    StillReady(r, r1);
    PrecommitAtKeeps(r, i, base, w);
    QueueIsDecided(r, base, w);
    QueueIsDecided(PrecommitAt(r, i), base, w);
    if CheckPrecommit(CacheAt(r, i), r.cfg).1 {
      DecideReady(r1, c', PrecommitAt(r, i).env.decided);
    }
  }

  lemma CachesAlike(caches: Caches)
    ensures SameCheckPoints(caches, caches)
  {
  }

  lemma {:induction false} PrecommitEachReady(r: Replica, ks: seq<int>, base: Proposal, w: World)
    requires Inv(r, base, w) && Ready(r)
    ensures Ready(PrecommitEach(r, ks))
  {
    hide Inv, Ready, PrecommitAt;
    if ks != [] {
      PrecommitEachReady(r, ks[..|ks| - 1], base, w);
      PrecommitEachKeeps(r, ks[..|ks| - 1], base, w);
      PrecommitAtReady(PrecommitEach(r, ks[..|ks| - 1]), ks[|ks| - 1], base, w);
    }
  }

  lemma PassReady(r: Replica, base: Proposal, w: World)
    requires Inv(r, base, w) && Ready(r)
    ensures Ready(CheckAndPreCommit(r))
  {
    hide Inv, Ready, PrecommitEach, Ascending;
    PrecommitEachReady(r, Ascending(r.caches.Keys), base, w);
  }

  lemma CommitAtReady(r: Replica, i: int, base: Proposal, w: World)
    requires Inv(r, base, w) && Ready(r)
    ensures Ready(CommitAt(r, i))
  {
    hide Inv, Ready, Decide, CheckCommit, OneHash, Sorted, SameCheckPoint;
    var (c', enough) := CheckCommit(CacheAt(r, i), r.cfg);
    var r1 := Put(r, c'.(index := i));
    LockFields(CacheAt(r, i), r.cfg);
    IndexIrrelevant(CacheAt(r, i), c', i);
    CachesAlike(r.caches);
    SamePut(r, r.caches, i, c'.(index := i));
    StillReady(r, r1);
    CommitAtKeeps(r, i, base, w);
    QueueIsDecided(r, base, w);
    QueueIsDecided(CommitAt(r, i), base, w);
    if enough {
      var r2 := Decide(r1, c');
      DecideReady(r1, c', r2.env.decided);
      CachesAlike(r2.caches);
      StillReady(r2, CommitAt(r, i));
    }
  }

  lemma {:induction false} CommitEachReady(r: Replica, ks: seq<int>, base: Proposal, w: World)
    requires Inv(r, base, w) && Ready(r)
    ensures Ready(CommitEach(r, ks))
  {
    hide Inv, Ready, CommitAt;
    if ks != [] {
      CommitEachReady(r, ks[..|ks| - 1], base, w);
      CommitEachKeeps(r, ks[..|ks| - 1], base, w);
      CommitAtReady(CommitEach(r, ks[..|ks| - 1]), ks[|ks| - 1], base, w);
    }
  }

  // ---- Handlers ----

  lemma CommitPassReady(r: Replica, base: Proposal, w: World)
    requires Inv(r, base, w) && Ready(r)
    ensures Ready(CheckAndCommit(r))
  {
    hide Inv, Ready, CommitEach, Ascending;
    CommitEachReady(r, Ascending(r.caches.Keys), base, w);
  }

  lemma AcceptedReady(r: Replica, m: Msg, base: Proposal, w: World)
    requires Inv(r, base, w) && m.WellFormed() && PrePrepareOk(r, m) && Ready(r)
    ensures var r1 := AddPrePrepareCache(r, m);
      var own := r1.cfg.Own(Prepare, m.index, m.hash);
      var r3 := Send(AddPrepare(r1, own), own);
      Inv(r3, base, w) && Ready(r3)
  {
    var r1 := AddPrePrepareCache(r, m);
    var own := r1.cfg.Own(Prepare, m.index, m.hash);
    AddPrePrepareCacheKeeps(r, m, base, w);
    InvCfg(r1, base, w);
    OwnPrepareKeeps(r1, own, base, w);
    hide Inv, PrePrepareOk, CfgOk, Ready, AddVote;
    FiledAlike(r, m, own);
    StillReady(r, Send(AddPrepare(r1, own), own));
  }

  lemma FiledAlike(r: Replica, m: Msg, own: Msg)
    requires own.index == m.index
    ensures SameCheckPoints(r.caches, AddPrepare(AddPrePrepareCache(r, m), own).caches)
  {
    hide AddVote;
  }

  lemma PrePrepareReady(r: Replica, m: Msg, verify: bool, fromNewView: bool, checkSignature: bool, base: Proposal, w: World)
    requires Inv(r, base, w) && m.WellFormed() && Ready(r)
    ensures Ready(HandlePrePrepare(r, m, verify, fromNewView, checkSignature).0)
  {
    hide Inv, PrePrepareOk, CheckAndPreCommit, AddPrePrepareCache, AddPrepare, Ready;
    if AcceptsPrePrepare(r, m, fromNewView, checkSignature) && !verify {
      AcceptedReady(r, m, base, w);
      var r1 := AddPrePrepareCache(r, m);
      var own := r1.cfg.Own(Prepare, m.index, m.hash);
      var r3 := Send(AddPrepare(r1, own), own);
      CarriesOwn(r, m);
      PassReady(r3, base, w);
      CheckAndPreCommitKeeps(r3, base, w);
      PassReady(CheckAndPreCommit(r3), base, w);
    }
  }

  lemma CarriesOwn(r: Replica, m: Msg)
    requires m.WellFormed()
    ensures var r1 := AddPrePrepareCache(r, m);
      var own := r1.cfg.Own(Prepare, m.index, m.hash);
      BroadcastPrepare(r1, m) == CheckAndPreCommit(Send(AddPrepare(r1, own), own))
  {
    hide AddPrePrepareCache, AddPrepare, CheckAndPreCommit;
  }

  lemma PrepareReady(r: Replica, m: Msg, base: Proposal, w: World)
    requires Inv(r, base, w) && m.WellFormed() && m.kind == Prepare && Ready(r)
    requires Justified(r.cfg.self, r.env.sent, w, m.from, Prepare, m.index, m.hash)
    ensures Ready(HandlePrepare(r, m).0)
  {
    hide Inv, CheckAndPreCommit, Justified, Ready, AddVote;
    if VoteOk(r, m) && r.cfg.ProposalSignatureOk(m.from, m.proposal) {
      AddPrepareKeeps(r, m, base, w);
      StillReady(r, AddPrepare(r, m));
      PassReady(AddPrepare(r, m), base, w);
    }
  }

  lemma CommitReady(r: Replica, m: Msg, base: Proposal, w: World)
    requires Inv(r, base, w) && m.kind == Commit && Ready(r)
    requires Justified(r.cfg.self, r.env.sent, w, m.from, Commit, m.index, m.hash)
    ensures Ready(HandleCommit(r, m).0)
  {
    hide Inv, CheckAndCommit, Justified, Ready, AddVote;
    if VoteOk(r, m) {
      AddCommitKeeps(r, m, base, w);
      StillReady(r, AddCommit(r, m));
      CommitPassReady(AddCommit(r, m), base, w);
    }
  }

  /** The checkpoint passes only certify checkpoints and submit them. */
  lemma StablePassIdle(r: Replica, base: Proposal, w: World)
    requires Inv(r, base, w) && Idle(r)
    ensures Idle(CheckAndCommitStable(r))
  {
    hide Inv, CheckAndCommitStable, ToStabilize, Idle, Backed;
    var r' := CheckAndCommitStable(r);
    StableExact(r, base, w);
    StableLater(r);
    forall i | i in r'.caches && r'.caches[i].checkpoint.Some? ensures i in r.caches && r.caches[i].checkpoint.Some? {
    }
    FewerCheckPoints(r, r');
  }

  lemma FewerCheckPoints(r: Replica, r': Replica)
    requires Idle(r)
    requires forall i :: i in r'.caches && r'.caches[i].checkpoint.Some? ==> i in r.caches && r.caches[i].checkpoint.Some?
    requires r'.commitQueue == r.commitQueue && r'.executing == r.executing
    requires r'.cfg.expected == r.cfg.expected && r'.cfg.committed == r.cfg.committed
    ensures Idle(r')
  {
    hide DropBelow;
  }

  lemma TriedReady(r: Replica, base: Proposal, w: World)
    requires Inv(r, base, w) && MarksRun(r.executing, r.env.running)
    ensures Ready(TryApply(r).0)
  {
    hide Inv, Idle, MarksRun, OneHash, Sorted;
    QueueIsDecided(r, base, w);
    FewerHashes(r.commitQueue, r.env.decided);
    ApplyIdles(r);
    ApplyMarks(r);
  }

  lemma CheckPointReady(r: Replica, m: Msg, base: Proposal, w: World)
    requires Inv(r, base, w) && m.kind == CheckPoint && m.WellFormed() && Ready(r)
    requires Justified(r.cfg.self, r.env.sent, w, m.from, CheckPoint, m.index, m.hash)
    ensures Ready(HandleCheckPoint(r, m).0)
  {
    if HandleCheckPoint(r, m).1 {
      ProposalSigned(r.cfg, m);
      hide Inv, Justified, TryApply, CheckAndCommitStable, SigOf, AddVote, Idle, MarksRun;
      AddCheckPointKeeps(r, m, base, w);
      var r1 := AddCheckPointMsg(r, m);
      TriedReady(r1, base, w);
      TryApplyKeeps(r1, base, w);
      var r2 := TryApply(r1).0;
      StablePassIdle(r2, base, w);
      StableLater(r2);
    } else {
      hide Ready;
    }
  }

  // ---- Results and written blocks ----

  lemma Unmarked(r: Replica, h: Hash)
    requires Idle(r) && forall p :: p in r.commitQueue && p.index == r.cfg.expected ==> p.hash != h
    requires Sorted(r.commitQueue) && OneHash(r.commitQueue)
    ensures Idle(EraseExecuted(r, h))
  {
    hide TryApply, Sorted, OneHash, AppliedCheckPoint;
    ApplyVerdict(r);
    ApplyVerdict(EraseExecuted(r, h));
  }

  lemma RunningDecided(r: Replica, base: Proposal, w: World)
    requires Inv(r, base, w) && |r.env.running| == 1
    ensures r.env.running[0].proposal in r.env.decided
    ensures r.env.running[0].proposal.index == r.cfg.expected
  {
    hide CfgOk, CachesOk, LockOk, AuthOk, QueueOk, VotesOnce, LedgerOk, AllStable, AllReported, DecidedOk, ChainOk, ResultsOk, Cast;
    assert r.env.running[0] in r.env.applies;
  }

  /** After a result the next proposal is tried, and the mark that is dropped is not its mark. */
  lemma ResultReady(r: Replica, executed: Proposal, base: Proposal, w: World)
    requires Inv(r, base, w) && Ready(r) && UsedOnce(r.env.decided)
    requires |r.env.running| == 1 && executed.index == r.env.running[0].proposal.index
    requires w.results(r.env.running[0].last.hash, r.env.running[0].proposal.hash, executed.hash)
    ensures Ready(OnApplied(r.(env := r.env.(running := [])), r.env.running[0].proposal, executed))
  {
    var call := r.env.running[0];
    var r0 := r.(env := r.env.(running := []));
    var r1 := RecordExecuted(r0, executed);
    hide *;
    OnAppliedIs(r0, call.proposal, executed);
    OneMark(r);
    RunningDecided(r, base, w);
    ResultAbove(r, base, w);
    RecordExecutedKeeps(r, executed, base, w);
    RecordExecutedFrame(r0, executed);
    RecordOthers(r0, executed);
    ReportedReady(r1, call.proposal, base, w);
  }

  lemma OnAppliedIs(r: Replica, p: Proposal, executed: Proposal)
    requires r.cfg.committed.index < p.index
    ensures OnApplied(r, p, executed)
      == EraseExecuted(TryApply(CheckAndCommitStable(RecordExecuted(r, executed))).0, p.hash)
  {
    hide RecordExecuted, TryApply, CheckAndCommitStable, EraseExecuted;
  }

  lemma ReportedReady(r: Replica, p: Proposal, base: Proposal, w: World)
    requires Inv(r, base, w) && UsedOnce(r.env.decided) && r.env.running == []
    requires (forall x :: x in r.executing ==> x == p.hash) && p in r.env.decided && p.index != r.cfg.expected
    ensures Ready(EraseExecuted(TryApply(CheckAndCommitStable(r)).0, p.hash))
  {
    hide Inv, TryApply, CheckAndCommitStable, Ready, UsedOnce, EraseExecuted;
    CheckAndCommitStableKeeps(r, base, w);
    StableLater(r);
    NextTried(CheckAndCommitStable(r), p, base, w);
  }

  lemma OneMark(r: Replica)
    requires Ready(r) && |r.env.running| == 1
    ensures forall h :: h in r.executing ==> h == r.env.running[0].proposal.hash
  {
  }

  lemma ResultAbove(r: Replica, base: Proposal, w: World)
    requires Inv(r, base, w)
    ensures r.cfg.committed.index < r.cfg.expected
  {
    hide Inv;
    InvCfg(r, base, w);
  }

  /** Nothing is running and the only mark is that of `p`. */
  lemma NextTried(r: Replica, p: Proposal, base: Proposal, w: World)
    requires Inv(r, base, w) && UsedOnce(r.env.decided) && r.env.running == []
    requires (forall x :: x in r.executing ==> x == p.hash) && p in r.env.decided && p.index != r.cfg.expected
    ensures Ready(EraseExecuted(TryApply(r).0, p.hash))
  {
    hide Inv, TryApply, Idle, MarksRun, UsedOnce, Sorted, OneHash, EraseExecuted;
    QueueIsDecided(r, base, w);
    FewerHashes(r.commitQueue, r.env.decided);
    TryApplyKeeps(r, base, w);
    ApplyIdles(r);
    AppliedQueue(r);
    ApplyFrame(r);
    NextIsAnother(TryApply(r).0, r.env.decided, p, base, w);
    Unmarked(TryApply(r).0, p.hash);
    ApplyOne(r, p.hash);
  }

  lemma RecordOthers(r: Replica, executed: Proposal)
    requires executed.index > r.cfg.committed.index
    ensures var r' := RecordExecuted(r, executed);
      r'.cfg.expected == executed.index + 1 && r'.env.decided == r.env.decided && r'.commitQueue == r.commitQueue
  {
    hide AddVote, SetCheckPoint;
  }

  lemma ApplyOne(r: Replica, h: Hash)
    requires Sorted(r.commitQueue) && (forall x :: x in r.executing ==> x == h) && r.env.running == []
    ensures var r' := EraseExecuted(TryApply(r).0, h); MarksRun(r'.executing, r'.env.running)
  {
    hide Sorted, TryApply;
    ApplyEffect(r);
  }

  lemma NextIsAnother(r: Replica, decided: seq<Proposal>, p: Proposal, base: Proposal, w: World)
    requires Inv(r, base, w) && r.env.decided == decided && UsedOnce(decided) && p in decided && p.index != r.cfg.expected
    ensures forall q :: q in r.commitQueue && q.index == r.cfg.expected ==> q.hash != p.hash
  {
    hide Inv, Sorted, OneHash;
    QueueIsDecided(r, base, w);
  }

  lemma WrittenReady(r: Replica, base: Proposal, w: World)
    requires Inv(r, base, w) && Ready(r) && |r.env.committing| == 1
    ensures var q := r.env.committing[0]; Ready(Finalize(r.(env := r.env.(committing := [])), q.index, q.hash))
  {
    var q := r.env.committing[0];
    var r0 := r.(env := r.env.(committing := []));
    var r1 := r0.(cfg := r.cfg.ResetConfig(q.index, q.hash));
    hide Inv, Idle, MarksRun, Finalize, TryApply;
    WrittenKeeps(r, base, w);
    TriedReady(r1, base, w);
    EvictedReady(r0, q.index, q.hash);
  }

  lemma EvictedReady(r: Replica, number: int, hash: Hash)
    requires Ready(TryApply(r.(cfg := r.cfg.ResetConfig(number, hash))).0)
    ensures Ready(Finalize(r, number, hash))
  {
    hide Idle, MarksRun, Finalize, TryApply, StillFiled, Cfg.ResetConfig;
    var r1 := r.(cfg := r.cfg.ResetConfig(number, hash));
    EvictedConfig(r, number, hash);
    WrittenExact(r, number, hash);
    ApplyOthers(r1);
    FewerCheckPoints(TryApply(r1).0, Finalize(r, number, hash));
  }

  lemma EvictedConfig(r: Replica, number: int, hash: Hash)
    ensures Finalize(r, number, hash).cfg == r.cfg.ResetConfig(number, hash)
  {
    hide TryApply, TryCommitStable, Cfg.ResetConfig;
    var r1 := r.(cfg := r.cfg.ResetConfig(number, hash));
    ApplyFrame(r1);
    TryCommitStableLater(RemoveConsensused(TryApply(r1).0, TryApply(r1).0.cfg.view, number));
  }

  // ---- The timer ----

  /** All marks are of the running proposal, so the timer finds none that has expired. */
  lemma MarksAhead(r: Replica, base: Proposal, w: World)
    requires Inv(r, base, w) && MarksRun(r.executing, r.env.running)
    ensures forall h :: h in r.executing ==> r.executing[h] > r.cfg.committed.index
  {
    hide Inv;
    InvCfg(r, base, w);
    OneRunning(r, base, w);
    if |r.env.running| == 1 {
      RunningDecided(r, base, w);
    }
  }

  lemma AnnouncedReady(r: Replica, r': Replica)
    requires Ready(r) && Announces(r, r')
    ensures Ready(r')
  {
    hide Ready, SendsLocks;
    AnnouncedSame(r, r');
    StillReady(r, r');
  }

  lemma TimerReady(r: Replica, base: Proposal, w: World)
    requires Inv(r, base, w) && Ready(r)
    ensures Ready(OnTimeout(r))
  {
    hide Inv, TryApply, TriggerTimeout, MarksRun, Announces;
    TryApplyKeeps(r, base, w);
    ApplyOthers(r);
    var r1 := TryApply(r).0;
    TriedReady(r, base, w);
    MarksAhead(r1, base, w);
    OnTimeoutIs(r);
    assert r1.(executing := map h | h in r1.executing && r1.executing[h] > r1.cfg.committed.index :: r1.executing[h]) == r1;
    TimeoutAnnounces(r1);
    AnnouncedReady(r1, TriggerTimeout(r1));
  }

  // ---- Runs ----

  lemma ViewsReady(r: Replica, e: Event)
    requires Ready(r) && (e.ViewChangeIn? || e.NewViewIn? || e.RecoverIn? || e.LeaderLost?)
    ensures Ready(React(r, e))
  {
    hide HandleViewChange, HandleNewView, HandleRecover, TriggerTimeout, Ready, Announces;
    match e {
      case ViewChangeIn(vc) => HandleViewChangeAnnounces(r, vc);
      case NewViewIn(nv) => HandleNewViewAnnounces(r, nv);
      case RecoverIn(m) => HandleRecoverAnnounces(r, m);
      case _ => TimeoutAnnounces(r);
    }
    AnnouncedReady(r, React(r, e));
  }

  lemma InFlightReady(nodes: NodeList, n: nat, r: Replica, e: Event, base: Proposal, w: World)
    requires ReplicaOk(nodes, n, r, base, w) && Ready(r) && UsedOnce(r.env.decided)
    requires match e
      case Executed(k, executed) =>
        && k < |r.env.running| && executed.index == r.env.running[k].proposal.index
        && w.results(r.env.running[k].last.hash, r.env.running[k].proposal.hash, executed.hash)
      case Written(k) => k < |r.env.committing|
      case TimerFired => true
      case PrePrepareIn(m, _, _, _) => m.WellFormed()
      case _ => false
    ensures Ready(React(r, e))
  {
    hide Inv, VcInv, Ready, UsedOnce, OnApplied, Finalize, OnTimeout, HandlePrePrepare;
    OneRunning(r, base, w);
    match e
    case Executed(k, executed) =>
      assert Without(r.env.running, k) == [];
      ResultReady(r, executed, base, w);
    case Written(k) =>
      assert Without(r.env.committing, k) == [];
      WrittenReady(r, base, w);
    case TimerFired => TimerReady(r, base, w);
    case PrePrepareIn(m, verify, fromNewView, checkSignature) =>
      PrePrepareReady(r, m, verify, fromNewView, checkSignature, base, w);
  }

  lemma PrepareInReady(s: Setting, nodes: NodeList, start: Net, net: Net, n: nat, m: Msg)
    requires NetInv(s, nodes, start, net) && n in net && Ready(net[n])
    requires m.kind == Prepare && m.WellFormed() && Genuine(s, net, m)
    ensures Ready(HandlePrepare(net[n], m).0)
  {
    ReplicaOf(s, nodes, start, net, n);
    hide NetInv, Inv, VcInv, Genuine, Justified, Ready, CheckAndPreCommit, AddPrepare, WorldOf;
    if VoteOk(net[n], m) {
      VoteJustified(s, nodes, start, net, n, m);
      PrepareReady(net[n], m, Base(start, n), WorldOf(s, net));
    }
  }

  lemma CommitInReady(s: Setting, nodes: NodeList, start: Net, net: Net, n: nat, m: Msg)
    requires NetInv(s, nodes, start, net) && n in net && Ready(net[n])
    requires m.kind == Commit && m.WellFormed() && Genuine(s, net, m)
    ensures Ready(HandleCommit(net[n], m).0)
  {
    ReplicaOf(s, nodes, start, net, n);
    hide NetInv, Inv, VcInv, Genuine, Justified, Ready, CheckAndCommit, AddCommit, WorldOf;
    if VoteOk(net[n], m) {
      VoteJustified(s, nodes, start, net, n, m);
      CommitReady(net[n], m, Base(start, n), WorldOf(s, net));
    }
  }

  lemma CheckPointInReady(s: Setting, nodes: NodeList, start: Net, net: Net, n: nat, m: Msg)
    requires NetInv(s, nodes, start, net) && n in net && Ready(net[n])
    requires m.kind == CheckPoint && m.WellFormed() && Genuine(s, net, m)
    ensures Ready(HandleCheckPoint(net[n], m).0)
  {
    ReplicaOf(s, nodes, start, net, n);
    hide NetInv, Inv, VcInv, Genuine, Justified, Ready, CheckAndCommitStable, TryApply, AddCheckPointMsg, WorldOf;
    if net[n].cfg.SignatureOk(m) {
      VoteJustified(s, nodes, start, net, n, m);
      CheckPointReady(net[n], m, Base(start, n), WorldOf(s, net));
    }
  }

  lemma ReactReady(s: Setting, nodes: NodeList, start: Net, net: Net, n: nat, e: Event)
    requires NetInv(s, nodes, start, net) && n in net && Enabled(s, net, net[n], e)
    requires Ready(net[n]) && UsedOnce(net[n].env.decided)
    ensures Ready(React(net[n], e))
  {
    hide NetInv, ReplicaOk, Genuine, GenuineChange, Ready, UsedOnce, HandleCheckPoint, HandlePrePrepare, HandlePrepare,
      HandleCommit, HandleViewChange, HandleNewView, HandleRecover, OnTimeout, TriggerTimeout, OnApplied, Finalize;
    var r := net[n];
    if e.Executed? || e.Written? || e.TimerFired? || e.PrePrepareIn? {
      ReplicaOf(s, nodes, start, net, n);
      InFlightReady(nodes, n, r, e, Base(start, n), WorldOf(s, net));
    } else if e.CheckPointIn? {
      CheckPointInReady(s, nodes, start, net, n, e.m);
    } else if e.PrepareIn? {
      PrepareInReady(s, nodes, start, net, n, e.m);
    } else if e.CommitIn? {
      CommitInReady(s, nodes, start, net, n, e.m);
    } else if e.SyncNotice? {
      SyncReady(r, e.number);
    } else {
      ViewsReady(r, e);
    }
  }

  lemma SyncReady(r: Replica, number: int)
    requires Ready(r)
    ensures Ready(r.(cfg := r.cfg.(syncing := number)))
  {
    hide Ready, SameCheckPoints;
    CachesAlike(r.caches);
    StillReady(r, r.(cfg := r.cfg.(syncing := number)));
  }

  lemma UsedBefore(ps: seq<Proposal>, qs: seq<Proposal>)
    requires ps <= qs && UsedOnce(qs)
    ensures UsedOnce(ps)
  {
    assert forall p :: p in ps ==> p in qs;
  }

  lemma {:induction false} RunReady(s: Setting, nodes: NodeList, run: seq<Net>, steps: seq<Step>, k: nat, n: nat)
    requires IsRun(s, nodes, run, steps) && k < |run| && n in run[k] && UsedOnce(run[k][n].env.decided)
    ensures Ready(run[k][n])
  {
    hide Init, Enabled, NetInv, Ready, React, UsedOnce, CfgLater;
    if k == 0 {
      StartsReady(s, nodes, run, steps, n);
    } else {
      RunKeeps(s, nodes, run, steps, k - 1);
      RunKeeps(s, nodes, run, steps, k);
      SameReplicas(s, nodes, run[0], run[k - 1], run[k]);
      assert Follows(s, run[k - 1], steps[k - 1], run[k]);
      RunIsLater(s, nodes, run, steps, k - 1, k, n);
      UsedBefore(run[k - 1][n].env.decided, run[k][n].env.decided);
      RunReady(s, nodes, run, steps, k - 1, n);
      if steps[k - 1].node == n {
        ReactReady(s, nodes, run[0], run[k - 1], n, steps[k - 1].event);
      }
    }
  }

  lemma StartsReady(s: Setting, nodes: NodeList, run: seq<Net>, steps: seq<Step>, n: nat)
    requires IsRun(s, nodes, run, steps) && n in run[0]
    ensures Ready(run[0][n])
  {
    hide Tolerable, CanStep, Next;
    assert DropBelow([], run[0][n].cfg.expected) == [];
  }

  /** In every run in which this replica has not decided one hash at two indices: a proposal queued for the
      expected index whose predecessor is committed or executed is being executed. */
  lemma NothingReadyWaits(s: Setting, nodes: NodeList, run: seq<Net>, steps: seq<Step>, k: nat, n: nat, p: Proposal)
    requires IsRun(s, nodes, run, steps) && k < |run| && n in run[k]
    requires forall p, q :: p in run[k][n].env.decided && q in run[k][n].env.decided && p.hash == q.hash ==> p.index == q.index
    requires var r := run[k][n]; var before := r.cfg.expected - 1;
      && p in r.commitQueue && p.index == r.cfg.expected
      && (before == r.cfg.committed.index || (before in r.caches && r.caches[before].checkpoint.Some?))
    ensures exists call :: call in run[k][n].env.running && call.proposal.index == p.index && call.proposal.hash == p.hash
  {
    hide Init, CanStep, Next, NetInv, Inv, VcInv;
    RunKeeps(s, nodes, run, steps, k);
    ReplicaOf(s, nodes, run[0], run[k], n);
    RunReady(s, nodes, run, steps, k, n);
    IdleRuns(run[k][n], p, Base(run[0], n), WorldOf(s, run[k]));
  }

  lemma IdleRuns(r: Replica, p: Proposal, base: Proposal, w: World)
    requires Inv(r, base, w) && Ready(r) && p in r.commitQueue && p.index == r.cfg.expected
    requires r.cfg.expected - 1 == r.cfg.committed.index
      || (r.cfg.expected - 1 in r.caches && r.caches[r.cfg.expected - 1].checkpoint.Some?)
    ensures exists call :: call in r.env.running && call.proposal.index == p.index && call.proposal.hash == p.hash
  {
    hide Inv, TryApply;
    ApplyExact(r, base, w);
    var call :| call in r.env.running && call.proposal.hash == p.hash && call.proposal.index == r.executing[p.hash];
    OneRunning(r, base, w);
    RunningDecided(r, base, w);
  }
}
