/** The steps that order something keep the votes of a replica ordered by view: locking, filing a
    prepare, and accepting a pre-prepare. */
module OrderSteps {
  import opened Types
  import opened Weights
  import opened ConfigModel
  import opened CacheModel
  import opened ReplicaModel
  import opened CacheInvariant
  import opened ReplicaInvariant
  import opened HandlerInvariant
  import opened Monotone
  import opened VoteOrder
  import opened PassiveSteps

  // ---- Locking ----

  /** The lock at `i` for what is accepted there, in the current view. */
  ghost predicate LockStep(r: Replica, i: int, c': Cache, m: Msg) {
    && i in r.caches && c'.index == i && r.caches[i].prePrepare == Some(m) && m.view == r.cfg.view && m.index == i
    && SameRound(Some(m), c'.prePrepare) && c'.prepares == r.caches[i].prepares
    && HasQuorum(r.cfg.nodes, c'.prepares, m.hash) && VotesCurrent(r.cfg.view, c'.prepares)
  }

  function CommitVote(r: Replica, m: Msg): Msg {
    r.cfg.Own(Commit, m.index, m.hash)
  }

  function LockedAt(r: Replica, c': Cache, m: Msg): Replica {
    Send(Put(r, c'), CommitVote(r, m))
  }

  lemma LockKnown(r: Replica, i: int, c': Cache, m: Msg)
    requires LockStep(r, i, c', m) && AllKnown(Floor(r.cfg), r.caches, r.env.sent)
    ensures AllKnown(Floor(r.cfg), LockedAt(r, c', m).caches, LockedAt(r, c', m).env.sent)
  {
    hide HasQuorum, VotesCurrent;
    var r' := LockedAt(r, c', m);
    forall x | x in r'.env.sent && x.kind != CheckPoint ensures VoteKnown(Floor(r.cfg), r'.caches, x) {
      assert x in r.env.sent ==> VoteKnown(Floor(r.cfg), r.caches, x);
    }
  }

  /** Earlier commit votes at this index are for the same hash, and all other votes there are of
      earlier views. */
  lemma LockLast(r: Replica, i: int, c': Cache, m: Msg)
    requires LockStep(r, i, c', m) && AllKnown(Floor(r.cfg), r.caches, r.env.sent) && CommitsLast(r.env.sent)
    requires forall h :: (i, h) in Cast(r.env.sent, Commit) ==> h == m.hash
    ensures CommitsLast(r.env.sent + [CommitVote(r, m)])
  {
    hide HasQuorum, VotesCurrent;
    var sent, own := r.env.sent, CommitVote(r, m);
    forall x | x in sent && x.kind != CheckPoint && x.index == i && x.hash != m.hash ensures x.view < own.view {
      assert VoteKnown(Floor(r.cfg), r.caches, x);
    }
    forall c | c in sent && c.kind == Commit && c.index == i ensures c.hash == m.hash {
      assert (c.index, c.hash) in Cast(sent, Commit);
    }
    hide Cast;
  }

  lemma LockIsBacked(nodes: seq<Node>, logs: Logs, i: int, book: VoteBook, view: nat, own: Msg)
    requires BookBacked(logs, i, book) && VotesCurrent(view, book)
    requires own.view == view && own.index == i && HasQuorum(nodes, book, own.hash)
    ensures LockBacked(nodes, logs, own)
  {
    hide Weight, QuorumOf;
    var q := book[own.hash].Keys;
    forall n | n in q ensures Backs(logs, n, own.view, own.index, own.hash) {
      assert Backs(logs, n, book[own.hash][n].view, i, own.hash);
    }
    assert BackedBy(nodes, logs, own, q);
  }

  lemma MoreLocksBacked(nodes: seq<Node>, logs: Logs, sent: seq<Msg>, m: Msg)
    requires LocksBacked(nodes, logs, sent) && (m.kind == Commit ==> LockBacked(nodes, logs, m))
    ensures LocksBacked(nodes, logs, sent + [m])
  {
    hide LockBacked;
  }

  lemma PutBacked(logs: Logs, caches: Caches, c: Cache)
    requires PreparesBacked(logs, caches) && BookBacked(logs, c.index, c.prepares)
    ensures PreparesBacked(logs, caches[c.index := c])
  {
    hide BookBacked;
  }

  lemma LockOrder(r: Replica, i: int, c': Cache, m: Msg, logs: Logs)
    requires OrderInv(r, logs) && LockStep(r, i, c', m)
    requires forall h :: (i, h) in Cast(r.env.sent, Commit) ==> h == m.hash
    ensures OrderInv(LockedAt(r, c', m), Updated(logs, LockedAt(r, c', m)))
  {
    var r' := LockedAt(r, c', m);
    var logs' := Updated(logs, r');
    LockKnown(r, i, c', m);
    LockLast(r, i, c', m);
    UpdatedLater(logs, r, r');
    hide AllKnown, CommitsLast, LogsLater, HasQuorum, VotesCurrent, LocksBacked, BookBacked, Cast;
    PreparesLater(logs, logs', r.caches);
    LocksLater(r.cfg.nodes, logs, logs', r.env.sent);
    PutBacked(logs', r.caches, c');
    LockIsBacked(r.cfg.nodes, logs', i, c'.prepares, r.cfg.view, CommitVote(r, m));
    MoreLocksBacked(r.cfg.nodes, logs', r.env.sent, CommitVote(r, m));
  }

  lemma LockFacts(g: Cfg, c: Cache)
    requires SelfOk(g) && CacheOk(g, c) && WillPrecommit(c, g)
    ensures c.prePrepare.Some? && c.prePrepare.value.view == g.view && c.prePrepare.value.index == c.index
    ensures var c' := CheckPrecommit(c, g).0;
      && c'.index == c.index && SameRound(c.prePrepare, c'.prePrepare) && c'.prepares == c.prepares
      && HasQuorum(g.nodes, c.prepares, c.prePrepare.value.hash) && VotesCurrent(g.view, c.prepares)
  {
    hide HasQuorum, VotesFiled, VotesSigned, VotesCurrent, LockMessage, AddVote, SignatureList;
  }

  /** At an index with an accepted proposal all commit votes are for that proposal. */
  lemma AcceptedIsLocked(r: Replica, i: int, base: Proposal, w: World)
    requires Inv(r, base, w) && i in r.caches && r.caches[i].prePrepare.Some?
    ensures forall h :: (i, h) in Cast(r.env.sent, Commit) ==> h == r.caches[i].prePrepare.value.hash
  {
    hide CfgOk, AuthOk, QueueOk, AppliesOk, ExecOk, VotesOnce, LedgerOk, AllStable, AllReported, DecidedOk, ChainOk, ResultsOk,
      VotesFiled, VotesSigned, VotesCurrent, LockMessage, Cast, OneVote;
    assert CacheOk(r.cfg, r.caches[i]);
    forall h | (i, h) in Cast(r.env.sent, Commit) ensures h == r.caches[i].prePrepare.value.hash {
      assert Held(r.caches, i, h) || Past(Floor(r.cfg), r.caches, i);
    }
  }

  lemma LockingOrder(r: Replica, i: int, base: Proposal, w: World, logs: Logs)
    requires Inv(r, base, w) && OrderInv(r, logs)
    requires i in r.caches && r.caches[i].index == i && WillPrecommit(r.caches[i], r.cfg)
    ensures OrderInv(LockAt(r, i), Updated(logs, LockAt(r, i)))
  {
    var c := r.caches[i];
    InvCache(r, i, base, w);
    PrecommitIndex(r.cfg, c);
    LockAtIs(r, i);
    LockFacts(r.cfg, c);
    AcceptedIsLocked(r, i, base, w);
    hide Inv, CacheOk, AuthCache, SelfOk, WillPrecommit, CheckPrecommit, LockAt, OrderInv, Cast, SameRound;
    LockOrder(r, i, CheckPrecommit(c, r.cfg).0, c.prePrepare.value, logs);
  }

  lemma PrecommitOrder(r: Replica, i: int, base: Proposal, w: World, logs: Logs)
    requires Inv(r, base, w) && OrderInv(r, logs)
    ensures var r' := PrecommitAt(r, i); OrderInv(r', Updated(logs, r'))
  {
    var c := CacheAt(r, i);
    var (c', enough) := CheckPrecommit(c, r.cfg);
    var r1 := LockAt(r, i);
    InvCache(r, i, base, w);
    PrecommitIndex(r.cfg, c);
    LockAtIs(r, i);
    hide Inv, CacheOk, AuthCache, SelfOk, CheckPrecommit, LockAt, OrderInv, Decide, Passive;
    if WillPrecommit(c, r.cfg) {
      hide WillPrecommit;
      LockingOrder(r, i, base, w, logs);
    } else {
      hide WillPrecommit;
      PutPassive(r, c);
      PassiveKeeps(r, r1, logs);
    }
    LockSelf(r, i);
    if enough {
      DecidePassive(r1, c');
      PassiveKeeps(r1, Decide(r1, c'), Updated(logs, r1));
      DecideLater(r1, c');
      UpdatedTwice(logs, r1, Decide(r1, c'));
    }
  }

  lemma LockSelf(r: Replica, i: int)
    ensures LockAt(r, i).cfg == r.cfg
  {
    hide CheckPrecommit, VotesCast;
  }

  lemma UpdatedTwice(logs: Logs, r: Replica, r': Replica)
    requires r'.cfg.self == r.cfg.self
    ensures Updated(Updated(logs, r), r') == Updated(logs, r')
  {
  }

  lemma {:induction false} PrecommitEachOrder(r: Replica, ks: seq<int>, base: Proposal, w: World, logs: Logs)
    requires Inv(r, base, w) && OrderInv(r, logs)
    ensures var r' := PrecommitEach(r, ks); OrderInv(r', Updated(logs, r'))
  {
    hide Inv, PrecommitAt, OrderInv;
    if ks == [] {
      UpdatedItself(r, logs);
    } else {
      var r1 := PrecommitEach(r, ks[..|ks| - 1]);
      PrecommitEachOrder(r, ks[..|ks| - 1], base, w, logs);
      PrecommitEachKeeps(r, ks[..|ks| - 1], base, w);
      PrecommitEachLater(r, ks[..|ks| - 1]);
      PrecommitOrder(r1, ks[|ks| - 1], base, w, Updated(logs, r1));
      PrecommitAtLater(r1, ks[|ks| - 1]);
      UpdatedTwice(logs, r1, PrecommitAt(r1, ks[|ks| - 1]));
    }
  }

  lemma UpdatedItself(r: Replica, logs: Logs)
    requires OrderInv(r, logs)
    ensures Updated(logs, r) == logs
  {
  }

  lemma CheckOrder(r: Replica, base: Proposal, w: World, logs: Logs)
    requires Inv(r, base, w) && OrderInv(r, logs)
    ensures var r' := CheckAndPreCommit(r); OrderInv(r', Updated(logs, r'))
    ensures CheckAndPreCommit(r).cfg == r.cfg
  {
    hide Inv, PrecommitEach, OrderInv, Ascending;
    PrecommitEachOrder(r, Ascending(r.caches.Keys), base, w, logs);
    PrecommitEachLater(r, Ascending(r.caches.Keys));
  }

  // ---- Prepares ----

  lemma BookMore(logs: Logs, nodes: seq<Node>, i: int, book: VoteBook, m: Msg)
    requires BookBacked(logs, i, book) && Backs(logs, m.from, m.view, i, m.hash)
    ensures BookBacked(logs, i, AddVote(nodes, i, book, m))
  {
    hide Backs;
  }

  lemma PrepareKnown(floor: int, caches: Caches, sent: seq<Msg>, c: Cache)
    requires AllKnown(floor, caches, sent) && SameRound(Accepted(caches, c.index), c.prePrepare)
    ensures AllKnown(floor, caches[c.index := c], sent)
  {
    forall x | x in sent && x.kind != CheckPoint ensures VoteKnown(floor, caches[c.index := c], x) {
      assert VoteKnown(floor, caches, x);
    }
  }

  /** A prepare is filed that its sender signed, if it is honest. */
  lemma AddPrepareOrder(r: Replica, m: Msg, logs: Logs)
    requires OrderInv(r, logs) && Backs(logs, m.from, m.view, m.index, m.hash)
    ensures OrderInv(AddPrepare(r, m), logs)
  {
    hide Backs, AddVote, CommitsLast, LocksBacked;
    var c := CacheAt(r, m.index);
    var c' := c.(index := m.index, prepares := AddVote(r.cfg.nodes, m.index, c.prepares, m));
    assert BookBacked(logs, m.index, c.prepares);
    BookMore(logs, r.cfg.nodes, m.index, c.prepares, m);
    hide BookBacked, VoteKnown;
    PutBacked(logs, r.caches, c');
    PrepareKnown(Floor(r.cfg), r.caches, r.env.sent, c');
  }

  lemma HandlePrepareOrder(r: Replica, m: Msg, base: Proposal, w: World, logs: Logs)
    requires Inv(r, base, w) && OrderInv(r, logs) && m.WellFormed() && m.kind == Prepare
    requires VoteOk(r, m) ==> Justified(r.cfg.self, r.env.sent, w, m.from, Prepare, m.index, m.hash)
    requires VoteOk(r, m) ==> Backs(logs, m.from, m.view, m.index, m.hash)
    ensures var r' := HandlePrepare(r, m).0; OrderInv(r', Updated(logs, r'))
  {
    UpdatedItself(r, logs);
    if HandlePrepare(r, m).1 {
      PrepareChecks(r, m);
      hide Inv, VoteOk, OrderInv, CheckAndPreCommit, Backs, Justified, SigOf, AddPrepare;
      AddPrepareOrder(r, m, logs);
      AddPrepareKeeps(r, m, base, w);
      CheckOrder(AddPrepare(r, m), base, w, logs);
    }
  }

  lemma PrepareChecks(r: Replica, m: Msg)
    requires m.WellFormed() && HandlePrepare(r, m).1
    ensures VoteOk(r, m) && HandlePrepare(r, m).0 == CheckAndPreCommit(AddPrepare(r, m))
    ensures m.view >= r.cfg.view && (m.from < |r.cfg.nodes| ==> SigOf(m) == Sig(r.cfg.nodes[m.from].id, m.hash))
  {
    hide AddPrepare, CheckAndPreCommit;
  }

  // ---- Pre-prepares ----

  /** What the checks of a pre-prepare say about the cache it goes to. */
  lemma AcceptedChecks(r: Replica, m: Msg, base: Proposal, w: World)
    requires Inv(r, base, w) && PrePrepareOk(r, m)
    ensures m.index >= Floor(r.cfg) && m.view >= r.cfg.view
    ensures var c := CacheAt(r, m.index);
      && c.index == m.index && !c.stable && c.checkpoint.None?
      && (c.prePrepare.Some? ==> NotAfter(c.prePrepare.value, m))
      && (c.precommit.Some? ==> c.precommit.value.hash == m.hash)
  {
    hide LockOk, AuthOk, QueueOk, AppliesOk, ExecOk, VotesOnce, LedgerOk, AllStable, AllReported, DecidedOk, ChainOk, ResultsOk,
      VotesFiled, VotesSigned, VotesCurrent;
    CacheAtOk(r, m.index);
  }

  /** Votes at this index were cast in views before that of the new proposal, or for its hash. */
  lemma AcceptKnown(r: Replica, m: Msg)
    requires AllKnown(Floor(r.cfg), r.caches, r.env.sent) && m.index >= Floor(r.cfg)
    requires var c := CacheAt(r, m.index); c.prePrepare.Some? ==> NotAfter(c.prePrepare.value, m)
    ensures AllKnown(Floor(r.cfg), AddPrePrepareCache(r, m).caches, r.env.sent)
  {
    var r' := AddPrePrepareCache(r, m);
    forall x | x in r.env.sent && x.kind != CheckPoint ensures VoteKnown(Floor(r.cfg), r'.caches, x) {
      assert VoteKnown(Floor(r.cfg), r.caches, x);
    }
  }

  lemma AcceptOrder(r: Replica, m: Msg, base: Proposal, w: World, logs: Logs)
    requires Inv(r, base, w) && OrderInv(r, logs) && PrePrepareOk(r, m)
    ensures OrderInv(AddPrePrepareCache(r, m), logs)
    ensures AddPrePrepareCache(r, m).cfg == r.cfg && AddPrePrepareCache(r, m).env == r.env
    ensures Accepted(AddPrePrepareCache(r, m).caches, m.index) == Some(m)
  {
    hide Inv, CommitsLast, LocksBacked, PrePrepareOk, Backs, VoteKnown;
    AcceptedChecks(r, m, base, w);
    AcceptKnown(r, m);
    assert BookBacked(logs, m.index, CacheAt(r, m.index).prepares);
    hide AllKnown, BookBacked;
    PutBacked(logs, r.caches, AddPrePrepare(CacheAt(r, m.index), m).(index := m.index));
  }

  /** Commit votes at the index of an accepted pre-prepare are for its hash. */
  lemma CommitsAgree(r: Replica, m: Msg, base: Proposal, w: World)
    requires Inv(r, base, w) && PrePrepareOk(r, m)
    ensures forall h :: (m.index, h) in Cast(r.env.sent, Commit) ==> h == m.hash
  {
    AcceptedChecks(r, m, base, w);
    hide CfgOk, CachesOk, AuthOk, QueueOk, AppliesOk, ExecOk, VotesOnce, LedgerOk, AllStable, AllReported, DecidedOk, ChainOk,
      ResultsOk, Cast, OneVote, PrePrepareOk;
    forall h | (m.index, h) in Cast(r.env.sent, Commit) ensures h == m.hash {
      assert Held(r.caches, m.index, h) || Past(Floor(r.cfg), r.caches, m.index);
    }
  }

  /** The own prepare for the accepted proposal. */
  lemma SendPrepareOrder(r: Replica, m: Msg, own: Msg, logs: Logs)
    requires OrderInv(r, logs) && Accepted(r.caches, m.index) == Some(m)
    requires own.kind == Prepare && own.index == m.index && own.hash == m.hash && own.view <= m.view
    requires forall h :: (m.index, h) in Cast(r.env.sent, Commit) ==> h == m.hash
    ensures OrderInv(Send(r, own), Updated(logs, Send(r, own)))
  {
    var r' := Send(r, own);
    var logs' := Updated(logs, r');
    UpdatedLater(logs, r, r');
    assert VoteKnown(Floor(r.cfg), r.caches, own);
    MorePrepares(r.env.sent, own, m);
    hide CommitsLast, LogsLater, LocksBacked, PreparesBacked, Cast, VoteKnown;
    PreparesLater(logs, logs', r.caches);
    LocksLater(r.cfg.nodes, logs, logs', r.env.sent);
    MoreLocksBacked(r.cfg.nodes, logs', r.env.sent, own);
  }

  lemma MorePrepares(sent: seq<Msg>, own: Msg, m: Msg)
    requires CommitsLast(sent) && own.kind == Prepare && own.index == m.index && own.hash == m.hash
    requires forall h :: (m.index, h) in Cast(sent, Commit) ==> h == m.hash
    ensures CommitsLast(sent + [own])
  {
    forall c | c in sent && c.kind == Commit && c.index == m.index ensures c.hash == m.hash {
      assert (c.index, c.hash) in Cast(sent, Commit);
    }
    hide Cast;
  }

  lemma OwnBacks(r: Replica, own: Msg, logs: Logs)
    requires r.cfg.self in logs && logs[r.cfg.self] == r.env.sent && own in r.env.sent && own.from == r.cfg.self
    ensures Backs(logs, own.from, own.view, own.index, own.hash)
  {
  }

  lemma AcceptedPrepare(r: Replica, m: Msg, base: Proposal, w: World, logs: Logs)
    requires Inv(r, base, w) && OrderInv(r, logs) && PrePrepareOk(r, m) && m.WellFormed()
    ensures var r1 := AddPrePrepareCache(r, m); var own := r1.cfg.Own(Prepare, m.index, m.hash);
      var r3 := Send(AddPrepare(r1, own), own);
      Inv(r3, base, w) && OrderInv(r3, Updated(logs, r3)) && r3.cfg == r.cfg
  {
    var r1 := AddPrePrepareCache(r, m);
    var own := r1.cfg.Own(Prepare, m.index, m.hash);
    var rs := Send(r1, own);
    AddPrePrepareCacheKeeps(r, m, base, w);
    AcceptedChecks(r, m, base, w);
    AcceptOrder(r, m, base, w, logs);
    CommitsAgree(r, m, base, w);
    InvCfg(r1, base, w);
    OwnPrepareKeeps(r1, own, base, w);
    hide Inv, OrderInv, PrePrepareOk, AddPrePrepareCache, AddVote, Cast, Backs, CfgOk;
    SendPrepareOrder(r1, m, own, logs);
    OrderSelf(rs, Updated(logs, rs));
    OwnBacks(rs, own, Updated(logs, rs));
    AddPrepareOrder(rs, own, Updated(logs, rs));
    assert Send(AddPrepare(r1, own), own) == AddPrepare(rs, own);
  }

  lemma OrderSelf(r: Replica, logs: Logs)
    requires OrderInv(r, logs)
    ensures r.cfg.self in logs && logs[r.cfg.self] == r.env.sent
  {
  }

  lemma HandlePrePrepareOrder(r: Replica, m: Msg, verify: bool, fromNewView: bool, checkSignature: bool,
                              base: Proposal, w: World, logs: Logs)
    requires Inv(r, base, w) && OrderInv(r, logs) && m.WellFormed()
    ensures var r' := HandlePrePrepare(r, m, verify, fromNewView, checkSignature).0; OrderInv(r', Updated(logs, r'))
  {
    hide Inv, OrderInv, PrePrepareOk, CheckAndPreCommit, AddPrePrepareCache, AddPrepare;
    UpdatedItself(r, logs);
    if AcceptsPrePrepare(r, m, fromNewView, checkSignature) && !verify {
      AcceptedPrepare(r, m, base, w, logs);
      var r1 := AddPrePrepareCache(r, m);
      var own := r1.cfg.Own(Prepare, m.index, m.hash);
      var r3 := Send(AddPrepare(r1, own), own);
      assert BroadcastPrepare(r1, m) == CheckAndPreCommit(r3);
      var r4 := CheckAndPreCommit(r3);
      CheckOrder(r3, base, w, Updated(logs, r3));
      CheckAndPreCommitKeeps(r3, base, w);
      UpdatedTwice(logs, r3, r4);
      CheckOrder(r4, base, w, Updated(logs, r4));
      UpdatedTwice(logs, r4, CheckAndPreCommit(r4));
    }
  }
}
