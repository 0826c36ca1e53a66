/** Exactly what the passes over all caches do: every index that has its quorum is locked,
    committed or reported, no other is touched, and nothing that could be done is left. */
module Progress {
  import opened Types
  import opened Weights
  import opened ConfigModel
  import opened CacheModel
  import opened ReplicaModel
  import opened CacheInvariant
  import opened ReplicaInvariant
  import opened Monotone

  /** Each cache is filed under its own index. */
  ghost predicate Indexed(caches: Caches) {
    forall i :: i in caches ==> caches[i].index == i
  }

  ghost predicate Visits(ks: seq<int>, caches: Caches) {
    && (forall k :: 0 <= k < |ks| ==> ks[k] in caches)
    && (forall j, k :: 0 <= j < k < |ks| ==> ks[j] < ks[k])
  }

  lemma AscendingVisits(caches: Caches)
    ensures Visits(Ascending(caches.Keys), caches)
    ensures forall i :: i in caches <==> i in Ascending(caches.Keys)
  {
    var ks := Ascending(caches.Keys);
    assert forall k :: 0 <= k < |ks| ==> ks[k] in ks;
  }

  lemma ApplyFrame(r: Replica)
    ensures var r' := TryApply(r).0;
      r'.caches == r.caches && r'.cfg == r.cfg && r'.env.sent == r.env.sent && r'.env.decided == r.env.decided
  {
    hide DropBelow, AppliedCheckPoint;
  }

  /** Handing a decided proposal on changes neither caches nor votes. */
  lemma DecideFrame(r: Replica, c: Cache)
    ensures var r' := Decide(r, c);
      && r'.caches == r.caches && r'.cfg == r.cfg && r'.env.sent == r.env.sent
      && r'.env.decided == r.env.decided
        + if c.precommit.Some? && c.precommit.value.proposal.Some? then [c.precommit.value.proposal.value] else []
  {
    hide TryApply, Insert;
    if c.precommit.Some? && c.precommit.value.proposal.Some? {
      var p := c.precommit.value.proposal.value;
      var r1 := r.(env := r.env.(decided := r.env.decided + [p]));
      ApplyFrame(r1.(commitQueue := Insert(r1.commitQueue, p)));
    }
  }

  // ---- Votes ----

  /** A vote adds its sender exactly when it is for this index, from a known node and the first
      of that sender for its hash; every vote counted before stays as it was. */
  lemma VoteCounted(nodes: seq<Node>, index: int, book: VoteBook, m: Msg, h: Hash)
    ensures Senders(AddVote(nodes, index, book, m), h)
      == Senders(book, h) + if h == m.hash && m.index == index && m.from < |nodes| then {m.from} else {}
    ensures forall n :: n in Senders(book, h) ==>
      n in AddVote(nodes, index, book, m)[h] && AddVote(nodes, index, book, m)[h][n] == book[h][n]
    ensures m.index == index && m.from < |nodes| && m.from !in Senders(book, m.hash) ==>
      AddVote(nodes, index, book, m)[m.hash][m.from] == m
  {
  }

  // ---- Precommit ----

  /** The votes cast at the given indices, in order. */
  function AllVotes(g: Cfg, caches: Caches, ks: seq<int>): seq<Msg> {
    if ks == [] then []
    else
      var i := ks[|ks| - 1];
      AllVotes(g, caches, ks[..|ks| - 1]) + if i in caches then VotesCast(caches[i], g) else []
  }

  lemma {:induction false} AllVotesMembers(g: Cfg, caches: Caches, ks: seq<int>)
    ensures forall m :: m in AllVotes(g, caches, ks) <==> exists i :: i in ks && i in caches && m in VotesCast(caches[i], g)
  {
    hide VotesCast;
    if ks != [] {
      AllVotesMembers(g, caches, ks[..|ks| - 1]);
      assert ks == ks[..|ks| - 1] + [ks[|ks| - 1]];
    }
  }

  /** The proposal decided at once because the own vote completes the commit quorum. */
  function DecidedAtLock(g: Cfg, c: Cache): seq<Proposal> {
    var (c', enough) := CheckPrecommit(c, g);
    if enough && c'.precommit.Some? && c'.precommit.value.proposal.Some? then [c'.precommit.value.proposal.value] else []
  }

  function AllDecided(g: Cfg, caches: Caches, ks: seq<int>): seq<Proposal> {
    if ks == [] then []
    else
      var i := ks[|ks| - 1];
      AllDecided(g, caches, ks[..|ks| - 1]) + if i in caches then DecidedAtLock(g, caches[i]) else []
  }

  lemma {:induction false} AllDecidedMembers(g: Cfg, caches: Caches, ks: seq<int>)
    ensures forall p :: p in AllDecided(g, caches, ks) <==> exists i :: i in ks && i in caches && p in DecidedAtLock(g, caches[i])
  {
    hide DecidedAtLock;
    if ks != [] {
      AllDecidedMembers(g, caches, ks[..|ks| - 1]);
      assert ks == ks[..|ks| - 1] + [ks[|ks| - 1]];
    }
  }

  ghost predicate PrecommittedEach(r: Replica, r': Replica, ks: seq<int>) {
    && r'.cfg == r.cfg && r'.caches.Keys == r.caches.Keys
    && (forall i :: i in r.caches ==>
          r'.caches[i] == if i in ks then CheckPrecommit(r.caches[i], r.cfg).0 else r.caches[i])
    && r'.env.sent == r.env.sent + AllVotes(r.cfg, r.caches, ks)
    && r'.env.decided == r.env.decided + AllDecided(r.cfg, r.caches, ks)
  }

  lemma PrecommitOne(r: Replica, i: int)
    requires Indexed(r.caches) && i in r.caches
    ensures var r' := PrecommitAt(r, i);
      && r'.cfg == r.cfg && r'.caches == r.caches[i := CheckPrecommit(r.caches[i], r.cfg).0]
      && r'.env.sent == r.env.sent + VotesCast(r.caches[i], r.cfg)
      && r'.env.decided == r.env.decided + DecidedAtLock(r.cfg, r.caches[i])
  {
    hide CheckPrecommit, VotesCast, Decide;
    PrecommitIndex(r.cfg, r.caches[i]);
    DecideFrame(LockAt(r, i), CheckPrecommit(r.caches[i], r.cfg).0);
    assert r.env.decided + [] == r.env.decided;
  }

  lemma PrecommittedMore(r: Replica, r1: Replica, r2: Replica, front: seq<int>, i: int)
    requires PrecommittedEach(r, r1, front) && i in r.caches && i !in front
    requires r2.cfg == r1.cfg && r2.caches == r1.caches[i := CheckPrecommit(r1.caches[i], r1.cfg).0]
    requires r2.env.sent == r1.env.sent + VotesCast(r1.caches[i], r1.cfg)
    requires r2.env.decided == r1.env.decided + DecidedAtLock(r1.cfg, r1.caches[i])
    ensures PrecommittedEach(r, r2, front + [i])
  {
    hide CheckPrecommit, VotesCast, DecidedAtLock;
    assert (front + [i])[..|front|] == front;
  }

  lemma PrecommittedIndexed(r: Replica, r1: Replica, front: seq<int>)
    requires PrecommittedEach(r, r1, front) && Indexed(r.caches)
    ensures Indexed(r1.caches) && r1.caches.Keys == r.caches.Keys
  {
    hide CheckPrecommit, AllVotes, AllDecided;
    forall j | j in r.caches {
      PrecommitIndex(r.cfg, r.caches[j]);
    }
  }

  lemma {:induction false} UnfoldPrecommitEach(r: Replica, ks: seq<int>)
    requires ks != []
    ensures PrecommitEach(r, ks) == PrecommitAt(PrecommitEach(r, ks[..|ks| - 1]), ks[|ks| - 1])
  {
    hide PrecommitAt;
  }

  lemma PrecommittedNone(r: Replica)
    ensures PrecommittedEach(r, r, [])
  {
    hide CheckPrecommit, VotesCast, DecidedAtLock;
  }

  lemma {:induction false} PrecommitEachIs(r: Replica, ks: seq<int>)
    requires Indexed(r.caches) && Visits(ks, r.caches)
    ensures PrecommittedEach(r, PrecommitEach(r, ks), ks)
  {
    hide CheckPrecommit, VotesCast, DecidedAtLock;
    if ks == [] {
      PrecommittedNone(r);
    } else {
      UnfoldPrecommitEach(r, ks);
      hide PrecommitEach, PrecommittedEach, PrecommitAt;
      var front, i := ks[..|ks| - 1], ks[|ks| - 1];
      PrecommitEachIs(r, front);
      var r1 := PrecommitEach(r, front);
      assert ks == front + [i] && i !in front;
      PrecommittedIndexed(r, r1, front);
      PrecommitOne(r1, i);
      PrecommittedMore(r, r1, PrecommitAt(r1, i), front, i);
    }
  }

  /** The own vote of this node in its current view, signed in header and proposal. */
  function OwnVote(g: Cfg, kind: Kind, i: int, h: Hash): Msg {
    Msg(kind, g.view, i, h, g.self, g.id, Some(Proposal(i, h, false, "", Some(Sig(g.id, h)), [])))
  }

  /** What a cache holds once the proposal `m` accepted before is locked: lock and accepted
      message are one, certified by exactly the senders of its prepares; the copy for view
      changes is the same without payload; and the own vote to commit is counted. */
  ghost predicate LockedOn(g: Cfg, c: Cache, c': Cache, m: Msg) {
    && c'.precommit.Some? && c'.bare.Some? && m.proposal.Some?
    && c'.precommit.value.proposal.Some? && m.hash in c.prepares
    && var lock, proofs := c'.precommit.value, c'.precommit.value.proposal.value.proofs;
    && lock == m.(from := g.self, proposal := Some(m.proposal.value.(proofs := proofs)))
    && Certified(g.nodes, m.hash, proofs) && DistinctSigners(proofs) && Signers(proofs) == c.prepares[m.hash].Keys
    && c'.bare == Some(m.(proposal := Some(BareProposal(c.index, m.hash).(proofs := proofs))))
    && c'.commits == AddVote(g.nodes, c.index, c.commits, OwnVote(g, Commit, c.index, m.hash))
    && c' == c.(prePrepare := Some(lock), precommit := Some(lock), bare := c'.bare, commits := c'.commits,
                precommitted := true, submitted := c'.submitted)
  }

  /** Enough weight of distinct senders voted for `h`. */
  predicate Backed(g: Cfg, book: VoteBook, h: Hash) {
    h in book && Weight(g.nodes, book[h].Keys) >= QuorumOf(g.nodes)
  }

  /** A cache locks exactly if its accepted proposal is of the current view and has a prepare
      quorum, no vote to commit was cast since this view was entered, and what it has locked
      before was locked in an earlier view. It decides at once exactly if its own vote completes
      the commit quorum. Otherwise it does not change. */
  lemma LocksExactly(g: Cfg, c: Cache)
    requires SelfOk(g) && CacheOk(g, c)
    ensures var (c', decided) := CheckPrecommit(c, g);
      if && c.prePrepare.Some? && c.prePrepare.value.view == g.view
         && Backed(g, c.prepares, c.prePrepare.value.hash)
         && !c.precommitted && (c.precommit.Some? ==> c.precommit.value.view < g.view)
      then
        var m := c.prePrepare.value;
        && LockedOn(g, c, c', m) && VotesCast(c, g) == [OwnVote(g, Commit, c.index, m.hash)]
        && (decided <==> !c.submitted && Backed(g, c'.commits, m.hash))
        && c'.submitted == (c.submitted || decided)
      else c' == c && !decided && VotesCast(c, g) == []
  {
    hide Weight, QuorumOf, AddVote, VotesFiled, VotesSigned, VotesCurrent, LockMessage;
    if WillPrecommit(c, g) {
      LockContent(g, c);
    }
  }

  lemma LockContent(g: Cfg, c: Cache)
    requires SelfOk(g) && CacheOk(g, c) && WillPrecommit(c, g)
    ensures LockedOn(g, c, LockAndVote(c, g), c.prePrepare.value)
  {
    hide Weight, QuorumOf, AddVote, VotesFiled, VotesCurrent, LockMessage, SignatureList, Certified, DistinctSigners, Signers;
    var m := c.prePrepare.value;
    assert SignedVotes(g.nodes, m.hash, c.prepares[m.hash]);
    SignatureListCertifies(g.nodes, m.hash, c.prepares[m.hash]);
  }

  lemma LocksDone(g: Cfg, c: Cache)
    ensures !WillPrecommit(CheckPrecommit(c, g).0, g)
  {
    hide HasQuorum, SignatureList, AddVote;
  }

  lemma {:induction false} NothingToLock(r: Replica, ks: seq<int>)
    requires Indexed(r.caches) && Visits(ks, r.caches)
    requires forall i :: i in r.caches ==> !WillPrecommit(r.caches[i], r.cfg)
    ensures PrecommitEach(r, ks) == r
  {
    hide WillPrecommit;
    if ks != [] {
      var i := ks[|ks| - 1];
      NothingToLock(r, ks[..|ks| - 1]);
      assert i in r.caches;
      assert Put(r, r.caches[i]) == r;
      assert r.env.sent + [] == r.env.sent;
    }
  }

  /** What `LocksExactly` says, with what is decided as a list. */
  ghost predicate LocksAsSaid(g: Cfg, c: Cache) {
    var c' := CheckPrecommit(c, g).0;
    if && c.prePrepare.Some? && c.prePrepare.value.view == g.view
       && Backed(g, c.prepares, c.prePrepare.value.hash)
       && !c.precommitted && (c.precommit.Some? ==> c.precommit.value.view < g.view)
    then
      && LockedOn(g, c, c', c.prePrepare.value)
      && VotesCast(c, g) == [OwnVote(g, Commit, c.index, c.prePrepare.value.hash)]
      && DecidedAtLock(g, c) == if c'.submitted && !c.submitted then [c'.precommit.value.proposal.value] else []
    else c' == c && VotesCast(c, g) == [] && DecidedAtLock(g, c) == []
  }

  lemma LocksAndDecides(g: Cfg, c: Cache)
    requires SelfOk(g) && CacheOk(g, c)
    ensures LocksAsSaid(g, c)
  {
    hide VotesCast, Certified, DistinctSigners, Signers, AddVote, CacheOk, SelfOk, CheckPrecommit, Backed;
    LocksExactly(g, c);
  }

  /** The indices whose accepted proposal is of the current view and has its prepare quorum, where
      no vote to commit was cast since that view was entered and an earlier lock is of an earlier
      view. */
  function ToLock(g: Cfg, caches: Caches): set<int> {
    set i | i in caches && var c := caches[i];
      && c.prePrepare.Some? && c.prePrepare.value.view == g.view
      && Backed(g, c.prepares, c.prePrepare.value.hash)
      && !c.precommitted && (c.precommit.Some? ==> c.precommit.value.view < g.view)
  }

  /** Trying to precommit locks at exactly those indices. Each of them votes to commit, no other
      cache changes, what is decided at once is exactly what the own vote completes a quorum for,
      and a second try changes nothing. */
  lemma PrecommitExact(r: Replica, base: Proposal, w: World)
    requires Inv(r, base, w)
    ensures var g, r' := r.cfg, CheckAndPreCommit(r);
      var ready := ToLock(g, r.caches);
      && r'.cfg == g && r'.caches.Keys == r.caches.Keys
      && (forall i :: i in r.caches ==>
            if i in ready then LockedOn(g, r.caches[i], r'.caches[i], r.caches[i].prePrepare.value)
            else r'.caches[i] == r.caches[i])
      && (forall m :: m in r'.env.sent <==>
            m in r.env.sent || exists i :: i in ready && m == OwnVote(g, Commit, i, r.caches[i].prePrepare.value.hash))
      && (forall p :: p in r'.env.decided <==>
            p in r.env.decided
            || exists i :: i in ready && r'.caches[i].submitted && !r.caches[i].submitted
                 && r'.caches[i].precommit.value.proposal == Some(p))
    ensures CheckAndPreCommit(CheckAndPreCommit(r)) == CheckAndPreCommit(r)
  {
    hide CheckPrecommit, WillPrecommit, VotesCast, PrecommitEach, Ascending, LocksAsSaid, Backed, LockedOn, Inv, AllVotes, AllDecided;
    InvIndexed(r, base, w);
    AscendingVisits(r.caches);
    var ks := Ascending(r.caches.Keys);
    PrecommitEachIs(r, ks);
    var r' := PrecommitEach(r, ks);
    forall i | i in r.caches ensures LocksAsSaid(r.cfg, r.caches[i]) && !WillPrecommit(r'.caches[i], r.cfg) {
      InvCache(r, i, base, w);
      LocksAndDecides(r.cfg, r.caches[i]);
      LocksDone(r.cfg, r.caches[i]);
    }
    PrecommittedIndexed(r, r', ks);
    NothingToLock(r', ks);
    LockedIndices(r, r', ks);
  }

  lemma LockedIndices(r: Replica, r': Replica, ks: seq<int>)
    requires Indexed(r.caches) && PrecommittedEach(r, r', ks) && forall i :: i in r.caches <==> i in ks
    requires forall i :: i in r.caches ==> LocksAsSaid(r.cfg, r.caches[i])
    ensures var g := r.cfg;
      var ready := ToLock(g, r.caches);
      && (forall i :: i in r.caches ==>
            if i in ready then LockedOn(g, r.caches[i], r'.caches[i], r.caches[i].prePrepare.value)
            else r'.caches[i] == r.caches[i])
      && (forall m :: m in r'.env.sent <==>
            m in r.env.sent || exists i :: i in ready && m == OwnVote(g, Commit, i, r.caches[i].prePrepare.value.hash))
      && (forall p :: p in r'.env.decided <==>
            p in r.env.decided
            || exists i :: i in ready && r'.caches[i].submitted && !r.caches[i].submitted
                 && r'.caches[i].precommit.value.proposal == Some(p))
  {
    hide CheckPrecommit, VotesCast, DecidedAtLock, Backed, AllVotes, AllDecided;
    AllVotesMembers(r.cfg, r.caches, ks);
    AllDecidedMembers(r.cfg, r.caches, ks);
    hide LockedOn;
    var g := r.cfg;
    var ready := ToLock(g, r.caches);
    forall i | i in r.caches
      ensures if i in ready then LockedOn(g, r.caches[i], r'.caches[i], r.caches[i].prePrepare.value)
        else r'.caches[i] == r.caches[i]
      ensures i in ready ==> r'.caches[i].precommit.Some?
      ensures forall m :: (m in VotesCast(r.caches[i], g) <==>
        i in ready && m == OwnVote(g, Commit, i, r.caches[i].prePrepare.value.hash))
      ensures forall p :: (p in DecidedAtLock(g, r.caches[i]) <==>
        i in ready && r'.caches[i].submitted && !r.caches[i].submitted && r'.caches[i].precommit.value.proposal == Some(p))
    {
      assert LocksAsSaid(g, r.caches[i]);
      if r.caches[i].prePrepare.Some? {
        LockHolds(g, r.caches[i], r'.caches[i]);
      }
    }
    hide DecidedAtLock, LocksAsSaid;
    assert forall i :: i in ready ==> i in r.caches;
  }

  lemma LockHolds(g: Cfg, c: Cache, c': Cache)
    requires c.prePrepare.Some?
    ensures LockedOn(g, c, c', c.prePrepare.value) ==> c'.precommit.Some? && c'.precommit.value.proposal.Some?
  {
  }

  // ---- Commit ----

  /** The proposal a cache hands over when it sees its commit quorum. */
  function HandedOver(g: Cfg, c: Cache): seq<Proposal> {
    if CheckCommit(c, g).1 && c.precommit.Some? && c.precommit.value.proposal.Some?
    then [c.precommit.value.proposal.value]
    else []
  }

  /** What the given indices hand over, in order. */
  function AllHanded(g: Cfg, caches: Caches, ks: seq<int>): seq<Proposal> {
    if ks == [] then []
    else
      var i := ks[|ks| - 1];
      AllHanded(g, caches, ks[..|ks| - 1]) + if i in caches then HandedOver(g, caches[i]) else []
  }

  lemma {:induction false} AllHandedMembers(g: Cfg, caches: Caches, ks: seq<int>)
    ensures forall p :: p in AllHanded(g, caches, ks) <==> exists i :: i in ks && i in caches && p in HandedOver(g, caches[i])
  {
    hide HandedOver;
    if ks != [] {
      AllHandedMembers(g, caches, ks[..|ks| - 1]);
      assert ks == ks[..|ks| - 1] + [ks[|ks| - 1]];
    }
  }

  /** Some index hands over its proposal. */
  ghost predicate SomeCommit(g: Cfg, caches: Caches, ks: seq<int>) {
    exists i :: i in ks && i in caches && CheckCommit(caches[i], g).1
  }

  ghost predicate CommittedEach(r: Replica, r': Replica, ks: seq<int>) {
    && r'.cfg == (if SomeCommit(r.cfg, r.caches, ks) then r.cfg.(toView := r.cfg.view) else r.cfg)
    && r'.caches.Keys == r.caches.Keys
    && (forall i :: i in r.caches ==>
          r'.caches[i] == if i in ks then CheckCommit(r.caches[i], r.cfg).0 else r.caches[i])
    && r'.env.decided == r.env.decided + AllHanded(r.cfg, r.caches, ks)
    && (forall p :: p in AllHanded(r.cfg, r.caches, ks) && p.index >= r.cfg.expected ==> Waits(r', p))
  }

  /** A decided proposal is queued for execution, or a proposal of its hash is executing. */
  predicate Waits(r: Replica, p: Proposal) {
    p in r.commitQueue || p.hash in r.executing
  }

  lemma {:induction false} DropKeepsRest(q: seq<Proposal>, k: int)
    ensures forall p :: p in q && p.index >= k ==> p in DropBelow(q, k)
    ensures forall p :: p in DropBelow(q, k) ==> p in q
  {
    if q != [] && q[0].index < k {
      DropKeepsRest(q[1..], k);
    }
  }

  /** What waits is executed before it leaves the queue. */
  lemma ApplyWaits(r: Replica, p: Proposal)
    requires Waits(r, p) && p.index >= r.cfg.expected
    ensures Waits(TryApply(r).0, p)
  {
    hide DropBelow, AppliedCheckPoint;
    DropKeepsRest(r.commitQueue, r.cfg.expected);
  }

  lemma DecideWaits(r: Replica, c: Cache, p: Proposal)
    requires p.index >= r.cfg.expected
    requires Waits(r, p) || (c.precommit.Some? && c.precommit.value.proposal == Some(p))
    ensures Waits(Decide(r, c), p)
  {
    hide TryApply, Insert;
    if c.precommit.Some? && c.precommit.value.proposal.Some? {
      var p1 := c.precommit.value.proposal.value;
      var r1 := r.(env := r.env.(decided := r.env.decided + [p1]));
      if p1.hash !in r1.executing {
        InsertMembers(r1.commitQueue, p1);
        ApplyWaits(r1.(commitQueue := Insert(r1.commitQueue, p1)), p);
      }
    }
  }

  /** Whether to commit does not depend on the view to reach. */
  lemma VerdictStays(g: Cfg, g': Cfg, c: Cache)
    requires g' == g || g' == g.(toView := g.view)
    ensures CheckCommit(c, g') == CheckCommit(c, g) && HandedOver(g', c) == HandedOver(g, c)
  {
  }

  lemma CommitDone(g: Cfg, c: Cache)
    ensures !CheckCommit(CheckCommit(c, g).0, g).1
  {
    hide Enough;
  }

  lemma CommitOne(r: Replica, i: int)
    requires Indexed(r.caches) && i in r.caches
    ensures var r' := CommitAt(r, i);
      && r'.cfg == (if CheckCommit(r.caches[i], r.cfg).1 then r.cfg.(toView := r.cfg.view) else r.cfg)
      && r'.caches == r.caches[i := CheckCommit(r.caches[i], r.cfg).0]
      && r'.env.decided == r.env.decided + HandedOver(r.cfg, r.caches[i])
      && (forall p: Proposal :: p.index >= r.cfg.expected && (Waits(r, p) || p in HandedOver(r.cfg, r.caches[i])) ==> Waits(r', p))
  {
    hide Enough, Decide, Waits;
    var c' := CheckCommit(r.caches[i], r.cfg).0;
    var r1 := Put(r, c');
    DecideFrame(r1, c');
    forall p: Proposal | p.index >= r.cfg.expected && (Waits(r, p) || p in HandedOver(r.cfg, r.caches[i]))
      ensures Waits(CommitAt(r, i), p)
    {
      WaitsAlike(r, r1, p);
      if CheckCommit(r.caches[i], r.cfg).1 {
        DecideWaits(r1, c', p);
        WaitsAlike(Decide(r1, c'), CommitAt(r, i), p);
      }
    }
  }

  lemma WaitsAlike(r: Replica, r': Replica, p: Proposal)
    requires r'.commitQueue == r.commitQueue && r'.executing == r.executing
    ensures Waits(r, p) == Waits(r', p)
  {
  }

  lemma CommittedMore(r: Replica, r1: Replica, r2: Replica, front: seq<int>, i: int)
    requires CommittedEach(r, r1, front) && i in r.caches && i !in front
    requires r2.cfg == if CheckCommit(r1.caches[i], r1.cfg).1 then r1.cfg.(toView := r1.cfg.view) else r1.cfg
    requires r2.caches == r1.caches[i := CheckCommit(r1.caches[i], r1.cfg).0]
    requires r2.env.decided == r1.env.decided + HandedOver(r1.cfg, r1.caches[i])
    requires forall p: Proposal :: p.index >= r1.cfg.expected && (Waits(r1, p) || p in HandedOver(r1.cfg, r1.caches[i])) ==> Waits(r2, p)
    ensures CommittedEach(r, r2, front + [i])
  {
    VerdictStays(r.cfg, r1.cfg, r.caches[i]);
    hide CheckCommit, HandedOver;
    HandedNext(r.cfg, r.caches, front, i);
    CommitNext(r.cfg, r.caches, front, i);
    HandedWaits(r, r1, r2, front, i);
    hide AllHanded, SomeCommit, Waits;
  }

  lemma {:induction false} HandedWaits(r: Replica, r1: Replica, r2: Replica, front: seq<int>, i: int)
    requires i in r.caches && r1.cfg.expected == r.cfg.expected
    requires forall p :: p in AllHanded(r.cfg, r.caches, front) && p.index >= r.cfg.expected ==> Waits(r1, p)
    requires forall p: Proposal ::
      p.index >= r.cfg.expected && (Waits(r1, p) || p in HandedOver(r.cfg, r.caches[i])) ==> Waits(r2, p)
    ensures forall p :: p in AllHanded(r.cfg, r.caches, front + [i]) && p.index >= r.cfg.expected ==> Waits(r2, p)
  {
    hide HandedOver, Waits;
    HandedNext(r.cfg, r.caches, front, i);
    hide AllHanded;
  }

  lemma CommitNext(g: Cfg, caches: Caches, front: seq<int>, i: int)
    requires i in caches
    ensures SomeCommit(g, caches, front + [i]) <==> SomeCommit(g, caches, front) || CheckCommit(caches[i], g).1
  {
    hide CheckCommit;
    if CheckCommit(caches[i], g).1 {
      assert i in front + [i];
    }
    forall j | j in front ensures j in front + [i] {
    }
  }

  lemma {:induction false} HandedNext(g: Cfg, caches: Caches, front: seq<int>, i: int)
    requires i in caches
    ensures AllHanded(g, caches, front + [i]) == AllHanded(g, caches, front) + HandedOver(g, caches[i])
  {
    hide HandedOver;
    assert (front + [i])[..|front|] == front;
  }

  lemma CommittedIndexed(r: Replica, r1: Replica, front: seq<int>)
    requires CommittedEach(r, r1, front) && Indexed(r.caches)
    ensures Indexed(r1.caches) && r1.caches.Keys == r.caches.Keys
  {
    hide CheckCommit, AllHanded;
    forall j | j in r.caches {
      CommitIndexStays(r.cfg, r.caches[j]);
    }
  }

  lemma {:induction false} UnfoldCommitEach(r: Replica, ks: seq<int>)
    requires ks != []
    ensures CommitEach(r, ks) == CommitAt(CommitEach(r, ks[..|ks| - 1]), ks[|ks| - 1])
  {
    hide CommitAt;
  }

  lemma CommittedNone(r: Replica)
    ensures CommittedEach(r, r, [])
  {
    hide CheckCommit, HandedOver, Waits;
  }

  lemma {:induction false} CommitEachIs(r: Replica, ks: seq<int>)
    requires Indexed(r.caches) && Visits(ks, r.caches)
    ensures CommittedEach(r, CommitEach(r, ks), ks)
  {
    hide CheckCommit, HandedOver;
    if ks == [] {
      CommittedNone(r);
    } else {
      UnfoldCommitEach(r, ks);
      hide CommitEach, CommittedEach, CommitAt;
      var front, i := ks[..|ks| - 1], ks[|ks| - 1];
      CommitEachIs(r, front);
      var r1 := CommitEach(r, front);
      assert ks == front + [i] && i !in front;
      CommittedIndexed(r, r1, front);
      CommitOne(r1, i);
      CommittedMore(r, r1, CommitAt(r1, i), front, i);
    }
  }

  lemma CommitIndexStays(g: Cfg, c: Cache)
    ensures CheckCommit(c, g).0.index == c.index
  {
    hide Enough;
  }

  /** A cache hands over its lock exactly if the proposal accepted in the current view has its
      commit quorum and nothing was handed over since the view was entered. */
  lemma CommitsExactly(g: Cfg, c: Cache)
    ensures var (c', committed) := CheckCommit(c, g);
      && (committed <==>
            && c.precommit.Some? && !c.submitted
            && c.prePrepare.Some? && c.prePrepare.value.view == g.view && Backed(g, c.commits, c.prePrepare.value.hash))
      && c' == (if committed then c.(submitted := true) else c)
      && (forall p :: p in HandedOver(g, c) <==> committed && c.precommit.value.proposal == Some(p))
  {
    hide Weight, QuorumOf;
  }

  function LockedProposal(c: Cache): Option<Proposal> {
    if c.precommit.Some? then c.precommit.value.proposal else None
  }

  /** The indices whose accepted proposal is of the current view and has its commit quorum, that
      are locked and were not handed over since that view was entered. */
  function ToCommit(g: Cfg, caches: Caches): set<int> {
    set i | i in caches && var c := caches[i];
      && c.precommit.Some? && !c.submitted
      && c.prePrepare.Some? && c.prePrepare.value.view == g.view && Backed(g, c.commits, c.prePrepare.value.hash)
  }

  /** The locked proposals of exactly those indices were handed over, and no other cache changed; the view
      to reach falls back exactly if there are any; and what was handed over waits for execution or is
      executing, unless it lies below the expected checkpoint. */
  ghost predicate CommitsReady(r: Replica, r': Replica) {
    var g, ready := r.cfg, ToCommit(r.cfg, r.caches);
    && r'.cfg == (if exists i :: i in ready then g.(toView := g.view) else g) && r'.caches.Keys == r.caches.Keys
    && (forall i :: i in r.caches ==>
          r'.caches[i] == if i in ready then r.caches[i].(submitted := true) else r.caches[i])
    && (forall p :: p in r'.env.decided <==>
          p in r.env.decided || exists i :: i in ready && LockedProposal(CacheAt(r, i)) == Some(p))
    && (forall i, p :: i in ready && LockedProposal(CacheAt(r, i)) == Some(p) && p.index >= g.expected ==>
          p in r'.commitQueue || p.hash in r'.executing)
  }

  /** Trying to commit hands over the locked proposals of exactly those indices; no other cache
      changes. A view change under way is given up exactly if
      something is handed over. What is handed over waits for execution or is executing, unless
      it lies below the expected checkpoint, and nothing is left to hand over. */
  lemma CommitExact(r: Replica)
    requires Indexed(r.caches)
    ensures CommitsReady(r, CheckAndCommit(r))
    ensures forall i :: i in r.caches ==> !CheckCommit(CheckAndCommit(r).caches[i], CheckAndCommit(r).cfg).1
  {
    hide CommitEach, Ascending, CheckCommit, CommitsReady, CommittedEach;
    var ks := Ascending(r.caches.Keys);
    AscendingVisits(r.caches);
    CommitEachIs(r, ks);
    CommittedIndices(r, CheckAndCommit(r), ks);
    SameKeys(r, CheckAndCommit(r));
  }

  lemma SameKeys(r: Replica, r': Replica)
    requires CommitsReady(r, r')
    ensures r'.caches.Keys == r.caches.Keys
  {
    hide ToCommit;
  }

  lemma SomeReady(g: Cfg, caches: Caches, ks: seq<int>)
    requires forall i :: i in caches <==> i in ks
    requires forall i :: i in caches ==> (i in ToCommit(g, caches) <==> CheckCommit(caches[i], g).1)
    ensures SomeCommit(g, caches, ks) <==> exists i :: i in ToCommit(g, caches)
  {
    hide CheckCommit;
    var ready := ToCommit(g, caches);
    assert forall i :: i in ready ==> i in caches;
    hide ToCommit;
    if i :| i in ready {
      assert i in ks && i in caches;
    }
  }

  lemma CommittedIndices(r: Replica, r': Replica, ks: seq<int>)
    requires CommittedEach(r, r', ks) && forall i :: i in r.caches <==> i in ks
    ensures CommitsReady(r, r')
    ensures forall i :: i in r.caches ==> !CheckCommit(r'.caches[i], r'.cfg).1
  {
    hide CheckCommit, HandedOver, Backed, AllHanded;
    AllHandedMembers(r.cfg, r.caches, ks);
    var g := r.cfg;
    var ready := ToCommit(g, r.caches);
    forall i | i in r.caches
      ensures i in ready <==> CheckCommit(r.caches[i], g).1
      ensures r'.caches[i] == if i in ready then r.caches[i].(submitted := true) else r.caches[i]
      ensures forall p :: (p in HandedOver(g, r.caches[i]) <==> i in ready && LockedProposal(CacheAt(r, i)) == Some(p))
      ensures !CheckCommit(r'.caches[i], r'.cfg).1
    {
      CommitsExactly(g, r.caches[i]);
      CommitDone(g, r.caches[i]);
      VerdictStays(g, r'.cfg, r'.caches[i]);
    }
    SomeReady(g, r.caches, ks);
  }

  // ---- Execution ----

  /** `call` executes a queued proposal of the expected index on its predecessor; the proposal is
      marked as executing, and nothing else above the expected index leaves the queue. */
  ghost predicate Executes(r: Replica, r': Replica, call: ApplyCall) {
    && r'.env == r.env.(applies := r.env.applies + [call], running := r.env.running + [call])
    && call.proposal in r.commitQueue && call.proposal.index == r.cfg.expected && call.proposal.hash !in r.executing
    && (r.cfg.expected - 1 == r.cfg.committed.index ==> call.last == r.cfg.committed)
    && (r.cfg.expected - 1 != r.cfg.committed.index ==>
          r.cfg.expected - 1 in r.caches && r.caches[r.cfg.expected - 1].checkpoint == Some(call.last))
    && r'.executing == r.executing[call.proposal.hash := r.cfg.expected]
    && (forall p :: p in r.commitQueue && p.index >= r.cfg.expected ==> p in r'.commitQueue || p == call.proposal)
  }

  /** A queued proposal is executed next exactly when it is for the expected index, its
      predecessor is committed or executed, and it is not running. */
  lemma ApplyExact(r: Replica, base: Proposal, w: World)
    requires Inv(r, base, w)
    ensures TryApply(r).1 <==>
      && (r.cfg.expected - 1 == r.cfg.committed.index
          || (r.cfg.expected - 1 in r.caches && r.caches[r.cfg.expected - 1].checkpoint.Some?))
      && exists p :: p in r.commitQueue && p.index == r.cfg.expected && p.hash !in r.executing
  {
    hide CfgOk, CachesOk, AuthOk, AppliesOk, ExecOk, VotesOnce, LedgerOk, AllStable, AllReported, DecidedOk, ChainOk, ResultsOk;
    LockIsUnique(r);
    hide LockOk;
    HeadIsExpected(r.commitQueue, r.cfg.expected, r.env.sent, r.env.decided);
  }

  /** What trying to execute does: one execution or none, and what lies below the expected index
      leaves the queue. */
  lemma ApplyEffect(r: Replica)
    requires Sorted(r.commitQueue)
    ensures var (r', applied) := TryApply(r);
      && r' == r.(commitQueue := r'.commitQueue, executing := r'.executing, env := r'.env)
      && (if applied then exists call :: Executes(r, r', call) else r' == r.(commitQueue := r'.commitQueue))
      && (!applied ==> forall p :: p in r.commitQueue && p.index >= r.cfg.expected ==> p in r'.commitQueue)
      && (forall p :: p in r'.commitQueue ==> p in r.commitQueue && p.index >= r.cfg.expected)
  {
    hide DropBelow, Sorted;
    DropBelowKeeps(r.commitQueue, r.cfg.expected);
    var q := DropBelow(r.commitQueue, r.cfg.expected);
    if TryApply(r).1 {
      var last := AppliedCheckPoint(r.cfg, r.caches, r.cfg.expected - 1).value;
      assert q == [q[0]] + q[1..];
      assert Executes(r, TryApply(r).0, ApplyCall(last, q[0]));
    }
  }

  /** Everything queued for the expected index has the hash at the head of the queue. */
  lemma {:induction false} HeadIsExpected(q: seq<Proposal>, k: int, sent: seq<Msg>, decided: seq<Proposal>)
    requires QueueOk(q, sent, decided) && OneVote(Cast(sent, Commit))
    ensures var d := DropBelow(q, k);
      && (d != [] && d[0].index == k ==> d[0] in q && forall p :: p in q && p.index == k ==> p.hash == d[0].hash)
      && (forall p :: p in q && p.index == k ==> d != [] && d[0].index == k)
  {
    hide DropBelow, Cast, OneVote, Sorted;
    var d := DropBelow(q, k);
    DropBelowKeeps(q, k);
    forall p | p in q && p.index == k ensures d != [] && d[0].index == k {
      HeadIsLeast(q, k, p);
    }
    if d != [] && d[0].index == k {
      assert d[0] in d;
      forall p | p in q && p.index == k ensures p.hash == d[0].hash {
        SameQueued(q, sent, decided, p, d[0]);
      }
    }
  }

  lemma {:induction false} HeadIsLeast(q: seq<Proposal>, k: int, p: Proposal)
    requires Sorted(q) && p in q && p.index == k
    ensures DropBelow(q, k) != [] && DropBelow(q, k)[0].index == k
  {
    hide DropBelow;
    var d := DropBelow(q, k);
    DropBelowKeeps(q, k);
    assert p in d;
    var j :| 0 <= j < |d| && d[j] == p;
    var o := |q| - |d|;
    assert d[0] in d && d[0] == q[o] && d[j] == q[o + j];
  }

  lemma SameQueued(q: seq<Proposal>, sent: seq<Msg>, decided: seq<Proposal>, p: Proposal, p': Proposal)
    requires QueueOk(q, sent, decided) && OneVote(Cast(sent, Commit)) && p in q && p' in q && p.index == p'.index
    ensures p.hash == p'.hash
  {
    hide Cast, Sorted;
  }

  // ---- Checkpoints ----

  /** A checkpoint is submitted exactly when one for the index after the committed one is queued,
      and then it is that one; afterwards nothing that is next in order waits in the queue. */
  lemma NothingWaits(r: Replica, base: int)
    requires LedgerOk(r.cfg.committed.index, base, r.env.ledger, r.env.committing, r.stableQueue)
    ensures var r' := TryCommitStable(r); var next := r.cfg.committed.index + 1;
      && (forall p :: p in r'.stableQueue ==> p.index > next)
      && (forall p :: p in r.stableQueue && p.index != next ==> p in r'.stableQueue)
      && (forall p :: p in r.stableQueue && p.index == next ==>
            r'.env.ledger == r.env.ledger + [p] && r'.env.committing == r.env.committing + [p])
      && ((forall p :: p in r.stableQueue ==> p.index != next) ==> r' == r)
  {
    hide LedgerOk, TryCommitStable;
    SubmitIs(r, base);
    QueueAbove(r.cfg.committed.index, base, r.env.ledger, r.env.committing, r.stableQueue);
    if r.stableQueue != [] {
      HeadIsNext(r.stableQueue, r.cfg.committed.index + 1);
    }
  }

  lemma SubmitIs(r: Replica, base: int)
    requires LedgerOk(r.cfg.committed.index, base, r.env.ledger, r.env.committing, r.stableQueue)
    ensures var q := r.stableQueue;
      TryCommitStable(r) ==
        if q == [] || q[0].index != r.cfg.committed.index + 1 then r
        else r.(stableQueue := q[1..],
                env := r.env.(ledger := r.env.ledger + [q[0]], committing := r.env.committing + [q[0]]))
  {
    hide LedgerOk, DropBelow;
    QueueAbove(r.cfg.committed.index, base, r.env.ledger, r.env.committing, r.stableQueue);
    NothingToDrop(r.stableQueue, r.cfg.committed.index + 1);
  }

  lemma QueueAbove(committed: int, base: int, ledger: seq<Proposal>, committing: seq<Proposal>, q: seq<Proposal>)
    requires LedgerOk(committed, base, ledger, committing, q)
    ensures q != [] ==> q[0].index > committed
    ensures forall j, k :: 0 <= j < k < |q| ==> q[j].index < q[k].index
  {
  }

  lemma HeadIsNext(q: seq<Proposal>, next: int)
    requires q != [] && q[0].index >= next && forall j, k :: 0 <= j < k < |q| ==> q[j].index < q[k].index
    ensures forall p :: p in q <==> p == q[0] || p in q[1..]
    ensures forall p :: p in q[1..] ==> p.index > next
  {
    assert q == [q[0]] + q[1..];
    forall p | p in q[1..] ensures p.index > next {
      var j :| 0 <= j < |q| - 1 && q[1..][j] == p;
      assert q[j + 1].index > q[0].index;
    }
  }

  /** The checkpoint a cache reports when its quorum is there. */
  function Reports(g: Cfg, c: Cache): seq<Proposal> {
    var (c', ok) := CheckStable(c, g);
    if ok && c'.checkpoint.Some? then [c'.checkpoint.value] else []
  }

  function AllReports(g: Cfg, caches: Caches, ks: seq<int>): seq<Proposal> {
    if ks == [] then []
    else
      var i := ks[|ks| - 1];
      AllReports(g, caches, ks[..|ks| - 1]) + if i in caches then Reports(g, caches[i]) else []
  }

  lemma {:induction false} AllReportsMembers(g: Cfg, caches: Caches, ks: seq<int>)
    ensures forall p :: p in AllReports(g, caches, ks) <==> exists i :: i in ks && i in caches && p in Reports(g, caches[i])
  {
    hide Reports;
    if ks != [] {
      AllReportsMembers(g, caches, ks[..|ks| - 1]);
      assert ks == ks[..|ks| - 1] + [ks[|ks| - 1]];
    }
  }

  ghost predicate StabilizedEach(r: Replica, r': Replica, found: seq<Proposal>, ks: seq<int>) {
    && r' == r.(caches := r'.caches) && r'.caches.Keys == r.caches.Keys
    && (forall i :: i in r.caches ==>
          r'.caches[i] == if i in ks then CheckStable(r.caches[i], r.cfg).0 else r.caches[i])
    && found == AllReports(r.cfg, r.caches, ks)
  }

  lemma StableIndexStays(g: Cfg, c: Cache)
    ensures CheckStable(c, g).0.index == c.index
  {
    hide HasQuorum, SignatureList;
  }

  lemma StableOne(r: Replica, found: seq<Proposal>, i: int)
    requires Indexed(r.caches) && i in r.caches
    ensures var (r', more) := StabilizeOne(r, found, i);
      && r' == r.(caches := r.caches[i := CheckStable(r.caches[i], r.cfg).0])
      && more == found + Reports(r.cfg, r.caches[i])
  {
    hide CheckStable;
    StableIndexStays(r.cfg, r.caches[i]);
    assert found + [] == found;
  }

  lemma StabilizedMore(r: Replica, r1: Replica, r2: Replica, found: seq<Proposal>, front: seq<int>, i: int)
    requires StabilizedEach(r, r1, found, front) && i in r.caches && i !in front
    requires r2 == r1.(caches := r1.caches[i := CheckStable(r1.caches[i], r1.cfg).0])
    ensures StabilizedEach(r, r2, found + Reports(r1.cfg, r1.caches[i]), front + [i])
  {
    hide CheckStable, Reports;
    assert (front + [i])[..|front|] == front;
  }

  lemma StabilizedIndexed(r: Replica, r1: Replica, found: seq<Proposal>, front: seq<int>)
    requires StabilizedEach(r, r1, found, front) && Indexed(r.caches)
    ensures Indexed(r1.caches) && r1.caches.Keys == r.caches.Keys
  {
    hide CheckStable, AllReports;
    forall j | j in r.caches {
      StableIndexStays(r.cfg, r.caches[j]);
    }
  }

  lemma StabilizedNone(r: Replica)
    ensures StabilizedEach(r, r, [], [])
  {
    hide CheckStable, Reports;
  }

  lemma {:induction false} StabilizeEachIs(r: Replica, ks: seq<int>)
    requires Indexed(r.caches) && Visits(ks, r.caches)
    ensures StabilizedEach(r, StabilizeEach(r, ks).0, StabilizeEach(r, ks).1, ks)
  {
    hide CheckStable, Reports;
    if ks == [] {
      StabilizedNone(r);
    } else {
      hide StabilizedEach, StabilizeOne;
      var front, i := ks[..|ks| - 1], ks[|ks| - 1];
      StabilizeEachIs(r, front);
      var (r1, found) := StabilizeEach(r, front);
      assert ks == front + [i] && i !in front;
      StabilizedIndexed(r, r1, found, front);
      StableOne(r1, found, i);
      StabilizedMore(r, r1, StabilizeOne(r1, found, i).0, found, front, i);
    }
  }

  /** The cache became stable, and its checkpoint is certified by exactly those who voted for it. */
  ghost predicate StableWith(g: Cfg, c: Cache, c': Cache) {
    && c.checkpoint.Some? && c'.checkpoint.Some? && c.checkpoint.value.hash in c.checkpoints
    && var p := c'.checkpoint.value;
    && c' == c.(stable := true, checkpoint := Some(p)) && p == c.checkpoint.value.(proofs := p.proofs)
    && Certified(g.nodes, p.hash, p.proofs) && DistinctSigners(p.proofs)
    && Signers(p.proofs) == c.checkpoints[p.hash].Keys
  }

  /** A cache becomes stable exactly if it was not and its checkpoint has a quorum of checkpoint
      votes. The checkpoint is certified by exactly these voters, and reported unless it is
      committed already. */
  lemma StabilizesExactly(g: Cfg, c: Cache)
    requires CacheOk(g, c)
    ensures var c' := CheckStable(c, g).0;
      if !c.stable && c.checkpoint.Some? && Backed(g, c.checkpoints, c.checkpoint.value.hash)
      then StableWith(g, c, c')
        && Reports(g, c) == if g.committed.index < c'.checkpoint.value.index then [c'.checkpoint.value] else []
      else c' == c && Reports(g, c) == []
  {
    hide Weight, QuorumOf, VotesFiled, VotesCurrent, LockMessage, SignatureList, Certified, DistinctSigners, Signers;
    if WillStabilize(c, g) {
      var h := c.checkpoint.value.hash;
      assert SignedVotes(g.nodes, h, c.checkpoints[h]);
      SignatureListCertifies(g.nodes, h, c.checkpoints[h]);
    }
  }

  /** The indices that become stable. */
  function ToStabilize(g: Cfg, caches: Caches): set<int> {
    set i | i in caches && var c := caches[i];
      !c.stable && c.checkpoint.Some? && Backed(g, c.checkpoints, c.checkpoint.value.hash)
  }

  /** The checkpoint pass makes exactly those caches stable, changes no other one, and adds exactly
      their certified checkpoints to what is queued or submitted, unless they are committed. */
  lemma StableExact(r: Replica, base: Proposal, w: World)
    requires Inv(r, base, w)
    ensures var g, r' := r.cfg, CheckAndCommitStable(r);
      var ready := ToStabilize(g, r.caches);
      && r'.caches.Keys == r.caches.Keys
      && (forall i :: i in r.caches ==>
            if i in ready then StableWith(g, r.caches[i], r'.caches[i]) else r'.caches[i] == r.caches[i])
      && (forall p :: p in r'.env.ledger + r'.stableQueue <==>
            p in r.env.ledger + r.stableQueue
            || exists i :: i in ready && g.committed.index < i && r'.caches[i].checkpoint == Some(p))
  {
    hide Inv, StabilizeEach, QueueEach, Ascending, Reports, Pending, CheckStable, Visits, AllReports, ToStabilize, StabilizedEach;
    InvIndexed(r, base, w);
    var ks := Ascending(r.caches.Keys);
    AscendingVisits(r.caches);
    StabilizeEachIs(r, ks);
    StabilizeEachKeeps(r, ks, base, w);
    var (r1, found) := StabilizeEach(r, ks);
    assert found[..|found|] == found;
    QueueEachKeeps(r1, found, |found|, base, w);
    QueueEachLater(r1, found);
    StabilizedIndices(r, r1, found, ks, base, w);
  }

  lemma StabilizedIndices(r: Replica, r': Replica, found: seq<Proposal>, ks: seq<int>, base: Proposal, w: World)
    requires Inv(r, base, w) && StabilizedEach(r, r', found, ks) && forall i :: i in r.caches <==> i in ks
    ensures var g := r.cfg;
      var ready := ToStabilize(g, r.caches);
      && r' == r.(caches := r'.caches) && r'.caches.Keys == r.caches.Keys
      && (forall i :: i in r.caches ==>
            if i in ready then StableWith(g, r.caches[i], r'.caches[i]) else r'.caches[i] == r.caches[i])
      && (forall p :: p in found <==>
            exists i :: i in ready && g.committed.index < i && r'.caches[i].checkpoint == Some(p))
  {
    hide Inv, CheckStable, Reports, Backed, AllReports, Certified, DistinctSigners, Signers;
    AllReportsMembers(r.cfg, r.caches, ks);
    var g, ready := r.cfg, ToStabilize(r.cfg, r.caches);
    forall i | i in r.caches
      ensures if i in ready then StableWith(g, r.caches[i], r'.caches[i]) else r'.caches[i] == r.caches[i]
      ensures forall p :: (p in Reports(g, r.caches[i]) <==>
        i in ready && g.committed.index < i && r'.caches[i].checkpoint == Some(p))
    {
      InvCache(r, i, base, w);
      StabilizesExactly(g, r.caches[i]);
    }
    assert forall i :: i in ready ==> i in r.caches;
  }

  lemma InvIndexed(r: Replica, base: Proposal, w: World)
    requires Inv(r, base, w)
    ensures Indexed(r.caches)
  {
    hide CfgOk, CacheOk, LockOk, AuthOk, QueueOk, AppliesOk, ExecOk, VotesOnce, LedgerOk, AllStable, AllReported, DecidedOk, ChainOk, ResultsOk;
  }

  // ---- View changes ----

  /** The replica after entering view `v`: caches hold the votes from that view on and every lock,
      the view changes and recover responses for later views stay, of view changes only those whose
      sender is not behind, and all marks of the view change are cleared. */
  ghost predicate Entered(r: Replica, r': Replica, v: nat) {
    && r'.cfg == r.cfg.(view := v, toView := v, timeout := false, recovered := true)
    && r' == r.(cfg := r'.cfg, caches := r'.caches, changes := r'.changes, recovers := r'.recovers,
                maxCommitted := map[], maxPrecommit := map[], newViewSent := false)
    && r'.caches.Keys == r.caches.Keys
    && (forall i :: i in r.caches ==> r'.caches[i] == ResetView(r.caches[i], v))
    && (forall w :: w in r'.changes <==> w in r.changes && w > v)
    && (forall w, n :: w in r'.changes ==>
          (n in r'.changes[w] <==> n in r.changes[w] && r.changes[w][n].index >= r.cfg.committed.index))
    && (forall w, n :: w in r'.changes && n in r'.changes[w] ==> r'.changes[w][n] == r.changes[w][n])
    && (forall w :: w in r'.recovers <==> w in r.recovers && w > v)
    && (forall w :: w in r'.recovers ==> r'.recovers[w] == r.recovers[w])
  }

  /** A new view is announced exactly by a node that is not behind the known blocks, has not
      announced one for this view, leads the view to reach at the next index and holds view changes
      of quorum weight for it. The announcement lists these view changes, and the view is entered. */
  lemma NewViewExact(r: Replica)
    ensures var g, r' := r.cfg, TryNewView(r);
      if && g.committed.index >= g.syncing && !r.newViewSent
         && g.self == ((g.progressed % UINT64) / g.period + g.toView) % |g.nodes|
         && g.toView in r.changes && Weight(g.nodes, r.changes[g.toView].Keys) >= QuorumOf(g.nodes)
      then
        var vcs := ChangeList(r.changes[g.toView]);
        var nv := NewView(g.toView, g.committed.index, g.committed.hash, g.self, g.id, vcs, GeneratePrePrepares(r, vcs));
        && r'.env == r.env.(sentNewViews := r.env.sentNewViews + [nv])
        && (g.view <= g.toView ==> Entered(r.(env := r'.env), r', g.toView))
      else r' == r
  {
    hide GeneratePrePrepares, ChangeList, ResetView, Entered, Weight, QuorumOf;
    if CanBuildNewView(r) && r.cfg.view <= r.cfg.toView {
      var r1 := CheckIntoNewView(r).0;
      ViewEntered(r1.(newViewSent := r.newViewSent), r.cfg.toView);
    }
  }

  /** Entering a view is exact; a view below the current one is not entered. */
  lemma ViewEntered(r: Replica, v: nat)
    ensures r.cfg.view <= v ==> Entered(r, ReachNewView(r, v), v)
    ensures r.cfg.view > v ==> ReachNewView(r, v).cfg == r.cfg
  {
    hide ResetView;
  }

  /** Resetting a cache drops exactly the votes of earlier views, hash by hash, and keeps the rest
      as it was. */
  lemma ResetExact(c: Cache, v: nat, h: Hash, n: nat)
    ensures var c' := ResetView(c, v);
      && (n in Senders(c'.prepares, h) <==> h in c.prepares && n in c.prepares[h] && c.prepares[h][n].view >= v)
      && (n in Senders(c'.commits, h) <==> h in c.commits && n in c.commits[h] && c.commits[h][n].view >= v)
      && (n in Senders(c'.prepares, h) ==> c'.prepares[h][n] == c.prepares[h][n])
      && (n in Senders(c'.commits, h) ==> c'.commits[h][n] == c.commits[h][n])
      && c' == c.(prepares := c'.prepares, commits := c'.commits, precommitted := false, submitted := false)
  {
    assert n in Senders(SurvivingBook(c.prepares, v), h) ==> h in c.prepares;
    assert h in c.prepares && n in Surviving(c.prepares[h], v) ==> Surviving(c.prepares[h], v) != map[];
    assert h in c.commits && n in Surviving(c.commits[h], v) ==> Surviving(c.commits[h], v) != map[];
  }
}
