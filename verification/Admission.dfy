/** Which messages a replica acts on, in terms of its fields and those of the message, and what
    it files before it looks for quorums. */
module Admission {
  import opened Types
  import opened Weights
  import opened ConfigModel
  import opened CacheModel
  import opened ReplicaModel
  import opened CacheInvariant
  import opened ReplicaInvariant
  import opened HandlerInvariant
  import opened OrderSteps
  import opened Progress

  /** Inside the window: at or above the low watermark and the expected checkpoint, above every
      known block and below the high watermark. */
  predicate InWindow(g: Cfg, i: int) {
    g.low <= i < g.progressed + g.limit && g.expected <= i && g.syncing < i
  }

  /** The key that verifies the message is that of the consensus node it names as sender. */
  predicate FromSender(g: Cfg, m: Msg) {
    m.from < |g.nodes| && g.nodes[m.from].id == m.signer
  }

  /** A pre-prepare is accepted exactly if it carries a proposal, is in the window and of no earlier
      view, its hash is not being executed, what was accepted at its index is of an earlier view, a
      lock there is for its hash, and, outside of a new view, it is from the leader of its index in
      the current view, signed by it where that is checked. One whose proposal has to be verified
      needs a known sender besides. */
  lemma PrePrepareAccepted(r: Replica, m: Msg, verify: bool, fromNewView: bool, checkSignature: bool)
    ensures var g := r.cfg;
      HandlePrePrepare(r, m, verify, fromNewView, checkSignature).1 <==>
        && m.proposal.Some? && InWindow(g, m.index) && m.view >= g.view
        && g.syncing < g.committed.index + g.limit && m.hash !in r.executing
        && (m.index in r.caches ==>
              var c := r.caches[m.index];
              && (c.prePrepare.Some? ==> c.prePrepare.value.view < m.view)
              && (c.precommit.Some? && c.precommit.value.index == m.index >= g.progressed ==>
                    c.precommit.value.hash == m.hash))
        && (!fromNewView ==> m.from == ((m.index % UINT64) / g.period + g.view) % |g.nodes|)
        && (!fromNewView && checkSignature ==> FromSender(g, m))
        && (verify ==> m.from < |g.nodes|)
    ensures verify || !HandlePrePrepare(r, m, verify, fromNewView, checkSignature).1 ==>
      HandlePrePrepare(r, m, verify, fromNewView, checkSignature).0 == r
  {
    hide CheckAndPreCommit, AddPrePrepareCache, BroadcastPrepare;
  }

  /** Outside of a new view only the leader may propose: whoever is not the node at the position of
      the leader, or does not sign with its key where that is checked, leaves no trace. */
  lemma OnlyLeaderProposes(r: Replica, m: Msg, verify: bool)
    requires m.from != r.cfg.LeaderIn(m.index, r.cfg.view) || m.signer != r.cfg.nodes[r.cfg.LeaderIn(m.index, r.cfg.view)].id
    ensures HandlePrePrepare(r, m, verify, false, true) == (r, false)
  {
    hide HandlePrePrepare;
    PrePrepareAccepted(r, m, verify, false, true);
  }

  /** A prepare vote is accepted exactly if it carries a proposal, is in the window and of no earlier
      view, comes from another node under its own key, is not for a hash that was accepted in a
      later view, and its proposal is signed by the sender. */
  lemma PrepareAccepted(r: Replica, m: Msg)
    ensures var g := r.cfg;
      HandlePrepare(r, m).1 <==>
        && m.proposal.Some? && InWindow(g, m.index) && m.view >= g.view
        && m.from != g.self && FromSender(g, m)
        && !(m.index in r.caches && r.caches[m.index].prePrepare.Some?
             && r.caches[m.index].prePrepare.value.hash == m.hash && r.caches[m.index].prePrepare.value.view > m.view)
        && m.proposal.value.sig == Some(Sig(g.nodes[m.from].id, m.proposal.value.hash))
    ensures !HandlePrepare(r, m).1 ==> HandlePrepare(r, m).0 == r
  {
    hide CheckAndPreCommit, AddPrepare;
  }

  /** The same for a commit vote, whose proposal need not be signed. */
  lemma CommitAccepted(r: Replica, m: Msg)
    ensures var g := r.cfg;
      HandleCommit(r, m).1 <==>
        && m.proposal.Some? && InWindow(g, m.index) && m.view >= g.view
        && m.from != g.self && FromSender(g, m)
        && !(m.index in r.caches && r.caches[m.index].prePrepare.Some?
             && r.caches[m.index].prePrepare.value.hash == m.hash && r.caches[m.index].prePrepare.value.view > m.view)
    ensures !HandleCommit(r, m).1 ==> HandleCommit(r, m).0 == r
  {
    hide CheckAndCommit, AddCommit;
  }

  /** A checkpoint vote is accepted exactly if its index is not committed, the known blocks are less
      than a window ahead, it comes from a node under its own key, and its proposal is signed. */
  lemma CheckPointAccepted(r: Replica, m: Msg)
    ensures var g := r.cfg;
      HandleCheckPoint(r, m).1 <==>
        && m.index > g.committed.index && g.syncing < g.committed.index + g.limit && FromSender(g, m)
        && m.proposal.Some? && m.proposal.value.sig == Some(Sig(g.nodes[m.from].id, m.proposal.value.hash))
    ensures !HandleCheckPoint(r, m).1 ==> HandleCheckPoint(r, m).0 == r
  {
    hide CheckAndCommitStable, TryApply, AddCheckPointMsg;
  }

  // ---- What is filed ----

  /** The cache of an index once the vote `m` is counted in one of its books. */
  function Counted(r: Replica, m: Msg, kind: Kind): Cache {
    var c := CacheAt(r, m.index);
    match kind
    case Prepare => c.(prepares := AddVote(r.cfg.nodes, m.index, c.prepares, m))
    case Commit => c.(commits := AddVote(r.cfg.nodes, m.index, c.commits, m))
    case _ => c.(checkpoints := AddVote(r.cfg.nodes, m.index, c.checkpoints, m))
  }

  /** A pre-prepare stays out of a cache exactly if its index has a stable checkpoint, or has been executed
      and holds another proposal. */
  lemma ReplacesUnless(c: Cache, m: Msg)
    requires m.proposal.Some? && (c.prePrepare.Some? ==> c.prePrepare.value.proposal.Some?)
    ensures AddPrePrepare(c, m) ==
      if c.stable || (c.checkpoint.Some? && c.prePrepare.Some?
                      && c.prePrepare.value.proposal.value.hash != m.proposal.value.hash)
      then c else c.(prePrepare := Some(m))
  {
  }

  /** An accepted vote of another node is counted at its index, and what it completes is done. */
  lemma VoteFiled(r: Replica, m: Msg, base: Proposal, w: World)
    requires Inv(r, base, w)
    ensures HandlePrepare(r, m).1 ==>
      HandlePrepare(r, m).0 == CheckAndPreCommit(r.(caches := r.caches[m.index := Counted(r, m, Prepare)]))
    ensures HandleCommit(r, m).1 ==>
      HandleCommit(r, m).0 == CheckAndCommit(r.(caches := r.caches[m.index := Counted(r, m, Commit)]))
  {
    hide Inv, CheckAndPreCommit, CheckAndCommit, AddVote, VoteOk;
    IndexedAt(r, m.index, base, w);
    var c := CacheAt(r, m.index);
    assert c.(index := m.index) == c;
  }

  lemma IndexedAt(r: Replica, i: int, base: Proposal, w: World)
    requires Inv(r, base, w)
    ensures CacheAt(r, i).index == i
  {
    hide Inv, SelfOk, CacheOk, AuthCache;
    InvCache(r, i, base, w);
  }

  /** An accepted pre-prepare replaces what was accepted at its index, the own prepare vote of the
      current view is counted and broadcast, and what these complete is locked. */
  lemma PrePrepareFiled(r: Replica, m: Msg, fromNewView: bool, checkSignature: bool, base: Proposal, w: World)
    requires Inv(r, base, w) && m.WellFormed()
    requires HandlePrePrepare(r, m, false, fromNewView, checkSignature).1
    ensures var own := OwnVote(r.cfg, Prepare, m.index, m.hash);
      var c := Counted(r, own, Prepare).(prePrepare := Some(m));
      && r.cfg.self in Senders(c.prepares, m.hash)
      && HandlePrePrepare(r, m, false, fromNewView, checkSignature).0
         == CheckAndPreCommit(r.(caches := r.caches[m.index := c], env := r.env.(sent := r.env.sent + [own])))
  {
    hide Inv, PrePrepareOk, AddVote, Senders, CheckAndPreCommit, HandlePrePrepare, AddPrePrepare, AddPrepare;
    AcceptedWhy(r, m, fromNewView, checkSignature);
    AcceptedChecks(r, m, base, w);
    AddPrePrepareCacheKeeps(r, m, base, w);
    var r1 := AddPrePrepareCache(r, m);
    var own := OwnVote(r.cfg, Prepare, m.index, m.hash);
    OwnIsCounted(r, own, base, w);
    FiledIs(r, m, own);
    OwnFiledKeeps(r1, m, base, w);
    LockedTwice(Send(AddPrepare(r1, own), own), base, w);
  }

  lemma OwnIsCounted(r: Replica, own: Msg, base: Proposal, w: World)
    requires Inv(r, base, w) && own.from == r.cfg.self
    ensures r.cfg.self in Senders(Counted(r, own, Prepare).prepares, own.hash)
  {
    hide Inv, AddVote, Senders;
    InvCfg(r, base, w);
    VoteCounted(r.cfg.nodes, own.index, CacheAt(r, own.index).prepares, own, own.hash);
  }

  lemma OwnFiledKeeps(r: Replica, m: Msg, base: Proposal, w: World)
    requires Inv(r, base, w)
    ensures var own := OwnVote(r.cfg, Prepare, m.index, m.hash); Inv(Send(AddPrepare(r, own), own), base, w)
  {
    hide Inv, AddPrepare;
    InvCfg(r, base, w);
    OwnPrepareKeeps(r, OwnVote(r.cfg, Prepare, m.index, m.hash), base, w);
  }

  lemma LockedTwice(r: Replica, base: Proposal, w: World)
    requires Inv(r, base, w)
    ensures CheckAndPreCommit(CheckAndPreCommit(r)) == CheckAndPreCommit(r)
  {
    hide Inv, CheckAndPreCommit, ToLock, LockedOn;
    PrecommitExact(r, base, w);
  }

  lemma AcceptedWhy(r: Replica, m: Msg, fromNewView: bool, checkSignature: bool)
    requires HandlePrePrepare(r, m, false, fromNewView, checkSignature).1 && m.WellFormed()
    ensures m.proposal.Some? && PrePrepareOk(r, m)
    ensures var r1 := AddPrePrepareCache(r, m); var own := r1.cfg.Own(Prepare, m.index, m.hash);
      HandlePrePrepare(r, m, false, fromNewView, checkSignature).0
      == CheckAndPreCommit(CheckAndPreCommit(Send(AddPrepare(r1, own), own)))
  {
    hide CheckAndPreCommit, AddPrePrepareCache, AddPrepare;
  }

  lemma FiledIs(r: Replica, m: Msg, own: Msg)
    requires var c := CacheAt(r, m.index); c.index == m.index && !c.stable && c.checkpoint.None?
    requires own == OwnVote(r.cfg, Prepare, m.index, m.hash)
    ensures var c := Counted(r, own, Prepare).(prePrepare := Some(m));
      Send(AddPrepare(AddPrePrepareCache(r, m), own), own)
      == r.(caches := r.caches[m.index := c], env := r.env.(sent := r.env.sent + [own]))
  {
    hide AddVote;
  }

  // ---- What an accepted vote completes ----

  /** A prepare vote that completes a quorum for the proposal accepted in the current view locks it and
      casts the vote to commit, also where an earlier view has locked before; any other is only
      counted. */
  lemma PrepareCompletes(r: Replica, m: Msg, base: Proposal, w: World)
    requires Inv(r, base, w) && m.WellFormed() && m.kind == Prepare && HandlePrepare(r, m).1
    requires Justified(r.cfg.self, r.env.sent, w, m.from, Prepare, m.index, m.hash)
    ensures var g, i, c, r' := r.cfg, m.index, Counted(r, m, Prepare), HandlePrepare(r, m).0;
      && i in r'.caches
      && (if && c.prePrepare.Some? && c.prePrepare.value.view == g.view
             && Backed(g, c.prepares, c.prePrepare.value.hash)
             && !c.precommitted && (c.precommit.Some? ==> c.precommit.value.view < g.view)
          then LockedOn(g, c, r'.caches[i], c.prePrepare.value)
               && OwnVote(g, Commit, i, c.prePrepare.value.hash) in r'.env.sent
          else r'.caches[i] == c)
  {
    hide Inv, Justified, CheckAndPreCommit, AddVote, LockedOn, Backed, HandlePrepare, AddPrepare, SigOf;
    VoteFiled(r, m, base, w);
    PrepareChecks(r, m);
    AddPrepareKeeps(r, m, base, w);
    IndexedAt(r, m.index, base, w);
    CountsPrepare(r, m);
    PrecommitExact(AddPrepare(r, m), base, w);
  }

  lemma CountsPrepare(r: Replica, m: Msg)
    requires CacheAt(r, m.index).index == m.index
    ensures AddPrepare(r, m) == r.(caches := r.caches[m.index := Counted(r, m, Prepare)])
  {
    hide AddVote;
  }

  /** A commit vote that completes a quorum for the proposal accepted in the current view hands the lock
      over for execution; any other is only counted. */
  lemma CommitCompletes(r: Replica, m: Msg, base: Proposal, w: World)
    requires Inv(r, base, w) && HandleCommit(r, m).1
    ensures var g, i, c, r' := r.cfg, m.index, Counted(r, m, Commit), HandleCommit(r, m).0;
      && i in r'.caches
      && (if && c.precommit.Some? && !c.submitted
             && c.prePrepare.Some? && c.prePrepare.value.view == g.view && Backed(g, c.commits, c.prePrepare.value.hash)
          then
            && r'.caches[i] == c.(submitted := true) && r'.cfg == g.(toView := g.view)
            && (forall p :: c.precommit.value.proposal == Some(p) ==>
                  p in r'.env.decided && (p.index >= g.expected ==> p in r'.commitQueue || p.hash in r'.executing))
          else r'.caches[i] == c)
  {
    hide Inv, CheckAndCommit, AddVote, Backed, HandleCommit;
    VoteFiled(r, m, base, w);
    IndexedAt(r, m.index, base, w);
    InvIndexed(r, base, w);
    var r1 := r.(caches := r.caches[m.index := Counted(r, m, Commit)]);
    CommitExact(r1);
  }
}
