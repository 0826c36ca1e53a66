/** The views of votes. A replica that votes to commit has voted for nothing else at that index in
    this view or a later one, and a quorum stands behind its lock in this view or later ones. Both
    hold whatever kind a verified vote was signed as. */
module VoteOrder {
  import opened Types
  import opened Weights
  import opened ReplicaModel
  import opened ReplicaInvariant
  import opened Network

  /** What each honest node has signed. */
  type Logs = map<nat, seq<Msg>>

  function LogsOf(net: Net): Logs {
    map n | n in net :: net[n].env.sent
  }

  /** If `n` is honest, it signed `h` at `i` in this view or a later one. */
  ghost predicate Backs(logs: Logs, n: nat, view: nat, i: int, h: Hash) {
    n in logs ==> exists x :: x in logs[n] && x.index == i && x.hash == h && x.view >= view
  }

  /** The votes to order at an index were cast in views up to that of the proposal accepted there,
      and in earlier ones if they were for another hash; or no proposal is accepted there again. */
  ghost predicate VoteKnown(floor: int, caches: Caches, x: Msg) {
    || Past(floor, caches, x.index)
    || (x.index in caches && caches[x.index].prePrepare.Some? && NotAfter(x, caches[x.index].prePrepare.value))
  }

  predicate NotAfter(x: Msg, m: Msg) {
    x.view <= m.view && (x.hash != m.hash ==> x.view < m.view)
  }

  ghost predicate AllKnown(floor: int, caches: Caches, sent: seq<Msg>) {
    forall x :: x in sent && x.kind != CheckPoint ==> VoteKnown(floor, caches, x)
  }

  /** Every vote to order another hash at the index of a commit vote was cast in an earlier view. */
  ghost predicate CommitsLast(sent: seq<Msg>) {
    forall c, x :: c in sent && x in sent && c.kind == Commit && x.kind != CheckPoint && x.index == c.index && x.hash != c.hash
      ==> x.view < c.view
  }

  ghost predicate BookBacked(logs: Logs, i: int, book: VoteBook) {
    forall h, n :: h in book && n in book[h] ==> Backs(logs, n, book[h][n].view, i, h)
  }

  ghost predicate PreparesBacked(logs: Logs, caches: Caches) {
    forall i :: i in caches ==> BookBacked(logs, i, caches[i].prepares)
  }

  ghost predicate BackedBy(nodes: seq<Node>, logs: Logs, c: Msg, q: set<nat>) {
    Weight(nodes, q) >= QuorumOf(nodes) && forall n :: n in q ==> Backs(logs, n, c.view, c.index, c.hash)
  }

  ghost predicate LockBacked(nodes: seq<Node>, logs: Logs, c: Msg) {
    exists q: set<nat> :: BackedBy(nodes, logs, c, q)
  }

  ghost predicate LocksBacked(nodes: seq<Node>, logs: Logs, sent: seq<Msg>) {
    forall c :: c in sent && c.kind == Commit ==> LockBacked(nodes, logs, c)
  }

  ghost predicate OrderInv(r: Replica, logs: Logs) {
    && r.cfg.self in logs && logs[r.cfg.self] == r.env.sent
    && AllKnown(Floor(r.cfg), r.caches, r.env.sent)
    && CommitsLast(r.env.sent)
    && PreparesBacked(logs, r.caches)
    && LocksBacked(r.cfg.nodes, logs, r.env.sent)
  }

  // ---- More votes of others ----

  predicate LogsLater(logs: Logs, logs': Logs) {
    logs'.Keys == logs.Keys && forall n :: n in logs ==> logs[n] <= logs'[n]
  }

  lemma BacksLater(logs: Logs, logs': Logs, n: nat, view: nat, i: int, h: Hash)
    requires Backs(logs, n, view, i, h) && LogsLater(logs, logs')
    ensures Backs(logs', n, view, i, h)
  {
    if n in logs {
      var x :| x in logs[n] && x.index == i && x.hash == h && x.view >= view;
      assert x in logs'[n];
    }
  }

  lemma BookLater(logs: Logs, logs': Logs, i: int, book: VoteBook)
    requires BookBacked(logs, i, book) && LogsLater(logs, logs')
    ensures BookBacked(logs', i, book)
  {
    hide Backs, LogsLater;
    forall h, n | h in book && n in book[h] ensures Backs(logs', n, book[h][n].view, i, h) {
      BacksLater(logs, logs', n, book[h][n].view, i, h);
    }
  }

  lemma PreparesLater(logs: Logs, logs': Logs, caches: Caches)
    requires PreparesBacked(logs, caches) && LogsLater(logs, logs')
    ensures PreparesBacked(logs', caches)
  {
    hide BookBacked, LogsLater;
    forall i | i in caches ensures BookBacked(logs', i, caches[i].prepares) {
      BookLater(logs, logs', i, caches[i].prepares);
    }
  }

  lemma LockLater(nodes: seq<Node>, logs: Logs, logs': Logs, c: Msg)
    requires LockBacked(nodes, logs, c) && LogsLater(logs, logs')
    ensures LockBacked(nodes, logs', c)
  {
    hide Backs, LogsLater, Weight, QuorumOf;
    var q :| BackedBy(nodes, logs, c, q);
    forall n | n in q ensures Backs(logs', n, c.view, c.index, c.hash) {
      BacksLater(logs, logs', n, c.view, c.index, c.hash);
    }
    assert BackedBy(nodes, logs', c, q);
  }

  lemma LocksLater(nodes: seq<Node>, logs: Logs, logs': Logs, sent: seq<Msg>)
    requires LocksBacked(nodes, logs, sent) && LogsLater(logs, logs')
    ensures LocksBacked(nodes, logs', sent)
  {
    hide LockBacked, LogsLater;
    forall c | c in sent && c.kind == Commit ensures LockBacked(nodes, logs', c) {
      LockLater(nodes, logs, logs', c);
    }
  }

  /** What the others sign later takes nothing away. */
  lemma OrderLater(r: Replica, logs: Logs, logs': Logs)
    requires OrderInv(r, logs) && LogsLater(logs, logs') && r.cfg.self in logs' && logs'[r.cfg.self] == r.env.sent
    ensures OrderInv(r, logs')
  {
    hide AllKnown, CommitsLast, PreparesBacked, LocksBacked, LogsLater;
    PreparesLater(logs, logs', r.caches);
    LocksLater(r.cfg.nodes, logs, logs', r.env.sent);
  }

  // ---- Steps that order nothing ----

  /** The same proposal stays accepted. */
  predicate SameRound(m: Option<Msg>, m': Option<Msg>) {
    m.Some? == m'.Some? && (m.Some? ==> m'.value.hash == m.value.hash && m'.value.view == m.value.view)
  }

  predicate FewerVotes(book: VoteBook, book': VoteBook) {
    forall h, n :: h in book' && n in book'[h] ==> h in book && n in book[h] && book'[h][n] == book[h][n]
  }

  function Accepted(caches: Caches, i: int): Option<Msg> {
    if i in caches then caches[i].prePrepare else None
  }

  function PreparesAt(caches: Caches, i: int): VoteBook {
    if i in caches then caches[i].prepares else map[]
  }

  /** Nothing new is accepted or filed at this index, and what is given up is past. */
  predicate PassiveAt(floor: int, caches: Caches, caches': Caches, i: int) {
    && (SameRound(Accepted(caches, i), Accepted(caches', i)) || (i < floor && Accepted(caches', i).None?))
    && FewerVotes(PreparesAt(caches, i), PreparesAt(caches', i))
  }

  ghost predicate PassiveCaches(floor: int, caches: Caches, caches': Caches) {
    forall i :: PassiveAt(floor, caches, caches', i)
  }

  /** At most checkpoint votes are sent. */
  predicate PassiveVotes(sent: seq<Msg>, sent': seq<Msg>) {
    sent <= sent' && forall x :: x in sent' ==> x in sent || x.kind == CheckPoint
  }

  ghost predicate Passive(r: Replica, r': Replica) {
    && r'.cfg.nodes == r.cfg.nodes && r'.cfg.self == r.cfg.self
    && Floor(r.cfg) <= Floor(r'.cfg)
    && PassiveVotes(r.env.sent, r'.env.sent)
    && PassiveCaches(Floor(r'.cfg), r.caches, r'.caches)
  }

  lemma PassiveItself(r: Replica, r': Replica)
    requires r'.cfg.nodes == r.cfg.nodes && r'.cfg.self == r.cfg.self && Floor(r.cfg) <= Floor(r'.cfg)
    requires r'.caches == r.caches && r'.env.sent == r.env.sent
    ensures Passive(r, r')
  {
  }

  lemma PassiveCachesTrans(floor: int, floor': int, a: Caches, b: Caches, c: Caches)
    requires floor <= floor' && PassiveCaches(floor, a, b) && PassiveCaches(floor', b, c)
    ensures PassiveCaches(floor', a, c)
  {
    forall i ensures PassiveAt(floor', a, c, i) {
      assert PassiveAt(floor, a, b, i) && PassiveAt(floor', b, c, i);
    }
  }

  lemma PassiveTrans(a: Replica, b: Replica, c: Replica)
    requires Passive(a, b) && Passive(b, c)
    ensures Passive(a, c)
  {
    hide PassiveCaches;
    PassiveCachesTrans(Floor(b.cfg), Floor(c.cfg), a.caches, b.caches, c.caches);
  }

  lemma PassiveKnown(floor: int, floor': int, caches: Caches, caches': Caches, x: Msg)
    requires floor <= floor' && PassiveCaches(floor', caches, caches') && VoteKnown(floor, caches, x)
    ensures VoteKnown(floor', caches', x)
  {
    assert PassiveAt(floor', caches, caches', x.index);
  }

  lemma PassivePrepares(floor: int, logs: Logs, caches: Caches, caches': Caches)
    requires PassiveCaches(floor, caches, caches') && PreparesBacked(logs, caches)
    ensures PreparesBacked(logs, caches')
  {
    hide Backs;
    forall i | i in caches' ensures BookBacked(logs, i, caches'[i].prepares) {
      assert PassiveAt(floor, caches, caches', i);
    }
  }

  lemma PassiveLast(sent: seq<Msg>, sent': seq<Msg>)
    requires PassiveVotes(sent, sent') && CommitsLast(sent)
    ensures CommitsLast(sent')
  {
  }

  lemma PassiveLocks(nodes: seq<Node>, logs: Logs, sent: seq<Msg>, sent': seq<Msg>)
    requires PassiveVotes(sent, sent') && LocksBacked(nodes, logs, sent)
    ensures LocksBacked(nodes, logs, sent')
  {
    hide LockBacked;
  }

  function Updated(logs: Logs, r: Replica): Logs {
    logs[r.cfg.self := r.env.sent]
  }

  lemma UpdatedLater(logs: Logs, r: Replica, r': Replica)
    requires r.cfg.self in logs && logs[r.cfg.self] == r.env.sent && r'.cfg.self == r.cfg.self && r.env.sent <= r'.env.sent
    ensures LogsLater(logs, Updated(logs, r'))
  {
  }

  /** Steps that order nothing keep the order of the votes. */
  lemma PassiveKeeps(r: Replica, r': Replica, logs: Logs)
    requires OrderInv(r, logs) && Passive(r, r')
    ensures OrderInv(r', Updated(logs, r'))
  {
    var logs' := Updated(logs, r');
    UpdatedLater(logs, r, r');
    hide PreparesBacked, LocksBacked, LogsLater, PassiveCaches, CommitsLast, VoteKnown;
    PreparesLater(logs, logs', r.caches);
    PassivePrepares(Floor(r'.cfg), logs', r.caches, r'.caches);
    LocksLater(r.cfg.nodes, logs, logs', r.env.sent);
    PassiveLocks(r.cfg.nodes, logs', r.env.sent, r'.env.sent);
    PassiveLast(r.env.sent, r'.env.sent);
    forall x | x in r'.env.sent && x.kind != CheckPoint ensures VoteKnown(Floor(r'.cfg), r'.caches, x) {
      PassiveKnown(Floor(r.cfg), Floor(r'.cfg), r.caches, r'.caches, x);
    }
  }
}
