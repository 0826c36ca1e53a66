/** One step at a time: how the loops of the caches and of the cache processor unfold the
    functions they compute. */
module Steps {
  import opened Types
  import opened Weights
  import opened ConfigModel
  import CM = CacheModel
  import RM = ReplicaModel
  import Monotone

  // ---- Visiting the keys of a map ----

  /** The set of the first `k` voters. */
  function FirstVoters(ks: seq<nat>, k: nat): set<nat>
    requires k <= |ks|
  {
    set n | n in ks[..k]
  }

  lemma FirstVotersGrow(ks: seq<nat>, k: nat)
    requires k < |ks| && forall i, j :: 0 <= i < j < |ks| ==> ks[i] < ks[j]
    ensures FirstVoters(ks, k + 1) == FirstVoters(ks, k) + {ks[k]} && ks[k] !in FirstVoters(ks, k)
  {
    assert ks[..k + 1] == ks[..k] + [ks[k]];
  }

  /** The visited executions that are for a committed index are gone, the others are left. */
  ghost predicate Cleared(all: map<Hash, int>, left: map<Hash, int>, visited: set<Hash>, committed: int) {
    && (forall h :: h in left <==> h in all && (h in visited ==> all[h] > committed))
    && (forall h :: h in left ==> left[h] == all[h])
  }

  lemma ClearedEnds(all: map<Hash, int>, committed: int)
    ensures Cleared(all, all, {}, committed)
    ensures forall left :: Cleared(all, left, all.Keys, committed) ==>
      left == map h | h in all && all[h] > committed :: all[h]
  {
  }

  lemma ClearedMore(all: map<Hash, int>, left: map<Hash, int>, visited: set<Hash>, h: Hash, committed: int)
    requires Cleared(all, left, visited, committed) && h in all
    ensures Cleared(all, if all[h] <= committed then left - {h} else left, visited + {h}, committed)
  {
  }

  // ---- Incremental weights of the view-change and recover books ----

  ghost predicate ChangesOk(nodes: seq<Node>, book: RM.ChangeBook, weights: map<nat, nat>) {
    && weights.Keys == book.Keys
    && (forall v :: v in book ==> weights[v] == Weight(nodes, book[v].Keys))
    && (forall v, n :: v in book && n in book[v] ==> book[v][n].from == n)
  }

  /** A sender that is not in the node list is cached without an entry for its weight. */
  ghost predicate RecoversOk(nodes: seq<Node>, book: RM.RecoverBook, weights: map<nat, nat>) {
    && weights.Keys <= book.Keys
    && (forall v :: v in book ==> Weight(nodes, book[v].Keys) == if v in weights then weights[v] else 0)
  }

  lemma StillFiled(book: RM.ChangeBook, v: nat, index: int)
    requires forall w, n :: w in book && n in book[w] ==> book[w][n].from == n
    ensures var left := RM.StillValid(book, v, index);
      forall w, n :: w in left && n in left[w] ==> left[w][n].from == n
  {
  }

  lemma FiledMore(nodes: seq<Node>, book: RM.ChangeBook, weights: map<nat, nat>, vc: ViewChange, weight: nat)
    requires ChangesOk(nodes, book, weights)
    requires vc.from < |nodes| && !(vc.view in book && vc.from in book[vc.view])
    requires weight == (if vc.view in weights then weights[vc.view] else 0) + nodes[vc.from].weight
    ensures var filed: map<nat, ViewChange> := if vc.view in book then book[vc.view] else map[];
      ChangesOk(nodes, book[vc.view := filed[vc.from := vc]], weights[vc.view := weight])
  {
    var filed: map<nat, ViewChange> := if vc.view in book then book[vc.view] else map[];
    WeightAdd(nodes, filed.Keys, vc.from);
    WeightOfNone(nodes);
    hide Weight;
    var more: map<nat, ViewChange> := filed[vc.from := vc];
    assert more.Keys == filed.Keys + {vc.from};
    assert vc.view !in book ==> filed.Keys == {};
    assert Weight(nodes, more.Keys) == weight;
  }

  lemma RecoversAfter(nodes: seq<Node>, book: RM.RecoverBook, weights: map<nat, nat>, v: nat)
    requires RecoversOk(nodes, book, weights)
    ensures RecoversOk(nodes, RM.AfterView(book, v), RM.AfterView(weights, v))
  {
    hide Weight;
  }

  lemma RecoveredMore(nodes: seq<Node>, book: RM.RecoverBook, weights: map<nat, nat>, m: Msg)
    requires RecoversOk(nodes, book, weights) && !(m.view in book && m.from in book[m.view])
    ensures var votes: map<nat, Msg> := if m.view in book then book[m.view] else map[];
      var book' := book[m.view := votes[m.from := m]];
      var weight := if m.view in weights then weights[m.view] else 0;
      if m.from < |nodes| then RecoversOk(nodes, book', weights[m.view := weight + nodes[m.from].weight])
      else RecoversOk(nodes, book', weights)
  {
    var votes: map<nat, Msg> := if m.view in book then book[m.view] else map[];
    WeightAdd(nodes, votes.Keys, m.from);
    WeightOfNone(nodes);
    hide Weight;
    var more: map<nat, Msg> := votes[m.from := m];
    assert more.Keys == votes.Keys + {m.from};
    assert m.view !in book ==> votes.Keys == {};
    assert m.from >= |nodes| ==> Weight(nodes, more.Keys) == Weight(nodes, votes.Keys);
    assert m.from < |nodes| ==> Weight(nodes, more.Keys) == Weight(nodes, votes.Keys) + nodes[m.from].weight;
  }

  lemma {:induction false} PrecommitStep(r: RM.Replica, ks: seq<int>, n: nat)
    requires n <= |ks|
    ensures n == 0 ==> RM.PrecommitEach(r, ks[..n]) == r
    ensures n < |ks| ==> RM.PrecommitEach(r, ks[..n + 1]) == RM.PrecommitAt(RM.PrecommitEach(r, ks[..n]), ks[n])
    ensures n == |ks| ==> RM.PrecommitEach(r, ks[..n]) == RM.PrecommitEach(r, ks)
  {
    hide RM.PrecommitAt;
    assert n < |ks| ==> ks[..n + 1][..n] == ks[..n];
    assert n == |ks| ==> ks[..n] == ks;
  }

  lemma {:induction false} CommitStep(r: RM.Replica, ks: seq<int>, n: nat)
    requires n <= |ks|
    ensures n == 0 ==> RM.CommitEach(r, ks[..n]) == r
    ensures n < |ks| ==> RM.CommitEach(r, ks[..n + 1]) == RM.CommitAt(RM.CommitEach(r, ks[..n]), ks[n])
    ensures n == |ks| ==> RM.CommitEach(r, ks[..n]) == RM.CommitEach(r, ks)
  {
    hide RM.CommitAt;
    assert n < |ks| ==> ks[..n + 1][..n] == ks[..n];
    assert n == |ks| ==> ks[..n] == ks;
  }

  lemma {:induction false} StabilizeStep(r: RM.Replica, ks: seq<int>, n: nat)
    requires n <= |ks|
    ensures n == 0 ==> RM.StabilizeEach(r, ks[..n]) == (r, [])
    ensures n < |ks| ==>
      var (r1, found) := RM.StabilizeEach(r, ks[..n]);
      RM.StabilizeEach(r, ks[..n + 1]) == RM.StabilizeOne(r1, found, ks[n])
    ensures n == |ks| ==> RM.StabilizeEach(r, ks[..n]) == RM.StabilizeEach(r, ks)
  {
    hide RM.StabilizeOne;
    assert n < |ks| ==> ks[..n + 1][..n] == ks[..n];
    assert n == |ks| ==> ks[..n] == ks;
  }

  lemma {:induction false} QueueStep(r: RM.Replica, ps: seq<Proposal>, n: nat)
    requires n <= |ps|
    ensures n == 0 ==> RM.QueueEach(r, ps[..n]) == r
    ensures n < |ps| ==> RM.QueueEach(r, ps[..n + 1]) == RM.UpdateStableQueue(RM.QueueEach(r, ps[..n]), ps[n])
    ensures n == |ps| ==> RM.QueueEach(r, ps[..n]) == RM.QueueEach(r, ps)
  {
    hide RM.UpdateStableQueue;
    assert n < |ps| ==> ps[..n + 1][..n] == ps[..n];
    assert n == |ps| ==> ps[..n] == ps;
  }

  // ---- Loops over books: what is done after some keys were visited ----

  ghost predicate Sifted(vcs: map<nat, ViewChange>, left: map<nat, ViewChange>, index: int, visited: set<nat>) {
    && (forall n :: n in left <==> n in vcs && (n in visited ==> vcs[n].index >= index))
    && (forall n :: n in left ==> left[n] == vcs[n])
  }

  lemma SiftedEnds(vcs: map<nat, ViewChange>, index: int)
    ensures Sifted(vcs, vcs, index, {})
    ensures forall left :: Sifted(vcs, left, index, vcs.Keys) ==> left == RM.UpToDate(vcs, index)
  {
  }

  lemma SiftedMore(vcs: map<nat, ViewChange>, left: map<nat, ViewChange>, index: int, visited: set<nat>, n: nat)
    requires Sifted(vcs, left, index, visited) && n in vcs
    ensures Sifted(vcs, if vcs[n].index < index then left - {n} else left, index, visited + {n})
  {
  }

  ghost predicate LeftOver(book: RM.ChangeBook, left: RM.ChangeBook, v: nat, index: int, visited: set<nat>) {
    && (forall w :: w in left <==> w in book && (w in visited ==> w > v))
    && (forall w :: w in left ==> left[w] == if w in visited then RM.UpToDate(book[w], index) else book[w])
  }

  lemma LeftOverEnds(book: RM.ChangeBook, v: nat, index: int)
    ensures LeftOver(book, book, v, index, {})
    ensures forall left :: LeftOver(book, left, v, index, book.Keys) ==> left == RM.StillValid(book, v, index)
  {
    hide RM.UpToDate;
  }

  lemma LeftOverMore(book: RM.ChangeBook, left: RM.ChangeBook, v: nat, index: int, visited: set<nat>, w: nat)
    requires LeftOver(book, left, v, index, visited) && w in book && w !in visited
    ensures LeftOver(book, if w <= v then left - {w} else left[w := RM.UpToDate(book[w], index)], v, index, visited + {w})
  {
    hide RM.UpToDate;
  }

  ghost predicate Recounted(nodes: seq<Node>, book: RM.ChangeBook, weights: map<nat, nat>, visited: set<nat>) {
    && weights.Keys == visited && visited <= book.Keys
    && forall v :: v in visited ==> weights[v] == Weight(nodes, book[v].Keys)
  }

  lemma RecountedEnds(nodes: seq<Node>, book: RM.ChangeBook)
    requires forall v, n :: v in book && n in book[v] ==> book[v][n].from == n
    ensures Recounted(nodes, book, map[], {})
    ensures forall weights :: Recounted(nodes, book, weights, book.Keys) ==> ChangesOk(nodes, book, weights)
  {
  }

  lemma RecountedMore(nodes: seq<Node>, book: RM.ChangeBook, weights: map<nat, nat>, visited: set<nat>, v: nat)
    requires Recounted(nodes, book, weights, visited) && v in book
    ensures Recounted(nodes, book, weights[v := Weight(nodes, book[v].Keys)], visited + {v})
  {
    hide Weight;
  }

  function BareList(c: CM.Cache): seq<Msg> {
    if c.bare.Some? then [c.bare.value] else []
  }

  lemma {:induction false} PreparedStep(caches: map<int, CM.Cache>, ks: seq<int>, n: nat)
    requires n <= |ks| && forall k :: 0 <= k < |ks| ==> ks[k] in caches
    ensures n == 0 ==> RM.PreparedOf(caches, ks[..n]) == []
    ensures n < |ks| ==>
      RM.PreparedOf(caches, ks[..n + 1]) == RM.PreparedOf(caches, ks[..n]) + BareList(caches[ks[n]])
    ensures n == |ks| ==> RM.PreparedOf(caches, ks[..n]) == RM.PreparedOf(caches, ks)
  {
    assert n < |ks| ==> ks[..n + 1][..n] == ks[..n];
    assert n == |ks| ==> ks[..n] == ks;
  }

  /** The certificates collected are exactly those of the caches visited. */
  lemma {:induction false} PreparedMembers(caches: map<int, CM.Cache>, ks: seq<int>)
    ensures forall m :: m in RM.PreparedOf(caches, ks) <==> exists i :: i in ks && i in caches && caches[i].bare == Some(m)
  {
    if ks != [] {
      PreparedMembers(caches, ks[..|ks| - 1]);
      assert ks == ks[..|ks| - 1] + [ks[|ks| - 1]];
    }
  }

  /** Visiting a map in key order: each step adds one key not visited yet, until all are. */
  lemma Visit<V>(m: map<nat, V>, k: nat)
    requires k <= |CM.Voters(m)|
    ensures var ks := CM.Voters(m);
      && (k == 0 ==> FirstVoters(ks, k) == {})
      && (k == |ks| ==> FirstVoters(ks, k) == m.Keys)
      && (k < |ks| ==>
            ks[k] in m && FirstVoters(ks, k + 1) == FirstVoters(ks, k) + {ks[k]} && ks[k] !in FirstVoters(ks, k))
  {
    var ks := CM.Voters(m);
    if k < |ks| {
      assert ks[k] in ks;
      FirstVotersGrow(ks, k);
    }
  }

  lemma PutAgain(r: RM.Replica, c: CM.Cache, c': CM.Cache)
    requires c.index == c'.index
    ensures RM.Put(RM.Put(r, c), c') == RM.Put(r, c')
  {
  }

  ghost predicate Trimmed<V>(book: map<nat, V>, left: map<nat, V>, v: nat, visited: set<nat>) {
    && (forall w :: w in left <==> w in book && (w in visited ==> w > v))
    && (forall w :: w in left ==> left[w] == book[w])
  }

  lemma TrimmedEnds<V>(book: map<nat, V>, v: nat)
    ensures Trimmed(book, book, v, {})
    ensures forall left: map<nat, V> :: Trimmed(book, left, v, book.Keys) ==> left == RM.AfterView(book, v)
  {
  }

  lemma TrimmedMore<V>(book: map<nat, V>, left: map<nat, V>, v: nat, visited: set<nat>, w: nat)
    requires Trimmed(book, left, v, visited) && w in book
    ensures Trimmed(book, if w <= v then left - {w} else left, v, visited + {w})
  {
  }

  // ---- Evicting and resetting caches ----

  /** Evict the cache of an index that is committed or whose checkpoint is stable. */
  function EvictOne(caches: RM.Caches, number: int, i: int): RM.Caches {
    if i in caches && (i <= number || caches[i].stable) then caches - {i} else caches
  }

  function EvictEach(caches: RM.Caches, number: int, ks: seq<int>): RM.Caches {
    if ks == [] then caches else EvictOne(EvictEach(caches, number, ks[..|ks| - 1]), number, ks[|ks| - 1])
  }

  lemma {:induction false} EvictStep(caches: RM.Caches, number: int, ks: seq<int>, n: nat)
    requires n <= |ks|
    ensures n == 0 ==> EvictEach(caches, number, ks[..n]) == caches
    ensures n < |ks| ==>
      EvictEach(caches, number, ks[..n + 1]) == EvictOne(EvictEach(caches, number, ks[..n]), number, ks[n])
    ensures n == |ks| ==> EvictEach(caches, number, ks[..n]) == EvictEach(caches, number, ks)
  {
    hide EvictOne;
    assert n < |ks| ==> ks[..n + 1][..n] == ks[..n];
    assert n == |ks| ==> ks[..n] == ks;
  }

  lemma {:induction false} EvictEachIs(caches: RM.Caches, number: int, ks: seq<int>)
    ensures var left := EvictEach(caches, number, ks);
      && (forall i :: i in left <==> i in caches && (i in ks ==> i > number && !caches[i].stable))
      && (forall i :: i in left ==> left[i] == caches[i])
  {
    if ks != [] {
      EvictEachIs(caches, number, ks[..|ks| - 1]);
      assert ks == ks[..|ks| - 1] + [ks[|ks| - 1]];
    }
  }

  lemma {:induction false} EvictAll(caches: RM.Caches, number: int)
    ensures EvictEach(caches, number, Ascending(caches.Keys)) == RM.Unfinished(caches, number)
  {
    var ks := Ascending(caches.Keys);
    EvictEachIs(caches, number, ks);
    var left := EvictEach(caches, number, ks);
    hide EvictEach, Ascending;
    assert forall i :: i in ks <==> i in caches;
    assert forall i :: i in left <==> i in RM.Unfinished(caches, number);
  }

  function ResetOne(caches: RM.Caches, v: nat, i: int): RM.Caches {
    if i in caches then caches[i := CM.ResetView(caches[i], v)] else caches
  }

  function ResetEach(caches: RM.Caches, v: nat, ks: seq<int>): RM.Caches {
    if ks == [] then caches else ResetOne(ResetEach(caches, v, ks[..|ks| - 1]), v, ks[|ks| - 1])
  }

  lemma {:induction false} ResetStep(caches: RM.Caches, v: nat, ks: seq<int>, n: nat)
    requires n <= |ks|
    ensures n == 0 ==> ResetEach(caches, v, ks[..n]) == caches
    ensures n < |ks| ==> ResetEach(caches, v, ks[..n + 1]) == ResetOne(ResetEach(caches, v, ks[..n]), v, ks[n])
    ensures n == |ks| ==> ResetEach(caches, v, ks[..n]) == ResetEach(caches, v, ks)
  {
    hide ResetOne;
    assert n < |ks| ==> ks[..n + 1][..n] == ks[..n];
    assert n == |ks| ==> ks[..n] == ks;
  }

  lemma {:induction false} ResetEachIs(caches: RM.Caches, v: nat, ks: seq<int>)
    requires forall i, j :: 0 <= i < j < |ks| ==> ks[i] < ks[j]
    ensures var reset := ResetEach(caches, v, ks);
      && reset.Keys == caches.Keys
      && forall i :: i in caches ==> reset[i] == if i in ks then CM.ResetView(caches[i], v) else caches[i]
  {
    hide CM.ResetView;
    if ks != [] {
      var front, last := ks[..|ks| - 1], ks[|ks| - 1];
      ResetEachIs(caches, v, front);
      assert ks == front + [last] && last !in front;
    }
  }

  lemma SameReset(caches: RM.Caches, v: nat, reset: RM.Caches)
    requires reset.Keys == caches.Keys && forall i :: i in caches ==> reset[i] == CM.ResetView(caches[i], v)
    ensures reset == RM.ResetCaches(caches, v)
  {
    hide CM.ResetView;
    var all := RM.ResetCaches(caches, v);
    assert reset.Keys == all.Keys;
    assert forall i :: i in caches ==> reset[i] == all[i];
  }

  lemma {:induction false} ResetAll(caches: RM.Caches, v: nat)
    ensures ResetEach(caches, v, Ascending(caches.Keys)) == RM.ResetCaches(caches, v)
  {
    hide CM.ResetView, ResetEach, Ascending, RM.ResetCaches;
    var ks := Ascending(caches.Keys);
    ResetEachIs(caches, v, ks);
    SameReset(caches, v, ResetEach(caches, v, ks));
  }

  // ---- New views ----

  lemma {:induction false} OfferStep(slots: map<int, Msg>, floor: int, from: nat, ms: seq<Msg>, n: nat)
    requires n <= |ms|
    ensures n == 0 ==> RM.OfferAll(slots, floor, from, ms[..n]) == slots
    ensures n < |ms| ==>
      RM.OfferAll(slots, floor, from, ms[..n + 1]) == RM.Offer(RM.OfferAll(slots, floor, from, ms[..n]), floor, from, ms[n])
    ensures n == |ms| ==> RM.OfferAll(slots, floor, from, ms[..n]) == RM.OfferAll(slots, floor, from, ms)
  {
    hide RM.Offer;
    assert n < |ms| ==> ms[..n + 1][..n] == ms[..n];
    assert n == |ms| ==> ms[..n] == ms;
  }

  lemma {:induction false} SlotsStep(vcs: seq<ViewChange>, floor: int, n: nat)
    requires n <= |vcs|
    ensures n == 0 ==> RM.Slots(vcs[..n], floor) == map[]
    ensures n < |vcs| ==>
      RM.Slots(vcs[..n + 1], floor) == RM.OfferAll(RM.Slots(vcs[..n], floor), floor, vcs[n].from, vcs[n].prepared)
    ensures n == |vcs| ==> RM.Slots(vcs[..n], floor) == RM.Slots(vcs, floor)
  {
    hide RM.OfferAll;
    assert n < |vcs| ==> vcs[..n + 1][..n] == vcs[..n];
    assert n == |vcs| ==> vcs[..n] == vcs;
  }

  /** What one cached view contributes to the weight behind later views. */
  function Behind(g: Cfg, changes: RM.ChangeBook, v: int): nat {
    if v > g.toView && v in changes then Weight(g.nodes, changes[v as nat].Keys) else 0
  }

  lemma {:induction false} GreaterStep(g: Cfg, changes: RM.ChangeBook, vs: seq<int>, n: nat)
    requires n <= |vs|
    ensures n == 0 ==> RM.GreaterWeight(g, changes, vs[..n]) == 0
    ensures n < |vs| ==>
      RM.GreaterWeight(g, changes, vs[..n + 1]) == RM.GreaterWeight(g, changes, vs[..n]) + Behind(g, changes, vs[n])
    ensures n == |vs| ==> RM.GreaterWeight(g, changes, vs[..n]) == RM.GreaterWeight(g, changes, vs)
  {
    hide Weight;
    assert n < |vs| ==> vs[..n + 1][..n] == vs[..n];
    assert n == |vs| ==> vs[..n] == vs;
  }

  lemma {:induction false} SmallestPrefix(v: nat, vs: seq<int>, n: nat)
    requires n < |vs|
    ensures var s := RM.SmallestAbove(v, vs[..n]);
      RM.SmallestAbove(v, vs[..n + 1]) == if s != 0 then s else if vs[n] > v then vs[n] else 0
    decreases n
  {
    if n == 0 {
      assert vs[..1][1..] == [];
    } else {
      SmallestPrefix(v, vs[1..], n - 1);
      assert vs[..n][1..] == vs[1..][..n - 1] && vs[..n + 1][1..] == vs[1..][..n];
    }
  }

  lemma {:induction false} SmallestStep(v: nat, vs: seq<int>, n: nat)
    requires n <= |vs| && forall i, j :: 0 <= i < j < |vs| ==> vs[i] < vs[j]
    ensures n == 0 ==> RM.SmallestAbove(v, vs[..n]) == 0
    ensures n < |vs| ==> var s := RM.SmallestAbove(v, vs[..n]);
      s <= MaxInt(0, vs[n]) && RM.SmallestAbove(v, vs[..n + 1]) == if s != 0 then s else if vs[n] > v then vs[n] else 0
    ensures n == |vs| ==> RM.SmallestAbove(v, vs[..n]) == RM.SmallestAbove(v, vs)
  {
    if n < |vs| {
      SmallestPrefix(v, vs, n);
      RM.SmallestAmong(v, vs[..n]);
    }
    assert n == |vs| ==> vs[..n] == vs;
  }

  lemma FastIs(r: RM.Replica)
    ensures var vs := Ascending(r.changes.Keys);
      var target := RM.SmallestAbove(r.cfg.toView, vs);
      RM.TryFastViewChange(r) ==
        if RM.GreaterWeight(r.cfg, r.changes, vs) < r.cfg.Faulty() + 1 || target == 0 then (r, 0)
        else (r.(cfg := r.cfg.(toView := target - 1)), target)
  {
    hide RM.GreaterWeight, RM.SmallestAbove, Ascending, Cfg.Faulty;
  }

  lemma JudgeIs(r: RM.Replica, vc: ViewChange)
    ensures RM.Judge(r, vc) ==
      if vc.committed.index < r.cfg.committed.index then (r, false)
      else
        var r1 := if RM.FallenBehind(r.cfg, vc) && r.cfg.timeout then RM.BroadcastViewChange(r) else r;
        (r1, RM.ValidViewChange(r1.cfg, vc))
  {
    hide RM.ValidViewChange, RM.BroadcastViewChange, RM.FallenBehind;
  }

  lemma HandleViewChangeIs(r: RM.Replica, vc: ViewChange)
    ensures var (r1, ok) := RM.Judge(r, vc);
      RM.HandleViewChange(r, vc) ==
        if ok then (RM.TryNewView(RM.JoinLater(RM.AddViewChange(r1, vc), vc.from)), true) else (r1, false)
  {
    hide RM.Judge, RM.TryNewView, RM.JoinLater, RM.AddViewChange;
  }

  lemma {:induction false} JudgeNewViewIs(r: RM.Replica, nv: NewView)
    ensures !(nv.from == r.cfg.LeaderIn(nv.index + 1, nv.view) && nv.view > r.cfg.view) ==>
      RM.JudgeNewView(r, nv) == (r, false)
    ensures nv.from == r.cfg.LeaderIn(nv.index + 1, nv.view) && nv.view > r.cfg.view ==>
      var (r1, ok) := RM.JudgeAll(r, nv.viewChanges);
      RM.JudgeNewView(r, nv) ==
        (r1, ok && RM.ChangesWeight(r1.cfg.nodes, nv.viewChanges) >= r1.cfg.Quorum() && r1.cfg.SignedBy(nv.from, nv.signer))
  {
    hide RM.JudgeAll, RM.ChangesWeight, Cfg.LeaderIn, Cfg.Quorum, Cfg.SignedBy;
  }

  /** One view change more: it is judged in the state left by those before it. */
  lemma {:induction false} JudgeStep(r: RM.Replica, vcs: seq<ViewChange>, k: nat)
    requires k <= |vcs|
    ensures k == 0 ==> RM.JudgeAll(r, vcs[..k]) == (r, true) && RM.ChangesWeight(r.cfg.nodes, vcs[..k]) == 0
    ensures RM.JudgeAll(r, vcs[..k]).0.cfg.nodes == r.cfg.nodes
    ensures k < |vcs| ==>
      var (r1, ok) := RM.JudgeAll(r, vcs[..k]);
      && RM.JudgeAll(r, vcs[..k + 1]) == (if ok then RM.Judge(r1, vcs[k]) else (r1, false))
      && RM.ChangesWeight(r.cfg.nodes, vcs[..k + 1]) == RM.ChangesWeight(r.cfg.nodes, vcs[..k])
           + if vcs[k].from < |r.cfg.nodes| then r.cfg.nodes[vcs[k].from].weight else 0
    ensures k == |vcs| ==> vcs[..k] == vcs
  {
    Monotone.JudgeAllLater(r, vcs[..k]);
    hide RM.Judge;
    if k < |vcs| {
      assert vcs[..k + 1][..k] == vcs[..k];
    }
  }

  /** Once refused, the rest of the list is not looked at. */
  lemma {:induction false} RefusedStays(r: RM.Replica, vcs: seq<ViewChange>, k: nat)
    requires k <= |vcs| && !RM.JudgeAll(r, vcs[..k]).1
    ensures RM.JudgeAll(r, vcs) == RM.JudgeAll(r, vcs[..k])
    decreases |vcs|
  {
    hide RM.Judge;
    if k == |vcs| {
      assert vcs[..k] == vcs;
    } else {
      var front := vcs[..|vcs| - 1];
      assert front[..k] == vcs[..k];
      RefusedStays(r, front, k);
    }
  }

  // ---- Recovery ----

  predicate Reports(g: Cfg, recovers: RM.RecoverBook, v: int) {
    v > 0 && v in recovers && Weight(g.nodes, recovers[v as nat].Keys) >= g.Quorum()
  }

  /** The highest view in `vs` that a quorum reports. */
  ghost predicate Highest(g: Cfg, recovers: RM.RecoverBook, vs: set<int>, best: int) {
    && (best == 0 || Reports(g, recovers, best))
    && forall v :: v in vs && Reports(g, recovers, v) ==> v <= best
  }

  lemma {:induction false} RecoveredIsHighest(g: Cfg, recovers: RM.RecoverBook, vs: seq<int>)
    ensures Highest(g, recovers, (set v | v in vs), RM.RecoveredView(g, recovers, vs))
  {
    hide Weight, QuorumOf;
    if vs != [] {
      RecoveredIsHighest(g, recovers, vs[..|vs| - 1]);
      assert forall v :: v in vs <==> v in vs[..|vs| - 1] || v == vs[|vs| - 1];
    }
  }

  lemma HighestNone(g: Cfg, recovers: RM.RecoverBook)
    ensures Highest(g, recovers, {}, 0)
  {
  }

  lemma HighestMore(g: Cfg, recovers: RM.RecoverBook, weights: map<nat, nat>, vs: set<nat>, v: nat, best: nat)
    requires RecoversOk(g.nodes, recovers, weights) && v in weights && Highest(g, recovers, vs, best)
    ensures Highest(g, recovers, vs + {v}, if weights[v] >= g.Quorum() && best < v then v else best)
  {
    hide Weight, QuorumOf;
  }

  /** Looking only at the views with a recorded weight finds the same view: the others have
      only unknown senders. */
  lemma {:induction false} RecordedSuffices(g: Cfg, recovers: RM.RecoverBook, weights: map<nat, nat>, best: int)
    requires 0 < g.Quorum() && RecoversOk(g.nodes, recovers, weights)
    requires Highest(g, recovers, weights.Keys, best)
    ensures best == RM.RecoveredView(g, recovers, Ascending(recovers.Keys))
  {
    hide Weight, QuorumOf, RM.RecoveredView;
    RecoveredIsHighest(g, recovers, Ascending(recovers.Keys));
    var other := RM.RecoveredView(g, recovers, Ascending(recovers.Keys));
    assert forall v :: Reports(g, recovers, v) ==> v in weights && v in recovers.Keys;
  }
}
