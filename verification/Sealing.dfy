/** Node lists in canonical order, and the ranges of blocks the sealer is asked for. */
module Sealing {
  import opened Types
  import opened Weights
  import opened ConfigModel

  // ---- Node lists ----

  predicate Ordered(nodes: seq<Node>) {
    forall i, j :: 0 <= i < j < |nodes| ==> nodes[i].id <= nodes[j].id
  }

  function InsertNode(nodes: seq<Node>, n: Node): seq<Node> {
    if nodes == [] || nodes[|nodes| - 1].id <= n.id then nodes + [n]
    else InsertNode(nodes[..|nodes| - 1], n) + [nodes[|nodes| - 1]]
  }

  /** `std::sort` with the comparator of node ids. */
  function SortNodes(nodes: seq<Node>): seq<Node> {
    if nodes == [] then []
    else InsertNode(SortNodes(nodes[..|nodes| - 1]), nodes[|nodes| - 1])
  }

  lemma {:induction false} InsertNodeMembers(nodes: seq<Node>, n: Node)
    ensures multiset(InsertNode(nodes, n)) == multiset(nodes) + multiset{n}
    ensures forall x :: x in InsertNode(nodes, n) <==> x in nodes || x == n
  {
    if !(nodes == [] || nodes[|nodes| - 1].id <= n.id) {
      InsertNodeMembers(nodes[..|nodes| - 1], n);
      assert nodes == nodes[..|nodes| - 1] + [nodes[|nodes| - 1]];
    }
  }

  lemma {:induction false} InsertNodeOrdered(nodes: seq<Node>, n: Node)
    requires Ordered(nodes)
    ensures Ordered(InsertNode(nodes, n))
  {
    if !(nodes == [] || nodes[|nodes| - 1].id <= n.id) {
      var front, last := nodes[..|nodes| - 1], nodes[|nodes| - 1];
      InsertNodeOrdered(front, n);
      InsertNodeMembers(front, n);
      var r := InsertNode(front, n);
      forall i | 0 <= i < |r| ensures r[i].id <= last.id {
        assert r[i] in r;
      }
    }
  }

  /** Sorting reorders the nodes by id and loses none. */
  lemma {:induction false} SortNodesSorts(nodes: seq<Node>)
    ensures Ordered(SortNodes(nodes)) && multiset(SortNodes(nodes)) == multiset(nodes)
    ensures |SortNodes(nodes)| == |nodes|
  {
    if nodes != [] {
      var front, last := nodes[..|nodes| - 1], nodes[|nodes| - 1];
      SortNodesSorts(front);
      InsertNodeMembers(SortNodes(front), last);
      InsertNodeOrdered(SortNodes(front), last);
      assert nodes == front + [last];
    }
    assert |multiset(SortNodes(nodes))| == |SortNodes(nodes)| && |multiset(nodes)| == |nodes|;
  }

  predicate DistinctIds(nodes: seq<Node>) {
    forall i, j :: 0 <= i < j < |nodes| ==> nodes[i].id != nodes[j].id
  }

  /** The position of an id in the list from `i` on, or the mark of a node that is not there. */
  function IndexFrom(nodes: seq<Node>, id: NodeId, i: nat): nat
    decreases |nodes| - i
  {
    if i >= |nodes| then NON_CONSENSUS_NODE
    else if nodes[i].id == id then i
    else IndexFrom(nodes, id, i + 1)
  }

  function IndexOf(nodes: seq<Node>, id: NodeId): nat {
    IndexFrom(nodes, id, 0)
  }

  /** A member finds the first position with its id; everybody else gets the mark. */
  lemma {:induction false} IndexFromFinds(nodes: seq<Node>, id: NodeId, i: nat)
    requires i <= |nodes|
    ensures (exists k :: i <= k < |nodes| && nodes[k].id == id) ==>
      var n := IndexFrom(nodes, id, i);
      i <= n < |nodes| && nodes[n].id == id && forall k :: i <= k < n ==> nodes[k].id != id
    ensures (forall k :: i <= k < |nodes| ==> nodes[k].id != id) ==> IndexFrom(nodes, id, i) == NON_CONSENSUS_NODE
    decreases |nodes| - i
  {
    if i < |nodes| && nodes[i].id != id {
      IndexFromFinds(nodes, id, i + 1);
    }
  }

  lemma {:induction false} DistinctByMultiset(a: seq<Node>, b: seq<Node>)
    requires multiset(a) == multiset(b) && DistinctIds(a)
    ensures DistinctIds(b)
  {
    forall i, j | 0 <= i < j < |b| ensures b[i].id != b[j].id {
      if b[i] == b[j] {
        TwiceInMultiset(b, i, j);
        OnceInMultiset(a, b[i]);
        assert false;
      }
      assert b[i] in multiset(a) && b[j] in multiset(a);
      var k :| 0 <= k < |a| && a[k] == b[i];
      var l :| 0 <= l < |a| && a[l] == b[j];
      assert k != l;
    }
  }

  lemma TwiceInMultiset(b: seq<Node>, i: nat, j: nat)
    requires i < j < |b| && b[i] == b[j]
    ensures multiset(b)[b[i]] >= 2
  {
    assert b == b[..i] + [b[i]] + b[i + 1..j] + [b[j]] + b[j + 1..];
  }

  lemma {:induction false} OnceInMultiset(a: seq<Node>, n: Node)
    requires DistinctIds(a)
    ensures multiset(a)[n] <= 1
  {
    if a != [] {
      var front, last := a[..|a| - 1], a[|a| - 1];
      assert a == front + [last];
      OnceInMultiset(front, n);
      forall k | 0 <= k < |front| ensures front[k] != last {
        assert a[k].id != a[|a| - 1].id;
      }
      assert last !in front;
      assert multiset(front)[last] == 0;
    }
  }

  lemma SameLast(a: seq<Node>, b: seq<Node>)
    requires Ordered(a) && Ordered(b) && DistinctIds(a) && multiset(a) == multiset(b) && |a| == |b| > 0
    ensures a[|a| - 1] == b[|b| - 1]
  {
    var n := |a| - 1;
    assert a[n] in multiset(b) && b[n] in multiset(a);
    var k :| 0 <= k < |b| && b[k] == a[n];
    var l :| 0 <= l < |a| && a[l] == b[n];
    assert b[k].id <= b[n].id && a[l].id <= a[n].id;
  }

  lemma FrontMultiset(a: seq<Node>)
    requires |a| > 0
    ensures multiset(a) == multiset(a[..|a| - 1]) + multiset{a[|a| - 1]}
  {
    assert a == a[..|a| - 1] + [a[|a| - 1]];
  }

  lemma SameFront(a: seq<Node>, b: seq<Node>)
    requires Ordered(a) && Ordered(b) && DistinctIds(a) && multiset(a) == multiset(b) && |a| == |b| > 0
    ensures a[|a| - 1] == b[|b| - 1] && multiset(a[..|a| - 1]) == multiset(b[..|b| - 1])
  {
    SameLast(a, b);
    hide Ordered, DistinctIds;
    FrontMultiset(a);
    FrontMultiset(b);
    assert multiset(a[..|a| - 1]) == multiset(a) - multiset{a[|a| - 1]};
    assert multiset(b[..|b| - 1]) == multiset(b) - multiset{b[|b| - 1]};
  }

  lemma OrderedFront(a: seq<Node>)
    requires |a| > 0 && Ordered(a)
    ensures Ordered(a[..|a| - 1]) && (DistinctIds(a) ==> DistinctIds(a[..|a| - 1]))
  {
  }

  /** Two ordered lists of the same nodes with distinct ids are the same list. */
  lemma {:induction false} OrderedIsCanonical(a: seq<Node>, b: seq<Node>)
    requires Ordered(a) && Ordered(b) && DistinctIds(a) && multiset(a) == multiset(b)
    ensures a == b
  {
    assert |multiset(a)| == |a| && |multiset(b)| == |b|;
    hide Ordered, DistinctIds;
    if a != [] {
      var n := |a| - 1;
      SameFront(a, b);
      OrderedFront(a);
      OrderedFront(b);
      OrderedIsCanonical(a[..n], b[..n]);
      assert a == a[..n] + [a[n]] && b == b[..n] + [b[n]];
    }
  }

  /** Replicas that receive the same set of nodes in any order agree on the list, hence on the
      quorum, on every node's index and on the leader of every index in every view. */
  lemma {:induction false} NodeListCanonical(a: seq<Node>, b: seq<Node>)
    requires DistinctIds(a) && multiset(a) == multiset(b)
    ensures SortNodes(a) == SortNodes(b)
    ensures QuorumOf(SortNodes(a)) == QuorumOf(SortNodes(b))
    ensures forall id :: IndexOf(SortNodes(a), id) == IndexOf(SortNodes(b), id)
    ensures forall g: Cfg, h: Cfg, i, v ::
      g.nodes == SortNodes(a) && h.nodes == SortNodes(b) && g.period == h.period ==> g.LeaderIn(i, v) == h.LeaderIn(i, v)
  {
    hide Ordered, DistinctIds, SortNodes, IndexOf, QuorumOf;
    SortNodesSorts(a);
    SortNodesSorts(b);
    DistinctByMultiset(a, SortNodes(a));
    OrderedIsCanonical(SortNodes(a), SortNodes(b));
  }

  // ---- Sealing ----

  const INT64_MAX: int := 0x7fff_ffff_ffff_ffff

  /** An unsigned word assigned to a signed 64-bit variable. */
  function AsInt64(x: nat): int {
    var word := x % UINT64;
    if word <= INT64_MAX then word else word - UINT64
  }

  /** What the sealer was told: a range of blocks to seal, one block to seal in any case, or to
      drop what it sealed. */
  datatype SealEvent = Sealed(start: int, end: int) | Enforced(index: int) | Cleared

  /** The sealing marks of a replica. */
  datatype Seals = Seals(start: int, end: int, waitSeal: int, waitReseal: int, log: seq<SealEvent>)

  /** The last index of the leader period of `p`, but below the high watermark. */
  function RangeEnd(g: Cfg, p: nat): int {
    MinInt(AsInt64((p / g.period + 1) * g.period - 1), g.High() - 1)
  }

  function RangeStart(s: Seals, p: nat): int {
    MaxInt(s.end + 1, p)
  }

  predicate CanHandleNew(g: Cfg, s: Seals) {
    s.waitSeal <= g.committed.index && s.waitReseal <= g.committed.index
  }

  predicate MaySeal(g: Cfg, s: Seals, p: nat) {
    g.Leader(p) == g.self && CanHandleNew(g, s)
  }

  /** A range is handed out if something is left of it, and if transactions of other proposals
      are still being reset, only right behind the committed block. */
  predicate WillSeal(g: Cfg, s: Seals, p: nat, resetting: nat) {
    && MaySeal(g, s, p)
    && s.end < RangeEnd(g, p)
    && RangeStart(s, p) <= RangeEnd(g, p)
    && !(resetting > 0 && RangeStart(s, p) > g.committed.index + 1)
  }

  function Notify(g: Cfg, s: Seals, p: nat, enforce: bool, resetting: nat): Seals {
    if !MaySeal(g, s, p) then s
    else if enforce then
      s.(end := MaxInt(p, s.end), start := MinInt(p, s.start), log := s.log + [Enforced(p)])
    else if !WillSeal(g, s, p, resetting) then s
    else
      var first, last := RangeStart(s, p), RangeEnd(g, p);
      s.(start := first, end := last, log := s.log + [Sealed(first, last)])
  }

  function Clear(g: Cfg, s: Seals): Seals {
    s.(start := g.SealStart() - 1, end := g.SealStart() - 1, log := s.log + [Cleared])
  }

  lemma ClearAlike(g: Cfg, g': Cfg)
    requires g.SealStart() == g'.SealStart()
    ensures forall s :: Clear(g, s) == Clear(g', s)
  {
  }

  predicate MayRenotify(g: Cfg, index: int) {
    !(index >= g.High() || index < g.committed.index)
  }

  function Renotify(g: Cfg, s: Seals, index: int, resetting: nat): Seals
    requires 0 <= g.committed.index
  {
    if !MayRenotify(g, index) then s
    else Notify(g, s.(start := index - 1, end := index - 1, log := s.log + [Cleared]), index, false, resetting)
  }

  /** A changed node list and a changed leader period each make the sealer drop what it sealed. */
  function Adopted(g: Cfg, s: Seals, updated: bool, switched: bool): Seals {
    var s1 := if updated then Clear(g, s) else s;
    if switched then Clear(g, s1) else s1
  }

  /** The highest index of some proposals, or `floor` if none is above it. */
  function HighestIndex(ms: seq<Msg>, floor: int): int {
    if ms == [] then floor else MaxInt(HighestIndex(ms[..|ms| - 1], floor), ms[|ms| - 1].index)
  }

  lemma {:induction false} HighestIndexIs(ms: seq<Msg>, floor: int)
    ensures HighestIndex(ms, floor) >= floor && forall m :: m in ms ==> m.index <= HighestIndex(ms, floor)
    ensures HighestIndex(ms, floor) == floor || exists m :: m in ms && m.index == HighestIndex(ms, floor)
  {
    if ms != [] {
      HighestIndexIs(ms[..|ms| - 1], floor);
      assert ms == ms[..|ms| - 1] + [ms[|ms| - 1]];
    }
  }

  /** After a new view: drop what was sealed, and wait until the proposals of the new view are
      committed, or start afresh if there are none. */
  function AfterNewView(g: Cfg, s: Seals, ms: seq<Msg>, resetting: nat): Seals
    requires 0 <= g.committed.index
  {
    var last := HighestIndex(ms, g.committed.index);
    if ms != [] then Clear(g, s).(waitReseal := last) else Renotify(g, Clear(g, s), last + 1, resetting)
  }

  /** Hand out the blocks held back until block `number`, and then the next range. */
  function Resealed(g: Cfg, s: Seals, number: int, resetting: nat): Seals
    requires 0 <= g.committed.index
  {
    var first := g.SealStart();
    var s1 := if s.waitReseal == number then Renotify(g, s, MaxInt(first, s.waitReseal + 1), resetting) else s;
    Notify(g, s1, first, false, resetting)
  }

  lemma MulMonotone(a: int, b: int, d: nat)
    requires a <= b
    ensures a * d <= b * d
  {
  }

  lemma QuotientIs(i: nat, d: nat, q: nat)
    requires d > 0 && q * d <= i < (q + 1) * d
    ensures i / d == q
  {
    var k := i / d;
    assert k * d <= i < (k + 1) * d;
    if k < q {
      MulMonotone(k + 1, q, d);
    }
    if q < k {
      MulMonotone(q + 1, k, d);
    }
  }

  lemma Floored(p: nat, d: nat) returns (q: nat)
    requires d > 0
    ensures q == p / d && q * d <= p
  {
    q := p / d;
    assert p == q * d + p % d;
  }

  lemma SamePeriod(p: nat, i: nat, period: Period)
    requires p <= i < (p / period + 1) * period
    ensures i / period == p / period
  {
    var q := Floored(p, period);
    assert i < (q + 1) * period;
    QuotientIs(i, period, q);
  }

  lemma SamePeriodSameLeader(g: Cfg, p: nat, i: nat)
    requires p <= i < (p / g.period + 1) * g.period && i < UINT64
    ensures g.Leader(i) == g.Leader(p)
  {
    SamePeriod(p, i, g.period);
    SameTurn(g, p, i);
  }

  lemma SameTurn(g: Cfg, p: nat, i: nat)
    requires p < UINT64 && i < UINT64 && p / g.period == i / g.period
    ensures g.Leader(i) == g.Leader(p)
  {
    assert p % UINT64 == p && i % UINT64 == i;
  }

  lemma RangeEndBound(g: Cfg, p: nat)
    ensures RangeEnd(g, p) < (p / g.period + 1) * g.period && RangeEnd(g, p) < g.High()
  {
    MulMonotone(1, p / g.period + 1, g.period);
    var top := (p / g.period + 1) * g.period;
    assert AsInt64(top - 1) <= top - 1;
  }

  /** Every range handed to the sealer starts at or after the requested index, is not empty,
      ends below the high watermark and is led by this node throughout, for every period, view
      and number of nodes. */
  lemma SealedRangeIsLed(g: Cfg, s: Seals, p: nat, resetting: nat)
    requires WillSeal(g, s, p, resetting) && g.High() <= INT64_MAX
    ensures var first, last := RangeStart(s, p), RangeEnd(g, p);
      && p <= first <= last < g.High()
      && s.end < first
      && forall i :: first <= i <= last ==> g.Leader(i) == g.self
  {
    RangeEndBound(g, p);
    hide Cfg.LeaderIn, RangeEnd;
    forall i | RangeStart(s, p) <= i <= RangeEnd(g, p) ensures g.Leader(i) == g.self {
      SamePeriodSameLeader(g, p, i);
    }
  }

  /** What is left to hand out of the leader period of `p`: at or above `p`, above what was handed out,
      in the same period and below the high watermark. */
  predicate Left(g: Cfg, s: Seals, p: nat, i: int) {
    p <= i < g.High() && s.end < i && i / g.period == p / g.period
  }

  lemma BelowNext(i: nat, d: nat)
    requires d > 0
    ensures i < (i / d + 1) * d
  {
    var q := Floored(i, d);
    assert (q + 1) * d == q * d + d;
  }

  lemma SamePeriodIff(p: nat, i: nat, period: Period)
    requires p <= i
    ensures i / period == p / period <==> i < (p / period + 1) * period
  {
    if i < (p / period + 1) * period {
      SamePeriod(p, i, period);
    } else {
      BelowNext(i, period);
    }
  }

  lemma EndIs(g: Cfg, p: nat, top: nat)
    requires top == (p / g.period + 1) * g.period && 0 < top <= INT64_MAX
    ensures RangeEnd(g, p) == MinInt(top - 1, g.High() - 1)
  {
  }

  lemma TopFacts(q: nat, period: Period, top: nat)
    requires top == (q + 1) * period
    ensures 0 < top && top / period == q + 1
  {
    MulMonotone(1, q + 1, period);
    assert (q + 2) * period == top + period;
    QuotientIs(top, period, q + 1);
  }

  lemma PeriodTop(g: Cfg, p: nat) returns (top: nat)
    requires (p / g.period + 1) * g.period <= INT64_MAX
    ensures top == (p / g.period + 1) * g.period && RangeEnd(g, p) == MinInt(top - 1, g.High() - 1)
    ensures top / g.period == p / g.period + 1
  {
    hide RangeEnd;
    var q := p / g.period;
    top := (q + 1) * g.period;
    TopFacts(q, g.period, top);
    EndIs(g, p, top);
  }

  lemma RangeIsLeft(g: Cfg, s: Seals, p: nat, i: int)
    requires (p / g.period + 1) * g.period <= INT64_MAX
    ensures Left(g, s, p, i) <==> RangeStart(s, p) <= i <= RangeEnd(g, p)
  {
    hide RangeEnd;
    var top := PeriodTop(g, p);
    if p <= i {
      SamePeriodIff(p, i, g.period);
    }
  }

  /** A request hands out a range exactly if this node leads the index, no hold lasts, something is left
      of its period, and while transactions are being reset the range starts right behind the committed
      block. The range is then all that is left; it reaches the end of the period or the high
      watermark. Any other request changes nothing. */
  lemma SealExact(g: Cfg, s: Seals, p: nat, resetting: nat)
    requires (p / g.period + 1) * g.period <= INT64_MAX
    ensures var s' := Notify(g, s, p, false, resetting);
      if && ((p % UINT64) / g.period + g.view) % |g.nodes| == g.self
         && s.waitSeal <= g.committed.index && s.waitReseal <= g.committed.index
         && (exists i :: Left(g, s, p, i))
         && (resetting > 0 ==> MaxInt(s.end + 1, p) <= g.committed.index + 1)
      then
        && s' == s.(start := s'.start, end := s'.end, log := s.log + [Sealed(s'.start, s'.end)])
        && (forall i :: Left(g, s, p, i) <==> s'.start <= i <= s'.end)
        && (s'.end + 1 == g.High() || (s'.end + 1) / g.period == p / g.period + 1)
      else s' == s
  {
    hide Cfg.LeaderIn, RangeEnd, RangeStart, Left;
    forall i ensures Left(g, s, p, i) <==> RangeStart(s, p) <= i <= RangeEnd(g, p) {
      RangeIsLeft(g, s, p, i);
    }
    EndReached(g, p);
    StartAbove(g, s, p);
    LeaderOf(g, p);
    if RangeStart(s, p) <= RangeEnd(g, p) {
      assert Left(g, s, p, RangeEnd(g, p));
    }
  }

  /** An enforced request tells the sealer of that one index under the same conditions on leader and
      holds, and widens what counts as handed out to it. */
  lemma EnforceExact(g: Cfg, s: Seals, p: nat, resetting: nat)
    ensures Notify(g, s, p, true, resetting) ==
      if ((p % UINT64) / g.period + g.view) % |g.nodes| == g.self
         && s.waitSeal <= g.committed.index && s.waitReseal <= g.committed.index
      then s.(start := MinInt(p, s.start), end := MaxInt(p, s.end), log := s.log + [Enforced(p)])
      else s
  {
    hide Cfg.LeaderIn, WillSeal;
    LeaderOf(g, p);
  }

  lemma LeaderOf(g: Cfg, p: nat)
    ensures g.Leader(p) == ((p % UINT64) / g.period + g.view) % |g.nodes|
  {
  }

  lemma StartAbove(g: Cfg, s: Seals, p: nat)
    ensures RangeStart(s, p) == MaxInt(s.end + 1, p)
  {
  }

  lemma EndReached(g: Cfg, p: nat)
    requires (p / g.period + 1) * g.period <= INT64_MAX
    ensures RangeEnd(g, p) + 1 == g.High() || (RangeEnd(g, p) + 1) / g.period == p / g.period + 1
  {
    hide RangeEnd;
    var top := PeriodTop(g, p);
  }

  /** The end of a period that does not fit a signed word wraps to a negative index, and nothing is
      handed out. */
  lemma WrappedSealsNothing(g: Cfg, s: Seals, p: nat, resetting: nat)
    requires INT64_MAX < (p / g.period + 1) * g.period - 1 < UINT64
    ensures Notify(g, s, p, false, resetting) == s
  {
    hide Cfg.LeaderIn;
    var top := (p / g.period + 1) * g.period;
    assert (top - 1) % UINT64 == top - 1;
  }

  /** After a reset the sealer starts again at the first index that is neither committed nor executed. */
  lemma ResetStarts(g: Cfg, s: Seals, i: int)
    ensures var first := MaxInt(g.expected, g.committed.index + 1); var s' := Clear(g, s);
      && s' == s.(start := s'.start, end := s'.end, log := s.log + [Cleared])
      && forall p: nat :: p <= first ==> (Left(g, s', p, i) <==> first <= i < g.High() && i / g.period == p / g.period)
  {
  }

  /** A renewal starts afresh exactly for an index from the committed one on and below the high
      watermark: what was handed out is dropped, and the index is requested as if nothing before it was
      left. */
  lemma RenewExact(g: Cfg, s: Seals, index: nat, resetting: nat)
    requires 0 <= g.committed.index
    ensures var s1 := s.(start := index - 1, end := index - 1, log := s.log + [Cleared]);
      Renotify(g, s, index, resetting) ==
        if g.committed.index <= index < g.High() then Notify(g, s1, index, false, resetting) else s
  {
    hide Notify;
  }

  /** A hold that ends with block `number` is released by it: the sealer drops what it had and is asked
      for the blocks behind it. */
  lemma HoldReleased(g: Cfg, s: Seals, number: int, resetting: nat)
    requires 0 <= g.committed.index
    ensures var first := MaxInt(g.expected, g.committed.index + 1); var next := MaxInt(first, number + 1);
      var s1 := s.(start := next - 1, end := next - 1, log := s.log + [Cleared]);
      Resealed(g, s, number, resetting) ==
        if s.waitReseal == number && next < g.High()
        then Notify(g, Notify(g, s1, next, false, resetting), first, false, resetting)
        else Notify(g, s, first, false, resetting)
  {
    hide Notify;
  }

  /** After a new view nothing is handed out until its highest proposal is committed; a new view without
      proposals makes the sealer start again behind the committed block. */
  lemma NewViewSeals(g: Cfg, s: Seals, ms: seq<Msg>, resetting: nat)
    requires 0 <= g.committed.index
    ensures var s' := AfterNewView(g, s, ms, resetting);
      if ms == [] then s' == Renotify(g, Clear(g, s), g.committed.index + 1, resetting)
      else
        && s' == Clear(g, s).(waitReseal := s'.waitReseal)
        && s'.waitReseal >= g.committed.index && (forall m :: m in ms ==> m.index <= s'.waitReseal)
        && (s'.waitReseal == g.committed.index || exists m :: m in ms && m.index == s'.waitReseal)
  {
    hide Renotify, Clear;
    HighestIndexIs(ms, g.committed.index);
  }

  /** Changed nodes and a changed leader period each reset the sealer, and nothing else does. */
  lemma AdoptionResets(g: Cfg, s: Seals, updated: bool, switched: bool)
    ensures var first := MaxInt(g.expected, g.committed.index + 1);
      Adopted(g, s, updated, switched) ==
        if !updated && !switched then s
        else s.(start := first - 1, end := first - 1,
                log := s.log + (if updated && switched then [Cleared, Cleared] else [Cleared]))
  {
    assert s.log + [Cleared] + [Cleared] == s.log + [Cleared, Cleared];
  }

  /** No reset between two positions of the log. */
  ghost predicate Uncleared(log: seq<SealEvent>, j: int, k: int) {
    forall m :: j < m < k && 0 <= m < |log| ==> !log[m].Cleared?
  }

  /** Ranges between two resets are disjoint and increasing, and the end mark bounds those
      since the last reset. */
  ghost predicate SealsOk(s: Seals) {
    && (forall j, k :: 0 <= j < k < |s.log| && s.log[j].Sealed? && s.log[k].Sealed? && Uncleared(s.log, j, k) ==>
          s.log[j].end < s.log[k].start)
    && (forall j :: 0 <= j < |s.log| && s.log[j].Sealed? && Uncleared(s.log, j, |s.log|) ==> s.log[j].end <= s.end)
  }

  lemma SealsGrow(s: Seals, s': Seals, e: SealEvent)
    requires SealsOk(s) && s'.log == s.log + [e]
    requires e.Sealed? ==> s.end < e.start && e.end <= s'.end
    requires !e.Cleared? ==> s.end <= s'.end
    ensures SealsOk(s')
  {
    forall j, k | 0 <= j < k < |s'.log| && s'.log[j].Sealed? && s'.log[k].Sealed? && Uncleared(s'.log, j, k)
      ensures s'.log[j].end < s'.log[k].start
    {
      assert forall m :: 0 <= m < |s.log| ==> s'.log[m] == s.log[m];
      assert Uncleared(s.log, j, k);
    }
    forall j | 0 <= j < |s'.log| && s'.log[j].Sealed? && Uncleared(s'.log, j, |s'.log|)
      ensures s'.log[j].end <= s'.end
    {
      if j < |s.log| {
        assert !s'.log[|s.log|].Cleared?;
        assert forall m :: 0 <= m < |s.log| ==> s'.log[m] == s.log[m];
        assert Uncleared(s.log, j, |s.log|);
      }
    }
  }

  /** Successive ranges stay disjoint and increasing, whatever is requested in whatever state
      of the watermarks; enforced notifications and resets included. */
  lemma NotifyKeeps(g: Cfg, s: Seals, p: nat, enforce: bool, resetting: nat)
    requires SealsOk(s)
    ensures SealsOk(Notify(g, s, p, enforce, resetting))
  {
    hide SealsOk, RangeEnd, CanHandleNew;
    var s' := Notify(g, s, p, enforce, resetting);
    if MaySeal(g, s, p) && enforce {
      SealsGrow(s, s', Enforced(p));
    } else if WillSeal(g, s, p, resetting) {
      SealsGrow(s, s', Sealed(RangeStart(s, p), RangeEnd(g, p)));
    }
  }

  lemma ClearKeeps(g: Cfg, s: Seals)
    requires SealsOk(s)
    ensures SealsOk(Clear(g, s))
  {
    SealsGrow(s, Clear(g, s), Cleared);
  }

  lemma RenotifyKeeps(g: Cfg, s: Seals, index: int, resetting: nat)
    requires SealsOk(s) && 0 <= g.committed.index
    ensures SealsOk(Renotify(g, s, index, resetting))
  {
    if MayRenotify(g, index) {
      var s1 := s.(start := index - 1, end := index - 1, log := s.log + [Cleared]);
      SealsGrow(s, s1, Cleared);
      NotifyKeeps(g, s1, index, false, resetting);
    }
  }

  /** What renewing the notification for `index` appends to the log, besides the reset. */
  ghost predicate Renewed(g: Cfg, s: Seals, index: int, resetting: nat, e: SealEvent)
    requires 0 <= g.committed.index
  {
    Renotify(g, s, index, resetting).log == s.log + [Cleared, e]
  }

  /** A renewed range starts exactly at the given index; the guard admits the committed index
      itself, so the range starts at or after the progressed index exactly when the index
      given is not the committed one. */
  lemma RenewedStart(g: Cfg, s: Seals, index: int, resetting: nat, e: SealEvent)
    requires 0 <= g.committed.index && g.progressed == g.committed.index + 1
    requires Renewed(g, s, index, resetting, e)
    ensures e.Sealed? && e.start == index
    ensures e.start >= g.progressed <==> index != g.committed.index
  {
    var cleared := s.log + [Cleared];
    assert s.log + [Cleared, e] == cleared + [e];
    assert |Renotify(g, s, index, resetting).log| == |s.log| + 2;
    assert (s.log + [Cleared, e])[|s.log| + 1] == e;
  }

  /** The admitted committed index does occur: a lone node with period 1 whose block 5 is
      committed is asked to seal block 5 again when a pending renewal names it. */
  lemma RenewedBelowProgress(g: Cfg, s: Seals)
    requires |g.nodes| == 1 && g.self == 0 && g.period == 1 && g.limit == 10
    requires g.committed.index == 5 && g.progressed == 6
    requires s.waitSeal == s.waitReseal == 0
    ensures Renewed(g, s, 5, 0, Sealed(5, 5)) && 5 < g.progressed
  {
    var s1 := s.(start := 4, end := 4, log := s.log + [Cleared]);
    assert (5 / g.period + 1) * g.period - 1 == 5;
    assert RangeEnd(g, 5) == 5;
    assert Renotify(g, s, 5, 0).log == s.log + [Cleared] + [Sealed(5, 5)];
    assert s.log + [Cleared] + [Sealed(5, 5)] == s.log + [Cleared, Sealed(5, 5)];
  }

  // ---- Whole runs ----

  /** What can happen between the replica and its sealer; everything else of the replica may
      move in between. */
  datatype SealOp =
    | Ask(p: nat, enforce: bool, resetting: nat)
    | Renew(index: int, resetting: nat)
    | Drop
    | HoldSeal(index: int)
    | HoldReseal(index: int)
    | Move(later: Cfg)

  predicate Allowed(g: Cfg) {
    0 <= g.committed.index && g.progressed == g.committed.index + 1 && g.High() <= INT64_MAX
  }

  /** A request for an uncommitted block. */
  predicate Ahead(g: Cfg, op: SealOp) {
    (op.Ask? ==> op.p >= g.progressed) && (op.Renew? ==> op.index != g.committed.index)
  }

  function AfterOp(g: Cfg, s: Seals, op: SealOp): (Cfg, Seals)
    requires Allowed(g)
  {
    match op
    case Ask(p, enforce, resetting) => (g, Notify(g, s, p, enforce, resetting))
    case Renew(index, resetting) => (g, Renotify(g, s, index, resetting))
    case Drop => (g, Clear(g, s))
    case HoldSeal(index) => (g, s.(waitSeal := MaxInt(s.waitSeal, index)))
    case HoldReseal(index) => (g, s.(waitReseal := index))
    case Move(later) => (later, s)
  }

  ghost predicate IsSealRun(run: seq<(Cfg, Seals)>, ops: seq<SealOp>) {
    && |run| == |ops| + 1
    && forall k :: 0 <= k < |ops| ==> Allowed(run[k].0) && run[k + 1] == AfterOp(run[k].0, run[k].1, ops[k])
  }

  /** A range below the high watermark that is led by this node throughout, of uncommitted blocks
      if the request was ahead. */
  ghost predicate RangeOk(g: Cfg, ahead: bool, e: SealEvent) {
    e.Sealed? ==>
      && e.start <= e.end < g.High()
      && (ahead ==> g.progressed <= e.start)
      && forall i :: e.start <= i <= e.end ==> g.Leader(i) == g.self
  }

  /** Every event from position `n` of the log on is as it should be. */
  ghost predicate NewOk(g: Cfg, ahead: bool, log: seq<SealEvent>, n: nat) {
    forall j :: n <= j < |log| ==> RangeOk(g, ahead, log[j])
  }

  lemma NotifyIsOk(g: Cfg, s: Seals, p: nat, enforce: bool, resetting: nat)
    requires g.High() <= INT64_MAX
    ensures NewOk(g, p >= g.progressed, Notify(g, s, p, enforce, resetting).log, |s.log|)
  {
    hide Cfg.LeaderIn, RangeEnd, CanHandleNew;
    if WillSeal(g, s, p, resetting) {
      SealedRangeIsLed(g, s, p, resetting);
    }
  }

  lemma RenotifyIsOk(g: Cfg, s: Seals, index: int, resetting: nat)
    requires Allowed(g)
    ensures NewOk(g, index != g.committed.index, Renotify(g, s, index, resetting).log, |s.log|)
  {
    hide Notify, Cfg.LeaderIn;
    if MayRenotify(g, index) {
      NotifyIsOk(g, s.(start := index - 1, end := index - 1, log := s.log + [Cleared]), index, false, resetting);
      RenewedLog(g, s, index, resetting);
    }
  }

  lemma OpIsOk(g: Cfg, s: Seals, op: SealOp)
    requires Allowed(g) && SealsOk(s)
    ensures SealsOk(AfterOp(g, s, op).1) && NewOk(g, Ahead(g, op), AfterOp(g, s, op).1.log, |s.log|)
  {
    hide Notify, Renotify, Cfg.LeaderIn;
    match op {
      case Ask(p, enforce, resetting) =>
        NotifyKeeps(g, s, p, enforce, resetting);
        NotifyIsOk(g, s, p, enforce, resetting);
      case Renew(index, resetting) =>
        RenotifyKeeps(g, s, index, resetting);
        RenotifyIsOk(g, s, index, resetting);
      case Drop => ClearKeeps(g, s);
      case _ =>
    }
  }

  lemma RenewedLog(g: Cfg, s: Seals, index: int, resetting: nat)
    requires 0 <= g.committed.index && MayRenotify(g, index)
    ensures var log := Renotify(g, s, index, resetting).log; |log| > |s.log| && log[|s.log|] == Cleared
  {
  }

  /** In every run, whatever is requested and whatever happens to watermarks, views, period and
      nodes in between: each range handed to the sealer ends below the high watermark, is led by
      this node at that moment, and holds uncommitted blocks if the request was for such; and
      ranges between two resets are disjoint and increasing. */
  lemma {:induction false} SealRunOk(run: seq<(Cfg, Seals)>, ops: seq<SealOp>, k: nat)
    requires IsSealRun(run, ops) && SealsOk(run[0].1) && k < |run|
    ensures SealsOk(run[k].1)
    ensures k < |ops| ==> NewOk(run[k].0, Ahead(run[k].0, ops[k]), run[k + 1].1.log, |run[k].1.log|)
  {
    hide SealsOk, NewOk, AfterOp, Allowed, Ahead;
    if k > 0 {
      SealRunOk(run, ops, k - 1);
      OpIsOk(run[k - 1].0, run[k - 1].1, ops[k - 1]);
    }
    if k < |ops| {
      OpIsOk(run[k].0, run[k].1, ops[k]);
    }
  }

  /** Nothing is handed out: what the log gained are resets. */
  ghost predicate NothingHanded(log: seq<SealEvent>, n: nat) {
    n <= |log| && forall j :: n <= j < |log| ==> log[j] == Cleared
  }

  lemma HeldBack(g: Cfg, s: Seals, op: SealOp)
    requires Allowed(g) && !CanHandleNew(g, s)
    ensures NothingHanded(AfterOp(g, s, op).1.log, |s.log|)
  {
    hide Cfg.LeaderIn, WillSeal;
  }

  /** A hold on sealing lasts until the block it names is committed: until then the sealer is
      given nothing, enforced requests and renewals included. */
  lemma {:induction false} SealingIsHeld(run: seq<(Cfg, Seals)>, ops: seq<SealOp>, j: nat, k: nat)
    requires IsSealRun(run, ops) && j < k < |ops| && ops[j].HoldSeal?
    requires forall m :: j < m <= k ==> run[m].0.committed.index < ops[j].index
    ensures NothingHanded(run[k + 1].1.log, |run[k].1.log|)
  {
    HoldGrows(run, ops, j, k);
    hide NothingHanded, AfterOp;
    HeldBack(run[k].0, run[k].1, ops[k]);
  }

  lemma {:induction false} HoldGrows(run: seq<(Cfg, Seals)>, ops: seq<SealOp>, j: nat, k: nat)
    requires IsSealRun(run, ops) && j < k <= |ops| && ops[j].HoldSeal?
    ensures run[k].1.waitSeal >= ops[j].index
  {
    assert run[k] == AfterOp(run[k - 1].0, run[k - 1].1, ops[k - 1]);
    if k - 1 > j {
      HoldGrows(run, ops, j, k - 1);
    }
    MarksStay(run[k - 1].0, run[k - 1].1, ops[k - 1]);
  }

  /** Only a hold moves its mark. */
  lemma MarksStay(g: Cfg, s: Seals, op: SealOp)
    requires Allowed(g)
    ensures var s' := AfterOp(g, s, op).1;
      && s'.waitSeal == (if op.HoldSeal? then MaxInt(s.waitSeal, op.index) else s.waitSeal)
      && s'.waitReseal == (if op.HoldReseal? then op.index else s.waitReseal)
  {
    hide MaySeal, WillSeal, RangeEnd;
  }

  /** The same for the hold that a new view puts on sealing, unless another one replaces it. */
  lemma {:induction false} ResealingIsHeld(run: seq<(Cfg, Seals)>, ops: seq<SealOp>, j: nat, k: nat)
    requires IsSealRun(run, ops) && j < k < |ops| && ops[j].HoldReseal?
    requires forall m :: j < m <= k ==> run[m].0.committed.index < ops[j].index
    requires forall m :: j < m < k ==> !ops[m].HoldReseal?
    ensures NothingHanded(run[k + 1].1.log, |run[k].1.log|)
  {
    ResealHoldStays(run, ops, j, k);
    hide NothingHanded, AfterOp;
    HeldBack(run[k].0, run[k].1, ops[k]);
  }

  lemma {:induction false} ResealHoldStays(run: seq<(Cfg, Seals)>, ops: seq<SealOp>, j: nat, k: nat)
    requires IsSealRun(run, ops) && j < k <= |ops| && ops[j].HoldReseal?
    requires forall m :: j < m < k ==> !ops[m].HoldReseal?
    ensures run[k].1.waitReseal == ops[j].index
  {
    assert run[k] == AfterOp(run[k - 1].0, run[k - 1].1, ops[k - 1]);
    if k - 1 > j {
      ResealHoldStays(run, ops, j, k - 1);
    }
    MarksStay(run[k - 1].0, run[k - 1].1, ops[k - 1]);
  }
}
