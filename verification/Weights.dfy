/** Weighted quorums: the arithmetic of `PBFTConfig::updateQuorum` and what it guarantees
    about sets of senders. */
module Weights {
  import opened Types

  const UINT64: int := 0x1_0000_0000_0000_0000

  /** The weight of the members of `s` among the first `k` nodes. */
  function WeightUpTo(nodes: seq<Node>, s: set<nat>, k: nat): nat
    requires k <= |nodes|
  {
    if k == 0 then 0
    else WeightUpTo(nodes, s, k - 1) + if k - 1 in s then nodes[k - 1].weight else 0
  }

  /** The total weight of a set of node indices; an index with no node weighs nothing. */
  function Weight(nodes: seq<Node>, s: set<nat>): nat {
    WeightUpTo(nodes, s, |nodes|)
  }

  function Total(nodes: seq<Node>): nat {
    if nodes == [] then 0 else Total(nodes[..|nodes| - 1]) + nodes[|nodes| - 1].weight
  }

  predicate HasNode(nodes: seq<Node>, n: nat) {
    n < |nodes|
  }

  function All(nodes: seq<Node>): set<nat> {
    set n: nat | n < |nodes| && HasNode(nodes, n)
  }

  lemma {:induction false} WeightPrefix(nodes: seq<Node>, more: seq<Node>, s: set<nat>, k: nat)
    requires k <= |nodes| <= |more| && nodes == more[..|nodes|]
    ensures WeightUpTo(nodes, s, k) == WeightUpTo(more, s, k)
  {
    if k > 0 {
      WeightPrefix(nodes, more, s, k - 1);
    }
  }

  lemma {:induction false} WeightAddUpTo(nodes: seq<Node>, s: set<nat>, n: nat, k: nat)
    requires k <= |nodes| && n !in s
    ensures WeightUpTo(nodes, s + {n}, k)
         == WeightUpTo(nodes, s, k) + if n < k then nodes[n].weight else 0
  {
    if k > 0 {
      WeightAddUpTo(nodes, s, n, k - 1);
    }
  }

  /** Counting one more distinct sender adds exactly its weight. */
  lemma WeightAdd(nodes: seq<Node>, s: set<nat>, n: nat)
    requires n !in s
    ensures Weight(nodes, s + {n}) == Weight(nodes, s) + if n < |nodes| then nodes[n].weight else 0
  {
    WeightAddUpTo(nodes, s, n, |nodes|);
  }

  lemma {:induction false} WeightEmpty(nodes: seq<Node>, k: nat)
    requires k <= |nodes|
    ensures WeightUpTo(nodes, {}, k) == 0
  {
    if k > 0 {
      WeightEmpty(nodes, k - 1);
    }
  }

  lemma WeightOfNone(nodes: seq<Node>)
    ensures Weight(nodes, {}) == 0
  {
    WeightEmpty(nodes, |nodes|);
  }

  lemma {:induction false} InclusionExclusion(nodes: seq<Node>, a: set<nat>, b: set<nat>, k: nat)
    requires k <= |nodes|
    ensures WeightUpTo(nodes, a, k) + WeightUpTo(nodes, b, k)
         == WeightUpTo(nodes, a + b, k) + WeightUpTo(nodes, a * b, k)
  {
    if k > 0 {
      InclusionExclusion(nodes, a, b, k - 1);
    }
  }

  lemma {:induction false} WeightMonotone(nodes: seq<Node>, a: set<nat>, b: set<nat>, k: nat)
    requires k <= |nodes|
    requires forall n: nat :: n < |nodes| && n in a ==> n in b
    ensures WeightUpTo(nodes, a, k) <= WeightUpTo(nodes, b, k)
  {
    if k > 0 {
      WeightMonotone(nodes, a, b, k - 1);
    }
  }

  lemma {:induction false} WeightOfAll(nodes: seq<Node>)
    ensures Weight(nodes, All(nodes)) == Total(nodes)
  {
    if nodes != [] {
      var front := nodes[..|nodes| - 1];
      WeightOfAll(front);
      WeightPrefix(front, nodes, All(nodes), |front|);
      WeightMonotone(front, All(nodes), All(front), |front|);
      WeightMonotone(front, All(front), All(nodes), |front|);
    }
  }

  lemma {:induction false} WeightAtMostTotal(nodes: seq<Node>, s: set<nat>)
    ensures Weight(nodes, s) <= Total(nodes)
  {
    WeightMonotone(nodes, s, All(nodes), |nodes|);
    WeightOfAll(nodes);
  }

  // ---- Lists of nodes ----

  /** The weight of a list, each entry counted. */
  function Sum(nodes: seq<Node>, ks: seq<nat>): nat {
    if ks == [] then 0
    else
      var last := ks[|ks| - 1];
      Sum(nodes, ks[..|ks| - 1]) + if last < |nodes| then nodes[last].weight else 0
  }

  function Members(ks: seq<nat>): set<nat> {
    set k | k in ks
  }

  /** A node that is listed again weighs nothing. */
  predicate RepeatsWeighNothing(nodes: seq<Node>, ks: seq<nat>) {
    forall i, j :: 0 <= i < j < |ks| && ks[i] == ks[j] && ks[j] < |nodes| ==> nodes[ks[j]].weight == 0
  }

  /** Counting entries never gives less than counting nodes, and gives the same exactly if no
      node that is listed twice has weight. */
  lemma {:induction false} SumIsWeight(nodes: seq<Node>, ks: seq<nat>)
    ensures Sum(nodes, ks) >= Weight(nodes, Members(ks))
    ensures Sum(nodes, ks) == Weight(nodes, Members(ks)) <==> RepeatsWeighNothing(nodes, ks)
  {
    hide Weight, RepeatsWeighNothing;
    if ks == [] {
      assert Members(ks) == {};
      WeightOfNone(nodes);
      NoRepeats(nodes);
    } else {
      var front, last := ks[..|ks| - 1], ks[|ks| - 1];
      SumIsWeight(nodes, front);
      RepeatsOf(nodes, ks);
      assert ks == front + [last];
      assert Members(ks) == Members(front) + {last};
      if last !in front {
        WeightAdd(nodes, Members(front), last);
      } else {
        assert Members(ks) == Members(front);
      }
    }
  }

  lemma NoRepeats(nodes: seq<Node>)
    ensures RepeatsWeighNothing(nodes, [])
  {
  }

  lemma RepeatsOf(nodes: seq<Node>, ks: seq<nat>)
    requires ks != []
    ensures var front, last := ks[..|ks| - 1], ks[|ks| - 1];
      RepeatsWeighNothing(nodes, ks) <==>
        RepeatsWeighNothing(nodes, front) && (last in front && last < |nodes| ==> nodes[last].weight == 0)
  {
  }

  /** `m_maxFaultyQuorum` as computed on 64-bit unsigned words from the total weight. */
  function MaxFaulty(total: nat): nat {
    if total == 0 then (UINT64 - 1) / 3 else (total - 1) / 3
  }

  /** `m_minRequiredQuorum` as computed on 64-bit unsigned words. */
  function MinQuorum(total: nat): nat {
    (total - MaxFaulty(total)) % UINT64
  }

  /** The weight a set of voters needs. */
  function QuorumOf(nodes: seq<Node>): nat {
    MinQuorum(Total(nodes))
  }

  /** The quorum is well chosen exactly when some node carries weight: with a total of zero
      the subtraction wraps around and the required weight can never be collected. Otherwise
      the tolerated weight is the largest `f` with `3f + 1 <= total`, and the quorum the rest. */
  lemma QuorumArithmetic(total: nat)
    requires total < UINT64
    ensures 3 * MaxFaulty(total) + 1 <= total <==> total >= 1
    ensures total >= 1 ==> 3 * MaxFaulty(total) + 1 <= total <= 3 * MaxFaulty(total) + 3
    ensures total == 0 ==> MinQuorum(total) > total
    ensures MinQuorum(total) <= total <==> total >= 1
    ensures total >= 1 ==> MinQuorum(total) == total - MaxFaulty(total) >= 2 * MaxFaulty(total) + 1
    ensures total >= 1 ==> 2 * MinQuorum(total) >= total + MaxFaulty(total) + 1
  {
  }

  /** No set of unknown senders ever reaches the quorum. */
  lemma {:induction false} QuorumIsPositive(nodes: seq<Node>)
    requires Total(nodes) < UINT64
    ensures 0 < QuorumOf(nodes)
  {
    hide Total;
  }

  /** Any two sender sets that reach the quorum share more weight than faulty nodes can have. */
  lemma {:induction false} QuorumsOverlap(nodes: seq<Node>, a: set<nat>, b: set<nat>)
    requires 1 <= Total(nodes) < UINT64
    requires Weight(nodes, a) >= QuorumOf(nodes)
    requires Weight(nodes, b) >= QuorumOf(nodes)
    ensures Weight(nodes, a * b) >= MaxFaulty(Total(nodes)) + 1
  {
    InclusionExclusion(nodes, a, b, |nodes|);
    WeightAtMostTotal(nodes, a + b);
    QuorumArithmetic(Total(nodes));
  }

  /** The nodes outside any set of tolerable weight still reach the quorum. */
  lemma {:induction false} RestIsQuorum(nodes: seq<Node>, faulty: set<nat>)
    requires 1 <= Total(nodes) < UINT64
    requires Weight(nodes, faulty) <= MaxFaulty(Total(nodes))
    ensures Weight(nodes, All(nodes) - faulty) >= QuorumOf(nodes)
  {
    var rest := All(nodes) - faulty;
    InclusionExclusion(nodes, rest, faulty, |nodes|);
    assert rest * faulty == {};
    WeightEmpty(nodes, |nodes|);
    WeightMonotone(nodes, All(nodes), rest + faulty, |nodes|);
    WeightOfAll(nodes);
    QuorumArithmetic(Total(nodes));
  }

  /** More weight than the faulty nodes have includes a node that is not faulty. */
  lemma HonestMember(nodes: seq<Node>, s: set<nat>, faulty: set<nat>) returns (n: nat)
    requires Weight(nodes, s) > Weight(nodes, faulty)
    ensures n in s && n < |nodes| && n !in faulty
  {
    if forall m: nat :: m < |nodes| && m in s ==> m in faulty {
      WeightMonotone(nodes, s, faulty, |nodes|);
      assert false;
    }
    n :| n in s && n < |nodes| && n !in faulty;
  }

  /** A node is in every quorum exactly if it weighs more than the faulty nodes may. */
  lemma {:induction false} InEveryQuorum(nodes: seq<Node>, b: nat)
    requires b < |nodes| && 1 <= Total(nodes) < UINT64
    ensures (forall q: set<nat> :: Weight(nodes, q) >= QuorumOf(nodes) ==> b in q)
      <==> nodes[b].weight > MaxFaulty(Total(nodes))
  {
    hide Weight, Total, QuorumOf, MaxFaulty;
    WeightOfNone(nodes);
    WeightAdd(nodes, {}, b);
    assert {} + {b} == {b};
    if nodes[b].weight <= MaxFaulty(Total(nodes)) {
      RestIsQuorum(nodes, {b});
    } else {
      forall q: set<nat> | Weight(nodes, q) >= QuorumOf(nodes) ensures b in q {
        if b !in q {
          WeightAdd(nodes, q, b);
          WeightAtMostTotal(nodes, q + {b});
          QuorumAndFaulty(nodes);
        }
      }
    }
  }

  lemma {:induction false} QuorumAndFaulty(nodes: seq<Node>)
    requires 1 <= Total(nodes) < UINT64
    ensures QuorumOf(nodes) + MaxFaulty(Total(nodes)) == Total(nodes)
  {
  }
}
