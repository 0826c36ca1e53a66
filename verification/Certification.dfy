/** What it takes for a view change or a new view to be accepted: every certificate in it is a
    quorum of signatures by known nodes. */
module Certification {
  import opened Types
  import opened Weights
  import opened ConfigModel
  import opened CacheModel
  import opened ReplicaModel
  import opened Monotone
  import opened NewViewProofs
  import opened Admission

  /** A proposal that is signed by listed nodes: each of them is a consensus node whose signature
      verifies over the hash of the proposal, and the weights listed add up to a quorum. */
  ghost predicate SignedByQuorum(nodes: seq<Node>, m: Msg) {
    && m.proposal.Some?
    && var p := m.proposal.value;
    && (forall k :: 0 <= k < |p.proofs| ==>
          p.proofs[k].node < |nodes| && p.proofs[k].sig == Sig(nodes[p.proofs[k].node].id, p.hash))
    && Sum(nodes, Listed(p.proofs)) >= QuorumOf(nodes)
  }

  /** The signers of such a proposal are a quorum if none with weight is listed twice. */
  lemma SignersAreQuorum(nodes: seq<Node>, m: Msg)
    requires SignedByQuorum(nodes, m)
    ensures RepeatsWeighNothing(nodes, Listed(m.proposal.value.proofs)) ==>
      Weight(nodes, Signers(m.proposal.value.proofs)) >= QuorumOf(nodes)
    ensures forall n :: n in Signers(m.proposal.value.proofs) ==>
      n < |nodes| && Proof(n, Sig(nodes[n].id, m.proposal.value.hash)) in m.proposal.value.proofs
  {
    hide Weight, QuorumOf, RepeatsWeighNothing;
    var proofs := m.proposal.value.proofs;
    ListWeightExact(nodes, proofs);
    forall n | n in Signers(proofs) ensures n < |nodes| && Proof(n, Sig(nodes[n].id, m.proposal.value.hash)) in proofs {
      var p :| p in proofs && p.node == n;
      var k :| 0 <= k < |proofs| && proofs[k] == p;
    }
  }

  /** What a replica in this configuration asks of a view change: it names a committed block that is
      not behind and not another one than its own of that height, it is for the current view or a
      later one, its sender signed it, and every certificate is a quorum of signatures, in a replica
      that has recovered of no later view than its own. */
  ghost predicate Credible(g: Cfg, vc: ViewChange) {
    && vc.committed.index >= g.committed.index
    && (vc.committed.index == g.committed.index ==> vc.committed.hash == g.committed.hash)
    && vc.view >= g.view
    && vc.from < |g.nodes| && g.nodes[vc.from].id == vc.signer
    && forall k :: 0 <= k < |vc.prepared| ==>
         SignedByQuorum(g.nodes, vc.prepared[k]) && (g.recovered ==> vc.prepared[k].view <= g.view)
  }

  lemma CredibleIsValid(g: Cfg, vc: ViewChange)
    ensures ValidViewChange(g, vc) <==> Credible(g, vc)
  {
    hide Sum, QuorumOf;
    forall m ensures PrecommitOk(g, m) <==> SignedByQuorum(g.nodes, m) && (g.recovered ==> m.view <= g.view) {
    }
    hide PrecommitOk, SignedByQuorum;
  }

  lemma MovingRefuses(r: Replica, vc: ViewChange)
    requires r.cfg.view <= r.cfg.toView && MovesOn(r, vc.view)
    ensures !Judge(r, vc).1
  {
    hide BroadcastViewChange, AddViewChange, OwnViewChange, CanBuildNewView, PrecommitOk;
    AnswerMoves(r);
  }

  lemma BehindRefused(r: Replica, vc: ViewChange)
    requires vc.view < r.cfg.view
    ensures !Judge(r, vc).1
  {
    hide BroadcastViewChange, PrecommitOk;
    JudgeLater(r, vc);
  }

  lemma AcceptedIsJudged(r: Replica, vc: ViewChange)
    ensures HandleViewChange(r, vc).1 == Judge(r, vc).1
  {
    hide Judge, AddViewChange, TryNewView, JoinLater;
  }

  /** A view change is accepted exactly if it is credible and the replica does not move on to a
      later view while it judges it. */
  lemma ViewChangeAccepted(r: Replica, vc: ViewChange)
    requires r.cfg.view <= r.cfg.toView
    ensures HandleViewChange(r, vc).1 <==> Credible(r.cfg, vc) && !MovesOn(r, vc.view)
  {
    hide HandleViewChange, Judge, MovesOn, ValidViewChange, AddViewChange, OwnViewChange;
    AcceptedIsJudged(r, vc);
    CredibleIsValid(r.cfg, vc);
    if vc.view < r.cfg.view {
      BehindRefused(r, vc);
    } else if MovesOn(r, vc.view) {
      MovingRefuses(r, vc);
    } else {
      JudgedNext(r, r, vc);
    }
  }

  // ---- In whatever state ----

  /** Of an accepted view change in any state: what `Credible` says apart from the view, which may
      have moved on, and no earlier view than the current one. */
  ghost predicate Trusted(g: Cfg, vc: ViewChange) {
    && vc.committed.index >= g.committed.index
    && (vc.committed.index == g.committed.index ==> vc.committed.hash == g.committed.hash)
    && vc.view >= g.view
    && vc.from < |g.nodes| && g.nodes[vc.from].id == vc.signer
    && forall k :: 0 <= k < |vc.prepared| ==> SignedByQuorum(g.nodes, vc.prepared[k])
  }

  lemma JudgedIsTrusted(r: Replica, vc: ViewChange)
    requires Judge(r, vc).1
    ensures Trusted(r.cfg, vc)
  {
    hide BroadcastViewChange, SignedByQuorum, ValidViewChange;
    JudgeLater(r, vc);
    CredibleIsValid(Judge(r, vc).0.cfg, vc);
  }

  /** Every certificate of an accepted view change is signed by a quorum. */
  lemma ViewChangeTrusted(r: Replica, vc: ViewChange)
    requires HandleViewChange(r, vc).1
    ensures Trusted(r.cfg, vc)
  {
    hide HandleViewChange, Judge, Trusted;
    AcceptedIsJudged(r, vc);
    JudgedIsTrusted(r, vc);
  }

  lemma TrustedEarlier(g: Cfg, g': Cfg, vc: ViewChange)
    requires Trusted(g', vc) && CfgLater(g, g') && g'.committed == g.committed
    ensures Trusted(g, vc)
  {
    hide SignedByQuorum;
  }

  lemma {:induction false} AllTrusted(r: Replica, vcs: seq<ViewChange>)
    requires JudgeAll(r, vcs).1
    ensures forall k :: 0 <= k < |vcs| ==> Trusted(r.cfg, vcs[k])
  {
    hide Judge, Trusted, CfgLater;
    if vcs != [] {
      var front, last := vcs[..|vcs| - 1], vcs[|vcs| - 1];
      var r1 := JudgeAll(r, front).0;
      AllTrusted(r, front);
      JudgeAllLater(r, front);
      JudgedIsTrusted(r1, last);
      TrustedEarlier(r.cfg, r1.cfg, last);
      forall k | 0 <= k < |vcs| ensures Trusted(r.cfg, vcs[k]) {
        assert k < |front| ==> vcs[k] == front[k];
      }
    }
  }

  /** An accepted new view is for a later view, from the leader of that view and signed by it, and
      lists view changes of quorum weight, each of them with certificates signed by a quorum. */
  lemma NewViewTrusted(r: Replica, nv: NewView)
    requires HandleNewView(r, nv).1
    ensures var g := r.cfg;
      && nv.view > g.view
      && nv.from == (((nv.index + 1) % UINT64) / g.period + nv.view) % |g.nodes|
      && g.nodes[nv.from].id == nv.signer
      && Sum(g.nodes, SendersOf(nv.viewChanges)) >= QuorumOf(g.nodes)
      && forall k :: 0 <= k < |nv.viewChanges| ==> Trusted(g, nv.viewChanges[k])
  {
    hide JudgeAll, ReachNewView, Trusted, Sum, QuorumOf, ChangesWeight;
    JudgeAllLater(r, nv.viewChanges);
    AllTrusted(r, nv.viewChanges);
    ChangesWeightIsSum(r.cfg.nodes, nv.viewChanges);
  }

  /** If all its view changes are for its own view, a new view is accepted exactly if besides that
      they are all credible and the replica does not move on while it judges them. */
  lemma NewViewAcceptedIff(r: Replica, nv: NewView)
    requires 0 < r.cfg.Quorum() && r.cfg.view <= r.cfg.toView && AllFor(nv.view, nv.viewChanges)
    ensures var g := r.cfg;
      HandleNewView(r, nv).1 <==>
        && nv.view > g.view
        && nv.from == (((nv.index + 1) % UINT64) / g.period + nv.view) % |g.nodes|
        && g.nodes[nv.from].id == nv.signer
        && Sum(g.nodes, SendersOf(nv.viewChanges)) >= QuorumOf(g.nodes)
        && (forall k :: 0 <= k < |nv.viewChanges| ==> Credible(g, nv.viewChanges[k]))
        && !MovesOn(r, nv.view)
  {
    hide HandleNewView, MovesOn, ValidViewChange, Credible, Sum, QuorumOf, ChangesWeight;
    ValidIsAccepted(r, nv);
    ChangesWeightIsSum(r.cfg.nodes, nv.viewChanges);
    forall k | 0 <= k < |nv.viewChanges|
      ensures ValidViewChange(r.cfg, nv.viewChanges[k]) <==> Credible(r.cfg, nv.viewChanges[k])
    {
      CredibleIsValid(r.cfg, nv.viewChanges[k]);
    }
  }

  /** One certificate that is not signed by a quorum spoils the view change it stands in, and every
      new view that lists that view change. */
  lemma OneSpoilsAll(r: Replica, vc: ViewChange, m: Msg, nv: NewView)
    requires m in vc.prepared && !SignedByQuorum(r.cfg.nodes, m)
    ensures !HandleViewChange(r, vc).1
    ensures vc in nv.viewChanges ==> !HandleNewView(r, nv).1
  {
    hide HandleViewChange, HandleNewView, SignedByQuorum, Trusted;
    if HandleViewChange(r, vc).1 {
      ViewChangeTrusted(r, vc);
      TrustedEntry(r.cfg, vc, m);
    }
    if vc in nv.viewChanges && HandleNewView(r, nv).1 {
      NewViewEntry(r, nv, vc);
      TrustedEntry(r.cfg, vc, m);
    }
  }

  lemma TrustedEntry(g: Cfg, vc: ViewChange, m: Msg)
    requires Trusted(g, vc) && m in vc.prepared
    ensures SignedByQuorum(g.nodes, m)
  {
    hide SignedByQuorum;
    var k :| 0 <= k < |vc.prepared| && vc.prepared[k] == m;
  }

  lemma NewViewEntry(r: Replica, nv: NewView, vc: ViewChange)
    requires HandleNewView(r, nv).1 && vc in nv.viewChanges
    ensures Trusted(r.cfg, vc)
  {
    hide HandleNewView, Trusted, Sum, QuorumOf;
    NewViewTrusted(r, nv);
    var j :| 0 <= j < |nv.viewChanges| && nv.viewChanges[j] == vc;
  }
}
