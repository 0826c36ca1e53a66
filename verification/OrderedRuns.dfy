/** In every run the votes of honest replicas are ordered by view. */
module OrderedRuns {
  import opened Types
  import opened ConfigModel
  import opened ReplicaModel
  import opened ReplicaInvariant
  import opened Monotone
  import opened Network
  import opened Runs
  import opened VoteOrder
  import opened PassiveSteps
  import opened OrderSteps

  // ---- Runs ----

  ghost predicate NetOrder(net: Net) {
    forall n :: n in net ==> OrderInv(net[n], LogsOf(net))
  }

  /** A vote that verifies is backed by its sender, if that is honest. */
  lemma VerifiedBacks(s: Setting, nodes: NodeList, start: Net, net: Net, n: nat, m: Msg)
    requires NetInv(s, nodes, start, net) && n in net && m.kind in s.signed
    requires Genuine(s, net, m) && net[n].cfg.SignatureOk(m)
    ensures Backs(LogsOf(net), m.from, m.view, m.index, m.hash)
  {
    hide NetInv;
    Identities(s, nodes, start, net);
    if m.from in net {
      var r := net[m.from];
      var sent :| sent in r.env.sent && sent.SameHeader(m) && (s.typed ==> sent.kind == m.kind);
      assert sent in LogsOf(net)[m.from];
    }
  }

  lemma PrepareStep(s: Setting, nodes: NodeList, start: Net, net: Net, n: nat, m: Msg)
    requires NetInv(s, nodes, start, net) && NetOrder(net) && n in net && Prepare in s.signed
    requires m.kind == Prepare && m.WellFormed() && Genuine(s, net, m)
    ensures var r' := HandlePrepare(net[n], m).0; OrderInv(r', Updated(LogsOf(net), r'))
  {
    ReplicaOf(s, nodes, start, net, n);
    assert OrderInv(net[n], LogsOf(net));
    hide NetInv, NetOrder, Inv, OrderInv, Genuine, Justified, Backs, HandlePrepare, WorldOf, LogsOf;
    if VoteOk(net[n], m) {
      VoteJustified(s, nodes, start, net, n, m);
      VerifiedBacks(s, nodes, start, net, n, m);
    }
    hide VoteOk;
    HandlePrepareOrder(net[n], m, Base(start, n), WorldOf(s, net), LogsOf(net));
  }

  lemma PassiveStep(r: Replica, e: Event, base: Proposal, w: World)
    requires Inv(r, base, w) && !e.PrePrepareIn? && !e.PrepareIn?
    requires e.Executed? ==> e.k < |r.env.running| && e.executed.index == r.env.running[e.k].proposal.index
    requires e.Written? ==> e.k < |r.env.committing|
    ensures Passive(r, React(r, e))
  {
    hide Inv, Passive, HandleCommit, HandleCheckPoint, HandleViewChange, HandleNewView, HandleRecover, OnTimeout,
      TriggerTimeout, OnApplied, Finalize;
    match e
    case CommitIn(m) => HandleCommitPassive(r, m);
    case CheckPointIn(m) => HandleCheckPointPassive(r, m);
    case ViewChangeIn(vc) => HandleViewChangePassive(r, vc);
    case NewViewIn(nv) => HandleNewViewPassive(r, nv);
    case RecoverIn(m) => HandleRecoverPassive(r, m);
    case TimerFired => OnTimeoutPassive(r);
    case LeaderLost => TimeoutPassive(r);
    case Executed(k, executed) => ExecutedPassive(r, k, executed, base, w);
    case Written(k) => WrittenPassive(r, k, base, w);
    case SyncNotice(number) => PassiveItself(r, r.(cfg := r.cfg.(syncing := number)));
  }

  lemma ExecutedReaction(r: Replica, k: nat, executed: Proposal)
    requires k < |r.env.running|
    ensures var r0 := r.(env := r.env.(running := Without(r.env.running, k)));
      React(r, Executed(k, executed)) == OnApplied(r0, r.env.running[k].proposal, executed)
  {
    hide HandlePrePrepare, HandlePrepare, HandleCommit, HandleCheckPoint, HandleViewChange, HandleNewView, HandleRecover,
      OnTimeout, TriggerTimeout, OnApplied, Finalize, Without;
  }

  lemma WrittenReaction(r: Replica, k: nat)
    requires k < |r.env.committing|
    ensures var r0, q := r.(env := r.env.(committing := Without(r.env.committing, k))), r.env.committing[k];
      React(r, Written(k)) == Finalize(r0, q.index, q.hash)
  {
    hide HandlePrePrepare, HandlePrepare, HandleCommit, HandleCheckPoint, HandleViewChange, HandleNewView, HandleRecover,
      OnTimeout, TriggerTimeout, OnApplied, Finalize, Without;
  }

  lemma ExecutedPassive(r: Replica, k: nat, executed: Proposal, base: Proposal, w: World)
    requires Inv(r, base, w) && k < |r.env.running| && executed.index == r.env.running[k].proposal.index
    ensures Passive(r, React(r, Executed(k, executed)))
  {
    OneRunning(r, base, w);
    ExpectedRuns(r, base, w);
    ExecutedReaction(r, k, executed);
    hide Inv, Passive, OnApplied, React;
    var r0 := r.(env := r.env.(running := Without(r.env.running, k)));
    PassiveItself(r, r0);
    OnAppliedPassive(r0, r.env.running[k].proposal, executed);
    PassiveTrans(r, r0, React(r, Executed(k, executed)));
  }

  lemma ExpectedRuns(r: Replica, base: Proposal, w: World)
    requires Inv(r, base, w)
    ensures forall call :: call in r.env.running ==> call.proposal.index == r.cfg.expected
  {
    hide CfgOk, CachesOk, LockOk, AuthOk, QueueOk, AppliesOk, VotesOnce, LedgerOk, AllStable, AllReported, DecidedOk, ChainOk,
      ResultsOk, Cast;
  }

  lemma WrittenPassive(r: Replica, k: nat, base: Proposal, w: World)
    requires Inv(r, base, w) && k < |r.env.committing|
    ensures Passive(r, React(r, Written(k)))
  {
    hide Inv, Passive, Finalize, React;
    OneRunning(r, base, w);
    WrittenReaction(r, k);
    assert k == 0 && Without(r.env.committing, 0) == [];
    hide Without;
    FinalizePassive(r, base, w);
  }

  lemma VoteReactions(r: Replica, e: Event)
    ensures e.PrePrepareIn? ==> React(r, e) == HandlePrePrepare(r, e.m, e.verify, e.fromNewView, e.checkSignature).0
    ensures e.PrepareIn? ==> React(r, e) == HandlePrepare(r, e.m).0
  {
    hide HandlePrePrepare, HandlePrepare, HandleCommit, HandleCheckPoint, HandleViewChange, HandleNewView, HandleRecover,
      OnTimeout, TriggerTimeout, OnApplied, Finalize, Without;
  }

  lemma EnabledFacts(s: Setting, net: Net, r: Replica, e: Event)
    requires Enabled(s, net, r, e)
    ensures e.PrePrepareIn? ==> e.m.WellFormed()
    ensures e.PrepareIn? ==> e.m.kind == Prepare && e.m.WellFormed() && Genuine(s, net, e.m)
    ensures e.Executed? ==> e.k < |r.env.running| && e.executed.index == r.env.running[e.k].proposal.index
    ensures e.Written? ==> e.k < |r.env.committing|
  {
    hide Genuine, GenuineChange;
  }

  lemma OrderOf(net: Net, n: nat)
    requires NetOrder(net) && n in net
    ensures OrderInv(net[n], LogsOf(net))
  {
    hide OrderInv;
  }

  /** One step of a replica keeps the order of its votes. */
  lemma ReactOrder(s: Setting, nodes: NodeList, start: Net, net: Net, n: nat, e: Event)
    requires NetInv(s, nodes, start, net) && NetOrder(net) && n in net && Enabled(s, net, net[n], e) && Prepare in s.signed
    ensures var r' := React(net[n], e); OrderInv(r', Updated(LogsOf(net), r'))
  {
    ReplicaOf(s, nodes, start, net, n);
    hide NetInv, NetOrder, Inv, OrderInv, Genuine, WorldOf, LogsOf, HandlePrepare, HandlePrePrepare, Passive, Updated, React,
      Enabled, Msg.WellFormed, Base;
    OrderOf(net, n);
    EnabledFacts(s, net, net[n], e);
    VoteReactions(net[n], e);
    if e.PrePrepareIn? {
      HandlePrePrepareOrder(net[n], e.m, e.verify, e.fromNewView, e.checkSignature, Base(start, n), WorldOf(s, net), LogsOf(net));
    } else if e.PrepareIn? {
      PrepareStep(s, nodes, start, net, n, e.m);
    } else {
      PassiveStep(net[n], e, Base(start, n), WorldOf(s, net));
      PassiveKeeps(net[n], React(net[n], e), LogsOf(net));
    }
  }

  lemma StepOrder(s: Setting, nodes: NodeList, start: Net, net: Net, step: Step)
    requires NetInv(s, nodes, start, net) && NetOrder(net) && CanStep(s, net, step) && Prepare in s.signed
    ensures NetOrder(Next(net, step))
  {
    hide NetInv, React, Enabled, OrderInv, Later, Kept;
    var n, net' := step.node, Next(net, step);
    var r' := React(net[n], step.event);
    ReactOrder(s, nodes, start, net, n, step.event);
    StepLater(s, nodes, start, net, step, n);
    SameSelf(s, nodes, start, net, n, r');
    assert LogsOf(net') == Updated(LogsOf(net), r');
    forall b | b in net' ensures OrderInv(net'[b], LogsOf(net')) {
      if b != n {
        SelfIs(s, nodes, start, net, b);
        OthersOrder(net, n, r', b);
      }
    }
  }

  lemma SelfIs(s: Setting, nodes: NodeList, start: Net, net: Net, n: nat)
    requires NetInv(s, nodes, start, net) && n in net
    ensures net[n].cfg.self == n
  {
    hide NetInv;
    Identities(s, nodes, start, net);
  }

  lemma SameSelf(s: Setting, nodes: NodeList, start: Net, net: Net, n: nat, r': Replica)
    requires NetInv(s, nodes, start, net) && n in net && Later(net[n], r')
    ensures r'.cfg.self == n && net[n].cfg.self == n && net[n].env.sent <= r'.env.sent
  {
    hide NetInv;
    Identities(s, nodes, start, net);
  }

  lemma OtherLogs(net: Net, n: nat, r': Replica, b: nat)
    requires n in net && b in net && b != n && net[n].env.sent <= r'.env.sent
    ensures LogsLater(LogsOf(net), LogsOf(net[n := r']))
    ensures b in LogsOf(net[n := r']) && LogsOf(net[n := r'])[b] == net[b].env.sent && LogsOf(net)[b] == net[b].env.sent
  {
  }

  lemma OthersOrder(net: Net, n: nat, r': Replica, b: nat)
    requires NetOrder(net) && n in net && b in net && b != n && net[n].env.sent <= r'.env.sent && net[b].cfg.self == b
    ensures OrderInv(net[b], LogsOf(net[n := r']))
  {
    hide OrderInv;
    assert OrderInv(net[b], LogsOf(net));
    OrderSelf(net[b], LogsOf(net));
    hide NetOrder;
    OtherLogs(net, n, r', b);
    hide LogsLater, LogsOf;
    OrderLater(net[b], LogsOf(net), LogsOf(net[n := r']));
  }

  lemma InitOrder(nodes: NodeList, net: Net)
    requires Init(nodes, net)
    ensures NetOrder(net)
  {
    forall n | n in net ensures OrderInv(net[n], LogsOf(net)) {
      assert Started(nodes, n, net[n]);
    }
  }

  /** In every run in which prepares are signed the votes of honest replicas are ordered by view. */
  lemma {:induction false} RunOrder(s: Setting, nodes: NodeList, run: seq<Net>, steps: seq<Step>, k: nat)
    requires IsRun(s, nodes, run, steps) && k < |run| && Prepare in s.signed
    ensures NetOrder(run[k])
  {
    hide NetInv, NetOrder, Init, Next, CanStep;
    if k == 0 {
      InitOrder(nodes, run[0]);
    } else {
      RunOrder(s, nodes, run, steps, k - 1);
      RunKeeps(s, nodes, run, steps, k - 1);
      assert Follows(s, run[k - 1], steps[k - 1], run[k]);
      StepOrder(s, nodes, run[0], run[k - 1], steps[k - 1]);
    }
  }
}
