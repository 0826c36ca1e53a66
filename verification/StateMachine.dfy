/** The index guards of the state machine: which proposals it executes, and on which parent. */
module StateMachine {
  import opened Types

  datatype Parent = Parent(index: int, hash: Hash)

  /** What becomes of a call: refused as applied already, refused for a block without a header,
      or handed to the scheduler with the parent written into the header. A gap between the two
      indices is logged as fatal, and the block is executed without a parent. */
  datatype Outcome = AlreadyApplied | NoHeader | Executing(parent: Option<Parent>)

  function OutcomeOf(call: ApplyCall, hasHeader: bool): Outcome {
    if call.proposal.index <= call.last.index then AlreadyApplied
    else if !hasHeader then NoHeader
    else if call.proposal.index == call.last.index + 1 then Executing(Some(Parent(call.last.index, call.last.hash)))
    else Executing(None)
  }

  /** A call that extends the last state by one is neither skipped nor executed without a parent. */
  method Apply(last: Proposal, proposal: Proposal, hasHeader: bool) returns (outcome: Outcome)
    ensures outcome == OutcomeOf(ApplyCall(last, proposal), hasHeader)
    ensures outcome == AlreadyApplied <==> proposal.index <= last.index
    ensures outcome.Executing? <==> proposal.index > last.index && hasHeader
    ensures outcome == Executing(Some(Parent(last.index, last.hash))) <==> proposal.index == last.index + 1 && hasHeader
  {
    if proposal.index <= last.index {
      return AlreadyApplied;
    }
    if !hasHeader {
      return NoHeader;
    }
    var parent := None;
    if proposal.index == last.index + 1 {
      parent := Some(Parent(last.index, last.hash));
    }
    return Executing(parent);
  }
}
