/** The saga as the mutable object its commit phase works on. */
module SettlementAggregate {
  import opened Base
  import opened SettlementDomain

  class Settlement {
    const auctionId: Id
    var state: SagaState
    var winner: Id
    const hammer: Money
    const runnerUp: Id
    const runnerUpAmount: Money
    const runnerUpQualifies: bool
    const relistGen: int
    var attempt: int
    var invoiceId: Id
    var failureReason: FailureReason
    const version: int

    function State(): SettlementState
      reads this
    {
      SettlementState(auctionId, state, winner, hammer, runnerUp, runnerUpAmount, runnerUpQualifies,
                      relistGen, attempt, invoiceId, failureReason, version)
    }

    constructor Rehydrate(s: SettlementState)
      ensures State() == s
    {
      auctionId, state, winner, hammer := s.auctionId, s.state, s.winner, s.hammer;
      runnerUp, runnerUpAmount, runnerUpQualifies := s.runnerUp, s.runnerUpAmount, s.runnerUpQualifies;
      relistGen, attempt, invoiceId := s.relistGen, s.attempt, s.invoiceId;
      failureReason, version := s.failureReason, s.version;
    }

    ghost predicate Moved(v: SagaVerdict, was: SettlementState, r: Option<SagaError>)
      reads this
    {
      match v
      case Ok(next) => State() == next && r == None
      case Err(e) => State() == was && r == Some(e)
    }

    method InvoiceIssued(inv: Id) returns (r: Option<SagaError>)
      modifies this
      ensures Moved(SettlementDomain.InvoiceIssued(old(State()), inv), old(State()), r)
    {
      if state != Started || inv == Nil || inv != invoiceId { return Some(ErrUnexpectedTransition); }
      state := AwaitingPayment;
      return None;
    }

    method PaymentReceived(inv: Id) returns (r: Option<SagaError>)
      modifies this
      ensures Moved(SettlementDomain.PaymentReceived(old(State()), inv), old(State()), r)
    {
      if !AwaitsInvoice(State(), inv) { return Some(ErrUnexpectedTransition); }
      state := Settled;
      return None;
    }

    method RunnerUpAwarded(newWinner: Id, price: Money) returns (r: Option<SagaError>)
      modifies this
      ensures Moved(SettlementDomain.RunnerUpAwarded(old(State()), newWinner, price), old(State()), r)
    {
      var refusal := DecideOnWinnerReassigned(State(), newWinner, price);
      if refusal.Some? { return refusal; }
      state := AwardingRunnerUp;
      winner := newWinner;
      attempt := 2;
      return None;
    }

    method SecondChanceInvoiceIssued(inv: Id) returns (r: Option<SagaError>)
      modifies this
      ensures Moved(SettlementDomain.SecondChanceInvoiceIssued(old(State()), inv), old(State()), r)
    {
      if state != AwardingRunnerUp || inv == Nil { return Some(ErrUnexpectedTransition); }
      state := SecondChancePayment;
      invoiceId := inv;
      return None;
    }

    method ApplyNextStep(step: NextStep, reason: FailureReason) returns (r: Option<SagaError>)
      modifies this
      ensures Moved(SettlementDomain.ApplyNextStep(old(State()), step, reason), old(State()), r)
    {
      if step == StepAwardRunnerUp {
        if reason != NoReason { return Some(ErrReasonMismatch); }
        if state != Started && state != AwaitingPayment { return Some(ErrUnexpectedTransition); }
        state := AwardingRunnerUp;
        return None;
      }
      if reason == NoReason { return Some(ErrReasonMismatch); }
      if state !in {Started, AwaitingPayment, SecondChancePayment} { return Some(ErrUnexpectedTransition); }
      if step == StepRelist { state := Relisted; } else { state := FailedUnsold; }
      failureReason := reason;
      return None;
    }
  }
}
