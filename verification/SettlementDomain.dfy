/**
  The settlement saga of one auction as a value: pure decisions for the decide phase
  and guarded transitions for the commit phase.
 */
module SettlementDomain {
  import opened Base
  import opened Events

  datatype SagaState =
    | Started
    | AwaitingPayment
    | AwardingRunnerUp
    | SecondChancePayment
    | Settled
    | Relisted
    | FailedUnsold

  datatype SagaError =
    | ErrUnexpectedTransition
    | ErrNotOfferRecipient
    | ErrOfferAlreadyPaid
    | ErrWinnerMismatch
    | ErrInvalidClosing
    | ErrReasonMismatch
    | ErrUnknownOutcome
    | ErrSagaNotFound
    | ErrMalformedEvent

  datatype NextStep = StepAwardRunnerUp | StepRelist | StepFailUnsold

  datatype SettlementState = SettlementState(
    auctionId: Id,
    state: SagaState,
    winner: Id,
    hammer: Money,
    runnerUp: Id,
    runnerUpAmount: Money,
    runnerUpQualifies: bool,
    relistGen: int,
    attempt: int,
    invoiceId: Id,
    failureReason: FailureReason,
    version: int)

  type SagaVerdict = Result<SettlementState, SagaError>

  // ---------- Start ----------

  datatype Closing = Closing(
    auctionId: Id,
    winner: Id,
    hammer: Money,
    runnerUp: Id,
    runnerUpAmount: Money,
    runnerUpQualifies: bool,
    relistGen: int,
    firstInvoice: Id)

  function NewClosing(c: Closing): Result<Closing, SagaError> {
    if c.auctionId == Nil || c.winner == Nil || c.hammer == ZERO_MONEY || c.firstInvoice == Nil || c.relistGen < 0
       || (c.runnerUp == Nil && c.runnerUpQualifies)
       || (c.runnerUp == Nil) != (c.runnerUpAmount == ZERO_MONEY)
    then Err(ErrInvalidClosing)
    else Ok(c)
  }

  /** None for an outcome string the saga does not know. */
  function RequiresSettlement(outcome: string): Option<bool> {
    if outcome == "sold" then Some(true) else if outcome == "not_sold" then Some(false) else None
  }

  /** Parses the closing event; the first invoice id is derived, not carried. */
  function BuildClosing(e: Event): Result<Closing, SagaError>
    requires e.AuctionClosedV1?
  {
    var hammer := Money(e.hammerPriceMinor, e.currency);
    var runnerUpAmount := Money(e.runnerUpAmountMinor, e.currency);
    if e.auctionId == Nil || e.winnerId == Nil || !hammer.Valid() then Err(ErrMalformedEvent)
    else if e.runnerUpBidderId != Nil && !runnerUpAmount.Valid() then Err(ErrMalformedEvent)
    else
      NewClosing(Closing(
        e.auctionId, e.winnerId, hammer, e.runnerUpBidderId,
        if e.runnerUpBidderId == Nil then ZERO_MONEY else runnerUpAmount,
        e.runnerUpQualifies, e.relistGeneration, InvoiceFor(e.auctionId, 1)))
  }

  function Start(c: Closing): SettlementState {
    SettlementState(c.auctionId, Started, c.winner, c.hammer, c.runnerUp, c.runnerUpAmount,
                    c.runnerUpQualifies, c.relistGen, 1, c.firstInvoice, NoReason, 1)
  }

  // ---------- Decide ----------

  /** Invoice events count only while a payment is awaited, and only for the live invoice. */
  predicate AwaitsInvoice(s: SettlementState, inv: Id) {
    s.state in {Started, AwaitingPayment, SecondChancePayment} && inv != Nil && inv == s.invoiceId
  }

  function NextStepOnFailure(s: SettlementState): NextStep {
    if s.attempt == 1 && s.runnerUpQualifies then StepAwardRunnerUp
    else if s.relistGen == 0 then StepRelist
    else StepFailUnsold
  }

  function DecideOnPaymentTimeout(s: SettlementState, inv: Id): Result<NextStep, SagaError> {
    if !AwaitsInvoice(s, inv) then Err(ErrUnexpectedTransition) else Ok(NextStepOnFailure(s))
  }

  function DecideOnWinnerReassigned(s: SettlementState, newWinner: Id, price: Money): Option<SagaError> {
    if s.state !in {AwaitingPayment, AwardingRunnerUp} then Some(ErrUnexpectedTransition)
    else if newWinner == Nil || newWinner != s.runnerUp || price != s.runnerUpAmount then Some(ErrWinnerMismatch)
    else None
  }

  predicate CanRunnerUpDecline(actor: Id, s: SettlementState) {
    actor != Nil && s.runnerUp != Nil && actor == s.runnerUp && s.state == SecondChancePayment
  }

  function DecideOnDecline(s: SettlementState, actor: Id): Result<NextStep, SagaError> {
    if CanRunnerUpDecline(actor, s) then Ok(NextStepOnFailure(s))
    else if actor != Nil && actor == s.runnerUp && s.state == Settled then Err(ErrOfferAlreadyPaid)
    else if actor != Nil && actor == s.runnerUp && s.state in {Relisted, FailedUnsold}
    then Err(ErrUnexpectedTransition)
    else Err(ErrNotOfferRecipient)
  }

  // ---------- Commit ----------

  function InvoiceIssued(s: SettlementState, inv: Id): SagaVerdict {
    if s.state != Started || inv == Nil || inv != s.invoiceId then Err(ErrUnexpectedTransition)
    else Ok(s.(state := AwaitingPayment))
  }

  function PaymentReceived(s: SettlementState, inv: Id): SagaVerdict {
    if !AwaitsInvoice(s, inv) then Err(ErrUnexpectedTransition) else Ok(s.(state := Settled))
  }

  function RunnerUpAwarded(s: SettlementState, newWinner: Id, price: Money): SagaVerdict {
    match DecideOnWinnerReassigned(s, newWinner, price)
    case Some(e) => Err(e)
    case None => Ok(s.(state := AwardingRunnerUp, winner := newWinner, attempt := 2))
  }

  function SecondChanceInvoiceIssued(s: SettlementState, inv: Id): SagaVerdict {
    if s.state != AwardingRunnerUp || inv == Nil then Err(ErrUnexpectedTransition)
    else Ok(s.(state := SecondChancePayment, invoiceId := inv))
  }

  /** Both transitions of one WinnerReassigned commit. */
  function SecondChanceOffered(s: SettlementState, newWinner: Id, price: Money, inv: Id): SagaVerdict {
    match RunnerUpAwarded(s, newWinner, price)
    case Err(e) => Err(e)
    case Ok(awarded) => SecondChanceInvoiceIssued(awarded, inv)
  }

  function ApplyNextStep(s: SettlementState, step: NextStep, reason: FailureReason): SagaVerdict {
    match step
    case StepAwardRunnerUp =>
      if reason != NoReason then Err(ErrReasonMismatch)
      else if s.state !in {Started, AwaitingPayment} then Err(ErrUnexpectedTransition)
      else Ok(s.(state := AwardingRunnerUp))
    case _ =>
      if reason == NoReason then Err(ErrReasonMismatch)
      else if s.state !in {Started, AwaitingPayment, SecondChancePayment} then Err(ErrUnexpectedTransition)
      else Ok(s.(state := if step == StepRelist then Relisted else FailedUnsold, failureReason := reason))
  }

  /** How far the saga has come; every commit moves it up. */
  function Rank(st: SagaState): nat {
    match st
    case Started => 0
    case AwaitingPayment => 1
    case AwardingRunnerUp => 2
    case SecondChancePayment => 3
    case _ => 4
  }

  predicate IsTerminal(st: SagaState) { st in {Settled, Relisted, FailedUnsold} }

  // ---------- What the guards let through ----------

  /** Which closing events the saga understands. */
  lemma ClosingParsesIff(e: Event)
    requires e.AuctionClosedV1?
    ensures var hammer, runnerUp := Money(e.hammerPriceMinor, e.currency), Money(e.runnerUpAmountMinor, e.currency);
      && (BuildClosing(e) == Err(ErrMalformedEvent) <==>
            || e.auctionId == Nil || e.winnerId == Nil || !hammer.Valid()
            || (e.runnerUpBidderId != Nil && !runnerUp.Valid()))
      && (BuildClosing(e).Ok? <==>
            && e.auctionId != Nil && e.winnerId != Nil && hammer.Valid() && e.relistGeneration >= 0
            && (if e.runnerUpBidderId == Nil then !e.runnerUpQualifies else runnerUp.Valid()))
      && (RequiresSettlement(e.outcome) == None <==> e.outcome != "sold" && e.outcome != "not_sold")
  {
    assert !ValidCurrency("");
  }

  /** A compensation step is committed from a state that awaits a payment, with a reason exactly if it gives up. */
  lemma StepCommitsIff(s: SettlementState, step: NextStep, reason: FailureReason)
    ensures var v := ApplyNextStep(s, step, reason); var awards := step == StepAwardRunnerUp;
      var awaiting := s.state in {Started, AwaitingPayment} || (s.state == SecondChancePayment && !awards);
      && (v == Err(ErrReasonMismatch) <==> (awards <==> reason != NoReason))
      && (v == Err(ErrUnexpectedTransition) <==> (awards <==> reason == NoReason) && !awaiting)
      && (v.Ok? <==> (awards <==> reason == NoReason) && awaiting)
      && (v.Ok? ==>
            if awards then v.value == s.(state := AwardingRunnerUp)
            else
              && v.value == s.(state := v.value.state, failureReason := reason)
              && v.value.state == (if step == StepRelist then Relisted else FailedUnsold))
  {
  }

  /** An invoice moves the saga only if it is the live one, and only from a state that waits for it. */
  lemma InvoiceCommitsIff(s: SettlementState, inv: Id)
    ensures var live := inv != Nil && inv == s.invoiceId;
      var issued, paid := InvoiceIssued(s, inv), PaymentReceived(s, inv);
      && (issued == if live && s.state == Started then Ok(s.(state := AwaitingPayment))
                    else Err(ErrUnexpectedTransition))
      && (paid == if live && s.state in {Started, AwaitingPayment, SecondChancePayment}
                  then Ok(s.(state := Settled)) else Err(ErrUnexpectedTransition))
      && (DecideOnPaymentTimeout(s, inv).Ok? <==> paid.Ok?)
  {
  }

  /** What follows a failed payment: a qualified runner-up once, a replacement once, then nothing. */
  lemma NextStepByCase(s: SettlementState)
    requires s.attempt in {1, 2} && s.relistGen in {0, 1}
    ensures var step := NextStepOnFailure(s);
      && (step == StepAwardRunnerUp <==> s.attempt == 1 && s.runnerUpQualifies)
      && (step == StepRelist <==> (s.attempt == 2 || !s.runnerUpQualifies) && s.relistGen == 0)
      && (step == StepFailUnsold <==> (s.attempt == 2 || !s.runnerUpQualifies) && s.relistGen == 1)
  {
  }

  /** The offer stands once its award is taken; both transitions happen or neither. */
  lemma OfferCommitsIff(s: SettlementState, newWinner: Id, price: Money, inv: Id)
    requires inv != Nil
    ensures var v := SecondChanceOffered(s, newWinner, price, inv);
      && (v.Ok? <==> DecideOnWinnerReassigned(s, newWinner, price) == None)
      && (v.Ok? ==> v.value == s.(state := SecondChancePayment, winner := newWinner, attempt := 2, invoiceId := inv))
      && (v.Err? ==> Some(v.error) == DecideOnWinnerReassigned(s, newWinner, price))
  {
  }

  /** An award is taken for the runner-up and at his price, before and after the saga has committed it. */
  lemma AwardTakenIff(s: SettlementState, newWinner: Id, price: Money)
    ensures var refusal := DecideOnWinnerReassigned(s, newWinner, price);
      && (refusal == Some(ErrUnexpectedTransition) <==> s.state !in {AwaitingPayment, AwardingRunnerUp})
      && (refusal == None <==>
            && s.state in {AwaitingPayment, AwardingRunnerUp}
            && newWinner != Nil && newWinner == s.runnerUp && price == s.runnerUpAmount)
      && (refusal.Some? ==> refusal.value in {ErrUnexpectedTransition, ErrWinnerMismatch})
  {
  }
}
