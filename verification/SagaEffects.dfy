/**
  What each transaction does to the slice of its auction: under the facts its caller
  holds, it keeps the invariant, moves forward only, and is never refused for a reason
  the saga cannot handle.
 */
module SagaEffects {
  import opened Base
  import opened Events
  import AuctionDomain
  import opened AuctionRuns
  import InvoiceDomain
  import opened SettlementDomain
  import opened SagaView

  ghost predicate Kept(a: Id, v: View, v': View) {
    ViewInv(a, v') && Evolves(v, v')
  }

  /** The slice after a successful command on its auction. */
  ghost function AfterCommand(v: View, x: AuctionDomain.AuctionState, c: Command): View
    requires Perform(x, c).Ok?
  {
    var next := Perform(x, c).value.next;
    v.(auction := Some(next.(version := next.version + 1)), events := v.events + Emitted(x, c))
  }

  /** Published events survive every change that goes forward and keeps the runner-up. */
  lemma EventsStayTrue(a: Id, v: View, v': View)
    requires EventsTrue(a, v) && Evolves(v, v')
    requires v.auction.Some? && v.auction.value.status == AuctionDomain.Closed ==>
      var x, y := v.auction.value, v'.auction.value;
      && RunnerUpOf(y) == RunnerUpOf(x) && (y.winnerReassigned || y.leadingBid == x.leadingBid)
      && (x.outcome == AuctionDomain.Sold ==> y.outcome == AuctionDomain.Sold || y.settled)
    requires forall e | e in v'.events - v.events :: EventPart(a, v', e)
    ensures EventsTrue(a, v')
  {
    forall e | e in v.events ensures EventPart(a, v', e) {
      assert EventPart(a, v, e);
    }
  }

  /** Evidence is lost only by a row reaching a new state, which must publish its own. */
  lemma EvidenceStays(a: Id, v: View, v': View)
    requires EvidencePart(a, v) && Evolves(v, v')
    requires v'.saga == v.saga || v.saga.Some?
    requires Reassigned(v') == Reassigned(v)
    requires v'.first == v.first || (v.first.None? && FirstIs(v', InvoiceDomain.Pending))
    requires v'.second == v.second || (v.second.None? && SecondIs(v', InvoiceDomain.Pending))
    ensures EvidencePart(a, v')
  {
  }

  // ---------- The auction ----------

  lemma FreshKeeps(a: Id, v: View, x: AuctionDomain.AuctionState)
    requires ViewInv(a, v) && v.auction.None?
    requires Fresh(x) && AuctionPart(a, v.(auction := Some(x)))
    ensures Kept(a, v, v.(auction := Some(x)))
  {
  }

  lemma ClosingEvent(x: AuctionDomain.AuctionState, now: Time)
    requires Valid(x) && Perform(x, DoClose(now)).Ok? && AuctionDomain.Hammer(x).outcome == AuctionDomain.Sold
    ensures var next := Perform(x, DoClose(now)).value.next;
      SoldEvent(next, MapDomainEvent(next, AuctionDomain.AuctionClosed(AuctionDomain.Hammer(x), now)).value)
  {
  }

  /** Before the close there is no saga, and nothing has been published. */
  lemma StillListed(a: Id, v: View, x: AuctionDomain.AuctionState)
    requires ViewInv(a, v) && v.auction == Some(x) && x.status == AuctionDomain.Listed
    ensures v.saga.None? && v.events == {} && Dormant(v)
  {
    assert v.saga.None?;
    assert forall e :: !EventPart(a, v, e);
  }

  lemma ManageKeepsRows(a: Id, v: View, x: AuctionDomain.AuctionState, c: Command)
    requires RowsAgree(a, v) && v.auction == Some(x) && v.saga.None?
    requires WellTyped(c) && (c.DoBid? || c.DoCancel? || c.DoClose?) && Perform(x, c).Ok?
    ensures RowsAgree(a, AfterCommand(v, x, c)) && Evolves(v, AfterCommand(v, x, c))
  {
    CommandKeepsValid(x, c);
  }

  lemma ManageKeeps(a: Id, v: View, x: AuctionDomain.AuctionState, c: Command)
    requires ViewInv(a, v) && v.auction == Some(x)
    requires WellTyped(c) && (c.DoBid? || c.DoCancel? || c.DoClose?) && Perform(x, c).Ok?
    ensures Kept(a, v, AfterCommand(v, x, c))
  {
    StillListed(a, v, x);
    ManageKeepsRows(a, v, x, c);
    if c.DoClose? && AuctionDomain.Hammer(x).outcome == AuctionDomain.Sold {
      ClosingEvent(x, c.now);
    }
  }

  /** The award of a qualifying runner-up after the first invoice expired is never refused. */
  lemma AwardKeepsRows(a: Id, v: View, x: AuctionDomain.AuctionState, now: Time)
    requires RowsAgree(a, v) && v.auction == Some(x)
    requires v.saga.Some? && v.saga.value.runnerUpQualifies && FirstIs(v, InvoiceDomain.Expired)
    ensures var r := Perform(x, DoAward(now));
      if r.Ok?
      then
        var v' := AfterCommand(v, x, DoAward(now));
        && RowsAgree(a, v') && Evolves(v, v') && Reassigned(v')
        && RunnerUpOf(v'.auction.value) == RunnerUpOf(x) && v'.auction.value.outcome == x.outcome
        && forall e | e in Emitted(x, DoAward(now)) :: EventPart(a, v', e)
      else r.error == AuctionDomain.ErrWinnerAlreadyReassigned && Reassigned(v)
  {
    CommandKeepsValid(x, DoAward(now));
  }

  lemma AwardKeeps(a: Id, v: View, x: AuctionDomain.AuctionState, now: Time)
    requires ViewInv(a, v) && v.auction == Some(x)
    requires v.saga.Some? && v.saga.value.runnerUpQualifies && FirstIs(v, InvoiceDomain.Expired)
    ensures var r := Perform(x, DoAward(now));
      if r.Ok? then Kept(a, v, AfterCommand(v, x, DoAward(now))) && Reassigned(AfterCommand(v, x, DoAward(now)))
      else r.error == AuctionDomain.ErrWinnerAlreadyReassigned && Reassigned(v)
  {
    AwardKeepsRows(a, v, x, now);
    if Perform(x, DoAward(now)).Ok? {
      var v' := AfterCommand(v, x, DoAward(now));
      EventsStayTrue(a, v, v');
      var e :| e in Emitted(x, DoAward(now));
      assert e in v'.events && e.WinnerReassignedV1?;
    }
  }

  /** Confirming a sale with a paid invoice is never refused. */
  lemma ConfirmKeepsRows(a: Id, v: View, x: AuctionDomain.AuctionState, now: Time)
    requires RowsAgree(a, v) && v.auction == Some(x) && v.saga.Some? && SomeonePaid(v)
    ensures var r := Perform(x, DoConfirm(now));
      if r.Ok?
      then
        var v' := AfterCommand(v, x, DoConfirm(now));
        RowsAgree(a, v') && Evolves(v, v') && v'.events == v.events && SoldAndSettled(v')
        && RunnerUpOf(v'.auction.value) == RunnerUpOf(x) && v'.auction.value.outcome == AuctionDomain.Sold
      else r.error == AuctionDomain.ErrAlreadySettled && SoldAndSettled(v)
  {
    CommandKeepsValid(x, DoConfirm(now));
  }

  lemma ConfirmKeeps(a: Id, v: View, x: AuctionDomain.AuctionState, now: Time)
    requires ViewInv(a, v) && v.auction == Some(x) && v.saga.Some? && SomeonePaid(v)
    ensures var r := Perform(x, DoConfirm(now));
      if r.Ok? then Kept(a, v, AfterCommand(v, x, DoConfirm(now))) && SoldAndSettled(AfterCommand(v, x, DoConfirm(now)))
      else r.error == AuctionDomain.ErrAlreadySettled && SoldAndSettled(v)
  {
    ConfirmKeepsRows(a, v, x, now);
    if Perform(x, DoConfirm(now)).Ok? {
      EventsStayTrue(a, v, AfterCommand(v, x, DoConfirm(now)));
      EvidenceStays(a, v, AfterCommand(v, x, DoConfirm(now)));
    }
  }

  /** Failing a sale that can no longer be paid is never refused. */
  lemma FailKeepsRows(a: Id, v: View, x: AuctionDomain.AuctionState, reason: FailureReason, now: Time)
    requires RowsAgree(a, v) && v.auction == Some(x) && DeadSale(v) && reason != NoReason
    ensures var r := Perform(x, DoFail(reason, now));
      if r.Ok?
      then
        var v' := AfterCommand(v, x, DoFail(reason, now));
        RowsAgree(a, v') && Evolves(v, v') && v'.events == v.events && SaleFailed(v')
        && RunnerUpOf(v'.auction.value) == RunnerUpOf(x)
      else r.error == AuctionDomain.ErrSaleAlreadyFailed && SaleFailed(v)
  {
    CommandKeepsValid(x, DoFail(reason, now));
  }

  lemma FailKeeps(a: Id, v: View, x: AuctionDomain.AuctionState, reason: FailureReason, now: Time)
    requires ViewInv(a, v) && v.auction == Some(x) && DeadSale(v) && reason != NoReason
    ensures var r := Perform(x, DoFail(reason, now));
      if r.Ok?
      then Kept(a, v, AfterCommand(v, x, DoFail(reason, now))) && SaleFailed(AfterCommand(v, x, DoFail(reason, now)))
      else r.error == AuctionDomain.ErrSaleAlreadyFailed && SaleFailed(v)
  {
    FailKeepsRows(a, v, x, reason, now);
    if Perform(x, DoFail(reason, now)).Ok? {
      EventsStayTrue(a, v, AfterCommand(v, x, DoFail(reason, now)));
      EvidenceStays(a, v, AfterCommand(v, x, DoFail(reason, now)));
    }
  }

  lemma RelistKeeps(a: Id, v: View)
    requires ViewInv(a, v) && SaleFailed(v) && v.saga.Some? && v.saga.value.relistGen == 0
    ensures Kept(a, v, v.(relisted := true))
  {
    EventsStayTrue(a, v, v.(relisted := true));
    EvidenceStays(a, v, v.(relisted := true));
  }

  // ---------- The invoices ----------

  lemma IssueFirstKeeps(a: Id, v: View, i: InvoiceDomain.InvoiceState)
    requires ViewInv(a, v) && v.saga.Some? && v.first.None?
    requires InvoiceIs(i, a, 1, v.saga.value.hammer) && i.status == InvoiceDomain.Pending
    requires v.saga.value.attempt == 1 ==> i.debtor == v.saga.value.winner
    ensures Kept(a, v, v.(first := Some(i)))
  {
  }

  lemma IssueSecondKeeps(a: Id, v: View, i: InvoiceDomain.InvoiceState)
    requires ViewInv(a, v) && v.saga.Some? && v.second.None? && Reassigned(v)
    requires InvoiceIs(i, a, 2, v.saga.value.runnerUpAmount) && i.debtor == v.saga.value.runnerUp
    requires i.status == InvoiceDomain.Pending
    ensures Kept(a, v, v.(second := Some(i)))
  {
    EventsStayTrue(a, v, v.(second := Some(i)));
    EvidenceStays(a, v, v.(second := Some(i)));
  }

  /** A pending invoice was paid, expired or voided: only its status and reference moved. */
  ghost predicate Closes(i: Option<InvoiceDomain.InvoiceState>, i': InvoiceDomain.InvoiceState) {
    && i.Some? && i.value.status == InvoiceDomain.Pending && i'.status != InvoiceDomain.Pending
    && InvoiceDomain.Readable(i')
    && i' == i.value.(status := i'.status, pspRef := i'.pspRef, version := i'.version)
  }

  /** The event that goes with the new status; a void is silent. */
  ghost predicate Announces(a: Id, i': InvoiceDomain.InvoiceState, es: set<Event>) {
    match i'.status
    case Paid => exists e :: es == {e} && e.InvoicePaidV1? && e.invoiceId == i'.id && e.auctionId == a
    case Expired => exists e :: es == {e} && e.InvoiceExpiredV1? && e.invoiceId == i'.id && e.auctionId == a
    case _ => es == {}
  }

  lemma FirstClosesKeeps(a: Id, v: View, i': InvoiceDomain.InvoiceState, es: set<Event>)
    requires ViewInv(a, v) && Closes(v.first, i') && i'.status != InvoiceDomain.Voided && Announces(a, i', es)
    ensures Kept(a, v, v.(first := Some(i'), events := v.events + es))
  {
    var v' := v.(first := Some(i'), events := v.events + es);
    assert !Reassigned(v) && v.second.None? && !SaleFailed(v);
    EventsStayTrue(a, v, v');
    var e :| es == {e};
    assert e in v'.events;
    assert EventPart(a, v', e);
  }

  lemma SecondClosesKeeps(a: Id, v: View, i': InvoiceDomain.InvoiceState, es: set<Event>)
    requires ViewInv(a, v) && Closes(v.second, i') && Announces(a, i', es)
    ensures Kept(a, v, v.(second := Some(i'), events := v.events + es))
  {
    var v' := v.(second := Some(i'), events := v.events + es);
    assert Reassigned(v) && !SaleFailed(v);
    EventsStayTrue(a, v, v');
    if i'.status != InvoiceDomain.Voided {
      var e :| es == {e};
      assert e in v'.events;
      assert EventPart(a, v', e);
    }
  }

  // ---------- The saga ----------

  lemma StartKeeps(a: Id, v: View, e: Event)
    requires ViewInv(a, v) && v.saga.None? && e in v.events && e.AuctionClosedV1? && e.outcome == "sold"
    ensures BuildClosing(e).Ok? && Kept(a, v, v.(saga := Some(Start(BuildClosing(e).value))))
  {
    assert EventPart(a, v, e);
  }

  /** The slice after its saga committed s. */
  ghost function AfterSagaCommit(v: View, s: SettlementState): View {
    v.(saga := Some(s.(version := s.version + 1)))
  }

  lemma CommitKeepsRows(a: Id, v: View, s: SettlementState)
    requires RowsAgree(a, v) && v.saga.Some? && SagaEvolves(v.saga.value, s)
    requires SagaPart(a, v.(saga := Some(s))) && StagePart(v.(saga := Some(s)))
    ensures RowsAgree(a, v.(saga := Some(s)))
  {
  }

  lemma CommitKeeps(a: Id, v: View, s: SettlementState)
    requires ViewInv(a, v) && v.saga.Some? && SagaEvolves(v.saga.value, s)
    requires SagaPart(a, v.(saga := Some(s))) && StagePart(v.(saga := Some(s)))
    ensures Kept(a, v, v.(saga := Some(s)))
  {
    CommitKeepsRows(a, v, s);
    EventsStayTrue(a, v, v.(saga := Some(s)));
    EvidenceStays(a, v, v.(saga := Some(s)));
  }

  lemma InvoiceIssuedKeepsRows(a: Id, v: View, inv: Id)
    requires RowsAgree(a, v) && v.saga.Some?
    ensures var r := InvoiceIssued(v.saga.value, inv);
      if r.Ok?
      then
        var s := r.value.(version := r.value.version + 1);
        SagaEvolves(v.saga.value, s) && SagaPart(a, v.(saga := Some(s))) && s.state == AwaitingPayment
      else r.error == ErrUnexpectedTransition
  {
  }

  lemma InvoiceIssuedKeeps(a: Id, v: View, inv: Id)
    requires ViewInv(a, v) && v.saga.Some? && v.first.Some?
    ensures var r := InvoiceIssued(v.saga.value, inv);
      if r.Ok? then Kept(a, v, AfterSagaCommit(v, r.value)) && r.value.state == AwaitingPayment
      else r.error == ErrUnexpectedTransition
  {
    InvoiceIssuedKeepsRows(a, v, inv);
    var r := InvoiceIssued(v.saga.value, inv);
    if r.Ok? {
      CommitKeeps(a, v, r.value.(version := r.value.version + 1));
    }
  }

  lemma PaymentReceivedKeepsRows(a: Id, v: View, inv: Id)
    requires RowsAgree(a, v) && v.saga.Some? && SoldAndSettled(v)
    ensures var r := PaymentReceived(v.saga.value, inv);
      if r.Ok?
      then
        var s := r.value.(version := r.value.version + 1);
        SagaEvolves(v.saga.value, s) && SagaPart(a, v.(saga := Some(s))) && s.state == Settled
      else r.error == ErrUnexpectedTransition
  {
  }

  lemma PaymentReceivedKeeps(a: Id, v: View, inv: Id)
    requires ViewInv(a, v) && v.saga.Some? && SoldAndSettled(v)
    ensures var r := PaymentReceived(v.saga.value, inv);
      if r.Ok? then Kept(a, v, AfterSagaCommit(v, r.value)) && r.value.state == Settled
      else r.error == ErrUnexpectedTransition
  {
    PaymentReceivedKeepsRows(a, v, inv);
    var r := PaymentReceived(v.saga.value, inv);
    if r.Ok? {
      CommitKeeps(a, v, r.value.(version := r.value.version + 1));
    }
  }

  /** What the effects of a compensation step must have left behind before its commit. */
  ghost predicate StepDone(v: View, step: NextStep) {
    v.saga.Some? &&
    match step
    case StepAwardRunnerUp => Reassigned(v)
    case StepRelist => SaleFailed(v) && v.relisted && v.saga.value.relistGen == 0
    case StepFailUnsold => SaleFailed(v) && v.saga.value.relistGen == 1
  }

  lemma ApplyNextStepKeeps(a: Id, v: View, step: NextStep, reason: FailureReason)
    requires ViewInv(a, v) && StepDone(v, step) && (reason == NoReason <==> step == StepAwardRunnerUp)
    ensures var r := ApplyNextStep(v.saga.value, step, reason);
      if r.Ok? then Kept(a, v, AfterSagaCommit(v, r.value)) && Rank(r.value.state) >= 2
      else r.error == ErrUnexpectedTransition && Rank(v.saga.value.state) >= 2
  {
    var r := ApplyNextStep(v.saga.value, step, reason);
    if r.Ok? {
      CommitKeeps(a, v, r.value.(version := r.value.version + 1));
    }
  }

  lemma OfferKeepsRows(a: Id, v: View, newWinner: Id, price: Money)
    requires RowsAgree(a, v) && v.saga.Some? && v.second.Some? && Rank(v.saga.value.state) >= 1
    requires newWinner == v.saga.value.runnerUp && price == v.saga.value.runnerUpAmount
    ensures var r := SecondChanceOffered(v.saga.value, newWinner, price, InvoiceFor(a, 2));
      if r.Ok?
      then
        var s := r.value.(version := r.value.version + 1);
        SagaEvolves(v.saga.value, s) && SagaPart(a, v.(saga := Some(s))) && s.state == SecondChancePayment
      else r.error == ErrUnexpectedTransition && Rank(v.saga.value.state) >= 3
  {
  }

  lemma OfferKeeps(a: Id, v: View, newWinner: Id, price: Money)
    requires ViewInv(a, v) && v.saga.Some? && v.second.Some? && Rank(v.saga.value.state) >= 1
    requires newWinner == v.saga.value.runnerUp && price == v.saga.value.runnerUpAmount
    ensures var r := SecondChanceOffered(v.saga.value, newWinner, price, InvoiceFor(a, 2));
      if r.Ok? then Kept(a, v, AfterSagaCommit(v, r.value)) && r.value.state == SecondChancePayment
      else r.error == ErrUnexpectedTransition && Rank(v.saga.value.state) >= 3
  {
    OfferKeepsRows(a, v, newWinner, price);
    var r := SecondChanceOffered(v.saga.value, newWinner, price, InvoiceFor(a, 2));
    if r.Ok? {
      CommitKeeps(a, v, r.value.(version := r.value.version + 1));
    }
  }
}
