/**
  The inductive invariant of the composed system: every slice of the database, what every
  running handler remembers, and what an acknowledged event has achieved.
 */
module SagaInvariant {
  import opened Base
  import opened Events
  import AuctionDomain
  import InvoiceDomain
  import opened SettlementDomain
  import opened Database
  import opened Saga
  import opened SagaView
  import opened SagaEffects
  import opened SagaCalls

  /** What may make a decline fail: a broken clock, or a second bill whose row cannot be read back. */
  ghost predicate Excusable(f: Fault, v: View, sane: bool) {
    (ClockFault(f) && !sane) || (f == UNREADABLE && Unreadable(v))
  }

  /** The only refusals left to an event handler are those of a broken clock. */
  predicate ClockFault(f: Fault) {
    f in {BillingFault(InvoiceDomain.ErrInvalidInvoice), AuctionFault(AuctionDomain.ErrInvalidBiddingWindow)}
  }

  /** What an acknowledged event has achieved, unless its handler looked too early. */
  ghost predicate Heard(a: Id, v: View, e: Event, early: set<Event>) {
    v.saga.Some? && e in v.events && SagaEvent(e) && e.auctionId == a &&
    var st := v.saga.value.state;
    if e.AuctionClosedV1? then st != Started
    else if e.InvoicePaidV1? then st == Settled || (e.invoiceId == InvoiceFor(a, 2) && e in early)
    else if e.InvoiceExpiredV1? then
      if e.invoiceId == InvoiceFor(a, 1) then Rank(st) >= 2 else IsTerminal(st) || e in early
    else Rank(st) >= 3 || e in early
  }

  ghost predicate Acknowledged(a: Id, v: View, e: Event, early: set<Event>) {
    e in v.events && (Heard(a, v, e, early) || (e.AuctionClosedV1? && e.outcome == "not_sold"))
  }

  /** A compensation step matches the generation of the listing. */
  ghost predicate StepFits(v: View, step: NextStep) {
    v.saga.Some? &&
    (step == StepRelist ==> v.saga.value.relistGen == 0) && (step == StepFailUnsold ==> v.saga.value.relistGen == 1)
  }

  /** The saga got as far as the second invoice. */
  ghost predicate Offered(v: View) { v.saga.Some? && Rank(v.saga.value.state) >= 3 }

  ghost predicate GaveUp(v: View) { v.saga.Some? && v.saga.value.state in {Relisted, FailedUnsold} }

  ghost predicate IsRunnerUp(v: View, actor: Id) { v.saga.Some? && actor == v.saga.value.runnerUp && actor != Nil }

  // ---------- What a handler remembers ----------

  ghost predicate ClosedTask(a: Id, v: View, e: Event, pc: Pc)
    requires e.AuctionClosedV1?
  {
    if pc.Begin? then true
    else if pc.Loading? then e.outcome == "sold" && v.saga.Some? && pc.closing.auctionId == a
    else if pc.Issuing? then
      var s := pc.snapshot;
      && e.outcome == "sold" && v.saga.Some?
      && s.auctionId == a && s.attempt == 1 && s.invoiceId == InvoiceFor(a, 1)
      && s.hammer == v.saga.value.hammer && s.winner != Nil
      && (v.saga.value.attempt == 1 ==> v.saga.value.winner == s.winner)
    else
      && pc.CommitIssued?
      && e.outcome == "sold" && v.saga.Some? && pc.invoice == InvoiceFor(a, 1) && v.first.Some?
  }

  ghost predicate PaidTask(a: Id, v: View, e: Event, pc: Pc)
    requires e.InvoicePaidV1?
  {
    if pc.Begin? then true
    else
      && (pc.Confirming? || pc.CommitPaid?)
      && v.saga.Some? && (if pc.Confirming? then SomeonePaid(v) else SoldAndSettled(v))
      && (e.invoiceId == InvoiceFor(a, 2) ==> Offered(v))
  }

  /** Giving up takes the expiry of the last invoice there can be. */
  ghost predicate LastExpiry(a: Id, v: View, e: Event, step: NextStep)
    requires e.InvoiceExpiredV1?
  {
    step != StepAwardRunnerUp && v.saga.Some? && v.saga.value.runnerUpQualifies ==> e.invoiceId == InvoiceFor(a, 2)
  }

  ghost predicate ExpiredTask(a: Id, v: View, e: Event, pc: Pc)
    requires e.InvoiceExpiredV1?
  {
    if pc.Begin? then true
    else if pc.Compensating? then
      && StepFits(v, pc.step) && LastExpiry(a, v, e, pc.step)
      && (if pc.step == StepAwardRunnerUp
          then v.saga.value.runnerUpQualifies && FirstIs(v, InvoiceDomain.Expired) && e.invoiceId == InvoiceFor(a, 1)
          else DeadSale(v))
      && (e.invoiceId == InvoiceFor(a, 2) ==> Offered(v))
    else if pc.Relisting? then
      && pc.step == StepRelist && StepFits(v, pc.step) && SaleFailed(v) && LastExpiry(a, v, e, pc.step)
      && (e.invoiceId == InvoiceFor(a, 2) ==> Offered(v))
    else
      && pc.CommitStep? && StepDone(v, pc.step) && LastExpiry(a, v, e, pc.step)
      && (e.invoiceId == InvoiceFor(a, 2) ==> Offered(v) && pc.step != StepAwardRunnerUp)
  }

  ghost predicate ReassignedTask(a: Id, v: View, e: Event, pc: Pc) {
    if pc.Begin? then true
    else if pc.Issuing? then
      && v.saga.Some? && Reassigned(v) && Rank(v.saga.value.state) >= 1
      && pc.snapshot.runnerUp == v.saga.value.runnerUp && pc.snapshot.runnerUpAmount == v.saga.value.runnerUpAmount
    else pc.CommitOffer? && v.saga.Some? && v.second.Some? && Rank(v.saga.value.state) >= 1
  }

  /** A decline past its decide phase: the offer was open to this actor, and nothing can be awarded any more. */
  ghost predicate OfferSeen(v: View, actor: Id, step: NextStep) {
    Offered(v) && v.second.Some? && IsRunnerUp(v, actor) && StepFits(v, step) && step != StepAwardRunnerUp
  }

  ghost predicate DeclineTask(a: Id, v: View, actor: Id, pc: Pc, sane: bool) {
    if pc.Begin? then true
    else if pc.Voiding? then OfferSeen(v, actor, pc.step) && pc.offer == InvoiceFor(a, 2)
    else if pc.Compensating? then OfferSeen(v, actor, pc.step) && DeadSale(v)
    else if pc.Relisting? then OfferSeen(v, actor, pc.step) && pc.step == StepRelist && SaleFailed(v)
    else if pc.CommitStep? then OfferSeen(v, actor, pc.step) && StepDone(v, pc.step)
    else if pc.Rereading? then IsRunnerUp(v, actor) && GaveUp(v)
    else
      && pc.Answered?
      && (pc.answer == Declined ==> IsRunnerUp(v, actor) && GaveUp(v))
      && (pc.answer == OfferAlreadyPaid ==> SomeonePaid(v))
      && (pc.answer.DeclineFailed? ==> Excusable(pc.answer.fault, v, sane))
  }

  ghost predicate TaskInv(t: Task, v: View, early: set<Event>, sane: bool) {
    match t.trigger
    case OnDecline(actor) => DeclineTask(t.auction, v, actor, t.pc, sane)
    case OnEvent(e) =>
      SagaEvent(e) && e.auctionId == t.auction && e in v.events && Memory(t.auction, v, e, t.pc, early, sane)
  }

  ghost predicate Memory(a: Id, v: View, e: Event, pc: Pc, early: set<Event>, sane: bool)
    requires SagaEvent(e)
  {
    if pc.Acking? then Acknowledged(a, v, e, early)
    else if pc.Nacked? then ClockFault(pc.fault) && !sane
    else EventTask(a, v, e, pc)
  }

  ghost predicate EventTask(a: Id, v: View, e: Event, pc: Pc)
    requires SagaEvent(e)
  {
    if e.AuctionClosedV1? then ClosedTask(a, v, e, pc)
    else if e.InvoicePaidV1? then PaidTask(a, v, e, pc)
    else if e.InvoiceExpiredV1? then ExpiredTask(a, v, e, pc)
    else ReassignedTask(a, v, e, pc)
  }

  // ---------- Memories survive what others do ----------

  lemma HeardStays(a: Id, v: View, v': View, e: Event, early: set<Event>, early': set<Event>)
    requires Acknowledged(a, v, e, early) && Evolves(v, v') && early <= early'
    ensures Acknowledged(a, v', e, early')
  {
  }

  lemma EventTaskStays(a: Id, v: View, v': View, e: Event, pc: Pc)
    requires ViewInv(a, v) && ViewInv(a, v') && Evolves(v, v') && SagaEvent(e) && EventTask(a, v, e, pc)
    ensures EventTask(a, v', e, pc)
  {
    if DeadSale(v) { DeadSaleStays(a, v, v'); }
  }

  lemma AnswerStays(a: Id, v: View, v': View, actor: Id, answer: DeclineAnswer, sane: bool)
    requires Evolves(v, v') && DeclineTask(a, v, actor, Answered(answer), sane)
    ensures DeclineTask(a, v', actor, Answered(answer), sane)
  {
  }

  lemma OnItsWayStays(a: Id, v: View, v': View, actor: Id, pc: Pc, sane: bool)
    requires ViewInv(a, v) && ViewInv(a, v') && Evolves(v, v')
    requires !pc.Answered? && DeclineTask(a, v, actor, pc, sane)
    ensures DeclineTask(a, v', actor, pc, sane)
  {
    if DeadSale(v) { DeadSaleStays(a, v, v'); }
  }

  lemma DeclineTaskStays(a: Id, v: View, v': View, actor: Id, pc: Pc, sane: bool)
    requires ViewInv(a, v) && ViewInv(a, v') && Evolves(v, v') && DeclineTask(a, v, actor, pc, sane)
    ensures DeclineTask(a, v', actor, pc, sane)
  {
    if pc.Answered? {
      AnswerStays(a, v, v', actor, pc.answer, sane);
    } else {
      OnItsWayStays(a, v, v', actor, pc, sane);
    }
  }

  lemma TaskStays(t: Task, v: View, v': View, early: set<Event>, early': set<Event>, sane: bool)
    requires ViewInv(t.auction, v) && ViewInv(t.auction, v') && Evolves(v, v') && early <= early'
    requires TaskInv(t, v, early, sane)
    ensures TaskInv(t, v', early', sane)
  {
    match t.trigger
    case OnDecline(actor) => DeclineTaskStays(t.auction, v, v', actor, t.pc, sane);
    case OnEvent(e) =>
      if t.pc.Acking? {
        HeardStays(t.auction, v, v', e, early, early');
      } else if !t.pc.Nacked? {
        EventTaskStays(t.auction, v, v', e, t.pc);
      }
  }
}
