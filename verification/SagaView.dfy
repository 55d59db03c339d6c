/**
  One auction's slice of the database, and what holds of it in every reachable state:
  facts spread over three aggregates, the outbox and the memories of running handlers.
 */
module SagaView {
  import opened Base
  import opened Events
  import AuctionDomain
  import opened AuctionRuns
  import InvoiceDomain
  import opened SettlementDomain
  import opened Database
  import opened Saga

  datatype View = View(
    auction: Option<AuctionDomain.AuctionState>,
    saga: Option<SettlementState>,
    first: Option<InvoiceDomain.InvoiceState>,
    second: Option<InvoiceDomain.InvoiceState>,
    relisted: bool,
    events: set<Event>)

  function At<T>(m: map<Id, T>, k: Id): Option<T> {
    if k in m then Some(m[k]) else None
  }

  function EventsOf(outbox: seq<Event>, a: Id): set<Event> {
    set e | e in outbox && SagaEvent(e) && e.auctionId == a
  }

  function ViewOf(db: Db, a: Id): View {
    View(At(db.auctions, a), At(db.sagas, a), At(db.invoices, InvoiceFor(a, 1)), At(db.invoices, InvoiceFor(a, 2)),
         RelistOf(a) in db.auctions, EventsOf(db.outbox, a))
  }

  // ---------- What a write does to every slice ----------

  lemma PutSagaViews(db: Db, s: SettlementState, b: Id)
    ensures ViewOf(PutSaga(db, s), b) ==
      if b == s.auctionId then ViewOf(db, b).(saga := Some(s)) else ViewOf(db, b)
  {
  }

  lemma EventsOfConcat(xs: seq<Event>, ys: seq<Event>, b: Id)
    ensures EventsOf(xs + ys, b) == EventsOf(xs, b) + EventsOf(ys, b)
  {
  }

  lemma PutInvoiceViews(db: Db, i: InvoiceDomain.InvoiceState, es: seq<Event>, b: Id)
    requires i.id == InvoiceFor(i.auctionId, i.attempt) && i.attempt in {1, 2}
    requires forall e | e in es && SagaEvent(e) :: e.auctionId == i.auctionId
    ensures ViewOf(PutInvoice(db, i, es), b) == (
      var v := ViewOf(db, b);
      if b != i.auctionId then v
      else if i.attempt == 1 then v.(first := Some(i), events := v.events + EventsOf(es, b))
      else v.(second := Some(i), events := v.events + EventsOf(es, b)))
  {
    EventsOfConcat(db.outbox, es, b);
  }

  lemma PutAuctionViews(db: Db, x: AuctionDomain.AuctionState, es: seq<Event>, b: Id)
    requires forall e | e in es && SagaEvent(e) :: e.auctionId == x.id
    ensures ViewOf(PutAuction(db, x, es), b) == (
      var v := ViewOf(db, b);
      if b == x.id then v.(auction := Some(x), events := v.events + EventsOf(es, b))
      else if RelistOf(b) == x.id then v.(relisted := true)
      else v)
  {
    EventsOfConcat(db.outbox, es, b);
  }

  /** The saga events a successful command publishes. */
  function Emitted(x: AuctionDomain.AuctionState, c: Command): set<Event>
    requires Perform(x, c).Ok?
  {
    var next := Perform(x, c).value.next;
    match c
    case DoClose(now) => {MapDomainEvent(next, AuctionDomain.AuctionClosed(AuctionDomain.Hammer(x), now)).value}
    case DoAward(now) => {MapDomainEvent(next, AuctionDomain.WinnerReassigned(x.runnerUpBid, now)).value}
    case _ => {}
  }

  lemma CommandKeepsId(x: AuctionDomain.AuctionState, c: Command)
    requires Perform(x, c).Ok?
    ensures Perform(x, c).value.next.id == x.id
  {
  }

  lemma EmittedByCommand(x: AuctionDomain.AuctionState, c: Command, b: Id)
    requires Perform(x, c).Ok?
    ensures var change := Perform(x, c).value; var es := MapDomainEvents(change.next, change.events);
      && (forall e | e in es && SagaEvent(e) :: e.auctionId == x.id)
      && EventsOf(es, b) == (if b == x.id then Emitted(x, c) else {})
  {
    var change := Perform(x, c).value;
    var es := change.events;
    if |es| == 2 {
      assert es[..1][..0] == [] && es[..1][0] == es[0];
      assert MapDomainEvents(change.next, es[..1]) == [];
    } else {
      assert es[..0] == [];
    }
  }

  // ---------- The invariant of one slice ----------

  ghost predicate FirstIs(v: View, st: InvoiceDomain.InvoiceStatus) {
    v.first.Some? && v.first.value.status == st
  }

  ghost predicate SecondIs(v: View, st: InvoiceDomain.InvoiceStatus) {
    v.second.Some? && v.second.value.status == st
  }

  ghost predicate SomeonePaid(v: View) {
    FirstIs(v, InvoiceDomain.Paid) || SecondIs(v, InvoiceDomain.Paid)
  }

  ghost predicate SoldAndSettled(v: View) {
    v.auction.Some? && v.auction.value.outcome == AuctionDomain.Sold && v.auction.value.settled
  }

  ghost predicate SaleFailed(v: View) {
    v.auction.Some? && v.auction.value.outcome == AuctionDomain.NotSold && v.auction.value.settled
  }

  ghost predicate Reassigned(v: View) { v.auction.Some? && v.auction.value.winnerReassigned }

  /** No invoice of this auction is paid and none ever will be. */
  ghost predicate DeadSale(v: View) {
    && v.saga.Some? && FirstIs(v, InvoiceDomain.Expired)
    && (if v.saga.value.runnerUpQualifies
        then SecondIs(v, InvoiceDomain.Expired) || SecondIs(v, InvoiceDomain.Voided)
        else v.second.None?)
  }

  /** The bid a second chance would go, or went, to. */
  function RunnerUpOf(x: AuctionDomain.AuctionState): AuctionDomain.Bid {
    if x.winnerReassigned then x.leadingBid else x.runnerUpBid
  }

  ghost predicate AuctionPart(a: Id, v: View) {
    v.auction.Some? ==>
      var x := v.auction.value;
      && Valid(x) && x.id == a
      && (a.Client? || a.RelistOf?)
      && x.relistOf == (if a.RelistOf? then a.original else Nil)
  }

  /** Without a saga nothing has been billed, awarded, settled or replaced. */
  ghost predicate Dormant(v: View) {
    && v.first.None? && v.second.None? && !v.relisted
    && (v.auction.Some? ==> !v.auction.value.settled && !v.auction.value.winnerReassigned)
  }

  ghost predicate SagaPart(a: Id, v: View)
    requires v.saga.Some? && v.auction.Some?
  {
    var s, x := v.saga.value, v.auction.value;
    && s.auctionId == a && a != Nil
    && x.status == AuctionDomain.Closed && (x.outcome == AuctionDomain.Sold || x.settled)
    && s.relistGen == x.relistGen
    && s.runnerUp == RunnerUpOf(x).bidder && s.runnerUpAmount == RunnerUpOf(x).amount
    && (s.runnerUpQualifies ==> s.runnerUp != Nil)
    && s.hammer.Valid() && s.winner != Nil
    && s.attempt in {1, 2} && s.invoiceId == InvoiceFor(a, s.attempt) && (s.attempt == 2 ==> x.winnerReassigned)
    && (!x.winnerReassigned ==> s.winner == x.leadingBid.bidder && s.hammer == x.leadingBid.amount)
    && (Rank(s.state) < 3 ==> s.attempt == 1) && (s.state == SecondChancePayment ==> s.attempt == 2)
    && (s.attempt == 2 ==> s.winner == s.runnerUp)
    && 1 <= s.version <= 1 + Rank(s.state)
  }

  ghost predicate InvoiceIs(i: InvoiceDomain.InvoiceState, a: Id, attempt: int, hammer: Money) {
    i.id == InvoiceFor(a, attempt) && i.auctionId == a && i.attempt == attempt && i.hammer == hammer
  }

  /** An invoice that has ended was read back on the way. */
  ghost predicate ReadWhenEnded(i: InvoiceDomain.InvoiceState) {
    i.status != InvoiceDomain.Pending ==> InvoiceDomain.Readable(i)
  }

  ghost predicate InvoicePart(a: Id, v: View)
    requires v.saga.Some?
  {
    var s := v.saga.value;
    && (v.first.Some? ==>
          InvoiceIs(v.first.value, a, 1, s.hammer) && (s.attempt == 1 ==> v.first.value.debtor == s.winner)
          && v.first.value.status != InvoiceDomain.Voided && ReadWhenEnded(v.first.value))
    && (v.second.Some? ==>
          InvoiceIs(v.second.value, a, 2, s.runnerUpAmount) && v.second.value.debtor == s.runnerUp
          && Reassigned(v) && ReadWhenEnded(v.second.value))
    && (Reassigned(v) ==> s.runnerUpQualifies && FirstIs(v, InvoiceDomain.Expired))
  }

  ghost predicate MoneyPart(v: View)
    requires v.saga.Some? && v.auction.Some?
  {
    && (SoldAndSettled(v) ==> SomeonePaid(v))
    && (SaleFailed(v) ==> DeadSale(v))
    && (v.relisted ==> SaleFailed(v) && v.auction.value.relistGen == 0)
  }

  /** What a committed saga state promises about the other contexts. */
  ghost predicate StagePart(v: View)
    requires v.saga.Some? && v.auction.Some?
  {
    match v.saga.value.state
    case Started => true
    case AwaitingPayment => v.first.Some?
    case AwardingRunnerUp => Reassigned(v)
    case SecondChancePayment => v.second.Some?
    case Settled => SoldAndSettled(v)
    case Relisted => SaleFailed(v) && v.relisted
    case FailedUnsold => SaleFailed(v) && v.auction.value.relistGen == 1
  }

  /** A published event is still true. */
  ghost predicate EventPart(a: Id, v: View, e: Event) {
    && SagaEvent(e) && e.auctionId == a && v.auction.Some?
    && if e.AuctionClosedV1? then
         && v.auction.value.status == AuctionDomain.Closed
         && e.outcome in {"sold", "not_sold"}
         && (e.outcome == "sold" ==> SoldEvent(v.auction.value, e))
       else if e.WinnerReassignedV1? then
         && v.saga.Some? && Reassigned(v)
         && e.newWinnerId == v.saga.value.runnerUp && Money(e.priceMinor, e.currency) == v.saga.value.runnerUpAmount
       else
         && v.saga.Some?
         && EndsInvoiceAs(a, v, e.invoiceId, if e.InvoicePaidV1? then InvoiceDomain.Paid else InvoiceDomain.Expired)
  }

  ghost predicate EndsInvoiceAs(a: Id, v: View, inv: Id, st: InvoiceDomain.InvoiceStatus) {
    (inv == InvoiceFor(a, 1) && FirstIs(v, st)) || (inv == InvoiceFor(a, 2) && SecondIs(v, st))
  }

  ghost predicate SoldEvent(x: AuctionDomain.AuctionState, e: Event)
    requires e.AuctionClosedV1?
  {
    && (x.outcome == AuctionDomain.Sold || x.settled)
    && BuildClosing(e).Ok?
    && var c := BuildClosing(e).value;
       && c.relistGen == x.relistGen
       && c.runnerUp == RunnerUpOf(x).bidder && c.runnerUpAmount == RunnerUpOf(x).amount
       && (!x.winnerReassigned ==> c.winner == x.leadingBid.bidder && c.hammer == x.leadingBid.amount)
  }

  ghost predicate PaidSeen(v: View, inv: Id) {
    exists e :: e in v.events && e.InvoicePaidV1? && e.invoiceId == inv
  }

  ghost predicate ExpiredSeen(v: View, inv: Id) {
    exists e :: e in v.events && e.InvoiceExpiredV1? && e.invoiceId == inv
  }

  ghost predicate AwardSeen(v: View) { exists e :: e in v.events && e.WinnerReassignedV1? }

  ghost predicate ClosingSeen(v: View) { exists e :: e in v.events && e.AuctionClosedV1? && e.outcome == "sold" }

  /** Whatever drives the saga on has been published. */
  ghost predicate EvidencePart(a: Id, v: View) {
    && (v.saga.Some? ==> ClosingSeen(v))
    && (Reassigned(v) ==> AwardSeen(v))
    && (FirstIs(v, InvoiceDomain.Paid) ==> PaidSeen(v, InvoiceFor(a, 1)))
    && (SecondIs(v, InvoiceDomain.Paid) ==> PaidSeen(v, InvoiceFor(a, 2)))
    && (FirstIs(v, InvoiceDomain.Expired) ==> ExpiredSeen(v, InvoiceFor(a, 1)))
    && (SecondIs(v, InvoiceDomain.Expired) ==> ExpiredSeen(v, InvoiceFor(a, 2)))
  }

  ghost predicate SettledPart(a: Id, v: View) {
    v.saga.Some? ==>
      v.auction.Some? && SagaPart(a, v) && InvoicePart(a, v) && MoneyPart(v) && StagePart(v)
  }

  /** The rows of the three contexts agree with each other. */
  ghost predicate RowsAgree(a: Id, v: View) {
    && AuctionPart(a, v)
    && (v.saga.None? ==> Dormant(v))
    && SettledPart(a, v)
  }

  ghost predicate EventsTrue(a: Id, v: View) {
    forall e | e in v.events :: EventPart(a, v, e)
  }

  ghost predicate ViewInv(a: Id, v: View) {
    RowsAgree(a, v) && EventsTrue(a, v) && EvidencePart(a, v)
  }

  // ---------- What never goes back ----------

  ghost predicate InvoiceEvolves(i: Option<InvoiceDomain.InvoiceState>, i': Option<InvoiceDomain.InvoiceState>) {
    i.Some? ==>
      && i'.Some?
      && i'.value == i.value.(status := i'.value.status, pspRef := i'.value.pspRef, version := i'.value.version)
      && (i.value.status != InvoiceDomain.Pending ==> i'.value.status == i.value.status)
  }

  ghost predicate AuctionEvolves(x: AuctionDomain.AuctionState, y: AuctionDomain.AuctionState) {
    && y.relistGen == x.relistGen
    && (x.status == AuctionDomain.Closed ==> y.status == AuctionDomain.Closed)
    && (x.winnerReassigned ==> y.winnerReassigned)
    && (x.settled ==> y.settled && y.outcome == x.outcome)
  }

  ghost predicate SagaEvolves(s: SettlementState, t: SettlementState) {
    && t == s.(state := t.state, winner := t.winner, attempt := t.attempt, invoiceId := t.invoiceId,
               failureReason := t.failureReason, version := t.version)
    && (t.attempt == 1 ==> t.winner == s.winner && s.attempt == 1)
    && Rank(t.state) >= Rank(s.state)
    && (IsTerminal(s.state) ==> t.state == s.state)
  }

  ghost predicate Evolves(v: View, v': View) {
    && (v.auction.Some? ==> v'.auction.Some? && AuctionEvolves(v.auction.value, v'.auction.value))
    && (v.saga.Some? ==> v'.saga.Some? && SagaEvolves(v.saga.value, v'.saga.value))
    && InvoiceEvolves(v.first, v'.first) && InvoiceEvolves(v.second, v'.second)
    && (v.relisted ==> v'.relisted)
    && v.events <= v'.events
  }

  lemma EvolvesFurther(v: View, v': View, v'': View)
    requires Evolves(v, v') && Evolves(v', v'')
    ensures Evolves(v, v'')
  {
  }

  lemma DeadSaleStays(a: Id, v: View, v': View)
    requires ViewInv(a, v) && ViewInv(a, v') && Evolves(v, v') && DeadSale(v)
    ensures DeadSale(v')
  {
  }
}
