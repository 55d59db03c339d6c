/**
  The three aggregates as database rows: nullable columns, one currency column per row,
  names for the closed enumerations, whole seconds for the anti-snipe spans.
 */
module Rows {
  import opened Base
  import AuctionDomain
  import opened AuctionRuns
  import opened Events
  import InvoiceDomain
  import SettlementDomain

  const SECOND: Duration := 1_000_000_000

  datatype RowError = InvalidRow

  function Column<T>(present: bool, value: T): Option<T> {
    if present then Some(value) else None
  }

  // ---------- Auctions ----------

  datatype PgAuction = PgAuction(
    id: Id, sellerId: Id, title: string, description: string, currency: Currency,
    startPriceMinor: int, incrementMinor: int, reservePriceMinor: Option<int>,
    startsAt: Time, endsAt: Time, originalEndsAt: Time,
    snipeWindowSec: int, snipeExtensionSec: int, snipeMaxExt: int, verifyAboveMinor: int,
    extensionsUsed: int, status: string, outcome: Option<string>,
    leadingBidId: Option<Id>, leadingBidderId: Option<Id>,
    leadingAmountMinor: Option<int>, leadingPlacedAt: Option<Time>,
    runnerUpBidId: Option<Id>, runnerUpBidderId: Option<Id>,
    runnerUpAmountMinor: Option<int>, runnerUpPlacedAt: Option<Time>,
    winnerReassigned: bool, bidCount: int, relistOf: Option<Id>, relistGeneration: int,
    settled: bool, version: int)

  function StatusName(s: AuctionDomain.Status): string {
    match s
    case Listed => "listed"
    case Cancelled => "cancelled"
    case Closed => "closed"
  }

  function StatusFromString(s: string): Option<AuctionDomain.Status> {
    if s == "listed" then Some(AuctionDomain.Listed)
    else if s == "cancelled" then Some(AuctionDomain.Cancelled)
    else if s == "closed" then Some(AuctionDomain.Closed)
    else None
  }

  function OutcomeFromString(s: string): Option<AuctionDomain.Outcome> {
    if s == "sold" then Some(AuctionDomain.Sold) else if s == "not_sold" then Some(AuctionDomain.NotSold) else None
  }

  function ToPgAuction(a: AuctionDomain.AuctionState): PgAuction {
    var led, ranUp := a.leadingBid != AuctionDomain.NO_BID, a.runnerUpBid != AuctionDomain.NO_BID;
    PgAuction(
      a.id, a.seller, a.lot.title, a.lot.description, a.startPrice.currency,
      a.startPrice.amount, a.increment.amount, Column(a.reserve != ZERO_MONEY, a.reserve.amount),
      a.window.startsAt, a.window.endsAt, a.window.originalEndsAt,
      Quo(a.antiSnipe.window, SECOND), Quo(a.antiSnipe.extension, SECOND), a.antiSnipe.maxExtensions,
      a.verifyAbove.amount, a.extensionsUsed, StatusName(a.status),
      Column(a.outcome != AuctionDomain.NoOutcome, OutcomeName(a.outcome)),
      Column(led, a.leadingBid.id), Column(led, a.leadingBid.bidder),
      Column(led, a.leadingBid.amount.amount), Column(led, a.leadingBid.placedAt),
      Column(ranUp, a.runnerUpBid.id), Column(ranUp, a.runnerUpBid.bidder),
      Column(ranUp, a.runnerUpBid.amount.amount), Column(ranUp, a.runnerUpBid.placedAt),
      a.winnerReassigned, a.bidCount, Column(a.relistOf != Nil, a.relistOf), a.relistGen, a.settled, a.version)
  }

  /** NULL in the first column means no bid; NULL in another one is corruption. */
  function BidFromColumns(id: Option<Id>, bidder: Option<Id>, amount: Option<int>, placedAt: Option<Time>,
                          currency: Currency): Option<AuctionDomain.Bid>
  {
    if id.None? then Some(AuctionDomain.NO_BID)
    else if bidder.None? || amount.None? || placedAt.None? then None
    else if !Money(amount.value, currency).Valid() then None
    else AuctionDomain.NewBid(id.value, bidder.value, Money(amount.value, currency), placedAt.value)
  }

  /** None when the column holds an amount no reserve price can have. */
  function ReserveFromColumn(c: Option<int>, currency: Currency): Option<Money> {
    match c
    case None => Some(ZERO_MONEY)
    case Some(amount) => if amount > 0 && Money(amount, currency).Valid() then Some(Money(amount, currency)) else None
  }

  function OutcomeFromColumn(c: Option<string>): Option<AuctionDomain.Outcome> {
    match c
    case None => Some(AuctionDomain.NoOutcome)
    case Some(name) => OutcomeFromString(name)
  }

  predicate NullOrId(c: Option<Id>) { c != Some(Nil) }

  function IdOrNil(c: Option<Id>): Id { if c.None? then Nil else c.value }

  function ToDomainAuction(p: PgAuction): Result<AuctionDomain.AuctionState, RowError> {
    var reserve := ReserveFromColumn(p.reservePriceMinor, p.currency);
    var window := AuctionDomain.UnmarshalBiddingWindow(p.startsAt, p.endsAt, p.originalEndsAt);
    var antiSnipe :=
      AuctionDomain.NewAntiSnipePolicy(p.snipeWindowSec * SECOND, p.snipeExtensionSec * SECOND, p.snipeMaxExt);
    var status := StatusFromString(p.status);
    var outcome := OutcomeFromColumn(p.outcome);
    var leading :=
      BidFromColumns(p.leadingBidId, p.leadingBidderId, p.leadingAmountMinor, p.leadingPlacedAt, p.currency);
    var runnerUp :=
      BidFromColumns(p.runnerUpBidId, p.runnerUpBidderId, p.runnerUpAmountMinor, p.runnerUpPlacedAt, p.currency);
    if p.id == Nil || p.sellerId == Nil || AuctionDomain.IsBlank(p.title) || !ValidCurrency(p.currency)
       || !Money(p.startPriceMinor, p.currency).Valid() || !Money(p.incrementMinor, p.currency).Valid()
       || reserve.None? || window.None? || antiSnipe.None? || !Money(p.verifyAboveMinor, p.currency).Valid()
       || status.None? || outcome.None? || leading.None? || runnerUp.None? || !NullOrId(p.relistOf)
    then Err(InvalidRow)
    else
      match AuctionDomain.UnmarshalFromDatabase(AuctionDomain.AuctionState(
        p.id, p.sellerId, AuctionDomain.Lot(p.title, p.description),
        Money(p.startPriceMinor, p.currency), Money(p.incrementMinor, p.currency), reserve.value,
        window.value, antiSnipe.value, Money(p.verifyAboveMinor, p.currency),
        p.extensionsUsed, status.value, outcome.value, leading.value, runnerUp.value,
        p.winnerReassigned, p.bidCount, IdOrNil(p.relistOf), p.relistGeneration, p.settled, p.version))
      case Err(_) => Err(InvalidRow)
      case Ok(a) => Ok(a)
  }

  predicate WholeSeconds(p: AuctionDomain.AntiSnipePolicy) {
    p.window % SECOND == 0 && p.extension % SECOND == 0
  }

  lemma SecondsTruncate(d: Duration)
    requires d > 0
    ensures Quo(d, SECOND) * SECOND == d <==> d % SECOND == 0
  {
  }

  lemma BidColumnsRoundTrip(b: AuctionDomain.Bid, currency: Currency)
    requires b == AuctionDomain.NO_BID
             || (b.id != Nil && b.bidder != Nil && b.placedAt != ZERO_TIME
                 && b.amount.Valid() && b.amount.currency == currency)
    ensures var placed := b != AuctionDomain.NO_BID;
      BidFromColumns(Column(placed, b.id), Column(placed, b.bidder), Column(placed, b.amount.amount),
                     Column(placed, b.placedAt), currency) == Some(b)
  {
  }

  /**
    A valid aggregate survives the row exactly if its anti-snipe spans are whole seconds:
    the two columns keep no more, and nothing else is lost.
   */
  lemma AuctionRoundTrip(a: AuctionDomain.AuctionState)
    requires Valid(a)
    ensures ToDomainAuction(ToPgAuction(a)) == Ok(a) <==> WholeSeconds(a.antiSnipe)
  {
    SecondsTruncate(a.antiSnipe.window);
    SecondsTruncate(a.antiSnipe.extension);
    BidColumnsRoundTrip(a.leadingBid, a.startPrice.currency);
    BidColumnsRoundTrip(a.runnerUpBid, a.startPrice.currency);
    var p := ToPgAuction(a);
    assert ReserveFromColumn(p.reservePriceMinor, p.currency) == Some(a.reserve);
    assert OutcomeFromColumn(p.outcome) == Some(a.outcome);
    assert StatusFromString(p.status) == Some(a.status);
    assert AuctionDomain.UnmarshalBiddingWindow(p.startsAt, p.endsAt, p.originalEndsAt) == Some(a.window);
  }

  /** Where a bid's id is NULL, so are its other columns. */
  predicate NullTogether(p: PgAuction) {
    && (p.leadingBidId.None? ==> p.leadingBidderId.None? && p.leadingAmountMinor.None? && p.leadingPlacedAt.None?)
    && (p.runnerUpBidId.None? ==> p.runnerUpBidderId.None? && p.runnerUpAmountMinor.None? && p.runnerUpPlacedAt.None?)
  }

  /** A bid read back is complete. */
  ghost predicate ReadBid(b: AuctionDomain.Bid) {
    b == AuctionDomain.NO_BID || (b.id != Nil && b.bidder != Nil && b.amount.Valid() && b.placedAt != ZERO_TIME)
  }

  /** Whatever row is read back gives a sound aggregate, and writing that one gives the row again. */
  lemma ReadAuctionIsSound(p: PgAuction)
    requires ToDomainAuction(p).Ok?
    ensures var a := ToDomainAuction(p).value;
      && a.id != Nil && a.seller != Nil && !AuctionDomain.IsBlank(a.lot.title) && a.version >= 1
      && a.startPrice.Valid() && a.increment.Valid() && a.verifyAbove.Valid()
      && (a.reserve == ZERO_MONEY || (a.reserve.Valid() && a.reserve.amount > 0))
      && ZERO_TIME < a.window.startsAt < a.window.endsAt && ZERO_TIME < a.window.originalEndsAt <= a.window.endsAt
      && ReadBid(a.leadingBid) && ReadBid(a.runnerUpBid)
      && (NullTogether(p) ==> ToPgAuction(a) == p)
  {
    var a := ToDomainAuction(p).value;
    assert a.antiSnipe.window == p.snipeWindowSec * SECOND && a.antiSnipe.extension == p.snipeExtensionSec * SECOND;
    assert !ValidCurrency("");
  }

  /** The UPDATE statement: it writes the columns a command may change, guarded by the version read. */
  function UpdateColumns(row: PgAuction, up: PgAuction, expected: int): Option<PgAuction> {
    if row.version != expected then None
    else
      Some(row.(
        endsAt := up.endsAt, extensionsUsed := up.extensionsUsed, status := up.status, outcome := up.outcome,
        leadingBidId := up.leadingBidId, leadingBidderId := up.leadingBidderId,
        leadingAmountMinor := up.leadingAmountMinor, leadingPlacedAt := up.leadingPlacedAt,
        runnerUpBidId := up.runnerUpBidId, runnerUpBidderId := up.runnerUpBidderId,
        runnerUpAmountMinor := up.runnerUpAmountMinor, runnerUpPlacedAt := up.runnerUpPlacedAt,
        winnerReassigned := up.winnerReassigned, bidCount := up.bidCount, settled := up.settled,
        version := expected + 1))
  }

  /** The partial UPDATE loses nothing: the columns it leaves alone hold terms no command changes. */
  lemma PartialUpdateIsWhole(a: AuctionDomain.AuctionState, c: Command)
    requires Valid(a) && WellTyped(c) && Perform(a, c).Ok?
    ensures var next := Perform(a, c).value.next;
      UpdateColumns(ToPgAuction(a), ToPgAuction(next), a.version) == Some(ToPgAuction(next.(version := a.version + 1)))
  {
    CommandKeepsValid(a, c);
  }

  // ---------- Whole runs ----------

  /** The map store: an accepted command replaces the value, one version up. */
  function StoreStep(a: AuctionDomain.AuctionState, c: Command): AuctionDomain.AuctionState {
    match Perform(a, c)
    case Err(_) => a
    case Ok(change) => change.next.(version := a.version + 1)
  }

  function StoreRun(a: AuctionDomain.AuctionState, cs: seq<Command>): AuctionDomain.AuctionState {
    if cs == [] then a else StoreStep(StoreRun(a, cs[..|cs| - 1]), cs[|cs| - 1])
  }

  /** The row store: read, run, write the changed columns. None if the row cannot be read or was changed. */
  function RowStep(row: PgAuction, c: Command): Option<PgAuction> {
    match ToDomainAuction(row)
    case Err(_) => None
    case Ok(a) =>
      match Perform(a, c)
      case Err(_) => Some(row)
      case Ok(change) => UpdateColumns(row, ToPgAuction(change.next), row.version)
  }

  function RowRun(row: PgAuction, cs: seq<Command>): Option<PgAuction> {
    if cs == [] then Some(row)
    else
      match RowRun(row, cs[..|cs| - 1])
      case None => None
      case Some(before) => RowStep(before, cs[|cs| - 1])
  }

  lemma RowStepOn(row: PgAuction, a: AuctionDomain.AuctionState, c: Command)
    requires ToDomainAuction(row) == Ok(a)
    ensures RowStep(row, c) ==
      match Perform(a, c)
      case Err(_) => Some(row)
      case Ok(change) => UpdateColumns(row, ToPgAuction(change.next), row.version)
  {
  }

  lemma MapStepKeepsValid(a: AuctionDomain.AuctionState, c: Command)
    requires Valid(a) && WellTyped(c)
    ensures Valid(StoreStep(a, c)) && StoreStep(a, c).antiSnipe == a.antiSnipe
  {
    CommandKeepsValid(a, c);
  }

  lemma RowStepIsWhole(a: AuctionDomain.AuctionState, c: Command)
    requires Valid(a) && WellTyped(c) && ToDomainAuction(ToPgAuction(a)) == Ok(a)
    ensures RowStep(ToPgAuction(a), c) == Some(ToPgAuction(StoreStep(a, c)))
  {
    RowStepOn(ToPgAuction(a), a, c);
    if Perform(a, c).Ok? { PartialUpdateIsWhole(a, c); }
  }

  lemma RowStepRefinesMap(a: AuctionDomain.AuctionState, c: Command)
    requires Valid(a) && WholeSeconds(a.antiSnipe) && WellTyped(c)
    ensures Valid(StoreStep(a, c)) && StoreStep(a, c).antiSnipe == a.antiSnipe
    ensures RowStep(ToPgAuction(a), c) == Some(ToPgAuction(StoreStep(a, c)))
  {
    AuctionRoundTrip(a);
    MapStepKeepsValid(a, c);
    RowStepIsWhole(a, c);
  }

  /** However long the run, the row store and the map store agree, and no row becomes unreadable. */
  lemma {:induction false} RowsRefineMapOverRuns(a: AuctionDomain.AuctionState, cs: seq<Command>)
    requires Valid(a) && WholeSeconds(a.antiSnipe) && forall c | c in cs :: WellTyped(c)
    ensures Valid(StoreRun(a, cs)) && StoreRun(a, cs).antiSnipe == a.antiSnipe
    ensures RowRun(ToPgAuction(a), cs) == Some(ToPgAuction(StoreRun(a, cs)))
    ensures ToDomainAuction(ToPgAuction(StoreRun(a, cs))) == Ok(StoreRun(a, cs))
  {
    if cs != [] {
      RowsRefineMapOverRuns(a, cs[..|cs| - 1]);
      RowStepRefinesMap(StoreRun(a, cs[..|cs| - 1]), cs[|cs| - 1]);
    }
    AuctionRoundTrip(StoreRun(a, cs));
  }

  // ---------- Settlements ----------

  datatype PgSettlement = PgSettlement(
    auctionId: Id, state: string, winnerId: Id, hammerMinor: int, currency: Currency,
    runnerUpId: Option<Id>, runnerUpMinor: Option<int>, runnerUpQualifies: bool,
    relistGeneration: int, attempt: int, invoiceId: Option<Id>, failureReason: Option<string>, version: int)

  function SagaStateName(s: SettlementDomain.SagaState): string {
    match s
    case Started => "started"
    case AwaitingPayment => "awaiting_payment"
    case AwardingRunnerUp => "awarding_runner_up"
    case SecondChancePayment => "second_chance_payment"
    case Settled => "settled"
    case Relisted => "relisted"
    case FailedUnsold => "failed_unsold"
  }

  function SagaStateFromString(s: string): Option<SettlementDomain.SagaState> {
    if s == "started" then Some(SettlementDomain.Started)
    else if s == "awaiting_payment" then Some(SettlementDomain.AwaitingPayment)
    else if s == "awarding_runner_up" then Some(SettlementDomain.AwardingRunnerUp)
    else if s == "second_chance_payment" then Some(SettlementDomain.SecondChancePayment)
    else if s == "settled" then Some(SettlementDomain.Settled)
    else if s == "relisted" then Some(SettlementDomain.Relisted)
    else if s == "failed_unsold" then Some(SettlementDomain.FailedUnsold)
    else None
  }

  function ReasonName(r: FailureReason): string {
    match r
    case NoReason => ""
    case PaymentTimeout => "payment_timeout"
    case SecondChanceDeclined => "second_chance_declined"
  }

  function ReasonFromColumn(c: Option<string>): Option<FailureReason> {
    match c
    case None => Some(NoReason)
    case Some(name) =>
      if name == "payment_timeout" then Some(PaymentTimeout)
      else if name == "second_chance_declined" then Some(SecondChanceDeclined)
      else None
  }

  function ToPgSettlement(s: SettlementDomain.SettlementState): PgSettlement {
    PgSettlement(
      s.auctionId, SagaStateName(s.state), s.winner, s.hammer.amount, s.hammer.currency,
      Column(s.runnerUp != Nil, s.runnerUp), Column(s.runnerUp != Nil, s.runnerUpAmount.amount), s.runnerUpQualifies,
      s.relistGen, s.attempt, Column(s.invoiceId != Nil, s.invoiceId),
      Column(s.failureReason != NoReason, ReasonName(s.failureReason)), s.version)
  }

  function RunnerUpAmountFromColumn(p: PgSettlement): Money {
    if p.runnerUpId.None? then ZERO_MONEY
    else Money(if p.runnerUpMinor.Some? then p.runnerUpMinor.value else 0, p.currency)
  }

  function ToDomainSettlement(p: PgSettlement): Result<SettlementDomain.SettlementState, RowError> {
    var state, reason := SagaStateFromString(p.state), ReasonFromColumn(p.failureReason);
    var hammer, runnerUpAmount := Money(p.hammerMinor, p.currency), RunnerUpAmountFromColumn(p);
    if p.auctionId == Nil || state.None? || p.winnerId == Nil || !hammer.Valid()
       || !NullOrId(p.runnerUpId) || (p.runnerUpId.Some? && !runnerUpAmount.Valid())
       || !NullOrId(p.invoiceId) || reason.None? || p.attempt !in {1, 2} || p.version < 1
    then Err(InvalidRow)
    else
      Ok(SettlementDomain.SettlementState(
        p.auctionId, state.value, p.winnerId, hammer, IdOrNil(p.runnerUpId), runnerUpAmount, p.runnerUpQualifies,
        p.relistGeneration, p.attempt, IdOrNil(p.invoiceId), reason.value, p.version))
  }

  /** What a saga must satisfy to be read back: one currency, and a runner-up with an amount or neither. */
  ghost predicate Storable(s: SettlementDomain.SettlementState) {
    && s.auctionId != Nil && s.winner != Nil && s.hammer.Valid() && s.attempt in {1, 2} && s.version >= 1
    && (if s.runnerUp == Nil then s.runnerUpAmount == ZERO_MONEY
        else s.runnerUpAmount.Valid() && s.runnerUpAmount.currency == s.hammer.currency)
  }

  /** A saga survives its row exactly if it is storable. */
  lemma SettlementRoundTrip(s: SettlementDomain.SettlementState)
    ensures ToDomainSettlement(ToPgSettlement(s)) == Ok(s) <==> Storable(s)
  {
    assert SagaStateFromString(SagaStateName(s.state)) == Some(s.state);
    assert ReasonFromColumn(ToPgSettlement(s).failureReason) == Some(s.failureReason);
  }

  /** Whatever row is read back gives a storable saga, and writing that one gives the row again. */
  lemma ReadSettlementIsSound(p: PgSettlement)
    requires ToDomainSettlement(p).Ok?
    ensures var s := ToDomainSettlement(p).value;
      && Storable(s) && s.invoiceId == IdOrNil(p.invoiceId)
      && ((p.runnerUpId.Some? <==> p.runnerUpMinor.Some?) ==> ToPgSettlement(s) == p)
  {
  }

  /** Every saga that is started is storable, whatever closing event was parsed. */
  lemma StartIsStorable(e: Event)
    requires e.AuctionClosedV1? && SettlementDomain.BuildClosing(e).Ok?
    ensures Storable(SettlementDomain.Start(SettlementDomain.BuildClosing(e).value))
  {
  }

  function UpdateSettlementColumns(row: PgSettlement, up: PgSettlement, expected: int): Option<PgSettlement> {
    if row.version != expected then None
    else
      Some(row.(state := up.state, winnerId := up.winnerId, attempt := up.attempt, invoiceId := up.invoiceId,
                failureReason := up.failureReason, version := row.version + 1))
  }

  /** A commit of the saga: any transition of its commit phase. */
  datatype Commit =
    | Issued(invoice: Id)
    | Received(invoice: Id)
    | Offered(winner: Id, price: Money, invoice: Id)
    | Stepped(step: SettlementDomain.NextStep, reason: FailureReason)

  function Apply(s: SettlementDomain.SettlementState, c: Commit): SettlementDomain.SagaVerdict {
    match c
    case Issued(inv) => SettlementDomain.InvoiceIssued(s, inv)
    case Received(inv) => SettlementDomain.PaymentReceived(s, inv)
    case Offered(winner, price, inv) => SettlementDomain.SecondChanceOffered(s, winner, price, inv)
    case Stepped(step, reason) => SettlementDomain.ApplyNextStep(s, step, reason)
  }

  /** A commit touches only what the partial update writes. */
  lemma CommitKeepsTerms(s: SettlementDomain.SettlementState, c: Commit)
    requires Storable(s) && Apply(s, c).Ok?
    ensures var t := Apply(s, c).value;
      && t == s.(state := t.state, winner := t.winner, attempt := t.attempt, invoiceId := t.invoiceId,
                 failureReason := t.failureReason)
      && Storable(t.(version := s.version + 1))
  {
  }

  lemma PartialSagaUpdateIsWhole(s: SettlementDomain.SettlementState, t: SettlementDomain.SettlementState)
    requires t == s.(state := t.state, winner := t.winner, attempt := t.attempt, invoiceId := t.invoiceId,
                     failureReason := t.failureReason)
    ensures UpdateSettlementColumns(ToPgSettlement(s), ToPgSettlement(t), s.version)
         == Some(ToPgSettlement(t.(version := s.version + 1)))
  {
  }

  /** The saga's row store refines its map store. */
  lemma SagaRowRefinesMap(s: SettlementDomain.SettlementState, c: Commit)
    requires Storable(s) && Apply(s, c).Ok?
    ensures var next := Apply(s, c).value.(version := s.version + 1);
      var row := UpdateSettlementColumns(ToPgSettlement(s), ToPgSettlement(Apply(s, c).value), s.version);
      Storable(next) && row == Some(ToPgSettlement(next)) && ToDomainSettlement(row.value) == Ok(next)
  {
    CommitKeepsTerms(s, c);
    PartialSagaUpdateIsWhole(s, Apply(s, c).value);
    SettlementRoundTrip(Apply(s, c).value.(version := s.version + 1));
  }

  // ---------- Invoices ----------

  datatype PgInvoice = PgInvoice(
    id: Id, auctionId: Id, debtorId: Id, hammerMinor: int, commissionMinor: int, totalMinor: int,
    currency: Currency, status: string, dueAt: Time, attempt: int, pspRef: Option<string>, version: int)

  function InvoiceStatusName(s: InvoiceDomain.InvoiceStatus): string {
    match s
    case Pending => "pending"
    case Paid => "paid"
    case Expired => "expired"
    case Voided => "voided"
  }

  function InvoiceStatusFromString(s: string): Option<InvoiceDomain.InvoiceStatus> {
    if s == "pending" then Some(InvoiceDomain.Pending)
    else if s == "paid" then Some(InvoiceDomain.Paid)
    else if s == "expired" then Some(InvoiceDomain.Expired)
    else if s == "voided" then Some(InvoiceDomain.Voided)
    else None
  }

  function NullablePspRef(r: InvoiceDomain.PaymentReference): Option<string> {
    Column(r != InvoiceDomain.NO_REFERENCE, r)
  }

  function ToPgInvoice(i: InvoiceDomain.InvoiceState): PgInvoice {
    PgInvoice(i.id, i.auctionId, i.debtor, i.hammer.amount, i.commission.amount, i.total.amount, i.total.currency,
              InvoiceStatusName(i.status), i.dueAt, i.attempt, NullablePspRef(i.pspRef), i.version)
  }

  function ToDomainInvoice(p: PgInvoice): Result<InvoiceDomain.InvoiceState, RowError> {
    var status := InvoiceStatusFromString(p.status);
    if p.id == Nil || p.auctionId == Nil || p.debtorId == Nil
       || !Money(p.hammerMinor, p.currency).Valid() || !Money(p.commissionMinor, p.currency).Valid()
       || !Money(p.totalMinor, p.currency).Valid() || status.None? || p.attempt !in {1, 2}
       || p.pspRef == Some(InvoiceDomain.NO_REFERENCE) || p.dueAt == ZERO_TIME || p.version < 1
    then Err(InvalidRow)
    else
      Ok(InvoiceDomain.InvoiceState(
        p.id, p.auctionId, p.debtorId, Money(p.hammerMinor, p.currency), Money(p.commissionMinor, p.currency),
        Money(p.totalMinor, p.currency), status.value, p.dueAt, p.attempt,
        if p.pspRef.None? then InvoiceDomain.NO_REFERENCE else p.pspRef.value, p.version))
  }

  /**
    A freshly issued invoice survives its row exactly if the bill fits: one that wrapped
    below zero is stored and can never be read again.
   */
  lemma InvoiceRoundTrip(
    id: Id, auctionId: Id, debtor: Id, hammer: Money, terms: InvoiceDomain.BillingTerms, attempt: int, now: Time)
    requires hammer.Valid()
    requires InvoiceDomain.NewInvoice(id, auctionId, debtor, hammer, terms, attempt, now).Ok?
    ensures var i := InvoiceDomain.NewInvoice(id, auctionId, debtor, hammer, terms, attempt, now).value.next;
      ToDomainInvoice(ToPgInvoice(i)) == Ok(i) <==> InvoiceDomain.BillFits(hammer, terms.basisPoints)
  {
    var i := InvoiceDomain.NewInvoice(id, auctionId, debtor, hammer, terms, attempt, now).value.next;
    InvoiceDomain.ReadableIffBillFits(i, terms.basisPoints);
    WellBuiltRoundTrips(i);
  }

  /** What the factory guarantees of every invoice, whatever its amounts wrapped to. */
  ghost predicate WellBuilt(i: InvoiceDomain.InvoiceState) {
    && i.id != Nil && i.auctionId != Nil && i.debtor != Nil && i.hammer.Valid() && i.attempt in {1, 2}
    && i.commission.currency == i.hammer.currency == i.total.currency
    && i.commission.amount <= MAX_INT64 && i.total.amount <= MAX_INT64
    && i.dueAt != ZERO_TIME && i.version >= 1
  }

  /** Such an invoice survives its row exactly if its amounts are not negative; otherwise the row cannot be read. */
  lemma WellBuiltRoundTrips(i: InvoiceDomain.InvoiceState)
    requires WellBuilt(i)
    ensures ToDomainInvoice(ToPgInvoice(i)) == if InvoiceDomain.Readable(i) then Ok(i) else Err(InvalidRow)
  {
    assert InvoiceStatusFromString(InvoiceStatusName(i.status)) == Some(i.status);
  }

  /** Whatever row is read back gives a readable, well-built invoice, and writing that one gives the row again. */
  lemma ReadInvoiceIsSound(p: PgInvoice)
    requires ToDomainInvoice(p).Ok?
    ensures var i := ToDomainInvoice(p).value; WellBuilt(i) && InvoiceDomain.Readable(i) && ToPgInvoice(i) == p
  {
  }

  function UpdateInvoiceColumns(row: PgInvoice, up: InvoiceDomain.InvoiceState, expected: int): Option<PgInvoice> {
    if row.version != expected then None
    else
      Some(row.(status := InvoiceStatusName(up.status), pspRef := NullablePspRef(up.pspRef),
                version := row.version + 1))
  }

  /** Paying, expiring or voiding a readable invoice leaves a readable one, with exactly that change. */
  lemma InvoiceRowRefinesMap(i: InvoiceDomain.InvoiceState, e: InvoiceDomain.Ending)
    requires WellBuilt(i) && ToDomainInvoice(ToPgInvoice(i)) == Ok(i) && InvoiceDomain.End(i, e).Ok?
    ensures var ended := InvoiceDomain.End(i, e).value.next; var next := ended.(version := i.version + 1);
      var row := UpdateInvoiceColumns(ToPgInvoice(i), ended, i.version);
      row == Some(ToPgInvoice(next)) && ToDomainInvoice(row.value) == Ok(next)
  {
    WellBuiltRoundTrips(i);
    WellBuiltRoundTrips(InvoiceDomain.End(i, e).value.next.(version := i.version + 1));
  }
}
