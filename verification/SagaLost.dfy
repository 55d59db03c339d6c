/**
  The two seams that do not heal, as concrete runs. In one, the winner's invoice expires
  while the saga is still Started, the award is published and looked at before its own
  commit, and the saga stays in AwardingRunnerUp. In the other, the runner-up pays before
  the offer is committed, and the saga stays in SecondChancePayment. Every event is
  acknowledged in both.
 */
module SagaLost {
  import opened Base
  import opened Events
  import AuctionDomain
  import opened AuctionRuns
  import InvoiceDomain
  import opened SettlementDomain
  import opened Database
  import opened Saga
  import opened SagaProgress

  const CFG: Config := RawConfig(InvoiceDomain.RawTerms(1_000, 1), 1, 1)
  const CLK := Clock(20, 20)
  const LOT := Client(0)
  const SELLER := Client(1)
  const WINNER := Client(2)
  const RUNNER_UP := Client(3)

  function Euros(n: nat): Money { Money(n, "EUR") }

  const LISTED := AuctionDomain.AuctionState(
    LOT, SELLER, AuctionDomain.Lot("t", "d"), Euros(100), Euros(10), ZERO_MONEY,
    AuctionDomain.BiddingWindow(1, 10, 10), AuctionDomain.RawPolicy(1, 1, 0), Euros(1000),
    0, AuctionDomain.Listed, AuctionDomain.NoOutcome, AuctionDomain.NO_BID, AuctionDomain.NO_BID,
    false, 0, Nil, 0, false, 1)

  const LOW := AuctionDomain.Bid(Client(10), RUNNER_UP, Euros(100), 1)
  const HIGH := AuctionDomain.Bid(Client(11), WINNER, Euros(110), 2)

  const SOLD := LISTED.(status := AuctionDomain.Closed, outcome := AuctionDomain.Sold,
                        leadingBid := HIGH, runnerUpBid := LOW, bidCount := 2, version := 4)
  const AWARDED := SOLD.(leadingBid := LOW, runnerUpBid := AuctionDomain.NO_BID, winnerReassigned := true, version := 5)

  const LISTING := AuctionListedV1(LOT, SELLER, "t", 100, "EUR", 1, 10, 0, 1)
  const FIRST_BID := BidPlacedV1(LOT, Client(10), RUNNER_UP, 100, "EUR", 1, false, 10, Nil, 1)
  const SECOND_BID := BidPlacedV1(LOT, Client(11), WINNER, 110, "EUR", 2, false, 10, RUNNER_UP, 2)
  const CLOSING := AuctionClosedV1(LOT, SELLER, "sold", WINNER, 110, "EUR", RUNNER_UP, 100, true, 0, 10)
  const BILLING := InvoiceIssuedV1(InvoiceFor(LOT, 1), LOT, WINNER, 110, 11, 121, "EUR", 21, 1, 20)
  const EXPIRY := InvoiceExpiredV1(InvoiceFor(LOT, 1), LOT, WINNER, 1, 30)
  const AWARD := WinnerReassignedV1(LOT, RUNNER_UP, 100, "EUR", 20)

  const SAGA := SettlementState(LOT, Started, WINNER, Euros(110), RUNNER_UP, Euros(100), true, 0, 1,
                                InvoiceFor(LOT, 1), NoReason, 1)
  const BILL := InvoiceDomain.InvoiceState(
    InvoiceFor(LOT, 1), LOT, WINNER, Euros(110), Euros(11), Euros(121), InvoiceDomain.Pending, 21, 1, "", 1)

  const LIST := ListAuction(LISTED, 1)
  const BID_LOW := Manage(LOT, DoBid(Client(10), AuctionDomain.Bidder(RUNNER_UP, true), Euros(100), 1))
  const BID_HIGH := Manage(LOT, DoBid(Client(11), AuctionDomain.Bidder(WINNER, true), Euros(110), 2))
  const CLOSE := Manage(LOT, DoClose(10))

  const AFTER_AUCTION := Db(map[LOT := SOLD], map[], map[], [LISTING, FIRST_BID, SECOND_BID, CLOSING])

  ghost predicate Reachable(w: World) {
    exists acts :: Reach(acts, CFG) == w
  }

  lemma ReachesNext(w: World, act: Act)
    requires Reachable(w)
    ensures Reachable(Next(w, act, CFG))
  {
    var acts :| Reach(acts, CFG) == w;
    assert (acts + [act])[..|acts|] == acts;
    assert Reach(acts + [act], CFG) == Next(w, act, CFG);
  }

  lemma EurosAreValid(n: nat)
    requires n <= MAX_INT64
    ensures Euros(n).Valid()
  {
    var code := "EUR";
    assert |code| == 3 && code[0] == 'E' && code[1] == 'U' && code[2] == 'R';
  }

  lemma ListingIsFresh()
    ensures Fresh(LISTED)
  {
    EurosAreValid(100);
    EurosAreValid(10);
    EurosAreValid(1000);
    assert LISTED.lot.title[0] == 't';
  }

  lemma ListingStep()
    ensures Next(NOTHING, LIST, CFG) == NOTHING.(db := Db(map[LOT := LISTED], map[], map[], [LISTING]))
  {
    MappedAlone(LISTED, AuctionDomain.AuctionListed(1));
    ListingIsFresh();
  }

  const WITH_LOW := LISTED.(leadingBid := LOW, bidCount := 1, version := 2)
  const WITH_HIGH := LISTED.(leadingBid := HIGH, runnerUpBid := LOW, bidCount := 2, version := 3)

  lemma FirstBidStep(w: World)
    requires w.db == Db(map[LOT := LISTED], map[], map[], [LISTING])
    ensures Next(w, BID_LOW, CFG) == w.(db := Db(map[LOT := WITH_LOW], map[], map[], [LISTING, FIRST_BID]))
  {
    var next := WITH_LOW.(version := 1);
    EurosAreValid(100);
    MappedAlone(next, AuctionDomain.BidPlaced(LOW, AuctionDomain.NO_BID, 10, false, 1));
    assert AuctionDomain.BidRefusal(LISTED, Client(10), AuctionDomain.Bidder(RUNNER_UP, true), Euros(100), 1).None?;
    assert Perform(LISTED, BID_LOW.command).value.next == next;
  }

  lemma SecondBidStep(w: World)
    requires w.db == Db(map[LOT := WITH_LOW], map[], map[], [LISTING, FIRST_BID])
    ensures Next(w, BID_HIGH, CFG)
         == w.(db := Db(map[LOT := WITH_HIGH], map[], map[], [LISTING, FIRST_BID, SECOND_BID]))
  {
    var next := WITH_HIGH.(version := 2);
    EurosAreValid(110);
    MappedAlone(next, AuctionDomain.BidPlaced(HIGH, LOW, 10, false, 2));
    assert AuctionDomain.BidRefusal(WITH_LOW, Client(11), AuctionDomain.Bidder(WINNER, true), Euros(110), 2).None?;
    assert Perform(WITH_LOW, BID_HIGH.command).value.next == next;
  }

  lemma ClosingStep(w: World)
    requires w.db == Db(map[LOT := WITH_HIGH], map[], map[], [LISTING, FIRST_BID, SECOND_BID])
    ensures Next(w, CLOSE, CFG) == w.(db := AFTER_AUCTION)
  {
    MappedAlone(SOLD.(version := 3), AuctionDomain.AuctionClosed(AuctionDomain.Hammer(WITH_HIGH), 10));
    assert Perform(WITH_HIGH, CLOSE.command).value.next == SOLD.(version := 3);
  }

  lemma Auctioned()
    ensures Reachable(NOTHING.(db := AFTER_AUCTION))
  {
    assert Reach([], CFG) == NOTHING;
    ReachesNext(NOTHING, LIST);
    ListingStep();
    var w1 := Next(NOTHING, LIST, CFG);
    ReachesNext(w1, BID_LOW);
    FirstBidStep(w1);
    var w2 := Next(w1, BID_LOW, CFG);
    ReachesNext(w2, BID_HIGH);
    SecondBidStep(w2);
    var w3 := Next(w2, BID_HIGH, CFG);
    ReachesNext(w3, CLOSE);
    ClosingStep(w3);
  }

  // ---------- The first bill, issued but not committed ----------

  lemma Delivers(w: World, n: nat, e: Event)
    requires Reachable(w) && n !in w.tasks && e in w.db.outbox && SagaEvent(e)
    ensures Reachable(w.(tasks := w.tasks[n := TaskFor(e)]))
  {
    ReachesNext(w, Deliver(n, e));
  }

  lemma Advances(w: World, n: nat, t: Task, r: Stepped)
    requires Reachable(w) && n in w.tasks && w.tasks[n] == t && !t.pc.Acking? && TaskStep(w.db, t, CFG, CLK) == r
    ensures var early := if TooEarly(w.db, t) then w.early + {t.trigger.event} else w.early;
      Reachable(w.(db := r.db, tasks := w.tasks[n := t.(pc := r.pc)], early := early))
  {
    ReachesNext(w, Advance(n, CLK));
  }

  /** The handler stood at Acking, and left. */
  lemma Acks(w: World, n: nat, e: Event)
    requires SagaEvent(e) && n !in w.tasks && Reachable(w.(tasks := w.tasks[n := TaskFor(e).(pc := Acking)]))
    ensures Reachable(w.(acked := w.acked + {e}))
  {
    var before := w.(tasks := w.tasks[n := TaskFor(e).(pc := Acking)]);
    ReachesNext(before, Advance(n, CLK));
    assert before.tasks - {n} == w.tasks;
  }

  const STARTED := AFTER_AUCTION.(sagas := map[LOT := SAGA])
  const BILLED := STARTED.(invoices := map[InvoiceFor(LOT, 1) := BILL],
                           outbox := [LISTING, FIRST_BID, SECOND_BID, CLOSING, BILLING])
  const PARSED := Closing(LOT, WINNER, Euros(110), RUNNER_UP, Euros(100), true, 0, InvoiceFor(LOT, 1))

  lemma ClosingParses()
    ensures BuildClosing(CLOSING) == Ok(PARSED) && Start(PARSED) == SAGA
  {
    EurosAreValid(110);
    EurosAreValid(100);
  }

  lemma ClosedSteps()
    ensures var t := TaskFor(CLOSING);
      && TaskStep(AFTER_AUCTION, t, CFG, CLK) == Stepped(STARTED, Loading(PARSED))
      && TaskStep(STARTED, t.(pc := Loading(PARSED)), CFG, CLK) == Stepped(STARTED, Issuing(SAGA))
  {
    ClosingParses();
  }

  lemma BillStep()
    ensures TaskStep(STARTED, TaskFor(CLOSING).(pc := Issuing(SAGA)), CFG, CLK)
         == Stepped(BILLED, CommitIssued(InvoiceFor(LOT, 1)))
  {
    EurosAreValid(110);
  }

  lemma Bills(w: World, n: nat)
    requires Reachable(w) && w.db == AFTER_AUCTION && n !in w.tasks
    ensures Reachable(w.(db := BILLED))
  {
    var t := TaskFor(CLOSING);
    ClosedSteps();
    BillStep();
    Delivers(w, n, CLOSING);
    Moves(w, n, t, Stepped(STARTED, Loading(PARSED)));
    Moves(w.(db := STARTED), n, t.(pc := Loading(PARSED)), Stepped(STARTED, Issuing(SAGA)));
    Moves(w.(db := STARTED), n, t.(pc := Issuing(SAGA)), Stepped(BILLED, CommitIssued(InvoiceFor(LOT, 1))));
    Crashes(w.(db := BILLED), n, t.(pc := CommitIssued(InvoiceFor(LOT, 1))));
  }

  lemma Crashes(w: World, n: nat, t: Task)
    requires Reachable(w.(tasks := w.tasks[n := t])) && n !in w.tasks
    ensures Reachable(w)
  {
    var before := w.(tasks := w.tasks[n := t]);
    ReachesNext(before, Crash(n));
    assert before.tasks - {n} == w.tasks;
  }

  /** A handler at t that was not too early makes its call. */
  lemma Moves(w: World, n: nat, t: Task, r: Stepped)
    requires Reachable(w.(tasks := w.tasks[n := t])) && !t.pc.Acking? && !TooEarly(w.db, t)
    requires TaskStep(w.db, t, CFG, CLK) == r
    ensures Reachable(w.(db := r.db, tasks := w.tasks[n := t.(pc := r.pc)]))
  {
    var before := w.(tasks := w.tasks[n := t]);
    Advances(before, n, t, r);
    assert before.tasks[n := t.(pc := r.pc)] == w.tasks[n := t.(pc := r.pc)];
  }

  // ---------- The award is looked at before its commit ----------

  const EXPIRED := BILLED.(
    invoices := map[InvoiceFor(LOT, 1) := BILL.(status := InvoiceDomain.Expired, version := 2)],
    outbox := [LISTING, FIRST_BID, SECOND_BID, CLOSING, BILLING, EXPIRY])

  const REASSIGNED := EXPIRED.(
    auctions := map[LOT := AWARDED],
    outbox := [LISTING, FIRST_BID, SECOND_BID, CLOSING, BILLING, EXPIRY, AWARD])

  const STUCK := REASSIGNED.(sagas := map[LOT := SAGA.(state := AwardingRunnerUp, version := 2)])

  const COMMITTING := TaskFor(EXPIRY).(pc := CommitStep(StepAwardRunnerUp))

  lemma AwardSteps()
    ensures TaskStep(EXPIRED, TaskFor(EXPIRY), CFG, CLK) == Stepped(EXPIRED, Compensating(StepAwardRunnerUp))
    ensures TaskStep(EXPIRED, TaskFor(EXPIRY).(pc := Compensating(StepAwardRunnerUp)), CFG, CLK)
         == Stepped(REASSIGNED, CommitStep(StepAwardRunnerUp))
  {
    MappedAlone(AWARDED.(version := 4), AuctionDomain.WinnerReassigned(LOW, 20));
    assert Perform(SOLD, DoAward(20)).value.next == AWARDED.(version := 4);
  }

  lemma Awards(w: World, n: nat)
    requires Reachable(w) && w.db == BILLED && n !in w.tasks
    ensures Reachable(w.(db := REASSIGNED, tasks := w.tasks[n := COMMITTING]))
  {
    ReachesNext(w, ExpireInvoice(InvoiceFor(LOT, 1), 30));
    var w1 := w.(db := EXPIRED);
    assert Next(w, ExpireInvoice(InvoiceFor(LOT, 1), 30), CFG) == w1;
    Delivers(w1, n, EXPIRY);
    AwardSteps();
    Moves(w1, n, TaskFor(EXPIRY), Stepped(EXPIRED, Compensating(StepAwardRunnerUp)));
    Moves(w1, n, TaskFor(EXPIRY).(pc := Compensating(StepAwardRunnerUp)),
          Stepped(REASSIGNED, CommitStep(StepAwardRunnerUp)));
  }

  lemma EarlyStep()
    ensures TaskStep(REASSIGNED, TaskFor(AWARD), CFG, CLK) == Stepped(REASSIGNED, Acking)
    ensures TooEarly(REASSIGNED, TaskFor(AWARD))
  {
    EurosAreValid(100);
    assert DecideReassigned(REASSIGNED, AWARD) == Acking;
  }

  lemma LooksTooEarly(w: World, m: nat)
    requires Reachable(w) && w.db == REASSIGNED && m !in w.tasks
    ensures Reachable(w.(acked := w.acked + {AWARD}, early := w.early + {AWARD}))
  {
    EarlyStep();
    Delivers(w, m, AWARD);
    var w1 := w.(tasks := w.tasks[m := TaskFor(AWARD)]);
    Advances(w1, m, TaskFor(AWARD), Stepped(REASSIGNED, Acking));
    assert w1.tasks[m := TaskFor(AWARD).(pc := Acking)] == w.tasks[m := TaskFor(AWARD).(pc := Acking)];
    Acks(w.(early := w.early + {AWARD}), m, AWARD);
  }

  lemma CommitsTooLate(w: World, n: nat)
    requires n !in w.tasks && w.db == REASSIGNED && Reachable(w.(tasks := w.tasks[n := COMMITTING]))
    ensures Reachable(w.(db := STUCK, acked := w.acked + {EXPIRY}))
  {
    assert TaskStep(REASSIGNED, COMMITTING, CFG, CLK) == Stepped(STUCK, Acking);
    Moves(w, n, COMMITTING, Stepped(STUCK, Acking));
    Acks(w.(db := STUCK), n, EXPIRY);
  }

  lemma ClosingIsAcked(w: World, n: nat)
    requires Reachable(w) && w.db == STUCK && n !in w.tasks
    ensures Reachable(w.(acked := w.acked + {CLOSING}))
  {
    ClosingParses();
    var t := TaskFor(CLOSING);
    Delivers(w, n, CLOSING);
    assert TaskStep(STUCK, t, CFG, CLK) == Stepped(STUCK, Loading(PARSED));
    Moves(w, n, t, Stepped(STUCK, Loading(PARSED)));
    assert TaskStep(STUCK, t.(pc := Loading(PARSED)), CFG, CLK) == Stepped(STUCK, Acking);
    Moves(w, n, t.(pc := Loading(PARSED)), Stepped(STUCK, Acking));
    Acks(w, n, CLOSING);
  }

  const END := World(STUCK, map[], {AWARD, EXPIRY, CLOSING}, {AWARD})

  lemma EndReached()
    ensures Reachable(END)
  {
    Auctioned();
    Bills(NOTHING.(db := AFTER_AUCTION), 0);
    Awards(NOTHING.(db := BILLED), 0);
    LooksTooEarly(NOTHING.(db := REASSIGNED, tasks := map[][0 := COMMITTING]), 1);
    CommitsTooLate(NOTHING.(db := REASSIGNED, acked := {} + {AWARD}, early := {} + {AWARD}), 0);
    ClosingIsAcked(NOTHING.(db := STUCK, acked := {AWARD} + {EXPIRY}, early := {AWARD}), 0);
    assert {AWARD} + {EXPIRY} + {CLOSING} == END.acked;
  }

  lemma NothingMoves()
    ensures !HasMover(END, LOT) && forall e | e in STUCK.outbox && SagaEvent(e) :: e in END.acked
  {
    assert !Outstanding(STUCK, STUCK.sagas[LOT]);
    assert forall e | e in STUCK.outbox && SagaEvent(e) :: e in {CLOSING, EXPIRY, AWARD};
  }

  /**
    So the exception in MoverUnlessEarly is real: a reachable state with no handler at
    work, every event acknowledged, and an unfinished saga that has no next mover.
   */
  lemma EarlyAwardIsLost()
    ensures exists acts :: Reach(acts, CFG) == END
    ensures END.db.sagas[LOT].state == AwardingRunnerUp && !HasMover(END, LOT)
    ensures END.tasks == map[] && forall e | e in END.db.outbox && SagaEvent(e) :: e in END.acked
  {
    EndReached();
    NothingMoves();
  }

  // ---------- The second payment is looked at before the offer is committed ----------

  const OFFER := InvoiceDomain.InvoiceState(
    InvoiceFor(LOT, 2), LOT, RUNNER_UP, Euros(100), Euros(10), Euros(110), InvoiceDomain.Pending, 21, 2, "", 1)
  const OFFERING := InvoiceIssuedV1(InvoiceFor(LOT, 2), LOT, RUNNER_UP, 100, 10, 110, "EUR", 21, 2, 20)
  const PAYMENT := InvoicePaidV1(InvoiceFor(LOT, 2), LOT, RUNNER_UP, 110, "EUR", 25)

  const AWARDING := SAGA.(state := AwardingRunnerUp, version := 2)

  const OFFERED := STUCK.(
    invoices := STUCK.invoices[InvoiceFor(LOT, 2) := OFFER],
    outbox := [LISTING, FIRST_BID, SECOND_BID, CLOSING, BILLING, EXPIRY, AWARD, OFFERING])
  const PAID := STUCK.(
    invoices := STUCK.invoices[InvoiceFor(LOT, 2) := OFFER.(status := InvoiceDomain.Paid, pspRef := "r", version := 2)],
    outbox := [LISTING, FIRST_BID, SECOND_BID, CLOSING, BILLING, EXPIRY, AWARD, OFFERING, PAYMENT])
  const UNSETTLED := PAID.(
    sagas := map[LOT := AWARDING.(state := SecondChancePayment, winner := RUNNER_UP, attempt := 2,
                                  invoiceId := InvoiceFor(LOT, 2), version := 3)])

  lemma OfferSteps()
    ensures var t := TaskFor(AWARD);
      && TaskStep(STUCK, t, CFG, CLK) == Stepped(STUCK, Issuing(AWARDING))
      && TaskStep(STUCK, t.(pc := Issuing(AWARDING)), CFG, CLK) == Stepped(OFFERED, CommitOffer)
  {
    EurosAreValid(100);
    assert DecideReassigned(STUCK, AWARD) == Issuing(AWARDING);
    assert IssueInvoice(STUCK, InvoiceFor(LOT, 2), LOT, RUNNER_UP, Euros(100), 2, CFG, 20) == Called(OFFERED, None);
  }

  lemma OfferCommits()
    ensures TaskStep(PAID, TaskFor(AWARD).(pc := CommitOffer), CFG, CLK) == Stepped(UNSETTLED, Acking)
  {
  }

  lemma PaymentIsEarly()
    ensures TaskStep(PAID, TaskFor(PAYMENT), CFG, CLK) == Stepped(PAID, Acking) && TooEarly(PAID, TaskFor(PAYMENT))
  {
    assert DecidePaid(PAID, PAYMENT) == Acking;
  }

  lemma Pays(w: World)
    requires Reachable(w) && w.db == OFFERED
    ensures Reachable(w.(db := PAID))
  {
    ReachesNext(w, PayInvoice(InvoiceFor(LOT, 2), "r", 25));
    assert Next(w, PayInvoice(InvoiceFor(LOT, 2), "r", 25), CFG) == w.(db := PAID);
  }

  /** The offer is issued and paid while its handler is still to commit. */
  lemma Offers(w: World)
    requires Reachable(w) && w.db == STUCK && w.tasks == map[]
    ensures Reachable(w.(db := PAID, tasks := w.tasks[0 := TaskFor(AWARD).(pc := CommitOffer)]))
  {
    var t := TaskFor(AWARD);
    Delivers(w, 0, AWARD);
    OfferSteps();
    Moves(w, 0, t, Stepped(STUCK, Issuing(AWARDING)));
    Moves(w, 0, t.(pc := Issuing(AWARDING)), Stepped(OFFERED, CommitOffer));
    Pays(w.(db := OFFERED, tasks := w.tasks[0 := t.(pc := CommitOffer)]));
  }

  lemma PaysTooEarly(w: World)
    requires Reachable(w) && w.db == STUCK && w.tasks == map[]
    ensures Reachable(w.(db := UNSETTLED, acked := w.acked + {PAYMENT} + {AWARD}, early := w.early + {PAYMENT}))
  {
    var t := TaskFor(AWARD).(pc := CommitOffer);
    Offers(w);
    PaymentGoesUnheard(w.(db := PAID, tasks := w.tasks[0 := t]));
    var late := w.(db := PAID, acked := w.acked + {PAYMENT}, early := w.early + {PAYMENT});
    OfferCommits();
    Moves(late, 0, t, Stepped(UNSETTLED, Acking));
    Acks(late.(db := UNSETTLED), 0, AWARD);
  }

  lemma PaymentGoesUnheard(w: World)
    requires Reachable(w) && w.db == PAID && 1 !in w.tasks
    ensures Reachable(w.(acked := w.acked + {PAYMENT}, early := w.early + {PAYMENT}))
  {
    PaymentIsEarly();
    Delivers(w, 1, PAYMENT);
    var w1 := w.(tasks := w.tasks[1 := TaskFor(PAYMENT)]);
    Advances(w1, 1, TaskFor(PAYMENT), Stepped(PAID, Acking));
    assert w1.tasks[1 := TaskFor(PAYMENT).(pc := Acking)] == w.tasks[1 := TaskFor(PAYMENT).(pc := Acking)];
    Acks(w.(early := w.early + {PAYMENT}), 1, PAYMENT);
  }

  /** Redelivering the closing acknowledges it in this state, too. */
  lemma ClosingIsAckedAgain(w: World, n: nat)
    requires Reachable(w) && w.db == UNSETTLED && n !in w.tasks
    ensures Reachable(w.(acked := w.acked + {CLOSING}))
  {
    ClosingParses();
    var t := TaskFor(CLOSING);
    Delivers(w, n, CLOSING);
    assert TaskStep(UNSETTLED, t, CFG, CLK) == Stepped(UNSETTLED, Loading(PARSED));
    Moves(w, n, t, Stepped(UNSETTLED, Loading(PARSED)));
    assert TaskStep(UNSETTLED, t.(pc := Loading(PARSED)), CFG, CLK) == Stepped(UNSETTLED, Acking);
    Moves(w, n, t.(pc := Loading(PARSED)), Stepped(UNSETTLED, Acking));
    Acks(w, n, CLOSING);
  }

  const UNHEARD := World(UNSETTLED, map[], {EXPIRY, PAYMENT, AWARD, CLOSING}, {PAYMENT})

  lemma UnheardReached()
    ensures Reachable(UNHEARD)
  {
    Auctioned();
    Bills(NOTHING.(db := AFTER_AUCTION), 0);
    Awards(NOTHING.(db := BILLED), 0);
    CommitsTooLate(NOTHING.(db := REASSIGNED), 0);
    PaysTooEarly(NOTHING.(db := STUCK, acked := {} + {EXPIRY}));
    var acked := {} + {EXPIRY} + {PAYMENT} + {AWARD};
    ClosingIsAckedAgain(NOTHING.(db := UNSETTLED, acked := acked, early := {} + {PAYMENT}), 0);
    assert acked + {CLOSING} == UNHEARD.acked;
  }

  lemma NothingDrives()
    ensures !HasMover(UNHEARD, LOT) && forall e | e in UNSETTLED.outbox && SagaEvent(e) :: e in UNHEARD.acked
  {
    var s := UNSETTLED.sagas[LOT];
    assert !Outstanding(UNSETTLED, s);
    assert forall e | e in UNSETTLED.outbox && SagaEvent(e) :: e in {CLOSING, EXPIRY, AWARD, PAYMENT};
  }

  /** The other seam: the runner-up has paid, every event is acknowledged, and the sale is never settled. */
  lemma EarlyPaymentIsLost()
    ensures exists acts :: Reach(acts, CFG) == UNHEARD
    ensures UNHEARD.db.invoices[InvoiceFor(LOT, 2)].status == InvoiceDomain.Paid
    ensures UNHEARD.db.sagas[LOT].state == SecondChancePayment && !HasMover(UNHEARD, LOT)
    ensures UNHEARD.tasks == map[] && forall e | e in UNHEARD.db.outbox && SagaEvent(e) :: e in UNHEARD.acked
  {
    UnheardReached();
    NothingDrives();
  }
}
