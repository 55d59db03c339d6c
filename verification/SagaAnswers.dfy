/**
  What callers hear. A decline gets exactly the answer its auction's state calls for, and
  the expiry worker exactly the one its invoice does.
 */
module SagaAnswers {
  import opened Base
  import opened Events
  import AuctionDomain
  import opened AuctionRuns
  import opened AuctionRules
  import InvoiceDomain
  import opened SettlementDomain
  import opened Database
  import opened Saga
  import opened SagaTransactions
  import opened SagaView
  import opened SagaCalls
  import opened SagaTheorems
  import opened SagaProgress
  import H = Handlers

  // ---------- The decline ----------

  /** The actor is the runner-up the saga knows. */
  predicate Recipient(s: SettlementState, actor: Id) { actor != Nil && actor == s.runnerUp }

  /** How a decline by actor has to end, alone, from this state. */
  ghost predicate AnswersDecline(db: Db, a: Id, actor: Id, r: Stepped) {
    if a !in db.sagas then r == Stepped(db, Answered(SettlementNotFound))
    else
      var s := db.sagas[a];
      if !Recipient(s, actor) || s.state in {Started, AwaitingPayment, AwardingRunnerUp}
      then r == Stepped(db, Answered(NotOfferRecipient))
      else if s.state == Settled then r == Stepped(db, Answered(OfferAlreadyPaid))
      else if GivesUp(s.state) then r == Stepped(db, Answered(Declined))
      else
        InvoiceFor(a, 2) in db.invoices &&
        var offer := db.invoices[InvoiceFor(a, 2)];
        if !InvoiceDomain.Readable(offer) then r == Stepped(db, Answered(DeclineFailed(UNREADABLE)))
        else if offer.status == InvoiceDomain.Paid then r == Stepped(db, Answered(OfferAlreadyPaid))
        else r.pc == Answered(Declined) && a in r.db.sagas && GivesUp(r.db.sagas[a].state)
  }

  ghost predicate PaysNothing(db: Db, db': Db) {
    forall k | InvoiceStands(db', k, InvoiceDomain.Paid) :: InvoiceStands(db, k, InvoiceDomain.Paid)
  }

  lemma OnlyPaymentPays(db: Db, x: Transaction, cfg: Config)
    requires !PaysInvoice(x)
    ensures PaysNothing(db, Commit(db, x, cfg))
  {
  }

  lemma {:induction false} RunPaysNothing(db: Db, t: Task, cfg: Config, clks: seq<Clock>)
    ensures PaysNothing(db, RunAlone(db, t, cfg, clks).db)
    decreases |clks|
  {
    if !Returned(t.pc) && clks != [] {
      var r := TaskStep(db, t, cfg, clks[0]);
      var x := TaskTransaction(db, t, cfg, clks[0]);
      OnlyPaymentPays(db, x, cfg);
      RunPaysNothing(r.db, t.(pc := r.pc), cfg, clks[1..]);
    }
  }

  /** The offer is open, and not paid. */
  lemma OpenOfferIsDeclined(db: Db, a: Id, actor: Id, cfg: Config, clks: seq<Clock>)
    requires DbInv(db) && a in db.sagas && CanRunnerUpDecline(actor, db.sagas[a]) && ReadableOffer(ViewOf(db, a))
    requires !SecondIs(ViewOf(db, a), InvoiceDomain.Paid) && AllSane(clks, cfg) && |clks| >= CallsLeft(Begin)
    ensures var r := RunAlone(db, Task(a, OnDecline(actor), Begin), cfg, clks);
      r.pc == Answered(Declined) && a in r.db.sagas && GivesUp(r.db.sagas[a].state)
  {
    var t := Task(a, OnDecline(actor), Begin);
    var r := RunAlone(db, t, cfg, clks);
    OpenOfferRun(db, a, actor, cfg, clks);
    RunReturns(db, t, cfg, clks, {});
    RunPaysNothing(db, t, cfg, clks);
    OfferNeverPaid(db, r.db, a);
  }

  lemma OfferNeverPaid(db: Db, db': Db, a: Id)
    requires DbInv(db) && PaysNothing(db, db') && ReadableOffer(ViewOf(db, a))
    requires !SecondIs(ViewOf(db, a), InvoiceDomain.Paid)
    ensures !SomeonePaid(ViewOf(db', a))
  {
    assert ViewInv(a, ViewOf(db, a));
    assert FirstIs(ViewOf(db, a), InvoiceDomain.Expired);
    assert !InvoiceStands(db, InvoiceFor(a, 1), InvoiceDomain.Paid);
    assert !InvoiceStands(db, InvoiceFor(a, 2), InvoiceDomain.Paid);
  }

  function RefusedVoid(offer: InvoiceDomain.InvoiceState): DeclineAnswer {
    if InvoiceDomain.Readable(offer) then OfferAlreadyPaid else DeclineFailed(UNREADABLE)
  }

  lemma VoidIsRefused(db: Db, t: Task, actor: Id, cfg: Config, clk: Clock)
    requires t.trigger == OnDecline(actor) && t.pc.Voiding? && t.pc.offer in db.invoices
    requires var i := db.invoices[t.pc.offer]; !InvoiceDomain.Readable(i) || i.status == InvoiceDomain.Paid
    ensures TaskStep(db, t, cfg, clk) == Stepped(db, Answered(RefusedVoid(db.invoices[t.pc.offer])))
  {
  }

  lemma DeclineFindsOffer(db: Db, a: Id, actor: Id)
    requires ViewInv(a, ViewOf(db, a)) && a in db.sagas && CanRunnerUpDecline(actor, db.sagas[a])
    ensures var pc := DecideDecline(db, a, actor); pc.Voiding? && pc.offer == InvoiceFor(a, 2)
    ensures InvoiceFor(a, 2) in db.invoices
  {
  }

  /** The void is refused: that is the answer. */
  lemma RefusedVoidAnswers(db: Db, a: Id, actor: Id, cfg: Config, clks: seq<Clock>)
    requires ViewInv(a, ViewOf(db, a)) && a in db.sagas && CanRunnerUpDecline(actor, db.sagas[a])
    requires |clks| >= CallsLeft(Begin)
    requires InvoiceFor(a, 2) in db.invoices &&
      var i := db.invoices[InvoiceFor(a, 2)]; !InvoiceDomain.Readable(i) || i.status == InvoiceDomain.Paid
    ensures RunAlone(db, Task(a, OnDecline(actor), Begin), cfg, clks)
         == Stepped(db, Answered(RefusedVoid(db.invoices[InvoiceFor(a, 2)])))
  {
    var t := Task(a, OnDecline(actor), Begin);
    var pc := DecideDecline(db, a, actor);
    DeclineFindsOffer(db, a, actor);
    H.Calls(db, t, cfg, clks, Stepped(db, pc));
    VoidIsRefused(db, t.(pc := pc), actor, cfg, clks[1]);
    H.Calls(db, t.(pc := pc), cfg, clks[1..], TaskStep(db, t.(pc := pc), cfg, clks[1]));
  }

  /** A decline that is decided at once. */
  lemma DecidedAtOnce(db: Db, a: Id, actor: Id, cfg: Config, clks: seq<Clock>)
    requires clks != [] && DecideDecline(db, a, actor).Answered?
    ensures RunAlone(db, Task(a, OnDecline(actor), Begin), cfg, clks) == Stepped(db, DecideDecline(db, a, actor))
  {
    H.Calls(db, Task(a, OnDecline(actor), Begin), cfg, clks, Stepped(db, DecideDecline(db, a, actor)));
  }

  /**
    In every reachable state a decline, alone, is answered as the state calls for: by saga
    state, by who asks, and by what became of the offer.
   */
  lemma DeclineIsAnswered(acts: seq<Act>, cfg: Config, a: Id, actor: Id, clks: seq<Clock>)
    requires AllSane(clks, cfg) && |clks| >= CallsLeft(Begin)
    ensures var db := Reach(acts, cfg).db;
      AnswersDecline(db, a, actor, RunAlone(db, Task(a, OnDecline(actor), Begin), cfg, clks))
  {
    var db := Reach(acts, cfg).db;
    Reached(acts, cfg, a);
    DbAnswersDecline(db, a, actor, cfg, clks);
  }

  lemma ClosedIsAnswered(db: Db, a: Id, actor: Id)
    requires a in db.sagas ==> !CanRunnerUpDecline(actor, db.sagas[a])
    ensures DecideDecline(db, a, actor).Answered?
    ensures AnswersDecline(db, a, actor, Stepped(db, DecideDecline(db, a, actor)))
  {
  }

  lemma OpenIsAnswered(db: Db, a: Id, actor: Id, r: Stepped)
    requires ViewInv(a, ViewOf(db, a)) && a in db.sagas && CanRunnerUpDecline(actor, db.sagas[a])
    requires InvoiceFor(a, 2) in db.invoices
    requires var i := db.invoices[InvoiceFor(a, 2)];
      if !InvoiceDomain.Readable(i) || i.status == InvoiceDomain.Paid then r == Stepped(db, Answered(RefusedVoid(i)))
      else r.pc == Answered(Declined) && a in r.db.sagas && GivesUp(r.db.sagas[a].state)
    ensures AnswersDecline(db, a, actor, r)
  {
  }

  lemma DbAnswersDecline(db: Db, a: Id, actor: Id, cfg: Config, clks: seq<Clock>)
    requires DbInv(db) && ViewInv(a, ViewOf(db, a)) && AllSane(clks, cfg) && |clks| >= CallsLeft(Begin)
    ensures AnswersDecline(db, a, actor, RunAlone(db, Task(a, OnDecline(actor), Begin), cfg, clks))
  {
    if a !in db.sagas || !CanRunnerUpDecline(actor, db.sagas[a]) {
      ClosedIsAnswered(db, a, actor);
      DecidedAtOnce(db, a, actor, cfg, clks);
    } else {
      DeclineFindsOffer(db, a, actor);
      var i := db.invoices[InvoiceFor(a, 2)];
      if !InvoiceDomain.Readable(i) || i.status == InvoiceDomain.Paid {
        RefusedVoidAnswers(db, a, actor, cfg, clks);
      } else {
        OpenOfferIsDeclined(db, a, actor, cfg, clks);
      }
      OpenIsAnswered(db, a, actor, RunAlone(db, Task(a, OnDecline(actor), Begin), cfg, clks));
    }
  }

  // ---------- The expiry worker ----------

  /** Only a readable, pending, due invoice is expired; every other end was a race lost, and silence. */
  lemma ExpiryIsAnswered(db: Db, inv: Id, now: Time)
    ensures var c := ExpireDue(db, inv, now);
      if inv !in db.invoices then c == Called(db, Some(BillingFault(InvoiceDomain.ErrInvoiceNotFound)))
      else
        var i := db.invoices[inv];
        if !InvoiceDomain.Readable(i) then c == Called(db, Some(UNREADABLE))
        else if i.status != InvoiceDomain.Pending then c == Called(db, None)
        else if now < i.dueAt then c == Called(db, Some(BillingFault(InvoiceDomain.ErrInvoiceNotDue)))
        else
          c == Called(PutInvoice(db, i.(status := InvoiceDomain.Expired, version := i.version + 1),
                                 [InvoiceExpiredV1(i.id, i.auctionId, i.debtor, i.attempt, now)]), None)
  {
    if inv in db.invoices { InvoiceDomain.ExpiresIffDue(db.invoices[inv], now); }
  }

  // ---------- The other contexts' commands ----------

  /** What the saga hears from the auction: nothing if the sale moved or had moved, else why it cannot. */
  lemma AwardIsAnswered(db: Db, id: Id, now: Time)
    requires id in db.auctions && Valid(db.auctions[id])
    ensures var x := db.auctions[id]; var c := AwardToRunnerUp(db, id, now);
      && (c.fault.None? <==> x.winnerReassigned || (SaleOpen(x) && x.runnerUpBid != AuctionDomain.NO_BID))
      && (c.fault.Some? || x.winnerReassigned ==> c.db == db)
  {
    SaleMovesIffOpen(db.auctions[id], NoReason, now);
    SaleRefusals(db.auctions[id], NoReason, now);
  }

  lemma ConfirmIsAnswered(db: Db, id: Id, now: Time)
    requires id in db.auctions && Valid(db.auctions[id])
    ensures var x := db.auctions[id]; var c := ConfirmSettlement(db, id, now);
      && (c.fault.None? <==> x.outcome == AuctionDomain.Sold)
      && (c.fault.Some? || x.settled ==> c.db == db)
  {
    SaleMovesIffOpen(db.auctions[id], NoReason, now);
    SaleRefusals(db.auctions[id], NoReason, now);
  }

  lemma FailIsAnswered(db: Db, id: Id, reason: FailureReason, now: Time)
    requires id in db.auctions && Valid(db.auctions[id]) && reason != NoReason
    ensures var x := db.auctions[id]; var c := MarkSaleFailed(db, id, reason, now);
      && (c.fault.None? <==> SaleOpen(x) || x.outcome == AuctionDomain.NotSold)
      && (c.fault.Some? || x.outcome == AuctionDomain.NotSold ==> c.db == db)
  {
    SaleMovesIffOpen(db.auctions[id], reason, now);
    SaleRefusals(db.auctions[id], reason, now);
  }

  /** A known id adds nothing; a second replacement of an original is refused; anything else is added and told. */
  lemma AddIsAnswered(db: Db, v: AuctionDomain.Change)
    ensures var x := v.next;
      var second := x.relistOf != Nil && exists k | k in db.auctions :: db.auctions[k].relistOf == x.relistOf;
      AddAuction(db, v) ==
        if v.next.id in db.auctions then Ok(db)
        else if second then Err(AuctionDomain.ErrAlreadyRelisted)
        else Ok(db.(auctions := db.auctions[v.next.id := v.next],
                    outbox := db.outbox + MapDomainEvents(v.next, v.events)))
  {
  }

  /** An issue with sound arguments stores the bill, or does nothing if the auction has one for this attempt. */
  lemma IssueIsAnswered(db: Db, inv: Id, a: Id, debtor: Id, amount: Money, attempt: int, cfg: Config, now: Time)
    ensures var c := IssueInvoice(db, inv, a, debtor, amount, attempt, cfg, now);
      var sound := inv != Nil && a != Nil && debtor != Nil && amount.Valid() && attempt in {1, 2} && now != ZERO_TIME;
      var known := inv in db.invoices
        || exists k | k in db.invoices :: db.invoices[k].auctionId == a && db.invoices[k].attempt == attempt;
      && c.fault == (if sound then None else Some(BillingFault(InvoiceDomain.ErrInvalidInvoice)))
      && (c.db == db <==> !sound || known)
      && (sound && !known ==> inv in c.db.invoices && c.db.invoices[inv].debtor == debtor)
  {
    assert !ValidCurrency("");
    InvoiceDomain.BillSaysWhatIsOwed(inv, a, debtor, amount, cfg.terms, attempt, now);
    var c := IssueInvoice(db, inv, a, debtor, amount, attempt, cfg, now);
    if c.db != db { assert |c.db.outbox| == |db.outbox| + 1; }
  }

  // ---------- Handlers without a saga ----------

  /** An event that names nobody, or whose saga does not exist, is handed back for a retry; nothing is done for it. */
  lemma OrphansAreHandedBack(db: Db, e: Event, cfg: Config, clk: Clock)
    requires SagaEvent(e) && !e.AuctionClosedV1? && e.auctionId !in db.sagas
    ensures var r := TaskStep(db, TaskFor(e), cfg, clk);
      r.db == db && r.pc in {Nacked(SagaFault(ErrMalformedEvent)), Nacked(SagaFault(ErrSagaNotFound))}
  {
  }

  /** A closing is settled, ignored or handed back by its outcome; an existing saga is left as it is. */
  lemma ClosingIsTaken(db: Db, e: Event, cfg: Config, clk: Clock)
    requires e.AuctionClosedV1?
    ensures var r := TaskStep(db, TaskFor(e), cfg, clk);
      && (r.pc == Acking <==> e.outcome == "not_sold")
      && (r.pc.Loading? <==> e.outcome == "sold" && BuildClosing(e).Ok?)
      && (r.pc == Nacked(SagaFault(ErrUnknownOutcome)) <==> e.outcome != "sold" && e.outcome != "not_sold")
      && (r.db != db ==> r.pc.Loading? && r.db == db.(sagas := db.sagas[e.auctionId := Start(BuildClosing(e).value)]))
      && (forall k | k in db.sagas :: k in r.db.sagas && r.db.sagas[k] == db.sagas[k])
  {
  }

  // ---------- When things are said to have happened ----------

  /** Every event of these is stamped with this time. */
  ghost predicate AllAt(es: seq<Event>, now: Time) { forall e | e in es :: e.at == now }

  lemma OrderStamps(db: Db, id: Id, c: Command) returns (es: seq<Event>)
    requires UpdateAuction(db, id, c).Ok?
    ensures UpdateAuction(db, id, c).value.outbox == db.outbox + es && AllAt(es, c.now)
  {
    var change := Perform(db.auctions[id], c).value;
    es := MapDomainEvents(change.next, change.events);
    CommandTells(db.auctions[id], c);
  }

  lemma ReplaceStamps(db: Db, a: Id, cfg: Config, clk: Clock) returns (es: seq<Event>)
    ensures RelistEffect(db, a, cfg, clk).db.outbox == db.outbox + es && AllAt(es, clk.later)
  {
    es := [];
    if RelistEffect(db, a, cfg, clk).db != db {
      RelistUnfolds(db, a, cfg, clk);
      ReplacementOffersTheSame(db.auctions[a], RelistOf(a), NextWindow(cfg, clk), clk.later);
      var v := AuctionDomain.RelistedFrom(db.auctions[a], RelistOf(a), NextWindow(cfg, clk), clk.later).value;
      es := MapDomainEvents(v.next, v.events);
    } else {
      assert db.outbox + [] == db.outbox;
    }
  }

  lemma BillingStamps(db: Db, x: Transaction, cfg: Config) returns (es: seq<Event>)
    requires x.Issue? || x.Finish?
    ensures Commit(db, x, cfg).outbox == db.outbox + es && AllAt(es, if x.Issue? then x.now else x.ending.at)
  {
    es := [];
    assert db.outbox + [] == db.outbox;
    if x.Issue? {
      var r := InvoiceDomain.NewInvoice(x.invoice, x.auction, x.debtor, x.amount, cfg.terms, x.attempt, x.now);
      if Commit(db, x, cfg) != db { es := MapInvoiceEvent(r.value.event); }
    } else if UpdateInvoice(db, x.invoice, x.ending).Ok? {
      es := MapInvoiceEvent(InvoiceDomain.End(db.invoices[x.invoice], x.ending).value.event);
    }
  }

  /** The time a transaction gives to what it publishes. */
  function StampOf(x: Transaction): Time {
    match x
    case NoWrite | WriteSaga(_) => ZERO_TIME
    case List(_, now) => now
    case Order(_, c) => c.now
    case Replace(_, clk) => clk.later
    case Issue(_, _, _, _, _, now) => now
    case Finish(_, e) => e.at
  }

  lemma TransactionStamps(db: Db, x: Transaction, cfg: Config) returns (es: seq<Event>)
    requires !x.List?
    ensures Commit(db, x, cfg).outbox == db.outbox + es && AllAt(es, StampOf(x))
    ensures x.NoWrite? || x.WriteSaga? ==> es == []
  {
    es := [];
    assert db.outbox + [] == db.outbox;
    if x.Order? {
      if UpdateAuction(db, x.auction, x.command).Ok? { es := OrderStamps(db, x.auction, x.command); }
    } else if x.Replace? {
      es := ReplaceStamps(db, x.auction, cfg, x.clk);
    } else if x.Issue? || x.Finish? {
      es := BillingStamps(db, x, cfg);
    }
  }

  /** What a handler's call publishes bears the time of that call; a replacement, that of its insertion. */
  lemma CallsAreStamped(db: Db, t: Task, cfg: Config, clk: Clock) returns (es: seq<Event>)
    ensures TaskStep(db, t, cfg, clk).db.outbox == db.outbox + es
    ensures AllAt(es, if t.pc.Relisting? then clk.later else clk.now)
  {
    var x := TaskTransaction(db, t, cfg, clk);
    es := TransactionStamps(db, x, cfg);
  }
}
