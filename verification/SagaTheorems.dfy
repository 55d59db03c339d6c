/**
  Safety of the composed settlement system, over every run: any interleaving, any
  duplication and reordering of events, any crash between two calls.
 */
module SagaTheorems {
  import opened Base
  import AuctionDomain
  import opened AuctionRuns
  import InvoiceDomain
  import opened SettlementDomain
  import opened Database
  import opened Saga
  import opened SagaView
  import opened SagaCalls
  import opened SagaInvariant
  import opened SagaReach
  import opened SagaRelist

  lemma Reached(acts: seq<Act>, cfg: Config, a: Id)
    ensures DbInv(Reach(acts, cfg).db) && ViewInv(a, ViewOf(Reach(acts, cfg).db, a))
  {
    ReachKeepsInv(acts, cfg, false);
  }

  predicate IsPaid(db: Db, k: Id) {
    k in db.invoices && db.invoices[k].status == InvoiceDomain.Paid
  }

  // ---------- No double payment ----------

  /** Two paid invoices of one auction are the same invoice. */
  lemma AtMostOnePaid(acts: seq<Act>, cfg: Config, j: Id, k: Id)
    requires var db := Reach(acts, cfg).db;
      IsPaid(db, j) && IsPaid(db, k) && db.invoices[j].auctionId == db.invoices[k].auctionId
    ensures j == k
  {
    var db := Reach(acts, cfg).db;
    Reached(acts, cfg, db.invoices[j].auctionId);
    PaidIsUnique(db, j, k);
  }

  lemma PaidIsUnique(db: Db, j: Id, k: Id)
    requires DbInv(db) && IsPaid(db, j) && IsPaid(db, k) && db.invoices[j].auctionId == db.invoices[k].auctionId
    ensures j == k
  {
    var a := db.invoices[j].auctionId;
    assert ViewInv(a, ViewOf(db, a));
  }

  /** The runner-up is billed only once the winner's invoice has expired for good. */
  lemma SecondOnlyAfterFirstExpired(acts: seq<Act>, cfg: Config, k: Id)
    requires var m := Reach(acts, cfg).db.invoices; k in m && m[k].attempt != 1
    ensures var m := Reach(acts, cfg).db.invoices; var first := InvoiceFor(m[k].auctionId, 1);
      k == InvoiceFor(m[k].auctionId, 2) && first in m && m[first].status == InvoiceDomain.Expired
  {
    Reached(acts, cfg, Reach(acts, cfg).db.invoices[k].auctionId);
  }

  // ---------- The verdict agrees with the money ----------

  ghost predicate NonePaid(db: Db, a: Id) {
    forall k | IsPaid(db, k) :: db.invoices[k].auctionId != a
  }

  /** One invoice is paid, and it bills the auction's leading bidder for the leading bid. */
  ghost predicate LeaderPaidOnce(db: Db, a: Id)
    requires a in db.auctions
  {
    exists k :: IsPaid(db, k) && db.invoices[k].auctionId == a
                && db.invoices[k].debtor == db.auctions[a].leadingBid.bidder
                && db.invoices[k].hammer == db.auctions[a].leadingBid.amount
                && forall j | IsPaid(db, j) && db.invoices[j].auctionId == a :: j == k
  }

  /**
    A sale settled as sold has exactly one paid invoice, that of the final leading bidder
    for the final leading bid; a sale settled as failed has none, and gets none however
    the run goes on.
   */
  lemma VerdictMatchesMoney(acts: seq<Act>, more: seq<Act>, cfg: Config, a: Id)
    requires var db := Reach(acts, cfg).db; a in db.auctions && db.auctions[a].settled
    ensures var db := Reach(acts, cfg).db;
      if db.auctions[a].outcome == AuctionDomain.Sold then LeaderPaidOnce(db, a)
      else NonePaid(db, a) && NonePaid(Reach(acts + more, cfg).db, a)
  {
    var db := Reach(acts, cfg).db;
    Reached(acts, cfg, a);
    if db.auctions[a].outcome == AuctionDomain.Sold {
      SoldHasOnePaid(db, a);
    } else {
      var later := Reach(acts + more, cfg).db;
      LaterEvolves(acts, more, cfg);
      Reached(acts + more, cfg, a);
      DeadSaleStays(a, ViewOf(db, a), ViewOf(later, a));
      DeadMeansNonePaid(db, a);
      DeadMeansNonePaid(later, a);
    }
  }

  /** Whoever has paid is whom the auction names as its leader. */
  lemma LeaderIsBilled(a: Id, v: View)
    requires ViewInv(a, v) && v.auction.Some? && SomeonePaid(v)
    ensures var i := if FirstIs(v, InvoiceDomain.Paid) then v.first.value else v.second.value;
      i.debtor == v.auction.value.leadingBid.bidder && i.hammer == v.auction.value.leadingBid.amount
  {
  }

  lemma SoldHasOnePaid(db: Db, a: Id)
    requires DbInv(db) && ViewInv(a, ViewOf(db, a)) && a in db.auctions && SomeonePaid(ViewOf(db, a))
    ensures LeaderPaidOnce(db, a)
  {
    LeaderIsBilled(a, ViewOf(db, a));
    var k := if FirstIs(ViewOf(db, a), InvoiceDomain.Paid) then InvoiceFor(a, 1) else InvoiceFor(a, 2);
    assert IsPaid(db, k) && db.invoices[k].auctionId == a;
    forall j | IsPaid(db, j) && db.invoices[j].auctionId == a ensures j == k {
      PaidIsUnique(db, j, k);
    }
  }

  lemma DeadMeansNonePaid(db: Db, a: Id)
    requires DbInv(db) && ViewInv(a, ViewOf(db, a)) && DeadSale(ViewOf(db, a))
    ensures NonePaid(db, a)
  {
  }

  // ---------- No effect is refused ----------

  /** A handler or a decline that came back with an error. */
  predicate Fails(pc: Pc) {
    pc.Nacked? || (pc.Answered? && pc.answer.DeclineFailed?)
  }

  /** A decline that met a second bill whose row cannot be read back. */
  predicate MetUnreadableOffer(w: World, t: Task) {
    && t.trigger.OnDecline? && t.pc == Answered(DeclineFailed(UNREADABLE))
    && InvoiceFor(t.auction, 2) in w.db.invoices && !InvoiceDomain.Readable(w.db.invoices[InvoiceFor(t.auction, 2)])
  }

  /**
    The effects the saga issues are never refused by another context: not by a domain
    conflict, not as malformed, not as a winner mismatch, and the branch that panics is
    never taken. Two things make a handler fail: a clock at zero, or one that runs past the
    replacement's whole window in the middle of a call; and, for a decline, a second bill
    that overflowed.
   */
  lemma EffectsNeverRefused(acts: seq<Act>, cfg: Config, n: nat)
    requires var w := Reach(acts, cfg); n in w.tasks && Fails(w.tasks[n].pc)
    ensures var w := Reach(acts, cfg); var pc := w.tasks[n].pc;
      || (ClockFault(if pc.Nacked? then pc.fault else pc.answer.fault) && !SaneRun(acts, cfg))
      || MetUnreadableOffer(w, w.tasks[n])
  {
    var w := Reach(acts, cfg);
    var sane := SaneRun(acts, cfg);
    ReachKeepsInv(acts, cfg, sane);
    assert TaskInv(w.tasks[n], ViewOf(w.db, w.tasks[n].auction), w.early, sane);
  }

  // ---------- A committed state is backed by its effects ----------

  ghost predicate Billed(db: Db, a: Id, attempt: int, debtor: Id, amount: Money) {
    var k := InvoiceFor(a, attempt);
    k in db.invoices && db.invoices[k].debtor == debtor && db.invoices[k].hammer == amount
    && db.invoices[k].auctionId == a && db.invoices[k].attempt == attempt
  }

  /** What each saga state promises about the other two contexts. */
  ghost predicate Backed(db: Db, a: Id, s: SettlementState) {
    a in db.auctions &&
    var x := db.auctions[a];
    match s.state
    case Started => true
    case AwaitingPayment =>
      && Billed(db, a, 1, s.winner, s.hammer)
      && (!x.winnerReassigned ==> s.winner == x.leadingBid.bidder && s.hammer == x.leadingBid.amount)
    case AwardingRunnerUp => x.winnerReassigned && x.leadingBid.bidder == s.runnerUp
    case SecondChancePayment =>
      && Billed(db, a, 2, s.runnerUp, s.runnerUpAmount) && s.winner == s.runnerUp
      && x.winnerReassigned && x.leadingBid.bidder == s.runnerUp && x.leadingBid.amount == s.runnerUpAmount
    case Settled => x.outcome == AuctionDomain.Sold && x.settled
    case Relisted =>
      && x.outcome == AuctionDomain.NotSold && x.settled && x.relistGen == 0
      && RelistOf(a) in db.auctions && db.auctions[RelistOf(a)].relistOf == a
    case FailedUnsold =>
      x.outcome == AuctionDomain.NotSold && x.settled && x.relistGen == 1 && !ReplacementOf(db, a)
  }

  lemma CommitImpliesEffect(acts: seq<Act>, cfg: Config, a: Id)
    requires a in Reach(acts, cfg).db.sagas
    ensures Backed(Reach(acts, cfg).db, a, Reach(acts, cfg).db.sagas[a])
  {
    var db := Reach(acts, cfg).db;
    Reached(acts, cfg, a);
    Reached(acts, cfg, RelistOf(a));
    if db.sagas[a].state == FailedUnsold {
      NoOtherReplacement(db, a);
    }
  }

  // ---------- Declining ----------

  /** Whatever a declining runner-up was told is true, in every race and ever after. */
  lemma DeclineTellsTruth(acts: seq<Act>, cfg: Config, n: nat)
    requires var w := Reach(acts, cfg); n in w.tasks && w.tasks[n].trigger.OnDecline? && w.tasks[n].pc.Answered?
    ensures var w := Reach(acts, cfg); var t := w.tasks[n];
      && (t.pc.answer == Declined ==>
            && t.auction in w.db.sagas && w.db.sagas[t.auction].state in {Relisted, FailedUnsold}
            && w.db.sagas[t.auction].runnerUp == t.trigger.actor && NonePaid(w.db, t.auction))
      && (t.pc.answer == OfferAlreadyPaid ==> !NonePaid(w.db, t.auction))
      && t.pc.answer != DeclineFailed(Panic)
  {
    var w := Reach(acts, cfg);
    var t := w.tasks[n];
    ReachKeepsInv(acts, cfg, false);
    assert TaskInv(t, ViewOf(w.db, t.auction), w.early, false);
    Reached(acts, cfg, t.auction);
    AnswerIsTrue(w.db, t.auction, t.trigger.actor, t.pc.answer);
  }

  lemma AnswerIsTrue(db: Db, a: Id, actor: Id, answer: DeclineAnswer)
    requires DbInv(db) && ViewInv(a, ViewOf(db, a)) && DeclineTask(a, ViewOf(db, a), actor, Answered(answer), false)
    ensures answer == Declined ==>
      && a in db.sagas && db.sagas[a].state in {Relisted, FailedUnsold}
      && db.sagas[a].runnerUp == actor && NonePaid(db, a)
    ensures answer == OfferAlreadyPaid ==> !NonePaid(db, a)
    ensures answer != DeclineFailed(Panic)
  {
    if answer == Declined {
      DeadMeansNonePaid(db, a);
    } else if answer == OfferAlreadyPaid {
      assert IsPaid(db, InvoiceFor(a, 1)) || IsPaid(db, InvoiceFor(a, 2));
    }
  }

  // ---------- Relist lineage ----------

  /**
    Generation 1 is exactly having an original, which is then in the store with
    generation 0 and a failed sale; an original has one replacement at most, and a
    replacement none: a lineage has at most two listings, and they offer the same lot at
    the same prices under the same rules.
   */
  lemma RelistLineage(acts: seq<Act>, cfg: Config, j: Id, k: Id)
    requires var m := Reach(acts, cfg).db.auctions; j in m && k in m
    ensures var m := Reach(acts, cfg).db.auctions;
      && m[j].relistGen in {0, 1}
      && (m[j].relistGen == 1 <==> m[j].relistOf != Nil)
      && (m[j].relistOf != Nil ==>
            && m[j].relistOf in m && m[m[j].relistOf].relistGen == 0
            && m[m[j].relistOf].settled && m[m[j].relistOf].outcome == AuctionDomain.NotSold
            && m[k].relistOf != j
            && (m[k].relistOf == m[j].relistOf ==> j == k)
            && SameOffer(m[m[j].relistOf], m[j]))
  {
    var m := Reach(acts, cfg).db.auctions;
    ReplacementsAreFaithful(acts, cfg);
    Reached(acts, cfg, j);
    Reached(acts, cfg, k);
    if m[j].relistOf != Nil {
      Reached(acts, cfg, m[j].relistOf);
    }
  }
}
