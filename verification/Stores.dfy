/**
  The stores as the mutable objects the handlers share, one method per transaction: load
  a copy of the aggregate, run its command, and write it back under the next version
  together with its events, or leave everything as it was.
 */
module Stores {
  import opened Base
  import opened Events
  import AuctionDomain
  import opened AuctionAggregate
  import InvoiceDomain
  import opened InvoiceAggregate
  import SettlementDomain
  import opened SettlementAggregate
  import opened AuctionRuns
  import D = Database

  type SagaError = SettlementDomain.SagaError

  class Tables {
    var auctions: map<Id, AuctionDomain.AuctionState>
    var invoices: Invoices
    var sagas: map<Id, SettlementDomain.SettlementState>
    var outbox: seq<Event>

    function Db(): D.Db
      reads this
    {
      D.Db(auctions, invoices, sagas, outbox)
    }

    constructor ()
      ensures Db() == D.Db(map[], map[], map[], [])
    {
      auctions, invoices, sagas, outbox := map[], map[], map[], [];
    }

    // ---------- The auction context ----------

    /** Writes a changed aggregate back: next version, events to the outbox. */
    method StoreAuction(a: Auction)
      modifies this`auctions, this`outbox, a`events
      ensures auctions == old(auctions)[a.id := a.State().(version := a.version + 1)]
      ensures outbox == old(outbox) + MapDomainEvents(a.State(), old(a.events)) && a.events == []
      ensures a.State() == old(a.State())
    {
      var recorded := a.PullDomainEvents();
      auctions := auctions[a.id := a.State().(version := a.version + 1)];
      outbox := outbox + MapDomainEvents(a.State(), recorded);
    }

    /** What the transaction of an idempotent effect comes to, given what the aggregate's command did. */
    ghost predicate Effected(was: D.Db, v: AuctionDomain.Verdict, done: AuctionDomain.AuctionError,
                             fault: Option<D.Fault>)
      reads this
    {
      match v
      case Ok(c) =>
        && fault == None
        && Db() == D.PutAuction(was, c.next.(version := c.next.version + 1), MapDomainEvents(c.next, c.events))
      case Err(e) => Db() == was && fault == if e == done then None else Some(D.AuctionFault(e))
    }

    /** The end of each effect's transaction: rolled back, already done, or written. */
    method Finish(a: Auction, error: Option<AuctionDomain.AuctionError>, done: AuctionDomain.AuctionError,
                  ghost v: AuctionDomain.Verdict)
      returns (fault: Option<D.Fault>)
      requires a.Moved(v, a.State(), []) && error == (if v.Err? then Some(v.error) else None)
      modifies this`auctions, this`outbox, a`events
      ensures Effected(old(Db()), v, done, fault)
    {
      if error.Some? { return if error.value == done then None else Some(D.AuctionFault(error.value)); }
      assert [] + v.value.events == v.value.events;
      StoreAuction(a);
      return None;
    }

    method AwardToRunnerUp(id: Id, now: Time) returns (fault: Option<D.Fault>)
      modifies this`auctions, this`outbox
      ensures D.Called(Db(), fault) == D.AwardToRunnerUp(old(Db()), id, now)
    {
      if id !in auctions { return Some(D.AuctionFault(AuctionDomain.ErrNotFound)); }
      var a := new Auction.Rehydrate(auctions[id]);
      ghost var v := Perform(auctions[id], DoAward(now));
      var r := a.AwardToRunnerUp(now);
      fault := Finish(a, if r.Err? then Some(r.error) else None, AuctionDomain.ErrWinnerAlreadyReassigned, v);
    }

    method ConfirmSettlement(id: Id, now: Time) returns (fault: Option<D.Fault>)
      modifies this`auctions, this`outbox
      ensures D.Called(Db(), fault) == D.ConfirmSettlement(old(Db()), id, now)
    {
      if id !in auctions { return Some(D.AuctionFault(AuctionDomain.ErrNotFound)); }
      var a := new Auction.Rehydrate(auctions[id]);
      ghost var v := Perform(auctions[id], DoConfirm(now));
      var e := a.ConfirmSettlement(now);
      fault := Finish(a, e, AuctionDomain.ErrAlreadySettled, v);
    }

    method MarkSaleFailed(id: Id, reason: FailureReason, now: Time) returns (fault: Option<D.Fault>)
      modifies this`auctions, this`outbox
      ensures D.Called(Db(), fault) == D.MarkSaleFailed(old(Db()), id, reason, now)
    {
      if id !in auctions { return Some(D.AuctionFault(AuctionDomain.ErrNotFound)); }
      var a := new Auction.Rehydrate(auctions[id]);
      ghost var v := Perform(auctions[id], DoFail(reason, now));
      var e := a.FailSale(reason, now);
      fault := Finish(a, e, AuctionDomain.ErrSaleAlreadyFailed, v);
    }

    /** Scans for another replacement of the same original. */
    method FindReplacement(original: Id) returns (found: bool)
      ensures found == D.ReplacementOf(Db(), original)
    {
      var rest := auctions.Keys;
      while rest != {}
        invariant rest <= auctions.Keys
        invariant forall k | k in auctions && k !in rest :: auctions[k].relistOf != original
        decreases rest
      {
        var k :| k in rest;
        if auctions[k].relistOf == original { return true; }
        rest := rest - {k};
      }
      return false;
    }

    method AddAuction(v: AuctionDomain.Change) returns (error: Option<AuctionDomain.AuctionError>)
      modifies this`auctions, this`outbox
      ensures match D.AddAuction(old(Db()), v)
        case Ok(db) => Db() == db && error == None
        case Err(e) => Db() == old(Db()) && error == Some(e)
    {
      if v.next.id in auctions { return None; }
      if v.next.relistOf != Nil {
        var replaced := FindReplacement(v.next.relistOf);
        if replaced { return Some(AuctionDomain.ErrAlreadyRelisted); }
      }
      auctions := auctions[v.next.id := v.next];
      outbox := outbox + MapDomainEvents(v.next, v.events);
      return None;
    }

    method Relist(original: Id, newId: Id, startsAt: Time, endsAt: Time, now: Time) returns (fault: Option<D.Fault>)
      modifies this`auctions, this`outbox
      ensures D.Called(Db(), fault) == D.Relist(old(Db()), original, newId, startsAt, endsAt, now)
    {
      var window := AuctionDomain.NewBiddingWindow(startsAt, endsAt);
      if window.None? { return Some(D.AuctionFault(AuctionDomain.ErrInvalidBiddingWindow)); }
      if original !in auctions { return Some(D.AuctionFault(AuctionDomain.ErrNotFound)); }
      var built := AuctionDomain.RelistedFrom(auctions[original], newId, window.value, now);
      if built.Err? { return Some(D.AuctionFault(built.error)); }
      var e := AddAuction(built.value);
      return if e.None? || e == Some(AuctionDomain.ErrAlreadyRelisted) then None else Some(D.AuctionFault(e.value));
    }

    // ---------- The billing context ----------

    /** Invoices are stored under their own identity. */
    ghost predicate Keyed()
      reads this`invoices
    {
      forall k | k in invoices :: invoices[k].id == k
    }

    /** Add is refused on a known id and on a known (auction, attempt) pair. */
    method FindIssued(i: InvoiceDomain.InvoiceState) returns (found: bool)
      ensures found == Issued(invoices, i)
    {
      if i.id in invoices { return true; }
      var rest := invoices.Keys;
      while rest != {}
        invariant rest <= invoices.Keys
        invariant forall k | k in invoices && k !in rest ::
          !(invoices[k].auctionId == i.auctionId && invoices[k].attempt == i.attempt)
        decreases rest
      {
        var k :| k in rest;
        if invoices[k].auctionId == i.auctionId && invoices[k].attempt == i.attempt { return true; }
        rest := rest - {k};
      }
      return false;
    }

    method IssueInvoice(inv: Id, auction: Id, debtor: Id, amount: Money, attempt: int, cfg: D.Config, now: Time)
      returns (fault: Option<D.Fault>)
      modifies this`invoices, this`outbox
      ensures D.Called(Db(), fault) == D.IssueInvoice(old(Db()), inv, auction, debtor, amount, attempt, cfg, now)
    {
      if !amount.Valid() { return Some(D.BillingFault(InvoiceDomain.ErrInvalidInvoice)); }
      var built := InvoiceDomain.NewInvoice(inv, auction, debtor, amount, cfg.terms, attempt, now);
      if built.Err? { return Some(D.BillingFault(built.error)); }
      var known := FindIssued(built.value.next);
      if known { return None; }
      invoices := invoices[inv := built.value.next];
      outbox := outbox + MapInvoiceEvent(built.value.event);
      return None;
    }

    method ExpireInvoice(inv: Id, now: Time) returns (fault: Option<D.Fault>)
      requires Keyed()
      modifies this`invoices, this`outbox
      ensures D.Called(Db(), fault) == D.ExpireDue(old(Db()), inv, now)
    {
      if inv !in invoices { return Some(D.BillingFault(InvoiceDomain.ErrInvoiceNotFound)); }
      if !InvoiceDomain.Readable(invoices[inv]) { return Some(D.BillingFault(InvoiceDomain.ErrUnreadableInvoice)); }
      var i := new Invoice.Rehydrate(invoices[inv]);
      var e := i.Expire(now);
      if e.Some? {
        if e.value in {InvoiceDomain.ErrInvoiceAlreadyPaid, InvoiceDomain.ErrInvoiceAlreadyExpired,
                       InvoiceDomain.ErrInvoiceVoided} {
          return None;
        }
        return Some(D.BillingFault(e.value));
      }
      invoices := invoices[inv := i.State().(version := i.version + 1)];
      outbox := outbox + MapInvoiceEvent(i.events[0]);
      return None;
    }

    method VoidInvoice(inv: Id, now: Time) returns (fault: Option<D.Fault>)
      modifies this`invoices, this`outbox
      requires Keyed()
      ensures D.Called(Db(), fault) == D.VoidInvoice(old(Db()), inv, now)
    {
      if inv !in invoices { return Some(D.BillingFault(InvoiceDomain.ErrInvoiceNotFound)); }
      if !InvoiceDomain.Readable(invoices[inv]) { return Some(D.BillingFault(InvoiceDomain.ErrUnreadableInvoice)); }
      var i := new Invoice.Rehydrate(invoices[inv]);
      var e := i.Void(now);
      if e.Some? {
        if e.value in {InvoiceDomain.ErrInvoiceAlreadyVoided, InvoiceDomain.ErrInvoiceAlreadyExpired} { return None; }
        if e.value == InvoiceDomain.ErrInvoiceAlreadyPaid {
          return Some(D.SagaFault(SettlementDomain.ErrOfferAlreadyPaid));
        }
        return Some(D.BillingFault(e.value));
      }
      invoices := invoices[inv := i.State().(version := i.version + 1)];
      outbox := outbox + MapInvoiceEvent(i.events[0]);
      return None;
    }

    // ---------- The settlement context ----------

    method AddSaga(s: SettlementDomain.SettlementState)
      modifies this`sagas
      ensures Db() == D.AddSaga(old(Db()), s)
    {
      if s.auctionId !in sagas { sagas := sagas[s.auctionId := s]; }
    }

    method GetSaga(id: Id) returns (s: Option<SettlementDomain.SettlementState>)
      ensures s == D.GetSaga(Db(), id)
    {
      if id !in sagas { return None; }
      return Some(sagas[id]);
    }

    /** The row was missing, the verdict was refused, or its state is stored under the next version. */
    ghost predicate Committed(was: D.Db, verdict: SettlementDomain.SagaVerdict, r: Option<SagaError>)
      reads this
    {
      match D.UpdateSaga(was, verdict)
      case Ok(db) => Db() == db && r == None
      case Err(e) => Db() == was && r == Some(e)
    }

    method StoreSaga(s: Settlement)
      modifies this`sagas
      ensures Db() == D.PutSaga(old(Db()), s.State().(version := s.version + 1))
    {
      sagas := sagas[s.auctionId := s.State().(version := s.version + 1)];
    }

    method CommitInvoiceIssued(id: Id, inv: Id) returns (r: Option<SagaError>)
      modifies this`sagas
      ensures id !in old(sagas) ==> r == Some(SettlementDomain.ErrSagaNotFound) && Db() == old(Db())
      ensures id in old(sagas) ==> Committed(old(Db()), SettlementDomain.InvoiceIssued(old(sagas)[id], inv), r)
    {
      if id !in sagas { return Some(SettlementDomain.ErrSagaNotFound); }
      var s := new Settlement.Rehydrate(sagas[id]);
      r := s.InvoiceIssued(inv);
      if r.None? { StoreSaga(s); }
    }

    method CommitPaymentReceived(id: Id, inv: Id) returns (r: Option<SagaError>)
      modifies this`sagas
      ensures id !in old(sagas) ==> r == Some(SettlementDomain.ErrSagaNotFound) && Db() == old(Db())
      ensures id in old(sagas) ==> Committed(old(Db()), SettlementDomain.PaymentReceived(old(sagas)[id], inv), r)
    {
      if id !in sagas { return Some(SettlementDomain.ErrSagaNotFound); }
      var s := new Settlement.Rehydrate(sagas[id]);
      r := s.PaymentReceived(inv);
      if r.None? { StoreSaga(s); }
    }

    method CommitNextStep(id: Id, step: SettlementDomain.NextStep, reason: FailureReason) returns (r: Option<SagaError>)
      modifies this`sagas
      ensures id !in old(sagas) ==> r == Some(SettlementDomain.ErrSagaNotFound) && Db() == old(Db())
      ensures id in old(sagas) ==>
        Committed(old(Db()), SettlementDomain.ApplyNextStep(old(sagas)[id], step, reason), r)
    {
      if id !in sagas { return Some(SettlementDomain.ErrSagaNotFound); }
      var s := new Settlement.Rehydrate(sagas[id]);
      r := s.ApplyNextStep(step, reason);
      if r.None? { StoreSaga(s); }
    }

    /** Both transitions in one transaction; the second's refusal undoes the first. */
    method CommitOffer(id: Id, newWinner: Id, price: Money, inv: Id) returns (r: Option<SagaError>)
      modifies this`sagas
      ensures id !in old(sagas) ==> r == Some(SettlementDomain.ErrSagaNotFound) && Db() == old(Db())
      ensures id in old(sagas) ==>
        Committed(old(Db()), SettlementDomain.SecondChanceOffered(old(sagas)[id], newWinner, price, inv), r)
    {
      if id !in sagas { return Some(SettlementDomain.ErrSagaNotFound); }
      var s := new Settlement.Rehydrate(sagas[id]);
      r := s.RunnerUpAwarded(newWinner, price);
      if r.None? {
        r := s.SecondChanceInvoiceIssued(inv);
        if r.None? { StoreSaga(s); }
      }
    }
  }
}
