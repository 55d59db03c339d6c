/**
  The invoice as the mutable object the program works on, and the in-memory
  repository that stores invoices by value.
 */
module InvoiceAggregate {
  import opened Base
  import opened InvoiceDomain

  class Invoice {
    const id: Id
    const auctionId: Id
    const debtor: Id
    const hammer: Money
    const commission: Money
    const total: Money
    var status: InvoiceStatus
    const dueAt: Time
    const attempt: int
    var pspRef: PaymentReference
    const version: int
    var events: seq<InvoiceEvent>

    function State(): InvoiceState
      reads this
    {
      InvoiceState(id, auctionId, debtor, hammer, commission, total, status, dueAt, attempt, pspRef, version)
    }

    constructor Rehydrate(i: InvoiceState)
      ensures State() == i && events == []
    {
      id, auctionId, debtor := i.id, i.auctionId, i.debtor;
      hammer, commission, total := i.hammer, i.commission, i.total;
      status, dueAt, attempt, pspRef, version := i.status, i.dueAt, i.attempt, i.pspRef, i.version;
      events := [];
    }

    ghost predicate Moved(v: InvoiceVerdict, was: InvoiceState, log: seq<InvoiceEvent>)
      reads this
    {
      match v
      case Ok(c) => State() == c.next && events == log + [c.event]
      case Err(_) => State() == was && events == log
    }

    method Record(e: InvoiceEvent)
      modifies this`events
      ensures events == old(events) + [e]
    {
      events := events + [e];
    }

    method MarkPaid(ref: PaymentReference, now: Time) returns (r: Option<InvoiceError>)
      modifies this
      ensures var v := InvoiceDomain.MarkPaid(old(State()), ref, now);
        Moved(v, old(State()), old(events)) && r == (if v.Err? then Some(v.error) else None)
    {
      if ref == NO_REFERENCE { return Some(ErrEmptyPaymentReference); }
      match status {
        case Pending =>
          status := Paid;
          pspRef := ref;
          Record(InvoicePaid(id, auctionId, debtor, total, ref, now));
          return None;
        case Paid => return Some(ErrInvoiceAlreadyPaid);
        case Expired => return Some(ErrInvoiceExpired);
        case Voided => return Some(ErrInvoiceVoided);
      }
    }

    method Expire(now: Time) returns (r: Option<InvoiceError>)
      modifies this
      ensures var v := InvoiceDomain.Expire(old(State()), now);
        Moved(v, old(State()), old(events)) && r == (if v.Err? then Some(v.error) else None)
    {
      match status {
        case Pending =>
          if now < dueAt { return Some(ErrInvoiceNotDue); }
          status := Expired;
          Record(InvoiceExpired(id, auctionId, debtor, attempt, now));
          return None;
        case Paid => return Some(ErrInvoiceAlreadyPaid);
        case Expired => return Some(ErrInvoiceAlreadyExpired);
        case Voided => return Some(ErrInvoiceVoided);
      }
    }

    method Void(now: Time) returns (r: Option<InvoiceError>)
      modifies this
      ensures var v := InvoiceDomain.Void(old(State()), now);
        Moved(v, old(State()), old(events)) && r == (if v.Err? then Some(v.error) else None)
    {
      match status {
        case Pending =>
          status := Voided;
          Record(InvoiceVoided(id, now));
          return None;
        case Paid => return Some(ErrInvoiceAlreadyPaid);
        case Expired => return Some(ErrInvoiceAlreadyExpired);
        case Voided => return Some(ErrInvoiceAlreadyVoided);
      }
    }
  }

  // ---------- Stores of invoices ----------

  type Invoices = map<Id, InvoiceState>

  /** Add is refused on a known id and on a known (auction, attempt) pair. */
  predicate Issued(invoices: Invoices, i: InvoiceState) {
    i.id in invoices
    || exists k | k in invoices :: invoices[k].auctionId == i.auctionId && invoices[k].attempt == i.attempt
  }

  /** A foreign invoice is the same as a missing one. */
  function Lookup(invoices: Invoices, id: Id, actor: Id): Option<InvoiceState> {
    if id in invoices && invoices[id].debtor == actor then Some(invoices[id]) else None
  }

  /** A mapping the in-memory repository applies to the stored value on a copy. */
  type UpdateFn = InvoiceState -> InvoiceVerdict

  class InvoiceInMemoryRepository {
    var byId: Invoices

    constructor (invoices: Invoices)
      ensures byId == invoices
    {
      byId := invoices;
    }

    method Add(i: InvoiceState) returns (r: Option<InvoiceError>)
      modifies this
      ensures r == (if Issued(old(byId), i) then Some(ErrInvoiceAlreadyIssued) else None)
      ensures byId == if r.None? then old(byId)[i.id := i] else old(byId)
    {
      if i.id in byId { return Some(ErrInvoiceAlreadyIssued); }
      var rest := byId.Keys;
      while rest != {}
        invariant rest <= byId.Keys
        invariant forall k | k in byId && k !in rest ::
          !(byId[k].auctionId == i.auctionId && byId[k].attempt == i.attempt)
        decreases rest
      {
        var k :| k in rest;
        if byId[k].auctionId == i.auctionId && byId[k].attempt == i.attempt {
          return Some(ErrInvoiceAlreadyIssued);
        }
        rest := rest - {k};
      }
      byId := byId[i.id := i];
      return None;
    }

    method Get(id: Id, actor: Id) returns (r: Option<InvoiceState>)
      ensures r == Lookup(byId, id, actor)
    {
      if id !in byId || byId[id].debtor != actor { return None; }
      return Some(byId[id]);
    }

    /**
      actor None is the system flow, which skips the access rule. Unlike the database, this
      store keeps the version.
     */
    method Update(id: Id, actor: Option<Id>, updateFn: UpdateFn) returns (r: Option<InvoiceError>)
      modifies this
      ensures id !in old(byId) || (actor.Some? && old(byId)[id].debtor != actor.value) ==>
        r == Some(ErrInvoiceNotFound) && byId == old(byId)
      ensures id in old(byId) && (actor.None? || old(byId)[id].debtor == actor.value) ==>
        match updateFn(old(byId)[id])
        case Err(e) => r == Some(e) && byId == old(byId)
        case Ok(c) => r == None && byId == old(byId)[id := c.next]
    {
      if id !in byId { return Some(ErrInvoiceNotFound); }
      if actor.Some? && byId[id].debtor != actor.value { return Some(ErrInvoiceNotFound); }
      match updateFn(byId[id]) {
        case Err(e) => return Some(e);
        case Ok(c) =>
          byId := byId[id := c.next];
          return None;
      }
    }
  }
}
