/**
  The invoice aggregate as a value: amounts fixed at issue time and a life cycle
  Pending -> Paid | Expired | Voided that never moves twice.
 */
module InvoiceDomain {
  import opened Base

  datatype InvoiceStatus = Pending | Paid | Expired | Voided

  datatype InvoiceError =
    | ErrInvoiceAlreadyPaid
    | ErrInvoiceExpired
    | ErrInvoiceAlreadyExpired
    | ErrInvoiceVoided
    | ErrInvoiceAlreadyVoided
    | ErrInvoiceNotDue
    | ErrInvoiceAlreadyIssued
    | ErrEmptyPaymentReference
    | ErrInvalidInvoice
    | ErrInvoiceNotFound
    | ErrUnreadableInvoice

  /** The zero reference stands for "not paid". */
  type PaymentReference = string

  const NO_REFERENCE: PaymentReference := ""

  datatype InvoiceState = InvoiceState(
    id: Id,
    auctionId: Id,
    debtor: Id,
    hammer: Money,
    commission: Money,
    total: Money,
    status: InvoiceStatus,
    dueAt: Time,
    attempt: int,
    pspRef: PaymentReference,
    version: int)

  datatype InvoiceEvent =
    | InvoiceIssued(invoice: InvoiceState, at: Time)
    | InvoicePaid(invoiceId: Id, auctionId: Id, debtor: Id, total: Money, reference: PaymentReference, at: Time)
    | InvoiceExpired(invoiceId: Id, auctionId: Id, debtor: Id, attempt: int, at: Time)
    | InvoiceVoided(invoiceId: Id, at: Time)

  datatype InvoiceChange = InvoiceChange(next: InvoiceState, event: InvoiceEvent)

  type InvoiceVerdict = Result<InvoiceChange, InvoiceError>

  /** The platform's cut in basis points and the time a debtor has to pay. */
  datatype RawTerms = RawTerms(basisPoints: int, paymentTerm: Duration)

  type BillingTerms = t: RawTerms | 0 <= t.basisPoints <= 10_000 && t.paymentTerm > 0
    witness RawTerms(0, 1)

  function NewInvoice(id: Id, auctionId: Id, debtor: Id, hammer: Money, terms: BillingTerms,
                      attempt: int, now: Time): InvoiceVerdict
  {
    if id == Nil || auctionId == Nil || debtor == Nil || hammer == ZERO_MONEY || attempt !in {1, 2}
       || now == ZERO_TIME
    then Err(ErrInvalidInvoice)
    else
      var commission := hammer.MulBasisPoints(terms.basisPoints);
      match hammer.Add(commission)
      case None => Err(ErrInvalidInvoice)
      case Some(total) =>
        var inv := InvoiceState(id, auctionId, debtor, hammer, commission, total, Pending,
                                now + terms.paymentTerm, attempt, NO_REFERENCE, 1);
        Ok(InvoiceChange(inv, InvoiceIssued(inv, now)))
  }

  /** The deadline is deliberately not checked: a late payment before expiry counts. */
  function MarkPaid(i: InvoiceState, ref: PaymentReference, now: Time): InvoiceVerdict {
    if ref == NO_REFERENCE then Err(ErrEmptyPaymentReference)
    else
      match i.status
      case Pending =>
        Ok(InvoiceChange(i.(status := Paid, pspRef := ref),
                         InvoicePaid(i.id, i.auctionId, i.debtor, i.total, ref, now)))
      case Paid => Err(ErrInvoiceAlreadyPaid)
      case Expired => Err(ErrInvoiceExpired)
      case Voided => Err(ErrInvoiceVoided)
  }

  function Expire(i: InvoiceState, now: Time): InvoiceVerdict {
    match i.status
    case Pending =>
      if now < i.dueAt then Err(ErrInvoiceNotDue)
      else Ok(InvoiceChange(i.(status := Expired), InvoiceExpired(i.id, i.auctionId, i.debtor, i.attempt, now)))
    case Paid => Err(ErrInvoiceAlreadyPaid)
    case Expired => Err(ErrInvoiceAlreadyExpired)
    case Voided => Err(ErrInvoiceVoided)
  }

  function Void(i: InvoiceState, now: Time): InvoiceVerdict {
    match i.status
    case Pending => Ok(InvoiceChange(i.(status := Voided), InvoiceVoided(i.id, now)))
    case Paid => Err(ErrInvoiceAlreadyPaid)
    case Expired => Err(ErrInvoiceAlreadyExpired)
    case Voided => Err(ErrInvoiceAlreadyVoided)
  }

  /** The three ways an invoice ends. */
  datatype Ending =
    | Payment(ref: PaymentReference, at: Time)
    | Expiry(at: Time)
    | Withdrawal(at: Time)

  function End(i: InvoiceState, e: Ending): InvoiceVerdict {
    match e
    case Payment(ref, at) => MarkPaid(i, ref, at)
    case Expiry(at) => Expire(i, at)
    case Withdrawal(at) => Void(i, at)
  }

  /** A bill is due one payment term after it is issued, for the hammer price and the commission on it. */
  lemma BillSaysWhatIsOwed(
    id: Id, auctionId: Id, debtor: Id, hammer: Money, terms: BillingTerms, attempt: int, now: Time)
    ensures var v := NewInvoice(id, auctionId, debtor, hammer, terms, attempt, now);
      && (v.Ok? <==>
            && id != Nil && auctionId != Nil && debtor != Nil
            && hammer != ZERO_MONEY && attempt in {1, 2} && now != ZERO_TIME)
      && (v.Ok? ==>
            var i := v.value.next;
            && i.id == id && i.auctionId == auctionId && i.debtor == debtor && i.attempt == attempt
            && i.status == Pending && i.pspRef == NO_REFERENCE && i.dueAt == now + terms.paymentTerm
            && i.hammer == hammer && BilledAt(i, terms.basisPoints)
            && v.value.event == InvoiceIssued(i, now))
  {
  }

  /** An invoice expires only while it is pending, and not before it is due. */
  lemma ExpiresIffDue(i: InvoiceState, now: Time)
    ensures var v := Expire(i, now);
      && (v.Ok? <==> i.status == Pending && now >= i.dueAt)
      && (v == Err(ErrInvoiceNotDue) <==> i.status == Pending && now < i.dueAt)
      && (v.Ok? ==> v.value == InvoiceChange(i.(status := Expired),
                                             InvoiceExpired(i.id, i.auctionId, i.debtor, i.attempt, now)))
  {
  }

  /** It can be paid while it is pending, however late; each refusal says how it ended. */
  lemma PaysIffPending(i: InvoiceState, ref: PaymentReference, now: Time)
    requires ref != NO_REFERENCE
    ensures var v := MarkPaid(i, ref, now);
      && (v.Ok? <==> i.status == Pending)
      && (v == Err(ErrInvoiceAlreadyPaid) <==> i.status == Paid)
      && (v == Err(ErrInvoiceExpired) <==> i.status == Expired)
      && (v == Err(ErrInvoiceVoided) <==> i.status == Voided)
      && (v.Ok? ==> v.value == InvoiceChange(i.(status := Paid, pspRef := ref),
                                             InvoicePaid(i.id, i.auctionId, i.debtor, i.total, ref, now)))
  {
  }

  /** It can be withdrawn while it is pending. */
  lemma VoidsIffPending(i: InvoiceState, now: Time)
    ensures var v := Void(i, now);
      && (v.Ok? <==> i.status == Pending)
      && (v == Err(ErrInvoiceAlreadyPaid) <==> i.status == Paid)
      && (v == Err(ErrInvoiceAlreadyExpired) <==> i.status == Expired)
      && (v == Err(ErrInvoiceAlreadyVoided) <==> i.status == Voided)
      && (v.Ok? ==> v.value == InvoiceChange(i.(status := Voided), InvoiceVoided(i.id, now)))
  {
  }

  /** No stored amount is negative; the money constructor rejects what is, when the row is read back. */
  predicate Readable(i: InvoiceState) {
    i.commission.amount >= 0 && i.total.amount >= 0
  }

  /** Neither the commission's product nor the total wraps below zero, at this rate. */
  predicate BillFits(hammer: Money, basisPoints: int) {
    && Wrap64(hammer.amount * basisPoints) > -10_000
    && hammer.amount + Quo(Wrap64(hammer.amount * basisPoints), 10_000) <= MAX_INT64
  }

  /** The amounts the factory computes at this rate. */
  predicate BilledAt(i: InvoiceState, basisPoints: int) {
    i.commission == i.hammer.MulBasisPoints(basisPoints) && i.hammer.Add(i.commission) == Some(i.total)
  }

  /** Whether a bill will be readable is known from the hammer price and the rate before it is issued. */
  lemma ReadableIffBillFits(i: InvoiceState, basisPoints: int)
    requires i.hammer.Valid() && BilledAt(i, basisPoints)
    ensures Readable(i) <==> BillFits(i.hammer, basisPoints)
  {
    var product := Wrap64(i.hammer.amount * basisPoints);
    assert i.commission.amount == Quo(product, 10_000) <= MAX_INT64;
    if product < 0 {
      assert -product / 10_000 == 0 <==> -product < 10_000;
    }
    if i.commission.amount >= 0 {
      var sum := i.hammer.amount + i.commission.amount;
      assert 0 <= sum <= 2 * MAX_INT64;
      assert i.total.amount == Wrap64(sum);
      WrapsNegative(sum);
    }
  }

  lemma WrapsNegative(sum: int)
    requires 0 <= sum <= 2 * MAX_INT64
    ensures Wrap64(sum) >= 0 <==> sum <= MAX_INT64
  {
  }

  /**
    The bill: when neither the product nor the sum leaves int64, the commission is the
    exact share rounded down and the total lies between the hammer price and its double.
   */
  lemma TotalIsHammerPlusFlooredCommission(
    id: Id, auctionId: Id, debtor: Id, hammer: Money, terms: BillingTerms, attempt: int, now: Time)
    requires hammer.Valid()
    requires hammer.amount * terms.basisPoints <= MAX_INT64 && 2 * hammer.amount <= MAX_INT64
    ensures var v := NewInvoice(id, auctionId, debtor, hammer, terms, attempt, now); v.Ok? ==>
      var i := v.value.next;
      && i.total.amount == hammer.amount + i.commission.amount
      && i.commission.amount * 10_000 <= hammer.amount * terms.basisPoints < (i.commission.amount + 1) * 10_000
      && hammer.amount <= i.total.amount <= 2 * hammer.amount
      && i.total.Valid() && i.total.currency == hammer.currency
  {
    FlooredShare(hammer, terms.basisPoints);
  }

  lemma FlooredShare(m: Money, basisPoints: int)
    requires m.Valid() && 0 <= basisPoints <= 10_000 && m.amount * basisPoints <= MAX_INT64
    ensures var share := m.MulBasisPoints(basisPoints);
      && share.currency == m.currency && 0 <= share.amount <= m.amount
      && share.amount * 10_000 <= m.amount * basisPoints < (share.amount + 1) * 10_000
  {
    var product := m.amount * basisPoints;
    assert 0 <= product <= m.amount * 10_000;
    assert Wrap64(product) == product;
    assert m.MulBasisPoints(basisPoints).amount == product / 10_000;
  }
}
