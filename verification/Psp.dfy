/**
  The payment provider behind PayInvoice: a ledger of charges by idempotency key,
  where the key is the invoice id.
 */
module PspLedger {
  import opened Base
  import opened InvoiceDomain

  /** The amount is kept for the books; the fake provider drops it. */
  datatype Debit = Debit(ref: PaymentReference, amount: Money)

  datatype Ledger = Ledger(charges: map<Id, Debit>, refunded: set<Id>)

  /** What the network makes of one call; a lost reply hides a call that took effect. */
  datatype Reply = Granted | Refused | LostRequest | LostReply

  datatype ChargeAnswer = Charged(ref: PaymentReference) | ChargeDeclined | ChargeUnavailable

  /** A key is debited at most once; repeating a charge returns the first reference. */
  function Charge(l: Ledger, key: Id, amount: Money, reply: Reply, newRef: PaymentReference): (Ledger, ChargeAnswer) {
    if key in l.charges then
      (l, if reply in {LostRequest, LostReply} then ChargeUnavailable else Charged(l.charges[key].ref))
    else
      var charged := l.(charges := l.charges[key := Debit(newRef, amount)]);
      match reply
      case Granted => (charged, Charged(newRef))
      case Refused => (l, ChargeDeclined)
      case LostRequest => (l, ChargeUnavailable)
      case LostReply => (charged, ChargeUnavailable)
  }

  /** Without a charge a refund does nothing; the flag tells whether an answer arrived. */
  function Refund(l: Ledger, key: Id, reply: Reply): (Ledger, bool) {
    var refunded := if key in l.charges then l.(refunded := l.refunded + {key}) else l;
    match reply
    case Granted => (refunded, true)
    case LostReply => (refunded, false)
    case _ => (l, false)
  }

  /**
    A charge takes effect if it arrives and is not refused, at most once per key; the caller
    learns of it unless the reply is lost.
   */
  lemma ChargeTakesEffect(l: Ledger, key: Id, amount: Money, reply: Reply, newRef: PaymentReference)
    ensures var (l', answer) := Charge(l, key, amount, reply, newRef);
      && l'.refunded == l.refunded && (forall k | k != key :: k in l'.charges <==> k in l.charges)
      && (forall k | k in l.charges :: k in l'.charges && l'.charges[k] == l.charges[k])
      && (key in l'.charges <==> key in l.charges || reply in {Granted, LostReply})
      && (key in l'.charges && key !in l.charges ==> l'.charges[key] == Debit(newRef, amount))
      && (answer.Charged? ==> key in l'.charges && answer.ref == l'.charges[key].ref)
      && (answer == ChargeUnavailable <==> reply in {LostRequest, LostReply})
      && (answer == ChargeDeclined <==> reply == Refused && key !in l.charges)
  {
  }

  /** A refund takes effect on a charged key if it arrives; the caller learns of it unless the reply is lost. */
  lemma RefundTakesEffect(l: Ledger, key: Id, reply: Reply)
    ensures var (l', answered) := Refund(l, key, reply);
      && l'.charges == l.charges
      && l'.refunded == (if key in l.charges && reply in {Granted, LostReply} then l.refunded + {key} else l.refunded)
      && (answered <==> reply == Granted)
  {
  }

  /** What the key's owner is out of pocket. */
  function NetDebit(l: Ledger, key: Id): int {
    if key in l.charges && key !in l.refunded then l.charges[key].amount.amount else 0
  }
}

/** The fake provider, which keeps such a ledger behind a mutex. */
module FakePsp {
  import opened Base
  import opened InvoiceDomain
  import opened PspLedger

  datatype Mode = AlwaysSuccess | AlwaysDecline | Flaky

  class FakePSP {
    const mode: Mode
    var charges: map<Id, Debit>
    var failedOnce: set<Id>
    var refunded: set<Id>

    constructor (mode: Mode)
      ensures this.mode == mode && Books() == Ledger(map[], {}) && failedOnce == {}
    {
      this.mode := mode;
      charges, failedOnce, refunded := map[], {}, {};
    }

    function Books(): Ledger
      reads this
    {
      Ledger(charges, refunded)
    }

    /** The reply the mode hands out for a key it has not charged yet. */
    function NextReply(key: Id): Reply
      reads this
    {
      if key in charges then Granted
      else
        match mode
        case AlwaysSuccess => Granted
        case AlwaysDecline => Refused
        case Flaky => if key in failedOnce then Granted else LostRequest
    }

    method Charge(key: Id, amount: Money, newRef: PaymentReference) returns (r: ChargeAnswer)
      modifies this
      ensures (Books(), r) == PspLedger.Charge(old(Books()), key, amount, old(NextReply(key)), newRef)
      ensures failedOnce == old(failedOnce) + (if old(NextReply(key)) == LostRequest then {key} else {})
      ensures key in old(charges) ==> r == Charged(old(charges)[key].ref)
      ensures key !in old(charges) ==>
        r == match mode
             case AlwaysSuccess => Charged(newRef)
             case AlwaysDecline => ChargeDeclined
             case Flaky => if key in old(failedOnce) then Charged(newRef) else ChargeUnavailable
    {
      if key in charges { return Charged(charges[key].ref); }
      match mode {
        case AlwaysDecline => return ChargeDeclined;
        case Flaky =>
          if key !in failedOnce {
            failedOnce := failedOnce + {key};
            return ChargeUnavailable;
          }
        case AlwaysSuccess =>
      }
      charges := charges[key := Debit(newRef, amount)];
      return Charged(newRef);
    }

    method Refund(key: Id) returns (answered: bool)
      modifies this`refunded
      ensures (Books(), answered) == PspLedger.Refund(old(Books()), key, Granted)
    {
      if key in charges {
        refunded := refunded + {key};
      }
      return true;
    }
  }
}
