/**
  Shared vocabulary of the model: optional values, results, identities,
  64-bit machine integers and the money value object.

  The program keeps one copy of the money and identity types per bounded
  context; the copies behave alike, so the model has one.
 */
module Base {

  datatype Option<+T> = None | Some(value: T)

  datatype Result<+T, +E> = Ok(value: T) | Err(error: E)

  /**
    Every identity is a UUID. Clients choose random ones; the saga derives
    version 5 UUIDs (section 5.5 of RFC 9562) for invoices and replacement
    auctions. The datatype makes the derivations injective and keeps derived
    identities apart from client-chosen ones.
   */
  datatype Id =
    | Nil
    | Client(n: nat)
    | InvoiceFor(auction: Id, attempt: int)
    | RelistOf(original: Id)

  /** Instants in nanoseconds since Go's zero time, which is 0; spans in nanoseconds. */
  type Time = nat
  type Duration = int

  const ZERO_TIME: Time := 0

  const MIN_INT64: int := -0x8000_0000_0000_0000
  const MAX_INT64: int := 0x7FFF_FFFF_FFFF_FFFF

  /** The value a 64-bit two's-complement register holds for x. */
  function Wrap64(x: int): (r: int)
    ensures MIN_INT64 <= r <= MAX_INT64
    ensures MIN_INT64 <= x <= MAX_INT64 ==> r == x
  {
    if MIN_INT64 <= x <= MAX_INT64 then x else (x - MIN_INT64) % 0x1_0000_0000_0000_0000 + MIN_INT64
  }

  /** Division of Go's integers: rounds toward zero. */
  function Quo(x: int, y: int): int
    requires y > 0
  {
    if x >= 0 then x / y else -(-x / y)
  }

  type Currency = string

  predicate ValidCurrency(code: string) {
    |code| == 3 && forall i | 0 <= i < 3 :: 'A' <= code[i] <= 'Z'
  }

  /** An amount in minor units; ZERO_MONEY stands for "no money set". */
  datatype Money = Money(amount: int, currency: Currency) {

    /** What the constructor can build. */
    predicate Valid() {
      0 <= amount <= MAX_INT64 && ValidCurrency(currency)
    }

    /** Wraps around like the program's unchecked int64 addition. */
    function Add(o: Money): Option<Money> {
      if currency != o.currency then None else Some(Money(Wrap64(amount + o.amount), currency))
    }

    /** None on a currency mismatch. */
    function GTE(o: Money): Option<bool> {
      if currency != o.currency then None else Some(amount >= o.amount)
    }

    /** Wraps on the product, then truncates toward zero. */
    function MulBasisPoints(bp: int): Money {
      Money(Quo(Wrap64(amount * bp), 10_000), currency)
    }
  }

  const ZERO_MONEY := Money(0, "")

  /** Why a sale failed; shared vocabulary of the auction and its settlement. */
  datatype FailureReason = NoReason | PaymentTimeout | SecondChanceDeclined
}
