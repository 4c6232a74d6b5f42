/** Values shared by every component: identifiers, requests, and the machine
    integers that requests are decoded into. */
module Core {

  datatype Option<+T> = None | Some(value: T)

  datatype Result<+T, +E> = Ok(value: T) | Err(error: E)

  const INT64_MAX: int := 0x7fff_ffff_ffff_ffff
  const INT64_MIN: int := -0x8000_0000_0000_0000
  const TWO_64: int := 0x1_0000_0000_0000_0000

  type int64 = x: int | INT64_MIN <= x <= INT64_MAX

  /** Go's conversion of an exact sum back into a 64-bit register. */
  function Wrap64(x: int): (r: int64)
    ensures (x - r) % TWO_64 == 0
    ensures INT64_MIN <= x <= INT64_MAX ==> r == x
  {
    (x - INT64_MIN) % TWO_64 + INT64_MIN
  }

  /** A UUID in its canonical text form; the width is fixed. */
  const UUID_WIDTH: nat := 36

  type Uuid = s: string | |s| == UUID_WIDTH witness "00000000-0000-0000-0000-000000000000"

  /** The wire value is a plain string; only two of them are directions. */
  datatype Direction = Debit | Credit | Other(text: string)

  datatype Posting = Posting(account: int64, amount: int64, direction: Direction)

  datatype Request = Request(
    key: string,
    description: string,
    metadata: Option<string>,
    postings: seq<Posting>)

  /** TransactionCreatedEvent: what the outbox carries to the broker. */
  datatype Event = Event(
    eventId: Uuid,
    tenant: Uuid,
    txId: Uuid,
    key: string,
    description: string,
    postings: seq<Posting>,
    metadata: string,
    createdAt: nat)

  /** One call of CreateTransaction, from arrival to return. */
  type CallId = nat

  datatype Account = Account(tenant: Uuid, name: string, currency: string)

  /** A row of `transactions`; `writer` is the call whose database transaction
      inserted it. */
  datatype TxRow = TxRow(
    id: Uuid,
    tenant: Uuid,
    key: string,
    description: string,
    metadata: string,
    createdAt: nat,
    writer: CallId)
}
