/**
 * Entities and response records of the reward system: the persisted
 * `Customer` and `Transaction`, and the plain data carriers the service
 * returns. None of them has behaviour.
 */
module Entities {

  /** Identities are opaque (UUIDs in the system); naturals stand for them. */
  type CustomerId = nat
  type TransactionId = nat

  /** A point in time, in seconds. */
  type Timestamp = int

  /** A calendar day (a `LocalDate`), counted in days. */
  type Date = int

  const SecondsPerDay: int := 86400

  /** Seconds from midnight to 10:00, the time of day bulk items are recorded at. */
  const TenOClock: int := 10 * 3600

  datatype Customer = Customer(id: CustomerId, name: string, email: string, phoneNumber: string)

  /** A recorded purchase. `amount` is the exact decimal amount. */
  datatype Transaction = Transaction(id: TransactionId, customer: Customer, amount: real, transactionDate: Timestamp)

  /** The customer snapshot that goes into a reward summary. */
  datatype CustomerResponse = CustomerResponse(id: CustomerId, name: string, email: string, phoneNumber: string)

  /** One breakdown entry of a reward summary. */
  datatype RewardResponse = RewardResponse(transactionId: TransactionId, transactionAmount: real, points: int, awardedDate: Timestamp)

  /** A customer's reward summary: the customer, the total and the per-transaction breakdown. */
  datatype CustomerRewardResponse = CustomerRewardResponse(customer: CustomerResponse, totalPoints: int, rewards: seq<RewardResponse>)

  /** One item of a bulk request: an amount and the day of purchase. */
  datatype BulkSubTransaction = BulkSubTransaction(amount: real, transactionDate: Date)

  /** A bulk request, and also the bulk answer: a customer and a list of items. */
  datatype BulkTransactionRequest = BulkTransactionRequest(customerId: CustomerId, transactions: seq<BulkSubTransaction>)

  /**
   * The failures of the service. `NullPointer` is the failure the code as
   * written produces for an unknown customer in the reward query.
   */
  datatype Error = NotFound | InvalidAmount | NullPointer

  /** Copies the customer's fields into a response record. */
  function ToCustomerResponse(c: Customer): CustomerResponse
  {
    CustomerResponse(c.id, c.name, c.email, c.phoneNumber)
  }

  /** `date.atTime(10, 0)`: the timestamp of 10:00 on the given day. */
  function AtTenOClock(date: Date): (t: Timestamp)
    ensures t / SecondsPerDay == date && t % SecondsPerDay == TenOClock
  {
    date * SecondsPerDay + TenOClock
  }

  /** Distinct days give distinct, equally ordered timestamps. */
  lemma AtTenOClockMonotone(d1: Date, d2: Date)
    ensures d1 < d2 <==> AtTenOClock(d1) < AtTenOClock(d2)
    ensures d1 == d2 <==> AtTenOClock(d1) == AtTenOClock(d2)
  {
  }
}
