/**
 * `getCustomerRewards` as the code is written: the not-found exception is
 * caught and printed, `customer` stays null, and the first use of it throws
 * a NullPointerException instead of the intended "Invalid Id. Customer not
 * found" failure.
 */
module Findings {
  import opened Wrappers
  import opened Entities
  import opened Rewards

  /** The lookup's failure is swallowed; dereferencing the absent customer fails with `NullPointer`. */
  function GetCustomerRewardsAsWritten(directory: seq<Customer>, store: seq<Transaction>, customerId: CustomerId, cutoff: Timestamp)
    : (r: Result<CustomerRewardResponse, Error>)
    ensures FindById(directory, customerId).None? ==> r == Failure(NullPointer)
    ensures FindById(directory, customerId).Some? ==> r.Success?
  {
    var customer: Option<Customer> := FindById(directory, customerId);
    var txs := TransactionsAfter(store, customerId, cutoff);
    var totalPoints := TotalPoints(txs);
    if customer.None? then Failure(NullPointer)
    else Success(CustomerRewardResponse(ToCustomerResponse(customer.value), totalPoints, Breakdown(txs)))
  }

  /** For an unknown id the code as written never reports `NotFound`; the corrected query does. */
  lemma UnknownIdIsNullDereference(store: seq<Transaction>, customerId: CustomerId, cutoff: Timestamp)
    ensures GetCustomerRewardsAsWritten([], store, customerId, cutoff) == Failure(NullPointer)
    ensures GetCustomerRewards([], store, customerId, cutoff) == Failure(NotFound)
  {
  }

  /** For a known id the two agree. */
  lemma KnownIdAgrees(directory: seq<Customer>, store: seq<Transaction>, customerId: CustomerId, cutoff: Timestamp)
    requires FindById(directory, customerId).Some?
    ensures GetCustomerRewardsAsWritten(directory, store, customerId, cutoff)
         == GetCustomerRewards(directory, store, customerId, cutoff)
  {
  }
}
