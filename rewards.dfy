/**
 * The reward aggregator: the read-only queries `getCustomerRewards` and
 * `getAllCustomerRewards`, over a customer directory (the `findAll` list)
 * and a transaction store (the saved transactions, in save order).
 */
module Rewards {
  import opened Wrappers
  import opened Entities
  import opened Points

  /** Customer ids are the directory's primary key. */
  ghost predicate UniqueCustomerIds(directory: seq<Customer>)
  {
    forall i, j :: 0 <= i < j < |directory| ==> directory[i].id != directory[j].id
  }

  /** `customerRepository.findById`: the customer with the given id, if any. */
  function FindById(directory: seq<Customer>, id: CustomerId): (r: Option<Customer>)
    ensures r.None? <==> forall c :: c in directory ==> c.id != id
    ensures r.Some? ==> r.value in directory && r.value.id == id
  {
    if directory == [] then None
    else if directory[0].id == id then Some(directory[0])
    else FindById(directory[1..], id)
  }

  /** With unique ids, looking up a listed customer's id finds that customer. */
  lemma FindByIdListed(directory: seq<Customer>, k: nat)
    requires UniqueCustomerIds(directory)
    requires k < |directory|
    ensures FindById(directory, directory[k].id) == Some(directory[k])
  {
  }

  /** The store query's condition: this customer, dated strictly after the cutoff. */
  predicate InWindow(t: Transaction, customerId: CustomerId, cutoff: Timestamp)
  {
    t.customer.id == customerId && t.transactionDate > cutoff
  }

  /**
   * `findByCustomerIdAndTransactionDateAfter`: the customer's transactions
   * dated after the cutoff, in store order.
   */
  function TransactionsAfter(store: seq<Transaction>, customerId: CustomerId, cutoff: Timestamp): (r: seq<Transaction>)
    ensures |r| <= |store|
    ensures forall t :: t in r <==> t in store && InWindow(t, customerId, cutoff)
  {
    if store == [] then []
    else (if InWindow(store[0], customerId, cutoff) then [store[0]] else [])
         + TransactionsAfter(store[1..], customerId, cutoff)
  }

  /** The query distributes over concatenation, so it keeps store order. */
  lemma {:induction false} TransactionsAfterAppend(a: seq<Transaction>, b: seq<Transaction>, customerId: CustomerId, cutoff: Timestamp)
    ensures TransactionsAfter(a + b, customerId, cutoff)
         == TransactionsAfter(a, customerId, cutoff) + TransactionsAfter(b, customerId, cutoff)
  {
    if a == [] {
      assert a + b == b;
    } else {
      assert (a + b)[0] == a[0];
      assert (a + b)[1..] == a[1..] + b;
      TransactionsAfterAppend(a[1..], b, customerId, cutoff);
    }
  }

  /** The points total over the transactions: `mapToInt(calculatePoints).sum()`. */
  function TotalPoints(txs: seq<Transaction>): (total: int)
  {
    if txs == [] then 0 else PointsFor(txs[0].amount) + TotalPoints(txs[1..])
  }

  /** The sum of the points column of a breakdown. */
  function SumOfPoints(rewards: seq<RewardResponse>): (total: int)
  {
    if rewards == [] then 0 else rewards[0].points + SumOfPoints(rewards[1..])
  }

  /** The breakdown entry of one transaction. */
  function RewardFor(t: Transaction): RewardResponse
  {
    RewardResponse(t.id, t.amount, PointsFor(t.amount), t.transactionDate)
  }

  /** The breakdown: one entry per transaction, in the same order. */
  function Breakdown(txs: seq<Transaction>): (r: seq<RewardResponse>)
    ensures |r| == |txs|
    ensures forall i :: 0 <= i < |txs| ==>
      r[i].transactionId == txs[i].id && r[i].transactionAmount == txs[i].amount &&
      r[i].points == PointsFor(txs[i].amount) && r[i].awardedDate == txs[i].transactionDate
  {
    if txs == [] then [] else [RewardFor(txs[0])] + Breakdown(txs[1..])
  }

  /** The total and the breakdown reconcile: the total is the sum of the entries' points. */
  lemma {:induction false} TotalMatchesBreakdown(txs: seq<Transaction>)
    ensures TotalPoints(txs) == SumOfPoints(Breakdown(txs))
  {
    if txs != [] {
      TotalMatchesBreakdown(txs[1..]);
      assert Breakdown(txs)[1..] == Breakdown(txs[1..]);
    }
  }

  /** The total over a concatenation is the sum of the totals. */
  lemma {:induction false} TotalPointsAppend(a: seq<Transaction>, b: seq<Transaction>)
    ensures TotalPoints(a + b) == TotalPoints(a) + TotalPoints(b)
  {
    if a == [] {
      assert a + b == b;
    } else {
      assert (a + b)[0] == a[0];
      assert (a + b)[1..] == a[1..] + b;
      TotalPointsAppend(a[1..], b);
    }
  }

  /** No transaction earns negative points, so no total is negative. */
  lemma {:induction false} TotalPointsNonNegative(txs: seq<Transaction>)
    ensures TotalPoints(txs) >= 0
  {
    if txs != [] {
      TotalPointsNonNegative(txs[1..]);
    }
  }

  /**
   * `getCustomerRewards` with the cutoff `now - months` given: `NotFound`
   * for an unknown id, otherwise the customer's summary over the window.
   */
  function GetCustomerRewards(directory: seq<Customer>, store: seq<Transaction>, customerId: CustomerId, cutoff: Timestamp)
    : (r: Result<CustomerRewardResponse, Error>)
    ensures r.Failure? <==> forall c :: c in directory ==> c.id != customerId
    ensures r.Failure? ==> r.error == NotFound
    ensures r.Success? ==>
      var txs := TransactionsAfter(store, customerId, cutoff);
      && r.value.customer.id == customerId
      && (exists c :: c in directory && c.id == customerId &&
            r.value.customer == CustomerResponse(c.id, c.name, c.email, c.phoneNumber))
      && r.value.totalPoints == SumOfPoints(r.value.rewards)
      && r.value.totalPoints >= 0
      && |r.value.rewards| == |txs|
      && (forall i :: 0 <= i < |txs| ==>
            var e := r.value.rewards[i];
            e.transactionId == txs[i].id && e.transactionAmount == txs[i].amount &&
            e.points == PointsFor(txs[i].amount) && e.awardedDate == txs[i].transactionDate)
      && (txs == [] ==> r.value.totalPoints == 0 && r.value.rewards == [])
  {
    match FindById(directory, customerId)
    case None => Failure(NotFound)
    case Some(customer) =>
      var txs := TransactionsAfter(store, customerId, cutoff);
      TotalMatchesBreakdown(txs);
      TotalPointsNonNegative(txs);
      Success(CustomerRewardResponse(ToCustomerResponse(customer), TotalPoints(txs), Breakdown(txs)))
  }

  /**
   * `getAllCustomerRewards`: `getCustomerRewards` for each listed customer,
   * in directory order; an empty directory gives an empty list.
   */
  function GetAllCustomerRewards(directory: seq<Customer>, store: seq<Transaction>, cutoff: Timestamp)
    : (r: seq<CustomerRewardResponse>)
    ensures |r| == |directory|
    ensures forall i :: 0 <= i < |directory| ==>
      GetCustomerRewards(directory, store, directory[i].id, cutoff) == Success(r[i])
  {
    SummariesOf(directory, store, cutoff, directory)
  }

  /** The summaries of the customers `cs`, all of them listed in the directory. */
  function SummariesOf(directory: seq<Customer>, store: seq<Transaction>, cutoff: Timestamp, cs: seq<Customer>)
    : (r: seq<CustomerRewardResponse>)
    requires forall c :: c in cs ==> c in directory
    ensures |r| == |cs|
    ensures forall i :: 0 <= i < |cs| ==>
      GetCustomerRewards(directory, store, cs[i].id, cutoff) == Success(r[i])
  {
    if cs == [] then []
    else
      assert cs[0] in directory;
      [GetCustomerRewards(directory, store, cs[0].id, cutoff).value]
        + SummariesOf(directory, store, cutoff, cs[1..])
  }

  /**
   * With unique ids, the i-th summary is about the i-th listed customer and
   * reconciles.
   */
  lemma AllRewardsInDirectoryOrder(directory: seq<Customer>, store: seq<Transaction>, cutoff: Timestamp, i: nat)
    requires UniqueCustomerIds(directory)
    requires i < |directory|
    ensures var r := GetAllCustomerRewards(directory, store, cutoff);
      && r[i].customer == ToCustomerResponse(directory[i])
      && r[i].totalPoints == SumOfPoints(r[i].rewards)
      && r[i].totalPoints == TotalPoints(TransactionsAfter(store, directory[i].id, cutoff))
  {
  }

  /** A transaction appended to the store adds its points to its customer's total over a window it falls in, and nothing to any other total. */
  lemma RecordIsCounted(store: seq<Transaction>, t: Transaction, customerId: CustomerId, cutoff: Timestamp)
    ensures InWindow(t, customerId, cutoff) ==>
      TotalPoints(TransactionsAfter(store + [t], customerId, cutoff))
        == TotalPoints(TransactionsAfter(store, customerId, cutoff)) + PointsFor(t.amount)
    ensures !InWindow(t, customerId, cutoff) ==>
      TransactionsAfter(store + [t], customerId, cutoff) == TransactionsAfter(store, customerId, cutoff)
  {
    var before := TransactionsAfter(store, customerId, cutoff);
    TransactionsAfterAppend(store, [t], customerId, cutoff);
    assert [t][1..] == [];
    if InWindow(t, customerId, cutoff) {
      assert TransactionsAfter([t], customerId, cutoff) == [t];
      TotalPointsAppend(before, [t]);
      assert [t][1..] == [];
    } else {
      assert TransactionsAfter([t], customerId, cutoff) == [];
      assert before + [] == before;
    }
  }

  /** The unit-test scenario: 120 and 80 in the window give 90 + 30 points over two entries. */
  lemma CustomerRewardsExample()
    ensures var c := Customer(1, "xxx", "xxx@example.com", "1234567890");
      var store := [Transaction(10, c, 120.0, 100), Transaction(11, c, 80.0, 50)];
      var r := GetCustomerRewards([c], store, 1, 0);
      r.Success? && r.value.totalPoints == 120 && |r.value.rewards| == 2
  {
  }
}
