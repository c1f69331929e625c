/**
 * The reward service's ingestion side: a `RewardService` object holding the
 * customer directory and the transaction store, whose methods validate and
 * save transactions, one at a time or in bulk.
 */
module Service {
  import opened Wrappers
  import opened Entities
  import opened Points
  import opened Rewards

  /** `amount > 0`, the validation both `handleTransaction` overloads apply. */
  predicate ValidAmount(amount: real)
  {
    amount > 0.0
  }

  /** The bulk items that pass validation, in input order. */
  function Accepted(items: seq<BulkSubTransaction>): (r: seq<BulkSubTransaction>)
    ensures |r| <= |items|
  {
    if items == [] then []
    else Accepted(items[..|items| - 1])
         + (if ValidAmount(items[|items| - 1].amount) then [items[|items| - 1]] else [])
  }

  /** An item is accepted exactly when it is in the input with a positive amount. */
  lemma {:induction false} AcceptedMembers(items: seq<BulkSubTransaction>)
    ensures forall x :: x in Accepted(items) <==> x in items && ValidAmount(x.amount)
  {
    if items != [] {
      var init := items[..|items| - 1];
      AcceptedMembers(init);
      assert items == init + [items[|items| - 1]];
    }
  }

  /** Filtering distributes over concatenation, so accepted items keep input order. */
  lemma {:induction false} AcceptedAppend(a: seq<BulkSubTransaction>, b: seq<BulkSubTransaction>)
    ensures Accepted(a + b) == Accepted(a) + Accepted(b)
    decreases |b|
  {
    if b == [] {
      assert a + b == a;
    } else {
      assert (a + b)[..|a + b| - 1] == a + b[..|b| - 1];
      AcceptedAppend(a, b[..|b| - 1]);
    }
  }

  /** A batch whose items are all valid is accepted whole. */
  lemma {:induction false} AcceptedAllValid(items: seq<BulkSubTransaction>)
    requires forall i :: 0 <= i < |items| ==> ValidAmount(items[i].amount)
    ensures Accepted(items) == items
  {
    if items != [] {
      AcceptedAllValid(items[..|items| - 1]);
    }
  }

  /** A transaction record made from a bulk item for the given customer. */
  predicate RecordOf(t: Transaction, customer: Customer, item: BulkSubTransaction)
  {
    t.customer == customer && t.amount == item.amount && t.transactionDate == AtTenOClock(item.transactionDate)
  }

  /** The records `s` were made, one by one and in order, from the items `accepted`. */
  predicate RecordsOf(s: seq<Transaction>, customer: Customer, accepted: seq<BulkSubTransaction>)
  {
    |s| == |accepted| && forall k :: 0 <= k < |s| ==> RecordOf(s[k], customer, accepted[k])
  }

  /** One more record made from one more item. */
  lemma RecordsOfExtend(s: seq<Transaction>, t: Transaction, customer: Customer,
                        accepted: seq<BulkSubTransaction>, item: BulkSubTransaction)
    requires RecordsOf(s, customer, accepted) && RecordOf(t, customer, item)
    ensures RecordsOf(s + [t], customer, accepted + [item])
  {
  }

  class RewardService {
    /** The customer directory, in `findAll` order. */
    var customers: seq<Customer>
    /** The transaction store, in save order. */
    var store: seq<Transaction>
    /** The next fresh transaction id (stands for `UUID.randomUUID()`). */
    var nextId: TransactionId

    /** Customer ids are a key; transaction ids are below `nextId` and distinct; amounts are positive. */
    ghost predicate Valid()
      reads this
    {
      && UniqueCustomerIds(customers)
      && (forall i :: 0 <= i < |store| ==> store[i].id < nextId)
      && (forall i, j :: 0 <= i < j < |store| ==> store[i].id != store[j].id)
      && (forall i :: 0 <= i < |store| ==> ValidAmount(store[i].amount))
    }

    constructor (directory: seq<Customer>)
      requires UniqueCustomerIds(directory)
      ensures Valid()
      ensures customers == directory && store == []
    {
      customers := directory;
      store := [];
      nextId := 0;
    }

    /** A transaction id never used in the store. */
    method FreshId() returns (id: TransactionId)
      requires Valid()
      modifies this
      ensures Valid()
      ensures forall i :: 0 <= i < |store| ==> store[i].id != id
      ensures id < nextId
      ensures customers == old(customers) && store == old(store)
    {
      id := nextId;
      nextId := nextId + 1;
    }

    /** `transactionRepository.save`: appends the record to the store. */
    method Save(t: Transaction)
      modifies this
      ensures store == old(store) + [t]
      ensures customers == old(customers) && nextId == old(nextId)
    {
      store := store + [t];
    }

    /**
     * `handleTransaction(customerId, amount, date)`: rejects a non-positive
     * amount before the lookup, then an unknown customer; otherwise saves one
     * new transaction for the found customer.
     */
    method HandleTransaction(customerId: CustomerId, amount: real, transactionDate: Timestamp) returns (r: Outcome<Error>)
      requires Valid()
      modifies this
      ensures Valid()
      ensures customers == old(customers)
      ensures !ValidAmount(amount) ==> r == Fail(InvalidAmount)
      ensures ValidAmount(amount) && FindById(customers, customerId).None? ==> r == Fail(NotFound)
      ensures r.Fail? ==> store == old(store)
      ensures r.Pass? <==> ValidAmount(amount) && FindById(customers, customerId).Some?
      ensures r.Pass? ==>
        && |store| == |old(store)| + 1
        && store[..|old(store)|] == old(store)
        && store[|old(store)|].customer == FindById(customers, customerId).value
        && store[|old(store)|].customer.id == customerId
        && store[|old(store)|].amount == amount
        && store[|old(store)|].transactionDate == transactionDate
        && (forall i :: 0 <= i < |old(store)| ==> old(store)[i].id != store[|old(store)|].id)
    {
      if amount <= 0.0 {
        return Fail(InvalidAmount);
      }
      match FindById(customers, customerId)
      case None =>
        return Fail(NotFound);
      case Some(customer) =>
        var id := FreshId();
        Save(Transaction(id, customer, amount, transactionDate));
        return Pass;
    }

    /**
     * `handleTransaction(customer, amount, date)`: the same without the
     * lookup, for a customer the caller already holds.
     */
    method HandleTransactionFor(customer: Customer, amount: real, transactionDate: Timestamp) returns (r: Outcome<Error>)
      requires Valid()
      modifies this
      ensures Valid()
      ensures customers == old(customers)
      ensures r.Fail? <==> !ValidAmount(amount)
      ensures r.Fail? ==> r.error == InvalidAmount && store == old(store)
      ensures r.Pass? ==>
        && |store| == |old(store)| + 1
        && store[..|old(store)|] == old(store)
        && store[|old(store)|].customer == customer
        && store[|old(store)|].amount == amount
        && store[|old(store)|].transactionDate == transactionDate
        && (forall i :: 0 <= i < |old(store)| ==> old(store)[i].id != store[|old(store)|].id)
    {
      if amount <= 0.0 {
        return Fail(InvalidAmount);
      }
      var id := FreshId();
      Save(Transaction(id, customer, amount, transactionDate));
      return Pass;
    }

    /**
     * `handleBulkTransactions`: an unknown customer aborts before any write;
     * otherwise each item is tried in turn at 10:00 of its day, failures are
     * dropped, and the answer lists exactly the items that were saved.
     */
    method HandleBulkTransactions(customerId: CustomerId, items: seq<BulkSubTransaction>)
      returns (r: Result<BulkTransactionRequest, Error>)
      requires Valid()
      modifies this
      ensures Valid()
      ensures customers == old(customers)
      ensures r.Failure? <==> FindById(customers, customerId).None?
      ensures r.Failure? ==> r.error == NotFound && store == old(store)
      ensures r.Success? ==>
        var accepted := Accepted(items);
        var customer := FindById(customers, customerId).value;
        && r.value.customerId == customerId
        && r.value.transactions == accepted
        && |old(store)| <= |store|
        && store[..|old(store)|] == old(store)
        && RecordsOf(store[|old(store)|..], customer, accepted)
    {
      var found := FindById(customers, customerId);
      if found.None? {
        return Failure(NotFound);
      }
      var customer := found.value;
      var responseSubTransactions: seq<BulkSubTransaction> := [];
      ghost var n0 := |store|;
      var i := 0;
      while i < |items|
        invariant 0 <= i <= |items|
        invariant Valid()
        invariant customers == old(customers)
        invariant responseSubTransactions == Accepted(items[..i])
        invariant n0 <= |store| && store[..n0] == old(store)
        invariant RecordsOf(store[n0..], customer, responseSubTransactions)
      {
        var item := items[i];
        ghost var before := store;
        var outcome := HandleTransactionFor(customer, item.amount, AtTenOClock(item.transactionDate));
        assert items[..i + 1][..i] == items[..i];
        assert items[..i + 1][i] == item;
        if outcome.Pass? {
          var t := store[|before|];
          assert store == before + [t];
          assert store[n0..] == before[n0..] + [t];
          assert store[..n0] == before[..n0];
          RecordsOfExtend(before[n0..], t, customer, responseSubTransactions, item);
          responseSubTransactions := responseSubTransactions + [item];
        }
        i := i + 1;
      }
      assert items[..|items|] == items;
      return Success(BulkTransactionRequest(customerId, responseSubTransactions));
    }
  }

  /** The bulk unit test: two valid items for a known customer are both accepted and both saved. */
  method BulkIngestionExample() returns (accepted: nat, saved: nat)
    ensures accepted == 2 && saved == 2
  {
    var c := Customer(7, "xxx", "xxx@example.com", "1234567890");
    var service := new RewardService([c]);
    var two := [BulkSubTransaction(120.0, 20000), BulkSubTransaction(80.0, 19999)];
    AcceptedAllValid(two);
    var r := service.HandleBulkTransactions(7, two);
    accepted, saved := |r.value.transactions|, |service.store|;
  }

  /**
   * The invalid-amount unit test: a single transaction of -120 for an id the
   * directory does not know fails with InvalidAmount, not NotFound, and saves
   * nothing.
   */
  method InvalidAmountExample() returns (r: Outcome<Error>, saved: nat)
    ensures r == Fail(InvalidAmount) && saved == 0
  {
    var c := Customer(7, "xxx", "xxx@example.com", "1234567890");
    var service := new RewardService([c]);
    r := service.HandleTransaction(8, -120.0, 0);
    saved := |service.store|;
  }

  /**
   * One valid and one invalid bulk item: only the valid one is accepted and
   * saved; the same batch for an unknown customer saves nothing.
   */
  method PartialIngestionExample() returns (accepted: seq<BulkSubTransaction>, saved: nat, unknown: Result<BulkTransactionRequest, Error>)
    ensures accepted == [BulkSubTransaction(120.0, 20000)] && saved == 1
    ensures unknown == Failure(NotFound)
  {
    var c := Customer(7, "xxx", "xxx@example.com", "1234567890");
    var service := new RewardService([c]);
    var mixed := [BulkSubTransaction(120.0, 20000), BulkSubTransaction(-5.0, 20000)];
    assert mixed[..1] == [mixed[0]];
    assert Accepted(mixed) == [mixed[0]];
    var r := service.HandleBulkTransactions(7, mixed);
    accepted := r.value.transactions;
    unknown := service.HandleBulkTransactions(8, mixed);
    saved := |service.store|;
  }
}
