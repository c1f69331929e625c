# Reward system core in Dafny

A model of the reward service of a retail loyalty application, with proofs about it. The service does three things:

- It turns a purchase amount into reward points with a tiered rule. The fraction of the amount is discarded. Each whole unit above 100 earns 2 points, and each whole unit from 50 to 100 earns 1 point.
- It summarises a customer's rewards over a lookback window. It looks the customer up, takes that customer's stored transactions dated after the window start, and returns one breakdown entry per transaction together with the total.
- It ingests transactions. A single transaction is validated (the amount must be positive, the customer must exist) and then saved. In a bulk submission each item is tried at 10:00 on its day, and items that fail are silently dropped.

Layout:

- `wrappers.dfy`: `Option`, `Result` and `Outcome`. Exceptions become these types.
- `entities.dfy`: `Customer`, `Transaction`, the response records and the error kinds (`NotFound`, `InvalidAmount`, and `NullPointer`, which only the code as written in `findings.dfy` produces).
- `points.dfy`: the calculator. `PointsFor` is the rule in closed form. `CalculatePoints` is the source's step-by-step method, proved equal to `PointsFor`.
- `rewards.dfy`: the read-only aggregation functions over a customer directory (the `findAll` list) and a transaction store (saved transactions in save order). The store query is a filter: the same customer and a date strictly after the cutoff, in store order (see "## Left out").
- `service.dfy`: class `RewardService`. Its fields are the directory, the store and `nextId`, the counter that supplies fresh transaction ids. Its methods are the two `handleTransaction` overloads and `handleBulkTransactions`, and they append to the store the way `save` does. `Valid()` is the class invariant:
  - customer ids are unique;
  - transaction ids are distinct;
  - every stored amount is positive.
- `findings.dfy`: `getCustomerRewards` exactly as written, for the finding below.

Other modelling choices:

- Amounts are `real`, which is exact like `BigDecimal`. `Trunc` is `intValue()`, which truncates toward zero.
- Timestamps are whole seconds, as `int`. A `LocalDate` is a day number.
- Ids are naturals. A fresh transaction id comes from a counter.
- The window start (`now` minus `months` months) is a parameter.
- `calculatePoints` accepts any amount, and a negative amount earns 0 (RewardService.java:42-51), so `PointsFor` has no precondition.

## Model

| member | source | states |
|---|---|---|
| Points.Trunc | rewardsystem/src/main/java/com/poc/retailapp/rewardsystem/rewardsystem/service/RewardService.java:42 | the result is the integer part of the amount, truncated toward zero, for both signs |
| Points.CalculatePoints | rewardsystem/src/main/java/com/poc/retailapp/rewardsystem/rewardsystem/service/RewardService.java:40-52 | the tier-by-tier accumulation, with the cap at 100, equals the closed-form rule; the result is never negative |
| Points.Tiers | rewardsystem/src/main/java/com/poc/retailapp/rewardsystem/rewardsystem/service/RewardService.java:44-51 | 0 points up to 50; a-50 for 50 < a <= 100; 2(a-100)+50 above 100, where a is the truncated amount; zero points exactly when a <= 50 |
| Points.Examples | rewardsystem/src/test/java/com/RetailApplication/RewardSystem/Service/RewardServiceTest.java:52-58 | 120 gives 90, 100 gives 50, 70 gives 20, 40 gives 0, and 120.99 gives 90 like 120 |
| Points.TruncMonotone | rewardsystem/src/main/java/com/poc/retailapp/rewardsystem/rewardsystem/service/RewardService.java:42 | truncation preserves the order of amounts |
| Points.DependsOnIntegerPart | rewardsystem/src/main/java/com/poc/retailapp/rewardsystem/rewardsystem/service/RewardService.java:42 | two amounts with the same integer part earn the same points, and an amount earns what its integer part earns |
| Points.PointsMonotone | rewardsystem/src/main/java/com/poc/retailapp/rewardsystem/rewardsystem/service/RewardService.java:42-51 | a larger amount never earns fewer points |
| Entities.AtTenOClock | rewardsystem/src/main/java/com/poc/retailapp/rewardsystem/rewardsystem/service/RewardService.java:194 | the timestamp lies on the given day, at 10:00 |
| Entities.AtTenOClockMonotone | rewardsystem/src/main/java/com/poc/retailapp/rewardsystem/rewardsystem/service/RewardService.java:194 | different days give different timestamps, in the same order |
| Rewards.FindById | rewardsystem/src/main/java/com/poc/retailapp/rewardsystem/rewardsystem/service/RewardService.java:64-66 | absent exactly when no listed customer has the id; when present it is a listed customer with that id |
| Rewards.FindByIdListed | rewardsystem/src/main/java/com/poc/retailapp/rewardsystem/rewardsystem/service/RewardService.java:115-118 | with unique ids, looking up a listed customer's id returns that same customer |
| Rewards.TransactionsAfter | rewardsystem/src/main/java/com/poc/retailapp/rewardsystem/rewardsystem/repository/TransactionRepository.java:19 | the result contains exactly the stored transactions of the customer dated strictly after the cutoff, and is no longer than the store |
| Rewards.TransactionsAfterAppend | rewardsystem/src/main/java/com/poc/retailapp/rewardsystem/rewardsystem/repository/TransactionRepository.java:19 | the query distributes over concatenation of the store, so it keeps store order |
| Rewards.Breakdown | rewardsystem/src/main/java/com/poc/retailapp/rewardsystem/rewardsystem/service/RewardService.java:87-98 | exactly one entry per transaction, in the same order, each with that transaction's id, amount, date and points |
| Rewards.TotalMatchesBreakdown | rewardsystem/src/main/java/com/poc/retailapp/rewardsystem/rewardsystem/service/RewardService.java:76-98 | the total computed over the transactions equals the sum of the points in the breakdown |
| Rewards.TotalPointsAppend | rewardsystem/src/main/java/com/poc/retailapp/rewardsystem/rewardsystem/service/RewardService.java:76-79 | the total over two stretches of transactions is the sum of their totals |
| Rewards.TotalPointsNonNegative | rewardsystem/src/main/java/com/poc/retailapp/rewardsystem/rewardsystem/service/RewardService.java:76-79 | no total is negative |
| Rewards.GetCustomerRewards | rewardsystem/src/main/java/com/poc/retailapp/rewardsystem/rewardsystem/service/RewardService.java:61-106 | NotFound exactly when no listed customer has the id; otherwise a summary whose customer snapshot copies the id, name, email and phone of a listed customer with that id; the total reconciles with the breakdown and is never negative; there is one entry per transaction in the window, in order, each with that transaction's id, amount, date and points; an empty window gives total 0 and an empty breakdown |
| Rewards.GetAllCustomerRewards | rewardsystem/src/main/java/com/poc/retailapp/rewardsystem/rewardsystem/service/RewardService.java:113-120 | one summary per listed customer, in directory order, each equal to the single-customer query for that customer's id; an empty directory gives an empty list |
| Rewards.SummariesOf | rewardsystem/src/main/java/com/poc/retailapp/rewardsystem/rewardsystem/service/RewardService.java:117-119 | maps the single-customer query over a list of listed customers, keeping length and order |
| Rewards.AllRewardsInDirectoryOrder | rewardsystem/src/main/java/com/poc/retailapp/rewardsystem/rewardsystem/service/RewardService.java:115-119 | with unique ids, the i-th summary is about the i-th listed customer and its total is that customer's window total |
| Rewards.RecordIsCounted | rewardsystem/src/main/java/com/poc/retailapp/rewardsystem/rewardsystem/service/RewardService.java:73-79 | a saved transaction in a customer's window adds exactly its points to that customer's total; a transaction outside the window leaves the query result unchanged |
| Rewards.CustomerRewardsExample | rewardsystem/src/test/java/com/RetailApplication/RewardSystem/Service/RewardServiceTest.java:83-91 | the two-transaction case (120 and 80) gives 90 + 30 points over two entries |
| Service.Accepted | rewardsystem/src/main/java/com/poc/retailapp/rewardsystem/rewardsystem/service/RewardService.java:188-199 | the accepted list is never longer than the input |
| Service.AcceptedMembers | rewardsystem/src/main/java/com/poc/retailapp/rewardsystem/rewardsystem/service/RewardService.java:188-199 | an item is accepted exactly when it is an input item with a positive amount |
| Service.AcceptedAppend | rewardsystem/src/main/java/com/poc/retailapp/rewardsystem/rewardsystem/service/RewardService.java:188-199 | filtering distributes over concatenation, so accepted items keep input order |
| Service.AcceptedAllValid | rewardsystem/src/test/java/com/RetailApplication/RewardSystem/Service/RewardServiceTest.java:207-214 | a batch of only valid items is accepted whole |
| Service.RewardService.FreshId | rewardsystem/src/main/java/com/poc/retailapp/rewardsystem/rewardsystem/service/RewardService.java:141 | the new id is not used by any stored transaction; the directory and the store are unchanged |
| Service.RewardService.Save | rewardsystem/src/main/java/com/poc/retailapp/rewardsystem/rewardsystem/service/RewardService.java:147 | the store grows by exactly the given record at its end; nothing else changes |
| Service.RewardService.HandleTransaction | rewardsystem/src/main/java/com/poc/retailapp/rewardsystem/rewardsystem/service/RewardService.java:129-148 | amount <= 0 fails with InvalidAmount whatever the customer; otherwise an unknown customer fails with NotFound; a failure leaves the store unchanged; success appends exactly one record with a fresh id, the found customer, the amount and the date; the class invariant is kept |
| Service.RewardService.HandleTransactionFor | rewardsystem/src/main/java/com/poc/retailapp/rewardsystem/rewardsystem/service/RewardService.java:156-171 | fails with InvalidAmount exactly when amount <= 0, leaving the store unchanged; otherwise appends exactly one record with a fresh id and the given customer, amount and date |
| Service.RewardService.HandleBulkTransactions | rewardsystem/src/main/java/com/poc/retailapp/rewardsystem/rewardsystem/service/RewardService.java:179-202 | an unknown customer fails with NotFound before any write; otherwise the answer carries the argument id and exactly the items with a positive amount, in input order; the store grows by exactly those records, in that order, each for the customer at 10:00 of the item's day; earlier records are untouched |
| Service.BulkIngestionExample | rewardsystem/src/test/java/com/RetailApplication/RewardSystem/Service/RewardServiceTest.java:199-216 | two valid items (120 and 80) for a known customer: both are accepted and both are saved |
| Service.InvalidAmountExample | rewardsystem/src/test/java/com/RetailApplication/RewardSystem/Service/RewardServiceTest.java:186-197 | a single transaction of -120 for an unknown customer fails with InvalidAmount, so the amount is checked before the lookup, and nothing is saved |
| Service.PartialIngestionExample | rewardsystem/src/main/java/com/poc/retailapp/rewardsystem/rewardsystem/service/RewardService.java:181-199 | of one valid and one invalid bulk item only the valid one is accepted and saved; the same batch for an unknown customer fails with NotFound |
| Findings.GetCustomerRewardsAsWritten | rewardsystem/src/main/java/com/poc/retailapp/rewardsystem/rewardsystem/service/RewardService.java:61-85 | for an unknown id the code as written fails by dereferencing null; for a known id it succeeds |
| Findings.UnknownIdIsNullDereference | rewardsystem/src/main/java/com/poc/retailapp/rewardsystem/rewardsystem/service/RewardService.java:62-82 | with an empty directory, the code as written fails with NullPointer, where the corrected query fails with NotFound |
| Findings.KnownIdAgrees | rewardsystem/src/main/java/com/poc/retailapp/rewardsystem/rewardsystem/service/RewardService.java:61-106 | for a known id the code as written and the corrected query give the same summary |

## Findings

| source | as written | input that shows it | evidently intended | confidence | as-written member | corrected member |
|---|---|---|---|---|---|---|
| rewardsystem/src/main/java/com/poc/retailapp/rewardsystem/rewardsystem/service/RewardService.java:62-82 | the not-found exception is caught and printed, `customer` stays null, and line 82 dereferences it | any customer id absent from the directory, e.g. an empty directory | fail with "Invalid Id. Customer not found", which the unit test at rewardsystem/src/test/java/com/RetailApplication/RewardSystem/Service/RewardServiceTest.java:100-103 expects | high, not executed | Findings.GetCustomerRewardsAsWritten | Rewards.GetCustomerRewards |

## Left out

- Points.Trunc: does not model the 32-bit wrap-around of `intValue()` for amounts whose integer part is above 2^31-1 or below -2^31 (amounts at or above 2^31, or at or below -2^31-1). Such amounts are assumed not to occur.
- Points.CalculatePoints: does not model the 32-bit overflow of `(amountInt - 100) * 2` and the following sum. With Java `int` the result is wrong, and can be negative, once the truncated amount reaches 2^30+75 (1073741899): for the amount 2147483647 Java gives -152 where the model gives 4294967144. The model's results, including "never negative", hold only for truncated amounts below 2^30+75.
- Rewards.TotalPoints: the total is an unbounded integer. The Java `int` sum could overflow; totals are assumed to be in range.
- The window start `LocalDateTime.now().minusMonths(months)` is a parameter. The clock and the calendar-month arithmetic are not modelled. `getAllCustomerRewards` calls `getCustomerRewards` once per customer, and each call reads the clock again, so each customer gets a slightly later window start; `Rewards.GetAllCustomerRewards` uses one cutoff for all of them.
- Timestamps are whole seconds. `LocalDateTime` has nanosecond precision and the strict "after" comparison of the store query works at that precision, so the order of two instants within the same second is not represented.
- Rewards.TransactionsAfter: the repository's derived query has no ORDER BY, so the database promises no order for its result. Returning the matches in store order is a modelling choice.
- Transaction ids come from a counter instead of `UUID.randomUUID()`. The model relies only on their being fresh.
- Spring and JPA wiring, `@Transactional` and the repository interfaces: the directory and the store are abstract sequences.
- Logging and `printStackTrace` have no effect on results.
- The HTTP controller and the exception handler are not part of this model. This includes the months range check, which swallows its own exception.
- Concurrent requests and the store's isolation are not modelled. Every operation runs alone.
- Null amounts or dates in bulk items are not modelled. The code would hit a NullPointerException that its catch swallows; inputs here are non-null.
- The distinct exception types and messages (`IllegalArgumentException`, `RuntimeException`, `RewardServiceException`) are reduced to the error kinds NotFound and InvalidAmount.
