# AccountService balance ledger and account aggregation, in Dafny

This project models the core of a personal-finance back end: the
`AccountService` that stores Accounts, Transactions and Users in three
repositories and derives an account's balance by replaying its transactions.

- `options.dfy` (module `Options`): `Option`, standing for a Java reference
  that may be null or an `Optional` that may be empty.
- `ledger.dfy` (module `Ledger`): the per-transaction step
  `calculateNetBalance` (`NetBalance`), and the specification of the balance
  fold: `SignedSum` over the transaction ids in the order `findAllIds`
  returns them, and `Balance`, the initial value (0 when null) plus that sum.
  Lemmas relate the fold to an independent reference (the `INCOME` total minus
  the `EXPENCE` total of exactly the account's present transactions). They also
  show that ignored ids contribute nothing and that the order of the ids does
  not matter.
- `accounts.dfy` (module `Accounts`): the class `AccountService`. Its fields
  are the repositories: the accounts by id with their storage order, the
  generator of the next account id, the transactions by id with the id list,
  and the users by name. `AccountView` is the DTO, a class because
  `calculateBalance` writes its `calculatedBalance` field in place.
  - `ComputeBalance` is the loop of `calculateBalance`, proved against
    `Balance`.
  - `CalculateBalance` writes the result into the view.
  - `GetAll`, `GetAccountById`, `DraftAccount`, `UpdateAccount` and
    `TransactionsByAccountId` are the service operations.
  - `Consistent` is the store invariant that `UpdateAccount` keeps;
    `KeyedByName` says every user is stored under its own user name.
  - `ExampleBalance` and its client `BalanceExample` derive the balance 75
    from an income of 100, an expence of 30 and an income of 5, while
    skipping a transaction of another account and an id whose lookup is
    empty.

Amounts are whole numbers (for example cents), so every balance stated here
is exact. The source spells the expense type `EXPENCE`; the model keeps that
spelling.

Two facts about the code shape the model:
- By-id retrieval has no not-found result. On a missing id the code hands a
  null entity to the mapper, and `calculateBalance` then fails when it
  dereferences the resulting view. The model therefore requires that the id
  exists.
- The balance fold scans every transaction id in the store and filters by
  account. It does not use the account's own transaction list.

## Model

| member | source | states |
|---|---|---|
| `Ledger.NetBalance` | backEnd/src/main/java/com/dterz/service/AccountService.java:157-166 | `INCOME` adds the amount to the budget, `EXPENCE` subtracts it, any other or null type returns the budget unchanged. Equivalently, the result minus the budget is the reference `Contribution` of the transaction. |
| `Ledger.NullInitialIsZero` | backEnd/src/main/java/com/dterz/service/AccountService.java:70 | a null initial value gives the same balance as initial value 0 |
| `Ledger.Matching` | backEnd/src/main/java/com/dterz/service/AccountService.java:78-79 | every transaction the fold takes into account is the present lookup of some listed id whose transaction belongs to the view's account |
| `Ledger.MatchingComplete` | backEnd/src/main/java/com/dterz/service/AccountService.java:78-79 | conversely, every listed id whose lookup is present and whose transaction belongs to the account contributes its transaction |
| `Ledger.InitialValue` | backEnd/src/main/java/com/dterz/service/AccountService.java:70 | a null initial value starts the balance at 0, any other starts it at that value |
| `Ledger.SignedSum` | backEnd/src/main/java/com/dterz/service/AccountService.java:74-83 | the signed sum the loop accumulates over the id list equals the sum of the `INCOME` amounts minus the sum of the `EXPENCE` amounts, over exactly the present transactions of the account |
| `Ledger.Balance` | backEnd/src/main/java/com/dterz/service/AccountService.java:70-85 | the value written into `calculatedBalance` is the initial value (0 when null) plus the `INCOME` total minus the `EXPENCE` total of exactly the present transactions of the account |
| `Ledger.NoMatchKeepsInitial` | backEnd/src/main/java/com/dterz/service/AccountService.java:78-83 | when no id has a present transaction of the account, the balance is the initial value |
| `Ledger.IgnoredIdContributesNothing` | backEnd/src/main/java/com/dterz/service/AccountService.java:78-83 | inserting, anywhere in the id list, an id whose lookup is empty or whose transaction belongs to another account leaves the sum unchanged |
| `Ledger.BalanceIgnoresOrder` | backEnd/src/main/java/com/dterz/service/AccountService.java:74-83 | two id lists with the same elements, in any order, give the same balance |
| `Accounts.AccountService.ComputeBalance` | backEnd/src/main/java/com/dterz/service/AccountService.java:70-83 | the loop starts at the initial value (0 when null) and, after visiting every id of `findAllIds`, holds `Balance`; its invariant is that the accumulator is the initial value plus the signed sum over the ids visited so far |
| `Accounts.AccountService.CalculateBalance` | backEnd/src/main/java/com/dterz/service/AccountService.java:68-85 | the view's `calculatedBalance` becomes the balance of the view's id from the given initial value; its id, owner and fields do not change |
| `Accounts.ResolveOwner` | backEnd/src/main/java/com/dterz/service/AccountService.java:42-44 | a user name resolves to an owner exactly when a user with that name exists, and then to that user's id |
| `Accounts.Listing` | backEnd/src/main/java/com/dterz/service/AccountService.java:44-48 | `findByUserId` (with an owner) or `findAll` (without one) over the storage order returns no more accounts than the order lists, and each account it returns is stored and belongs to the owner (any account without one); its exact content is stated by `ListingExact` and `ListingUnfiltered` |
| `Accounts.ListingExact` | backEnd/src/main/java/com/dterz/service/AccountService.java:44-48 | with a resolved owner the repository lists exactly that owner's stored accounts, and without one exactly every stored account (both directions) |
| `Accounts.ListingUnfiltered` | backEnd/src/main/java/com/dterz/service/AccountService.java:46-47 | when every entry of the storage order is stored, `findAll` returns one account per entry, position i holding the account stored under the i-th id |
| `Accounts.PageOf` | backEnd/src/main/java/com/dterz/service/AccountService.java:49 | the page content is the slice of the listing that starts at page times size and holds at most size items. It is shorter only at the end of the listing and empty past it. |
| `Accounts.AccountView.FromEntity` | backEnd/src/main/java/com/dterz/service/AccountService.java:98 | the view of an entity carries its id, owner and fields, and no balance |
| `Accounts.ToViews` | backEnd/src/main/java/com/dterz/service/AccountService.java:51 | one fresh, distinct view per account, carrying its id, owner and fields, with no balance yet |
| `Accounts.AccountService.GetAll` | backEnd/src/main/java/com/dterz/service/AccountService.java:41-55 | the result holds one fresh, distinct view per account of the requested page of the owner's accounts (all accounts when the user name does not resolve), each with the balance computed from initial value 0 |
| `Accounts.AccountService.GetAccountById` | backEnd/src/main/java/com/dterz/service/AccountService.java:96-101 | for a stored id, a fresh view of that account whose balance is computed from a null initial value |
| `Accounts.AccountView.Blank` | backEnd/src/main/java/com/dterz/service/AccountService.java:109-110 | the view of a blank account has no id, no owner, no fields and no balance |
| `Accounts.AccountService.DraftAccount` | backEnd/src/main/java/com/dterz/service/AccountService.java:108-111 | returns a fresh blank view. The method has no `modifies` clause, so the store is unchanged. |
| `Accounts.Merge` | backEnd/src/main/java/com/dterz/service/AccountService.java:122-124 | merging a view into a stored account keeps the account's id and transactions. The view wins for the fields and owner it carries; the account keeps every other field. |
| `Accounts.AccountService.UpdateAccount` | backEnd/src/main/java/com/dterz/service/AccountService.java:119-130 | existing id: only that account changes, to the merge, and it keeps its id. Unknown or null id: a new account built from the view's owner and fields is added under the id the model's generator gives it (see Left out). Transactions and users never change, and the store invariant is kept. The returned view has no balance and shows the stored account: the merged one for an existing id, the one under the generated id otherwise. |
| `Accounts.AccountService.TransactionsByAccountId` | backEnd/src/main/java/com/dterz/service/AccountService.java:138-147 | the account's transactions when the id is stored, the empty list otherwise, and in every case only transactions of that account |

## Left out

- Amounts are modelled as `int`. The source's `double` accumulation and the `BigDecimal.valueOf(double)` / `doubleValue()` conversions are floating point, so the model states the sums exactly instead.
- The account-id comparison in `calculateBalance` is modelled as value equality. If both sides are boxed `Long` values, Java's `==` compares references. A view with a null id matches no transaction.
- `Accounts.AccountService.GetAccountById`: requires that the id is stored. On a missing id the source hands a null entity to `mapper.entityToDto`, and `calculateBalance` then fails when it dereferences the resulting view; there is no explicit not-found result.
- Timing and logging (`System.currentTimeMillis`, `log.info`) are observability only.
- `getAll` page metadata (`currentPage`, `totalItems`, `totalPages`) comes from Spring Data's `Page`, which is not part of this model. Paging is a slice of the listing.
- `Accounts.ListingExact`, `Accounts.ListingUnfiltered`: the repository's result order is modelled as a storage-order id list.
- `Accounts.Merge`: the mapper is not part of this model. Its field merge is stated as "the view's carried fields and owner win, the entity keeps the rest". Fields are a name-to-value map, and a null owner in the view counts as not carried.
- `Accounts.AccountService.UpdateAccount`: on an insert, a non-null view id that is not stored is replaced by the generated id (`nextId`, a counter standing for the repository's id generation), and the returned view is modelled as the view of the stored account. In the source the entity is built from the whole view, the result of `save` is discarded and the pre-save object is returned; which id is stored and which id the returned view shows depends on the mapper and on the persistence provider's merge/persist, neither of which is part of this model. A view with a null id is treated like an unknown id; the model does not capture Spring Data rejecting `findById(null)`.
- `@Transactional` and concurrency: each operation runs alone on a store that does not change under it.
- A transaction's account and amount are never null in the model. The source throws a `NullPointerException` in `calculateBalance` when a present transaction has a null account (`getAccount().getId()`) or, for a matching one, a null amount (`getAmount().doubleValue()`); those failures are not modelled.
- A transaction's type is `Option<TransactionType>`, where `None` is null. `Other` stands for enum constants beyond `INCOME` and `EXPENCE`, because the enum's source is not part of this model.
- A transaction's recording user is not modelled, and neither are the CSV fields it feeds. The CSV writer (`CsvFileGenerator`) is not part of this model.
- The HTTP controller (`AccountController`) and the user-controller tests are not part of this model. The controller only forwards to the service and writes the response.
- `Accounts.AccountService.TransactionsByAccountId`: the JPA relation `account.getTransactions()` is modelled as a list stored with the account. The store invariant states only that the list holds transactions of that account. Its agreement with the `findAllIds` scan is not modelled.
