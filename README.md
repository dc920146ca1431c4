# Bank ledger: customer store and statements

This project models the in-memory core of a small bank-account service. The service keeps a list of
customers, and each customer is keyed by a CPF (a Brazilian taxpayer number). Each customer owns an
append-only list of statement entries. Deposits append `'credit'` entries. Withdrawals append
`'withdraw'` entries, but only if the amount is covered by the balance. The balance is a fold over the
entries. A date view filters the entries by calendar day.

The model has four modules:

- `Ledger` (`ledger.dfy`) holds one customer's statement list as pure values. `Balance` is the fold
  `getBalance` computes: a left fold from 0 in recorded order. `Credits` and `Debits` are independent
  reference sums. `OnDay` is the date view's filter, and `DayOf` maps a timestamp to its calendar day.
- `Registry` (`registry.dfy`) holds the sequence operations the store uses. `FirstIndex` is the lookup
  that `find` does. `Unique` states that keys are unique. `Splice` models `Array.prototype.splice`, and
  `RemoveAt` is the removal the delete handler evidently intended.
- `Accounts` (`accounts.dfy`) holds two classes. `Customer` has a mutable `name` and `statements`, and a
  constant `cpf` and `uuid`. `Bank` holds the `customers` sequence, which its methods reassign. There is
  one `Bank` method per route handler. Each method that takes a CPF first does the `verifyCPF` lookup.
  If that lookup fails, the method returns `NotFound` and changes nothing. `Bank.Valid()` states that no
  two customers share a CPF. Every method keeps this invariant.
- `Scenarios` (`scenarios.dfy`) holds three request sequences checked against the contracts alone:
  - deposit, withdraw, and a refused overdraft;
  - a duplicate registration;
  - two deposits on different days.

Timestamps are integers: milliseconds of local wall-clock time. `DayOf` is floor division by
86 400 000. The uuid of a new customer and the current time of a request are parameters.

## Model

| member | source | states |
|---|---|---|
| `Ledger.BalanceIsCreditsMinusDebits` | src/index.js:22-31 | the fold over the statements equals the sum of credit amounts minus the sum of all other amounts, for every list and every interleaving |
| `Ledger.BalanceAppend` | src/index.js:23-30 | appending one entry moves the fold by exactly that entry's amount: up for a credit, down for anything else |
| `Ledger.DepositKeepsNeverOverdrawn` | src/index.js:59-66 | if every earlier balance was at least 0, a credit of a non-negative amount keeps every balance along the history at least 0 |
| `Ledger.AdmittedWithdrawalKeepsNeverOverdrawn` | src/index.js:75-89 | a withdrawal that passes the `amount > balance` guard keeps every balance along the history at least 0, whatever its sign |
| `Ledger.OnDay` | src/index.js:107-109 | an entry is in the day view exactly when it is in the statements and was made on that calendar day; the view is never longer than the statements |
| `Ledger.OnDayAppend` | src/index.js:107-109 | the day view of a concatenation is the concatenation of the day views, so recorded order is kept |
| `Ledger.OnDayAfterAppend` | src/index.js:105-109 | a new entry joins the end of its own day's view; every other day's view stays as it was |
| `Registry.FirstIndex` | src/index.js:12 | None exactly when no CPF matches; otherwise a position holding the CPF with no match before it (the first match) |
| `Registry.UniqueFirstIndex` | src/index.js:36-38 | when CPFs are unique, the lookup finds the one and only position holding a CPF |
| `Registry.UniqueAppend` | src/index.js:36-51 | appending a CPF that is not yet present keeps the CPFs unique |
| `Registry.RemoveAt` | src/index.js:140-146 | the intended removal: one element shorter, with every other element kept in its order |
| `Registry.RemoveAtMultiset` | src/index.js:140-146 | the intended removal takes away exactly one occurrence of the removed element and nothing else |
| `Registry.SpliceOneIsRemoveAt` | src/index.js:143 | `splice(k, 1)` at a valid integer position removes exactly the element at `k` |
| `Registry.SpliceByObjectDropsFirst` | src/index.js:143 | `splice(object, 1)` on a non-empty list drops its first element, because the object converts to the start 0 |
| `Registry.SpliceByObjectRemovesIffFirst` | src/index.js:143 | over distinct elements, `splice(object, 1)` removes the element at `k` if and only if `k` is 0 |
| `Registry.SpliceByObjectKeepsKeyIffNotFirst` | src/index.js:140-146 | over unique CPFs, the CPF at `k` survives `splice(object, 1)` if and only if `k` is not 0 |
| `Registry.RemoveAtDropsKey` | src/index.js:140-146 | the intended removal takes the CPF out of the store and keeps the rest unique |
| `Registry.DeleteSecondKeepsIt` | src/index.js:140-146 | on the store ["111", "222"], deleting "222" leaves ["222"], where the intended removal leaves ["111"] |
| `Accounts.Customer.constructor` | src/index.js:44-49 | a new customer has the given name, CPF and uuid, and an empty statement list |
| `Accounts.Bank.constructor` | src/index.js:7 | the store starts empty, and an empty store satisfies the CPF-uniqueness invariant |
| `Accounts.Bank.Find` | src/index.js:9-20 | `verifyCPF` and the account view return nothing exactly when no customer has the CPF; otherwise they return the first customer with that CPF |
| `Accounts.Bank.Register` | src/index.js:33-53 | a registered CPF is refused with AlreadyRegistered and the store is unchanged; otherwise one fresh customer is appended with the given name, CPF and uuid and no statements; CPF uniqueness is kept |
| `Accounts.Bank.Deposit` | src/index.js:55-69 | NotFound for an unknown CPF; otherwise exactly one credit entry with the given description, amount and time is appended to that customer; its balance rises by exactly the amount; no name and no other customer changes |
| `Accounts.Bank.Withdraw` | src/index.js:71-92 | NotFound for an unknown CPF; InsufficientFunds exactly when the amount exceeds the current balance, with nothing changed; otherwise one withdraw entry is appended and the new balance is the old minus the amount, which is at least 0 |
| `Accounts.Bank.Statements` | src/index.js:94-99 | NotFound for an unknown CPF; otherwise the customer's whole statement list |
| `Accounts.Bank.StatementsOnDate` | src/index.js:101-114 | NotFound for an unknown CPF; otherwise exactly the customer's entries from the requested calendar day, in order, which may be an empty list |
| `Accounts.Bank.Rename` | src/index.js:116-123 | NotFound for an unknown CPF; otherwise only that customer's name changes; every statement list and every other name stays the same (CPF and uuid are constants) |
| `Accounts.Bank.GetBalance` | src/index.js:131-137 | NotFound for an unknown CPF; otherwise the customer's credits minus debits |
| `Accounts.Bank.Delete` | src/index.js:140-146 | as written: NotFound and no change for an unknown CPF; otherwise the first customer of the store is removed; this is the requested customer, and the CPF stops being found, if and only if that customer was first |
| `Accounts.Bank.DeleteMatched` | src/index.js:140-146 | as intended: NotFound and no change for an unknown CPF; otherwise exactly the matched customer is removed, and its CPF is no longer found |

## Left out

- HTTP transport is not modelled: Express setup, routing, middleware chaining, JSON bodies, status codes and `app.listen`. Each handler becomes a method that returns `Pass`, a value, or an error.
- `uuidv4()` is a parameter of `Register`. Its uniqueness comes from the library and is not modelled.
- `new Date()` is the `now` parameter of `Deposit` and `Withdraw`. Parsing the `date + ' 00:00'` query string is not modelled: `StatementsOnDate` receives the parsed timestamp. `toDateString()` in the local time zone becomes `DayOf` on local-time milliseconds. Time-zone and DST rules are not modelled, and neither is an unparsable date ("Invalid Date"), which would match no entry.
- Amounts are unbounded integers, not JavaScript floating-point numbers. Rounding is not modelled, and neither is a non-numeric `amount`, which JavaScript would concatenate or compare as a string.
- CPFs are strings compared exactly. A CPF sent as a JSON number, which `===` would never match against a path string, is not modelled.
- Accounts.Bank.Deposit: like the source, it accepts any amount, including a negative one. Without a negative deposit the balance cannot go below 0; `Ledger.DepositKeepsNeverOverdrawn` states this and requires `amount >= 0`.
- Concurrency is not modelled. The service's design asks that registration and withdrawal be atomic under concurrent requests. The code runs on a single thread and takes no locks, and the model follows the code.
- The service's design also assumes non-negative amounts and a delete that removes the matched account. The code checks neither, and the model follows the code. For delete, see Findings.
- The `requires Valid()` on the `Bank` methods is the store invariant. Every `Bank` method keeps it, and nothing in the source breaks it.

## Findings

| source | as written | input that shows it | evidently intended | confidence | as-written member | corrected member |
|---|---|---|---|---|---|---|
| src/index.js:143 | `customers.splice(customer, 1)` passes the customer object as the start index; it converts to NaN and then to 0, so the first customer of the store is always removed | store with CPFs "111" then "222"; `DELETE /account/222` removes "111" and keeps "222", which is still found afterwards | remove the customer that `verifyCPF` matched, so a later lookup of its CPF fails | high (follows from the ECMAScript conversion rules; not executed) | `Accounts.Bank.Delete` (with `Registry.DeleteSecondKeepsIt`, `Registry.SpliceByObjectRemovesIffFirst`) | `Accounts.Bank.DeleteMatched` (with `Registry.RemoveAtDropsKey`) |
