# CashGuard ledger model

This project models the bookkeeping core of CashGuard (the ControlCash dashboard) in Dafny. CashGuard tracks cash
custodians, receivable and payable invoices, and income and expense transactions, with a small approval workflow.

The session holds four ordered collections: custodians, invoices, transactions and users. Every handler in
`App.tsx` reads these collections, rebuilds one or more of them with `find`, `map` and `filter`, and replaces
them. The model has five parts:

- `Seqs` (seqs.dfy): `find` (built on an index-level helper, `FindIndex`), `filter`, and a `map` that rewrites only the matching elements, with
  the JavaScript meaning (first match, original order).
- `Records` (records.dfy): the record types, inferred from how the two core files use them. Amounts and
  balances are integers, for example cents.
- `Ledger` (ledger.dfy): one pure function per handler. Each takes the current collections to the new ones in
  one atomic step. `LedgerProperties` (ledger_properties.dfy) relates several handlers: re-validation is
  idempotent, a settlement is not guarded against being repeated, a transfer followed by validating both legs
  moves the money, deleting a freshly added record undoes the add, and it works through three examples:
  settling a receivable, validating twice, and a transfer.
- `Consistency` (consistency.dfy): a custodian's stored balance is a running total and is never recomputed.
  Its *drift* is the stored balance minus the sum of the effects of its VALIDATED transactions. The module proves
  that every offered action of its `Action` type leaves each custodian's drift unchanged, so a balanced ledger
  stays balanced over any run of such actions, whatever roles take turns. Adding a custodian under an id no
  transaction names, and deleting custodians, also keep a balanced ledger balanced. Concrete counterexamples show that the two actions the screens hide do
  change the drift: rejecting an already validated transaction, and deleting one.
- `App.Session` (session.dfy): the session as a class with one field per `useState` collection. Each method is
  the handler's body, reassigning the fields it sets, and is specified by the matching `Ledger` function.
  `Navigation` (navigation.dfy) holds the role rules for the view chosen on login and for the menu.
  `TransactionsView` (transactions_view.dfy) holds the pure rules of the transactions screen.

Clock reads (`Date.now()`, `new Date().toISOString()`) are parameters. A new record's id is `newId`, a
transfer's timestamp is `stamp`, and dates are opaque strings.

Where ids repeat, the model follows the code. `find` picks the first record with the id, while `map` and
`filter` act on every record with the id. For example, a settlement credits every custodian carrying the
chosen id, by the amount of the first invoice carrying the invoice id.

Points worth noting about the code:
- A settlement puts its transaction at the front of the list; it does not append it.
- A transfer's income leg (id `tx-<stamp>-2`) comes before its expense leg (id `tx-<stamp>-1`).
- Neither a transfer nor a settlement checks that the amount is positive.
- The custodian column also shows "Desconocido" for a custodian whose name is empty, because `?.name ||`
  treats the empty string as missing.

## Model

| member | source | states |
|---|---|---|
| Seqs.FindIndex | App.tsx:100 | the index-level helper behind `find`: the result is the index of the first element satisfying the predicate, or none when no element does |
| Seqs.Find | App.tsx:60-63 | `find` gives nothing exactly when no element matches; otherwise it gives the first matching element of the sequence |
| Seqs.Filter | App.tsx:55-57 | `filter` keeps only elements satisfying the predicate, and keeps every one that does |
| Seqs.MapWhere | App.tsx:66-68 | the length is preserved; matching elements are rewritten and all others stay as they were, in place |
| Seqs.FilterAppend | App.tsx:114-116 | filtering distributes over concatenation, so the kept records stay in their original order |
| Seqs.FilterKeepsAll | App.tsx:160-162 | a filter that rejects nothing returns the collection unchanged |
| Seqs.FindIndexPointwise | App.tsx:100 | two collections that agree on the predicate position by position have the same first match |
| Ledger.Credit | App.tsx:73-75 | every custodian with the given id moves by exactly `delta`; ids, names and all other balances are unchanged |
| Ledger.MarkPaid | App.tsx:66-68 | every invoice with the id becomes PAID; no other invoice and no other field changes |
| Ledger.SetStatus | App.tsx:111 | every transaction with the id takes the new status; nothing else changes and length and order are kept |
| Ledger.SettlementDelta | App.tsx:72 | a RECEIVABLE invoice adds its amount to the balance and a PAYABLE one subtracts it |
| Ledger.Effect | App.tsx:105 | an INCOME transaction adds its amount to the balance and an EXPENSE one subtracts it |
| Ledger.SettlementRecord | App.tsx:79-88 | the settlement record carries the new id, the date, the invoice's amount and the chosen custodian; it is INCOME iff the invoice is RECEIVABLE, VALIDATED, linked to the invoice, described as "Cobro Factura: <entity>" or "Pago Factura: <entity>", and its effect equals the balance change the settlement makes |
| Ledger.ExpenseLegId | App.tsx:127 | the expense leg's id is `tx-` followed by the stamp and `-1` |
| Ledger.IncomeLegId | App.tsx:137 | the income leg's id is `tx-` followed by the stamp and `-2` |
| Ledger.TransferLegs | App.tsx:126-146 | exactly two PENDING legs of the given amount and date with no invoice link: INCOME on `toId` ("Transferencia recibida de <from>") then EXPENSE on `fromId` ("Transferencia enviada a <to>"); their effects cancel out |
| Ledger.LegIdsDiffer | App.tsx:127-137 | the two leg ids of one transfer are distinct |
| Ledger.InvoiceFromDraft | App.tsx:47 | the new invoice has the given id and every other field from the form |
| Ledger.AddInvoice | App.tsx:46-49 | the new invoice, carrying the given id, is prepended; the other collections are untouched |
| Ledger.UpdateInvoice | App.tsx:51-53 | invoices with the updated id are replaced by the update; all others, and the count, are kept |
| Ledger.DeleteInvoice | App.tsx:55-57 | exactly the invoices with another id remain; custodians, transactions and users are untouched, so nothing cascades |
| Ledger.Settle | App.tsx:59-90 | no-op if the invoice or the custodian is missing; otherwise the target invoice becomes PAID with the count kept; the custodian moves by +amount (RECEIVABLE) or -amount (PAYABLE) and no other custodian moves; exactly one VALIDATED transaction is prepended, with the invoice's amount, INCOME iff RECEIVABLE, the chosen custodian and the invoice id |
| Ledger.TransactionFromDraft | App.tsx:95 | the new transaction has the given id and every other field from the draft |
| Ledger.AddTransaction | App.tsx:94-97 | the new transaction, carrying the given id, is prepended; balances are untouched |
| Ledger.Validate | App.tsx:99-112 | an unknown id is a no-op; only the status of the target transaction changes, and length and order are kept; the balance moves only when the new status is VALIDATED and the current one is not, and then only the transaction's custodian moves, by +amount for INCOME and -amount for EXPENSE; REJECTED never moves a balance |
| Ledger.DeleteTransaction | App.tsx:114-116 | exactly the transactions with another id remain; no balance is touched, not even for a VALIDATED transaction |
| Ledger.Transfer | App.tsx:118-147 | no-op if either custodian is missing; otherwise exactly two PENDING legs of equal amount are prepended, INCOME on `toId` first and EXPENSE on `fromId` second; custodians are untouched; `fromId == toId` is allowed |
| Ledger.CustodianFromDraft | App.tsx:152-156 | the new custodian has the given id, the form's name and balance 0 |
| Ledger.AddCustodian | App.tsx:151-158 | the custodian is appended with the given id and balance 0, whatever balance was supplied |
| Ledger.DeleteCustodian | App.tsx:160-162 | exactly the custodians with another id remain; their transactions and invoices stay |
| Ledger.AddUser | App.tsx:166-168 | the user is appended as given |
| Ledger.DeleteUser | App.tsx:170-172 | exactly the users with another id remain |
| LedgerProperties.ValidateIdempotent | App.tsx:99-112 | validating or rejecting the same id twice gives the same state as doing it once, so a second validation moves no balance |
| LedgerProperties.SettleKeepsFinds | App.tsx:60-68 | after a settlement the same invoice, now PAID, and a custodian are still found under the same ids |
| LedgerProperties.SettleTwiceCountsTwice | App.tsx:59-90 | nothing stops a repeated settlement: settling twice moves the custodian by twice the amount and records two transactions |
| LedgerProperties.ValidatePendingMovesItsCustodian | App.tsx:104-108 | validating a PENDING transaction moves exactly the custodians with its custodian id, by its signed amount |
| LedgerProperties.IncomeLegValidatedThenFindExpense | App.tsx:126-146 | after a transfer and the validation of its income leg, the expense leg is still found under its own id and is still PENDING |
| LedgerProperties.TransferThenValidateBoth | App.tsx:118-147 | validating both legs of a transfer moves `amount` from `fromId` to `toId`, and to nothing for a self-transfer |
| LedgerProperties.DeleteUndoesAddInvoice | App.tsx:46-57 | deleting an invoice just added under a fresh id restores the state |
| LedgerProperties.DeleteUndoesAddTransaction | App.tsx:94-116 | deleting a transaction just added under a fresh id restores the state |
| LedgerProperties.DeleteUndoesAddCustodian | App.tsx:151-162 | deleting a custodian just added under a fresh id restores the state |
| LedgerProperties.DeleteUndoesAddUser | App.tsx:166-172 | deleting a user just added under a fresh id restores the state |
| LedgerProperties.DeleteAbsentIsNoop | App.tsx:55-57 | deleting an id that no record carries changes no collection |
| LedgerProperties.UpdateInvoiceThenFind | App.tsx:51-53 | after an update, the invoice found under its id is the update; an update whose id is absent changes nothing |
| LedgerProperties.SettlementExample | App.tsx:59-90 | settling receivable i1 of 100 into c1 at 0 gives PAID, balance 100, and one VALIDATED INCOME of 100 linked to i1 |
| LedgerProperties.ValidationExample | App.tsx:99-112 | validating expense t1 of 50 on c1 at 100 gives balance 50; validating it again keeps 50 |
| LedgerProperties.TransferExample | App.tsx:118-147 | a transfer of 30 from c1 to c2 gives two PENDING transactions and no balance change |
| TransactionsView.FilteredTransactions | components/TransactionsView.tsx:34-36 | with ALL the whole list comes back; with INCOME or EXPENSE exactly the transactions of that type |
| TransactionsView.FilterPartition | components/TransactionsView.tsx:34-36 | the INCOME view and the EXPENSE view together hold as many rows as the whole list |
| TransactionsView.CanValidate | components/TransactionsView.tsx:38 | validation is allowed iff the role is not OPERATOR, that is, ADMIN or ACCOUNTANT |
| TransactionsView.CanCreate | components/TransactionsView.tsx:39 | creation is allowed iff the role is ADMIN or OPERATOR, that is, not ACCOUNTANT |
| TransactionsView.SeparationOfDuties | components/TransactionsView.tsx:38-39 | every role may validate or create, and only ADMIN may do both |
| TransactionsView.OffersValidation | components/TransactionsView.tsx:138 | validate and reject are offered iff the row is PENDING and the role may validate |
| TransactionsView.OffersDelete | components/TransactionsView.tsx:156 | delete is offered iff the row is not VALIDATED |
| TransactionsView.SubmittedDraft | components/TransactionsView.tsx:41-50 | a submitted transaction is always PENDING, and its type, custodian, amount, date and description come from the form |
| TransactionsView.CustodianName | components/TransactionsView.tsx:109 | with no custodian of that id the name is "Desconocido"; otherwise it is the first such custodian's name, or "Desconocido" when that name is empty; the result is never empty |
| Navigation.DefaultView | App.tsx:35-42 | login selects TRANSACTIONS for OPERATOR and DASHBOARD for everybody else |
| Navigation.NavViews | App.tsx:180-186 | the menu offers DASHBOARD iff the role is not OPERATOR, USERS iff ADMIN, and always TRANSACTIONS, ACCOUNTS and CUSTODIANS |
| Navigation.Renders | App.tsx:276-319 | the content area draws every view except the dashboard for an OPERATOR and user management for anyone but an ADMIN |
| Navigation.NavigationAgreesWithRendering | App.tsx:276-319 | the menu offers exactly the views the content area draws for the role, and the view chosen on login is one of them |
| Consistency.DerivedPrepend | App.tsx:89 | prepending a transaction adds its contribution to each derived balance |
| Consistency.DerivedReplace | App.tsx:111 | replacing one transaction changes a derived balance by the difference of the two contributions |
| Consistency.DerivedDeleteUnvalidated | App.tsx:114-116 | deleting transactions that are not VALIDATED leaves every derived balance as it was |
| Consistency.SetStatusIsOneReplacement | App.tsx:111 | with unique ids the status update rewrites exactly one transaction |
| Consistency.SettleKeepsDrift | App.tsx:59-90 | a settlement moves a balance exactly as its VALIDATED record moves the derived balance |
| Consistency.ValidateKeepsDrift | App.tsx:99-112 | with unique ids, every validation call keeps each drift, except rejecting a transaction that is already VALIDATED |
| Consistency.TransferKeepsDrift | App.tsx:118-147 | a transfer keeps each drift |
| Consistency.AddUnvalidatedKeepsDrift | App.tsx:94-97 | adding a transaction that is not VALIDATED keeps each drift |
| Consistency.DeleteUnvalidatedKeepsDrift | App.tsx:114-116 | deleting only non-VALIDATED transactions keeps each drift |
| Consistency.UniquePrepend | App.tsx:89 | prepending a transaction with a fresh id keeps ids unique |
| Consistency.UniqueFilter | App.tsx:115 | deleting transactions keeps ids unique |
| Consistency.SettleStepConsistent | App.tsx:59-90 | a settlement with a fresh transaction id keeps ids unique and each drift |
| Consistency.DecideStepConsistent | components/TransactionsView.tsx:138-153 | validating or rejecting a PENDING row keeps ids unique and each drift |
| Consistency.RemoveStepConsistent | components/TransactionsView.tsx:156-163 | deleting a row that is not VALIDATED keeps ids unique and each drift |
| Consistency.SubmitStepConsistent | components/TransactionsView.tsx:41-50 | a submitted manual transaction with a fresh id keeps ids unique and each drift |
| Consistency.MoveStepConsistent | App.tsx:118-147 | a transfer with fresh leg ids keeps ids unique and each drift |
| Consistency.Offered | components/TransactionsView.tsx:82-163 | validate and reject are offered only to a non-OPERATOR on a PENDING row; delete only on a row that is not VALIDATED; create only to a non-ACCOUNTANT; user management exactly to an ADMIN; the invoice actions always |
| Consistency.StepKeepsConsistency | App.tsx:59-172 | one action the screens offer keeps transaction ids unique and each custodian's drift |
| Consistency.RunKeepsConsistency | App.tsx:59-172 | any run of offered actions, each by the role logged in at that step, keeps ids unique and each drift; a balanced ledger stays balanced |
| Consistency.DerivedUnmentioned | App.tsx:104-108 | a log in which no transaction names a custodian derives a balance of 0 for it |
| Consistency.AddCustodianKeepsBalanced | App.tsx:151-158 | adding a custodian, at balance 0, under an id no transaction names keeps a balanced ledger balanced |
| Consistency.DeleteCustodianKeepsBalanced | App.tsx:160-162 | deleting custodians keeps a balanced ledger balanced |
| Consistency.RejectAfterValidateDrifts | App.tsx:99-112 | rejecting a validated transaction keeps its balance effect but removes it from the derived balance, so the drift changes |
| Consistency.DeleteValidatedDrifts | App.tsx:114-116 | deleting a validated transaction keeps its balance effect but removes it from the derived balance, so the drift changes |
| App.Session.constructor | App.tsx:24-32 | a new session has no user, shows the dashboard, and holds the seed collections |
| App.Session.Login | App.tsx:35-42 | sets the current user and the role's default view; nothing else changes |
| App.Session.Logout | App.tsx:241 | clears the current user; nothing else changes |
| App.Session.AddInvoice | App.tsx:46-49 | the new collections are `Ledger.AddInvoice` of the old ones |
| App.Session.UpdateInvoice | App.tsx:51-53 | the new collections are `Ledger.UpdateInvoice` of the old ones |
| App.Session.DeleteInvoice | App.tsx:55-57 | the new collections are `Ledger.DeleteInvoice` of the old ones |
| App.Session.ProcessInvoice | App.tsx:59-90 | the new collections are `Ledger.Settle` of the old ones; the user and the view are untouched |
| App.Session.AddTransaction | App.tsx:94-97 | the new collections are `Ledger.AddTransaction` of the old ones |
| App.Session.ValidateTransaction | App.tsx:99-112 | the new collections are `Ledger.Validate` of the old ones |
| App.Session.DeleteTransaction | App.tsx:114-116 | the new collections are `Ledger.DeleteTransaction` of the old ones |
| App.Session.Transfer | App.tsx:118-147 | the new collections are `Ledger.Transfer` of the old ones |
| App.Session.AddCustodian | App.tsx:151-158 | the new collections are `Ledger.AddCustodian` of the old ones |
| App.Session.DeleteCustodian | App.tsx:160-162 | the new collections are `Ledger.DeleteCustodian` of the old ones |
| App.Session.AddUser | App.tsx:166-168 | the new collections are `Ledger.AddUser` of the old ones |
| App.Session.DeleteUser | App.tsx:170-172 | the new collections are `Ledger.DeleteUser` of the old ones |

## Left out

- Rendering: JSX, CSS classes, the sidebar toggle, the date shown in the header, and choosing a view from the
  menu. These are presentation only.
- components/Login.tsx: it only lists the users as buttons that call the login handler.
- Clock reads: `Date.now()` and `new Date().toISOString()` become the parameters `newId`, `stamp` and `date`.
  Nothing proves that they are fresh; the consistency lemmas assume fresh transaction ids.
- Number handling: `parseFloat` of the form's amount, JavaScript floating-point balances, and
  `toLocaleString`/`toLocaleDateString` formatting. Amounts are unbounded integers.
- React mechanics: `useState` batching and stale closures. Each handler is one atomic step on the current
  state.
- Components that are not part of this model: Dashboard, Custodians, Accounts, UserManagement, the seed data
  (`constants`) and the type definitions (`types`). Record fields that only those files use are absent. Which
  invoices the Accounts screen lets a user settle is therefore unknown, and settlement is treated as always
  offered.
- The dashboard's list of VALIDATED transactions (App.tsx:280) is a presentation input and is not modelled.
- The form state of the transactions screen (`filterType`, `isModalOpen`, `newTx`) is UI state. The screen's
  rules are modelled as functions of their inputs.
- Consistency.StepKeepsConsistency: adding and deleting custodians are not among its actions, because they
  change which custodians exist and drift is compared custodian by custodian. For those two,
  AddCustodianKeepsBalanced and DeleteCustodianKeepsBalanced prove only that balance is kept.
- Consistency.RunKeepsConsistency: it assumes that new transaction ids are fresh, as fresh clock reads would
  make them.
