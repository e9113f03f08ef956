# Finstream bookkeeping core in Dafny

Finstream is a React Native small-business bookkeeping app. It keeps a
chart of accounts, double-entry transactions, invoices and linked bank
feeds. This project models its client-side state and rule layer:

- **The store.** There are five slice reducers (accounts, transactions,
  invoices, bank, auth). `appReducer` passes every action to all of them.
  Each reducer is a total function from a state and an action to a new
  state, written over id-keyed lists with spread, `map` and `filter`.
  Here each reducer is a Dafny function `Reduce`. It dispatches to
  `Step`, whose branches follow the `switch` case by case.
- **Double-entry rules.** These are `doesTransactionBalance`, the
  new-transaction form (a class whose `entries` field its handlers
  update), and the debit total and expense flag shown by the transaction
  list item.
- **Invoice arithmetic and the validators.** These are the functions in
  `currencyUtils.ts` and `validationUtils.ts`.
- **List screens.** The filters of the Transactions, Invoices and
  Accounts screens, and the newest-first sorts of the Transactions and
  Invoices screens.
- **Two onboarding state machines.** One is the step sequence, a class
  with a `step` field. The other is the chart-of-accounts template list,
  a class with a `templates` field, and the accounts built from it.

Representation:

- Money is an exact `real`, so the 0.001 tolerances are exact comparisons
  with the same constant and the same strictness.
- Dates are integer millisecond timestamps. The clock reading is an input
  (`Clock`), as are the generated ids.
- Optional fields are `Option`s. `toLowerCase` is ASCII lowercasing.
- Action types are constructors, one datatype per reducer's enum. The
  three types that the onboarding screens dispatch and no reducer
  declares (`CREATE_ACCOUNTS_BATCH`, `ADD_BANK_ACCOUNTS`, `UPDATE_USER`)
  form a sixth datatype.

Generic list helpers live in `lists.dfy`, id-keyed record updates in
`records.dfy`, and JavaScript string methods in `text.dfy`.

The code has several gaps, and the model keeps every one of them as
written. Each gap is shown by a lemma, listed under "Behaviour kept as
written" below.

## Model

| member | source | states |
|---|---|---|
| Types.TypeOfSubtype | src/types/index.ts:11-40 | every subtype is listed under the account type it maps to |
| Types.SubtypeGroupsPartition | src/types/index.ts:11-40 | a subtype is listed under a type exactly when that type is its group, so the groups partition the subtypes |
| Types.EntrySide | src/types/index.ts:72 | an entry is never both a debit (positive) and a credit (negative); it is neither exactly when its amount is zero |
| Types.InvoiceStatusCount | src/types/index.ts:96-103 | every invoice status is one of six pairwise distinct states |
| AccountReducer.Reduce | src/context/reducers/accountReducer.ts:237-238 | an action of another slice leaves the account state unchanged |
| AccountReducer.Step | src/context/reducers/accountReducer.ts:140-240 | only fetch, create, update, delete and archive write the account list |
| AccountReducer.RequestAndFailure | src/context/reducers/accountReducer.ts:145-154 | every request sets loading and clears the error, and every failure clears loading and stores the message; nothing else changes |
| AccountReducer.ArchiveAccountEffect | src/context/reducers/accountReducer.ts:206-217 | archiving sets `isArchived` on exactly the accounts with that id and changes no other field; the length is kept; the current account follows the same rule when its id matches |
| AccountReducer.ArchiveAccountIdempotent | src/context/reducers/accountReducer.ts:206-217 | archiving twice equals archiving once |
| AccountReducer.CreateAccountAppends | src/context/reducers/accountReducer.ts:172-179 | creation keeps the existing accounts as a prefix, appends the payload and makes it current |
| AccountReducer.UpdateAccountReplaces | src/context/reducers/accountReducer.ts:181-190 | an update replaces exactly the accounts with the payload's id, in place, and keeps the length |
| AccountReducer.DeleteAccountRemoves | src/context/reducers/accountReducer.ts:192-204 | deletion keeps the accounts with another id, each as often as before and in order, drops every account with that id, and clears the current account exactly when its id matched |
| TransactionReducer.Reduce | src/context/reducers/transactionReducer.ts:237-238 | an action of another slice leaves the transaction state unchanged |
| TransactionReducer.Step | src/context/reducers/transactionReducer.ts:140-239 | only fetch, create, update, delete and reconcile write the transaction list |
| TransactionReducer.RequestAndFailure | src/context/reducers/transactionReducer.ts:145-154 | requests set loading and clear the error; failures clear loading and store the message |
| TransactionReducer.CreateTransactionAppends | src/context/reducers/transactionReducer.ts:172-179 | creation appends exactly the payload after the unchanged earlier transactions and makes it current |
| TransactionReducer.CreateThenDeleteTransaction | src/context/reducers/transactionReducer.ts:172-204 | creating a transaction with a fresh id and deleting that id gives back the original list |
| TransactionReducer.UpdateTransactionReplaces | src/context/reducers/transactionReducer.ts:181-190 | an update replaces by id in place and keeps the length and order |
| TransactionReducer.DeleteTransactionRemoves | src/context/reducers/transactionReducer.ts:192-204 | deletion keeps the transactions with another id, each as often as before and in order, drops every transaction with that id, and clears the current transaction exactly when its id matched |
| TransactionReducer.ReconcileTransactionEffect | src/context/reducers/transactionReducer.ts:206-218 | reconciling sets `isReconciled` on exactly the matching transactions and leaves their entries and every other field untouched |
| TransactionReducer.ReconcileTransactionIdempotent | src/context/reducers/transactionReducer.ts:206-218 | reconciling twice equals reconciling once |
| TransactionReducer.NothingUnreconciles | src/context/reducers/transactionReducer.ts:140-239 | apart from the actions that install a payload, every unreconciled transaction after a step was already in the list, so no action clears the flag |
| TransactionReducer.BalancedPreserved | src/context/reducers/transactionReducer.ts:156-218 | if every stored transaction's entries sum to zero and the payload's do too, every action keeps that true for the whole list |
| InvoiceReducer.Reduce | src/context/reducers/invoiceReducer.ts:361-362 | an action of another slice leaves the invoice state unchanged |
| InvoiceReducer.Step | src/context/reducers/invoiceReducer.ts:198-364 | only fetch, create, update, send, delete, payment and the three mark actions write the invoice list |
| InvoiceReducer.RequestAndFailure | src/context/reducers/invoiceReducer.ts:203-214 | requests set loading and clear the error; failures clear loading and store the message |
| InvoiceReducer.RecordPaymentEffect | src/context/reducers/invoiceReducer.ts:267-279 | a payment adds exactly its amount to the target invoice's `amountPaid` and sets its status to the payload's; every other invoice and field is unchanged |
| InvoiceReducer.PaymentsAccumulate | src/context/reducers/invoiceReducer.ts:267-290 | two successive payments equal one payment of their sum with the second status |
| InvoiceReducer.RecordPaymentsCompose | src/context/reducers/invoiceReducer.ts:267-290 | the payment branch composes: paying p1 and then p2 is paying p1 + p2 |
| InvoiceReducer.PaymentsCompose | src/context/reducers/invoiceReducer.ts:275 | the per-invoice payment update composes additively |
| InvoiceReducer.PaymentOrderIrrelevant | src/context/reducers/invoiceReducer.ts:275 | two payments with the same status give the same state in either order |
| InvoiceReducer.CurrentInvoiceInSync | src/context/reducers/invoiceReducer.ts:280-288 | when the current invoice equals a list entry, every action that does not install a payload keeps them equal |
| InvoiceReducer.MarkAsPaidEffect | src/context/reducers/invoiceReducer.ts:306-326 | marking paid sets the status to PAID and `amountPaid` to `total` on the matching invoices only, and is idempotent |
| InvoiceReducer.MarkAsSentEffect | src/context/reducers/invoiceReducer.ts:292-304 | marking sent changes only the status of the matching invoices (`amountPaid`, `total` and items are kept), and is idempotent |
| InvoiceReducer.MarkAsOverdueEffect | src/context/reducers/invoiceReducer.ts:328-340 | marking overdue changes only the status of the matching invoices, and is idempotent |
| InvoiceReducer.OverdueAfterPaid | src/context/reducers/invoiceReducer.ts:328-340 | marking a PAID invoice overdue yields OVERDUE, because the prior status is not inspected |
| InvoiceReducer.PaymentUnchecked | src/context/reducers/invoiceReducer.ts:267-279 | a payment that takes `amountPaid` above `total` is stored as given, with any status |
| InvoiceReducer.UpdateInvoiceReplaces | src/context/reducers/invoiceReducer.ts:241-251 | update and send success replace by id in place, keep the length and make the payload current |
| InvoiceReducer.DeleteInvoiceRemoves | src/context/reducers/invoiceReducer.ts:253-265 | deletion keeps the invoices with another id, each as often as before and in order, drops every invoice with that id, and clears the current invoice exactly when its id matched |
| BankReducer.Reduce | src/context/reducers/bankReducer.ts:365-366 | an action of another slice leaves the bank state unchanged |
| BankReducer.Step | src/context/reducers/bankReducer.ts:216-368 | only fetch, link, delete and sync write the bank accounts; only fetch, match, unmatch and sync write the bank transactions, so deleting an account never does |
| BankReducer.RequestAndFailure | src/context/reducers/bankReducer.ts:221-233 | requests set loading and clear the error; failures clear loading and store the message |
| BankReducer.LinkBankAccountAppends | src/context/reducers/bankReducer.ts:251-258 | linking appends the account, makes it current and leaves the bank transactions alone |
| BankReducer.MatchTransactionEffect | src/context/reducers/bankReducer.ts:282-296 | matching sets `transactionId` and `isMatched` together on the bank transactions with that id only; length and order are kept |
| BankReducer.UnmatchTransactionEffect | src/context/reducers/bankReducer.ts:298-306 | unmatching clears `transactionId` and `isMatched` together on that id only, and is idempotent |
| BankReducer.UnmatchUndoesMatch | src/context/reducers/bankReducer.ts:282-306 | matching an unmatched bank transaction and then unmatching it restores the list |
| BankReducer.MatchConsistencyPreserved | src/context/reducers/bankReducer.ts:216-367 | every action keeps "matched exactly when a transaction is referenced" on every bank transaction, given consistent payloads |
| BankReducer.SyncReplacesTransactions | src/context/reducers/bankReducer.ts:335-341 | after a sync the list is the other accounts' transactions, each as often as before and in their original order, followed by the payload |
| BankReducer.SyncReplacesAccount | src/context/reducers/bankReducer.ts:322-334 | a sync replaces the bank account with the same id in the list and in the current account, and leaves the others untouched |
| BankReducer.ResyncTransactions | src/context/reducers/bankReducer.ts:335-341 | re-filtering after appending the synced account's own transactions removes exactly them again |
| BankReducer.SyncIdempotent | src/context/reducers/bankReducer.ts:322-341 | applying the same sync twice equals applying it once, when every payload transaction belongs to the synced account |
| BankReducer.DeleteBankAccountEffect | src/context/reducers/bankReducer.ts:260-272 | deletion keeps the bank accounts with another id, each as often as before and in order, drops every one with that id, clears the current account exactly when its id matched, and leaves the bank transactions unchanged |
| AuthReducer.Reduce | src/context/reducers/authReducer.ts:150-151 | an action of another slice leaves the auth state unchanged |
| AuthReducer.Step | src/context/reducers/authReducer.ts:98-153 | only a login, a registration or a loaded user authenticates, and only a login or registration brings a new token |
| AuthReducer.SignInEffect | src/context/reducers/authReducer.ts:110-119 | login and register success authenticate, stop loading and store the payload's token and user |
| AuthReducer.FailureSignsOut | src/context/reducers/authReducer.ts:120-130 | a failure or auth error signs out, clears the token and user and stores the message |
| AuthReducer.LogoutResets | src/context/reducers/authReducer.ts:89-95 | logout returns exactly the initial auth state from any state, so it is idempotent |
| AuthReducer.CompleteOnboardingEffect | src/context/reducers/authReducer.ts:138-142 | completing onboarding sets `isOnboarded` on a present user, leaves an absent user absent, changes nothing else, and is idempotent |
| AuthReducer.ClearErrorOnly | src/context/reducers/authReducer.ts:145-149 | clearing the error changes only `error` |
| AuthReducer.ConsistentPreserved | src/context/reducers/authReducer.ts:98-153 | every action keeps "authenticated exactly when a user is present" |
| AuthReducer.ReachableConsistent | src/context/reducers/authReducer.ts:98-153 | any sequence of actions from a consistent state ends in a consistent state |
| AuthReducer.InitialConsistent | src/context/reducers/authReducer.ts:89-95 | the initial state is signed out, has no token and is consistent |
| App.AppReducer | src/context/AppContext.tsx:72-83 | each slice of the result is that slice's reducer applied to it; only the action's own slice can change, and an action of no slice changes nothing |
| App.ChangedSlices | src/context/AppContext.tsx:72-83 | the set of slices in which two states differ is empty exactly when they are equal |
| App.InitialAppStateEmpty | src/context/AppContext.tsx:54-60 | the initial store is every slice's initial state: signed out and holding no records |
| App.OnboardingActionsDropped | src/screens/Onboarding/BankLinkScreen.tsx:94-97 | `CREATE_ACCOUNTS_BATCH`, `ADD_BANK_ACCOUNTS` and `UPDATE_USER` leave the whole store unchanged |
| App.CreateTransactionKeepsBalances | src/context/reducers/transactionReducer.ts:172-179 | creating a transaction leaves every account, and so every balance, unchanged |
| App.RunAuth | src/context/AppContext.tsx:72-83 | the auth slice after a run of actions through the store is the auth reducer's own run |
| App.ReachableSessionConsistent | src/context/AppContext.tsx:54-83 | in every store state reachable from the initial one, the user is authenticated exactly when a user is present |
| Records.UpdateWhere | src/context/reducers/accountReducer.ts:206-213 | `map(x => x.id === id ? f(x) : x)` keeps the length and applies `f` exactly at the matching positions |
| Records.RemoveWhere | src/context/reducers/accountReducer.ts:192-204 | `filter(x => x.id !== id)` keeps every record with another id as often as it occurs, in order, and no record with that id |
| Records.AppendThenRemove | src/context/reducers/transactionReducer.ts:172-204 | appending a record with a fresh id and removing that id gives back the list |
| Validation.IsEmpty | src/utils/validationUtils.ts:4-6 | true exactly for a missing value or a whitespace-only string |
| Validation.IsValidEmail | src/utils/validationUtils.ts:11-16 | true exactly when the address splits as local part, '@', domain, '.', and a final label of two or more letters, in the regular expression's character classes |
| Validation.ValidEmailShape | src/utils/validationUtils.ts:11-16 | a valid address has exactly one '@', a non-empty local part, and a final dot-label of at least two letters |
| Validation.EmailSplitIsFound | src/utils/validationUtils.ts:14-15 | the split of a valid address is at its first '@' and its last '.' |
| Validation.IsStrongPassword | src/utils/validationUtils.ts:25-33 | true exactly when the password's JavaScript length (UTF-16 code units) is at least 8 and it has an uppercase letter, a lowercase letter and a digit |
| Validation.AstralCharactersCountTwice | src/utils/validationUtils.ts:26 | six characters of which three lie above U+FFFF have length 9, so "Aa1" followed by three emoji is a strong password |
| Text.JsLength | src/utils/validationUtils.ts:26 | `length` counts between one and two units per character, and exactly one each when no character lies above U+FFFF |
| Validation.Digits | src/utils/validationUtils.ts:42 | the digits kept are digits, in their original order |
| Validation.IsValidPhone | src/utils/validationUtils.ts:38-46 | true exactly when the number of digits is between 10 and 15 |
| Validation.PhoneIgnoresNonDigits | src/utils/validationUtils.ts:38-46 | inserting a non-digit anywhere never changes the result |
| Validation.IsPositiveNumber | src/utils/validationUtils.ts:51-54 | NaN and zero are refused; a finite value passes exactly when it is above zero |
| Validation.IsNonNegativeNumber | src/utils/validationUtils.ts:59-62 | NaN is refused; a finite value passes exactly when it is not below zero |
| Validation.PositiveIsNonNegative | src/utils/validationUtils.ts:51-62 | a positive number is non-negative; the two differ only at zero |
| Validation.IsValidTaxRate | src/utils/validationUtils.ts:96-98 | accepts exactly the numbers from 0 to 100 inclusive, and never NaN |
| Validation.DoesTransactionBalance | src/utils/validationUtils.ts:69-76 | false for an empty list; otherwise true exactly when the sum, with missing amounts counted as 0, is strictly within 0.001 of zero |
| Validation.BalanceIgnoresOrder | src/utils/validationUtils.ts:72 | the result is the same for any permutation of the amounts |
| Validation.OffsettingPairBalances | src/utils/validationUtils.ts:69-76 | adding an amount and its negation keeps a balanced list balanced, and a missing amount counts as zero |
| Validation.MatchesPattern | src/utils/validationUtils.ts:85 | a string matches a `#`-pattern exactly when it has the same length, digits at the `#` positions and the literal characters elsewhere |
| Validation.IsValidDateString | src/utils/validationUtils.ts:81-91 | true exactly when the string has the `YYYY-MM-DD` shape and the calendar check accepts it |
| Validation.DateShapeSplit | src/utils/validationUtils.ts:85 | a string of that shape is four digits, '-', two digits, '-', two digits |
| Validation.IsValidAccountNumber | src/utils/validationUtils.ts:103-109 | true exactly when the string is not blank and every character is a letter, a digit, '-' or whitespace |
| Validation.IsValidInvoiceNumber | src/utils/validationUtils.ts:114-120 | true exactly when the string is non-empty and every character is a letter, a digit, '-' or '.' |
| Currency.TaxLinear | src/utils/currencyUtils.ts:40-42 | the tax is zero at rate zero and linear in the amount |
| Currency.Tax | src/utils/currencyUtils.ts:40-42 | the tax is zero exactly when the amount or the rate is zero, and non-negative for a non-negative amount and rate |
| Currency.Subtotal | src/utils/currencyUtils.ts:58-62 | the subtotal of one line is its amount, and the subtotal of non-negative lines is non-negative |
| Currency.SubtotalAdditive | src/utils/currencyUtils.ts:58-62 | the subtotal of no items is 0, and the subtotal of a concatenation is the sum of the subtotals |
| Currency.SubtotalIgnoresOrder | src/utils/currencyUtils.ts:58-62 | the subtotal does not depend on the order of the items |
| Currency.Total | src/utils/currencyUtils.ts:70-73 | the total exceeds the subtotal by exactly the tax on the whole subtotal |
| Currency.TotalAtLeastSubtotal | src/utils/currencyUtils.ts:70-73 | the total is at least the subtotal when both the subtotal and the rate are non-negative, and equals it at rate zero |
| Currency.CleanCurrencyText | src/utils/currencyUtils.ts:30 | cleaning keeps only digits, '.' and '-', keeps every occurrence of them, and keeps their order |
| Currency.CleanIdempotent | src/utils/currencyUtils.ts:30 | cleaning twice equals cleaning once |
| Currency.TaxableSubtotal | src/screens/Invoices/index.tsx:61-86 | the subtotal of the taxable lines equals the subtotal when every line is taxable |
| Currency.SampleInvoiceTotals | src/screens/Invoices/index.tsx:61-86 | on the first sample invoice `calculateTotal` gives 4296.05, not the stored 4295; the stored tax of 280 is 7% of the taxable line only |
| NewTransaction.FirstBankAccount | src/screens/Transactions/NewTransactionScreen.tsx:93-97 | the account found is a BANK asset from the list, and none is found exactly when there is no BANK asset |
| NewTransaction.ResetLines | src/screens/Transactions/NewTransactionScreen.tsx:86-126 | expense, income and transfer reset to two blank-amount lines; expense pre-fills line 1 and income line 0 with the id and name of the BANK asset when there is one |
| NewTransaction.ResetLinesIncomplete | src/screens/Transactions/NewTransactionScreen.tsx:86-126 | freshly reset lines contain no complete line and sum to zero |
| NewTransaction.ResetEntries | src/screens/Transactions/NewTransactionScreen.tsx:84-136 | the in-place reset of the entry copy produces exactly the reset lines |
| NewTransaction.FindAccount | src/screens/Transactions/NewTransactionScreen.tsx:149 | the account found has the requested id, and none is found exactly when no account has it |
| NewTransaction.Splice | src/screens/Transactions/NewTransactionScreen.tsx:207 | `splice(index, 1)` removes exactly the entry at an index within range and changes nothing past the end |
| NewTransaction.NewTransactionForm.constructor | src/screens/Transactions/NewTransactionScreen.tsx:44-66 | the form starts as an expense with an empty description, and its two lines are the expense reset |
| NewTransaction.NewTransactionForm.ChangeType | src/screens/Transactions/NewTransactionScreen.tsx:83-137 | switching to expense, income or transfer resets the entries to the reset lines; journal, or the same type, keeps them; nothing else changes |
| NewTransaction.NewTransactionForm.SelectAccount | src/screens/Transactions/NewTransactionScreen.tsx:146-162 | only the selected entry's account id and name change, and the selection is cleared; with no selection or an unknown id nothing changes |
| NewTransaction.NewTransactionForm.OpenPicker | src/screens/Transactions/NewTransactionScreen.tsx:475-478 | tapping a line's account field selects that line for the picker and changes nothing else |
| NewTransaction.NewTransactionForm.EditEntry | src/screens/Transactions/NewTransactionScreen.tsx:164-188 | the edited entry gets the new field; for a non-journal amount edit of entry 0, entry 1 gets the negated amount and the two sum to zero; every other entry is unchanged |
| NewTransaction.NewTransactionForm.AddLine | src/screens/Transactions/NewTransactionScreen.tsx:190-198 | appends one blank entry and leaves the others unchanged |
| NewTransaction.NewTransactionForm.RemoveLine | src/screens/Transactions/NewTransactionScreen.tsx:200-209 | leaves a form of two or fewer entries unchanged and otherwise splices out the entry at the index; the form keeps at least two entries |
| NewTransaction.DebitsMinusCredits | src/screens/Transactions/NewTransactionScreen.tsx:233-241 | total debits minus total credits is the plain sum of the amounts |
| NewTransaction.Validate | src/screens/Transactions/NewTransactionScreen.tsx:211-251 | rejects a blank description, then fewer than two lines with both an account and an amount, then a journal whose amounts sum to more than 0.001 from zero (non-strict); accepts otherwise |
| NewTransaction.FormatEntries | src/screens/Transactions/NewTransactionScreen.tsx:265-273 | one journal entry per line, numbered in order, carrying the transaction id, with the same amount sum |
| NewTransaction.BuildEntries | src/screens/Transactions/NewTransactionScreen.tsx:265-273 | one entry per complete line, in order: entry i carries id `entry-<now>-i`, the transaction id, and the account, amount and memo of the i-th complete line; so every entry has an account and their sum is the complete lines' sum |
| NewTransaction.SaveTransaction | src/screens/Transactions/NewTransactionScreen.tsx:253-285 | a transaction is built exactly when validation passes; it has the new id, the form's date, description and reference, starts unreconciled, is stamped with the clock reading and has at least two entries |
| NewTransaction.SavedJournalBalances | src/screens/Transactions/NewTransactionScreen.tsx:232-285 | a saved journal whose amounts all sit on lines with an account has entries summing to within 0.001 of zero |
| NewTransaction.EntryDirection | src/screens/Transactions/NewTransactionScreen.tsx:305-323 | journal lines have no label; otherwise entry 0 is labelled a debit and every other entry a credit |
| NewTransaction.NonJournalNotBalanceChecked | src/screens/Transactions/NewTransactionScreen.tsx:232 | an expense whose two lines sum to 50 passes validation and is saved unbalanced |
| NewTransaction.IncompleteLineCountedInBalance | src/screens/Transactions/NewTransactionScreen.tsx:233-241 | a journal balanced only by a line without an account passes validation, and the saved entries sum to 50 |
| NewTransaction.ToleranceBoundary | src/screens/Transactions/NewTransactionScreen.tsx:241 | a journal off by exactly 0.001 passes the form's non-strict check but fails `doesTransactionBalance` |
| TransactionItem.DebitTotal | src/components/ui/TransactionItem.tsx:21-24 | the displayed magnitude is non-negative, and zero when no entry is positive |
| TransactionItem.CreditTotal | src/components/ui/TransactionItem.tsx:21-24 | the credit total is non-negative |
| TransactionItem.DebitsLessCredits | src/components/ui/TransactionItem.tsx:21-24 | the debit total minus the credit total is the sum of the entry amounts |
| TransactionItem.BalancedShowsEitherSide | src/components/ui/TransactionItem.tsx:21-24 | for a transaction whose entries sum to zero, the debit total equals the credit total |
| TransactionItem.IsExpense | src/components/ui/TransactionItem.tsx:27-29 | true exactly when some entry is negative and its account id starts with "a1" |
| TransactionItem.Icon | src/components/ui/TransactionItem.tsx:32-38 | the icon is "arrow-up" or "arrow-down", and "arrow-up" exactly for an expense |
| TransactionItem.IconColor | src/components/ui/TransactionItem.tsx:41-43 | the colour is red or green, and red exactly for an expense |
| TransactionItem.IconShowsDirection | src/components/ui/TransactionItem.tsx:32-43 | the icon is "arrow-up" and the colour red exactly when the transaction is an expense |
| TransactionItem.DisplayAmount | src/components/ui/TransactionItem.tsx:72 | the signed amount is at most zero for an expense and at least zero otherwise, and its magnitude is the debit total |
| TransactionsScreen.DateFilterCases | src/screens/Transactions/index.tsx:192-236 | "all" and a custom filter without bounds accept everything; custom bounds are strict on both sides; "week" accepts exactly the dates after the clock's instant seven calendar days back |
| TransactionsScreen.MatchesDate | src/screens/Transactions/index.tsx:192-237 | "all" accepts every date; "custom" accepts exactly the dates strictly inside every bound that is set; "today" compares calendar days; "week" and "month" compare strictly with the clock's bounds |
| TransactionsScreen.EmptySearchMatchesAll | src/screens/Transactions/index.tsx:242-251 | an empty query matches every transaction |
| TransactionsScreen.SearchIgnoresQueryCase | src/screens/Transactions/index.tsx:242-251 | lowercasing the query does not change the result |
| TransactionsScreen.FilteredTransactions | src/screens/Transactions/index.tsx:239-258 | the list shown is a subsequence of the stored one holding each transaction that matches both the search and the date filter as often as stored, and no other |
| TransactionsScreen.NoFilterShowsAll | src/screens/Transactions/index.tsx:233-258 | with no query and the "all" filter every transaction is shown, in order |
| TransactionsScreen.SortedTransactions | src/screens/Transactions/index.tsx:261-263 | the sorted list is a permutation of the filtered one, newest date first |
| InvoicesScreen.EmptySearchMatchesAll | src/screens/Invoices/index.tsx:239-244 | an empty query matches every invoice |
| InvoicesScreen.FilteredInvoices | src/screens/Invoices/index.tsx:237-251 | the list shown is a subsequence of the stored one holding each invoice that matches the search and, unless the filter is "ALL", the chosen status as often as stored, and no other |
| InvoicesScreen.NoFilterShowsAll | src/screens/Invoices/index.tsx:237-251 | with no query and the "ALL" filter every invoice is shown, in order |
| InvoicesScreen.SortedInvoices | src/screens/Invoices/index.tsx:254-256 | the sorted list is a permutation of the filtered one, newest date first |
| InvoicesScreen.BadgeColorsDistinct | src/screens/Invoices/index.tsx:258-275 | each of the six statuses gets its own seven-character `#` colour |
| InvoicesScreen.StatusBadgeColor | src/screens/Invoices/index.tsx:258-275 | every status gets a `#RRGGBB` colour |
| AccountsScreen.EmptySearchMatchesAll | src/screens/Accounts/index.tsx:181-183 | an empty query matches every account |
| AccountsScreen.FilteredAccounts | src/screens/Accounts/index.tsx:179-192 | the list shown is a subsequence of the stored one, holds only active, unarchived accounts matching the search and the type filter, and holds every such account as often as stored |
| AccountsScreen.ArchivedAccountHidden | src/screens/Accounts/index.tsx:188-191 | an account disappears from the list once archived |
| AccountsScreen.NoFilterShowsActive | src/screens/Accounts/index.tsx:179-192 | with no query and the "ALL" filter the list is exactly the active, unarchived accounts |
| AccountsScreen.AccountIconsDistinct | src/screens/Accounts/index.tsx:194-209 | the five account types get five distinct icons |
| AccountsScreen.AccountIcon | src/screens/Accounts/index.tsx:194-209 | every type has an icon, and exactly income and expense get a `cash-` icon |
| ChartOfAccounts.DefaultTemplatesValid | src/screens/Onboarding/ChartOfAccountsScreen.tsx:34-150 | the eighteen default templates each pair a type with one of its own subtypes, and no two share a name and a type |
| ChartOfAccounts.RowsConcat | src/screens/Onboarding/ChartOfAccountsScreen.tsx:34-150 | groups of valid templates of different types join into a valid list |
| ChartOfAccounts.LookupFindsOwnRow | src/screens/Onboarding/ChartOfAccountsScreen.tsx:237-239 | with unique (name, type) rows, the `findIndex` lookup maps each row back to its own index |
| ChartOfAccounts.Toggled | src/screens/Onboarding/ChartOfAccountsScreen.tsx:153-160 | toggling keeps the number of templates |
| ChartOfAccounts.ToggleFlipsOne | src/screens/Onboarding/ChartOfAccountsScreen.tsx:153-160 | toggling flips only that template's `isSelected`; toggling twice restores the list; uniqueness and typing are kept |
| ChartOfAccounts.ChartOfAccountsForm.constructor | src/screens/Onboarding/ChartOfAccountsScreen.tsx:34-151 | the screen starts with the default templates |
| ChartOfAccounts.ChartOfAccountsForm.ToggleSelection | src/screens/Onboarding/ChartOfAccountsScreen.tsx:153-160 | the in-place toggle leaves exactly the toggled list |
| ChartOfAccounts.BuildAccounts | src/screens/Onboarding/ChartOfAccountsScreen.tsx:188-198 | one account per selected template, in order, copying name, type and subtype, with balance 0, active, unarchived and stamped with the clock reading |
| ChartOfAccounts.HandleContinue | src/screens/Onboarding/ChartOfAccountsScreen.tsx:162-199 | nothing is dispatched exactly when no template is selected; otherwise a `CREATE_ACCOUNTS_BATCH` of the accounts built from the selected templates, one to `|templates|` of them |
| ChartOfAccounts.ContinueStoresNothing | src/screens/Onboarding/ChartOfAccountsScreen.tsx:186-199 | the batch dispatched on continue leaves the store unchanged |
| ChartOfAccounts.DefaultContinueDispatches | src/screens/Onboarding/ChartOfAccountsScreen.tsx:162-199 | continuing with the default selection dispatches a batch |
| ChartOfAccounts.Group | src/screens/Onboarding/ChartOfAccountsScreen.tsx:217-231 | a group holds exactly the templates of its type |
| ChartOfAccounts.GroupsPartition | src/screens/Onboarding/ChartOfAccountsScreen.tsx:217-231 | the sizes of the five type groups add up to the number of templates, so the five sections shown together list no template twice and omit none |
| Onboarding.StepIndex | src/screens/Onboarding/index.tsx:29-38 | the index is in 0..4 and names the step's position in the sequence |
| Onboarding.StepIndexInjective | src/screens/Onboarding/index.tsx:29-38 | distinct steps have distinct indices |
| Onboarding.Progress | src/screens/Onboarding/index.tsx:40 | the progress lies in [0, 1]; it is 0 exactly at welcome and 1 exactly at finish |
| Onboarding.StepNumber | src/screens/Onboarding/index.tsx:133 | the displayed step number is in 1..5 and names the current step |
| Onboarding.NextStep | src/screens/Onboarding/index.tsx:42-71 | the index increases by exactly 1, except at finish, where it stays |
| Onboarding.PrevStep | src/screens/Onboarding/index.tsx:73-88 | the index decreases by exactly 1, except at welcome, where it stays |
| Onboarding.SkipStep | src/screens/Onboarding/index.tsx:90-94 | skipping changes the step exactly at bank-link, and then moves to the next step |
| Onboarding.BackUndoesNext | src/screens/Onboarding/index.tsx:42-88 | back undoes next at every step but finish, and next undoes back at every step but welcome |
| Onboarding.AdvanceIndex | src/screens/Onboarding/index.tsx:42-71 | n presses of next move the index n steps, stopping at finish |
| Onboarding.FinishAction | src/screens/Onboarding/index.tsx:60-63 | the finishing dispatch is an `UPDATE_USER` of the same user with `isOnboarded` set |
| Onboarding.FinishLeavesUserNotOnboarded | src/screens/Onboarding/index.tsx:56-69 | that dispatch leaves the store, and so the user's `isOnboarded`, unchanged |
| Onboarding.OnboardingFlow.constructor | src/screens/Onboarding/index.tsx:20 | the flow starts at welcome |
| Onboarding.OnboardingFlow.HandleNext | src/screens/Onboarding/index.tsx:42-71 | the step becomes the next step; the user update is dispatched exactly at finish with a user present |
| Onboarding.OnboardingFlow.HandleBack | src/screens/Onboarding/index.tsx:73-88 | the step becomes the previous step |
| Onboarding.OnboardingFlow.HandleSkip | src/screens/Onboarding/index.tsx:90-94 | the step becomes the skipped step |
| Lists.SortDesc | src/screens/Transactions/index.tsx:261-263 | the sort returns a permutation of its input, ordered by key with the largest first |
| Lists.SumPermutation | src/utils/validationUtils.ts:72 | a `reduce` sum does not depend on the order of the summands |

### Behaviour kept as written

These lemmas show gaps in the code. The model keeps each one rather than
adding a guard:

- `InvoiceReducer.PaymentUnchecked`: a payment is added without any
  overpayment check, and any status is accepted.
- `InvoiceReducer.OverdueAfterPaid`: a PAID invoice can be marked overdue.
- `App.CreateTransactionKeepsBalances`: creating a transaction never posts
  its entries to `Account.balance`.
- `BankReducer.DeleteBankAccountEffect`: deleting a bank account leaves its
  bank transactions in place.
- `App.OnboardingActionsDropped`, `ChartOfAccounts.ContinueStoresNothing`
  and `Onboarding.FinishLeavesUserNotOnboarded`: the three onboarding
  action types fall to every reducer's `default`.
- `NewTransaction.NonJournalNotBalanceChecked`: expense, income and
  transfer forms are never balance-checked.
- `NewTransaction.IncompleteLineCountedInBalance`: the journal check sums
  lines that are then not saved.
- `NewTransaction.ToleranceBoundary`: the form's check is non-strict and
  `doesTransactionBalance` is strict.
- `Currency.SampleInvoiceTotals`: `calculateTotal` taxes the whole
  subtotal, while the sample invoices tax only the taxable lines.

## Left out

- The services under `src/services` (HTTP, storage and Supabase wrappers) are not part of this model. Their behaviour lives on a server.
- Floating point is not modelled: money is exact. `parseFloat`, `Number(...)` coercion, `toFixed` and `Intl.NumberFormat` (`formatCurrency`, `formatTaxRate`) are left out.
- Amount text in the new-transaction form is either blank or a number. Text that does not parse is not modelled, and neither is the difference between `parseCurrency` and `Number` on the same text.
- `src/utils/dateUtils.ts` is not part of this model. The current time, the day key of a date, the instant seven calendar days back and the month bounds are fields of the `Clock` input, and generated ids are inputs.
- ChartOfAccounts.HandleContinue: `Date.now()` is read once per selected template when the ids are built, and `new Date()` once for the timestamps; the model passes one `stamp` for all the id reads and one `now`, so it does not capture ids whose stamps differ between templates.
- Validation.IsValidDateString: the calendar half (`new Date(...)`) is a predicate parameter. Only the `YYYY-MM-DD` shape is modelled.
- Validation.PositiveIsNonNegative: only the numeric branch of `isPositiveNumber` and `isNonNegativeNumber` is modelled (NaN or a finite value). The string branch goes through `parseFloat`.
- React mechanics are left out: state setters, effects, `setTimeout` delays, alerts, navigation and rendering. Each handler's effect on its state is modelled. The navigation reset after finishing onboarding is not.
- Action types are constructors, not strings. That no type name is declared by two reducers holds by construction, not by comparing strings.
- NewTransaction.FirstBankAccount: states that the account found is a BANK asset from the list. It does not state that it is the first such account.
- Lists.SortDesc: states a permutation ordered newest first. It does not state stability, which the model's insertion sort has and JavaScript's `sort` guarantees.
- The other screens are not part of this model: Reports, Dashboard, BankFeed, Receipts and BankLinkScreen. BankLinkScreen's `ADD_BANK_ACCOUNTS` dispatch appears only as an action that the store drops.
- The navigation module's route choice is not part of this model.
- The presentational components are not part of this model.
- The reducers' `Fetch…Success` branches, which install a payload, are covered only by the slice-level lemmas (`TransactionReducer.Step`, `BalancedPreserved`, `MatchConsistencyPreserved`, `CurrentInvoiceInSync`). They have no lemma of their own.
