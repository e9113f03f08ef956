/**
 * The actions dispatched to the application store. Every action type of a
 * reducer's enum is one constructor of that reducer's action datatype,
 * carrying its payload; the three types that the onboarding screens
 * dispatch and no reducer declares form a sixth datatype. Distinct
 * constructors stand for distinct `type` strings, so the grouping records
 * that no type string is declared by two reducers.
 */
module Actions {
  import opened Types

  /** The actions `accountReducer` handles, one per member of `AccountActionTypes`. */
  datatype AccountAction =
    | FetchAccountsRequest
    | FetchAccountsSuccess(accounts: seq<Account>)
    | FetchAccountsFailure(error: string)
    | FetchAccountRequest
    | FetchAccountSuccess(account: Account)
    | FetchAccountFailure(error: string)
    | CreateAccountRequest
    | CreateAccountSuccess(account: Account)
    | CreateAccountFailure(error: string)
    | UpdateAccountRequest
    | UpdateAccountSuccess(account: Account)
    | UpdateAccountFailure(error: string)
    | DeleteAccountRequest
    | DeleteAccountSuccess(id: string)
    | DeleteAccountFailure(error: string)
    | ArchiveAccount(id: string)
    | ClearAccountError

  /** The actions `transactionReducer` handles, one per member of `TransactionActionTypes`. */
  datatype TransactionAction =
    | FetchTransactionsRequest
    | FetchTransactionsSuccess(transactions: seq<Transaction>)
    | FetchTransactionsFailure(error: string)
    | FetchTransactionRequest
    | FetchTransactionSuccess(transaction: Transaction)
    | FetchTransactionFailure(error: string)
    | CreateTransactionRequest
    | CreateTransactionSuccess(transaction: Transaction)
    | CreateTransactionFailure(error: string)
    | UpdateTransactionRequest
    | UpdateTransactionSuccess(transaction: Transaction)
    | UpdateTransactionFailure(error: string)
    | DeleteTransactionRequest
    | DeleteTransactionSuccess(id: string)
    | DeleteTransactionFailure(error: string)
    | ReconcileTransaction(id: string)
    | ClearTransactionError

  /** The actions `invoiceReducer` handles, one per member of `InvoiceActionTypes`. */
  datatype InvoiceAction =
    | FetchInvoicesRequest
    | FetchInvoicesSuccess(invoices: seq<Invoice>)
    | FetchInvoicesFailure(error: string)
    | FetchInvoiceRequest
    | FetchInvoiceSuccess(invoice: Invoice)
    | FetchInvoiceFailure(error: string)
    | CreateInvoiceRequest
    | CreateInvoiceSuccess(invoice: Invoice)
    | CreateInvoiceFailure(error: string)
    | UpdateInvoiceRequest
    | UpdateInvoiceSuccess(invoice: Invoice)
    | UpdateInvoiceFailure(error: string)
    | DeleteInvoiceRequest
    | DeleteInvoiceSuccess(id: string)
    | DeleteInvoiceFailure(error: string)
    | SendInvoiceRequest
    | SendInvoiceSuccess(invoice: Invoice)
    | SendInvoiceFailure(error: string)
    | RecordPaymentRequest
    | RecordPaymentSuccess(invoiceId: string, amountPaid: real, newStatus: InvoiceStatus)
    | RecordPaymentFailure(error: string)
    | MarkAsSent(id: string)
    | MarkAsPaid(id: string)
    | MarkAsOverdue(id: string)
    | ClearInvoiceError

  /** The actions `bankReducer` handles, one per member of `BankActionTypes`. */
  datatype BankAction =
    | FetchBankAccountsRequest
    | FetchBankAccountsSuccess(bankAccounts: seq<BankAccount>)
    | FetchBankAccountsFailure(error: string)
    | FetchBankAccountRequest
    | FetchBankAccountSuccess(bankAccount: BankAccount)
    | FetchBankAccountFailure(error: string)
    | LinkBankAccountRequest
    | LinkBankAccountSuccess(bankAccount: BankAccount)
    | LinkBankAccountFailure(error: string)
    | DeleteBankAccountRequest
    | DeleteBankAccountSuccess(id: string)
    | DeleteBankAccountFailure(error: string)
    | FetchBankTransactionsRequest
    | FetchBankTransactionsSuccess(bankTransactions: seq<BankTransaction>)
    | FetchBankTransactionsFailure(error: string)
    | MatchTransactionRequest
    | MatchTransactionSuccess(bankTransactionId: string, transactionId: string)
    | MatchTransactionFailure(error: string)
    | UnmatchTransaction(id: string)
    | CreatePlaidLinkTokenRequest
    | CreatePlaidLinkTokenSuccess(linkToken: string)
    | CreatePlaidLinkTokenFailure(error: string)
    | ClearPlaidLinkToken
    | SyncBankDataRequest
    | SyncBankDataSuccess(bankAccount: BankAccount, bankTransactions: seq<BankTransaction>)
    | SyncBankDataFailure(error: string)
    | ClearBankError

  /** The actions `authReducer` handles, one per member of `AuthActionTypes`. */
  datatype AuthAction =
    | LoginRequest
    | LoginSuccess(token: string, user: User)
    | LoginFailure(error: string)
    | RegisterRequest
    | RegisterSuccess(token: string, user: User)
    | RegisterFailure(error: string)
    | Logout
    | LoadUser(user: User)
    | CompleteOnboarding
    | AuthError(error: string)
    | ClearError

  /**
   * `CREATE_ACCOUNTS_BATCH`, `ADD_BANK_ACCOUNTS` and `UPDATE_USER`: dispatched
   * by the onboarding screens, declared by no reducer.
   */
  datatype OtherAction =
    | CreateAccountsBatch(accounts: seq<Account>)
    | AddBankAccounts(bankAccounts: seq<BankAccount>)
    | UpdateUser(user: User)

  /**
   * `AppAction`: the union of the reducers' action types, plus the types
   * that only the onboarding screens dispatch.
   */
  datatype Action =
    | AccountAct(accountAction: AccountAction)
    | TransactionAct(transactionAction: TransactionAction)
    | InvoiceAct(invoiceAction: InvoiceAction)
    | BankAct(bankAction: BankAction)
    | AuthAct(authAction: AuthAction)
    | OtherAct(otherAction: OtherAction)

  /** The store slice whose reducer declares an action type. */
  datatype Slice = AuthSlice | AccountSlice | TransactionSlice | InvoiceSlice | BankSlice | NoSlice

  /** The reducer whose action-type enum lists the action's type. */
  function SliceOf(a: Action): Slice
  {
    match a
    case AccountAct(_) => AccountSlice
    case TransactionAct(_) => TransactionSlice
    case InvoiceAct(_) => InvoiceSlice
    case BankAct(_) => BankSlice
    case AuthAct(_) => AuthSlice
    case OtherAct(_) => NoSlice
  }
}
