/**
 * The bookkeeping entities shared by the reducers and the screens.
 * Money is an exact `real`, a `Date` is a timestamp in milliseconds and an
 * optional field (`x?: T`, `T | null`) is an `Option`.
 */
module Types {
  import opened Wrappers

  /** Milliseconds since the epoch, as `Date.getTime()` returns them. */
  type Date = int

  datatype AccountType = Asset | Liability | Equity | Income | Expense

  datatype AccountSubtype =
    // asset subtypes
    | Cash | Bank | AccountsReceivable | Inventory | FixedAsset | OtherAsset
    // liability subtypes
    | AccountsPayable | CreditCard | Loan | TaxPayable | OtherLiability
    // equity subtypes
    | RetainedEarnings | OwnerEquity
    // income subtypes
    | Sales | OtherIncome
    // expense subtypes
    | OperatingExpense | Payroll | TaxExpense | OtherExpense

  /** The subtypes listed under each account type, in declaration order. */
  function SubtypesOf(t: AccountType): seq<AccountSubtype>
  {
    match t
    case Asset => [Cash, Bank, AccountsReceivable, Inventory, FixedAsset, OtherAsset]
    case Liability => [AccountsPayable, CreditCard, Loan, TaxPayable, OtherLiability]
    case Equity => [RetainedEarnings, OwnerEquity]
    case Income => [Sales, OtherIncome]
    case Expense => [OperatingExpense, Payroll, TaxExpense, OtherExpense]
  }

  /** The account type a subtype belongs to. */
  function TypeOfSubtype(st: AccountSubtype): (t: AccountType)
    ensures st in SubtypesOf(t)
  {
    match st
    case Cash | Bank | AccountsReceivable | Inventory | FixedAsset | OtherAsset => Asset
    case AccountsPayable | CreditCard | Loan | TaxPayable | OtherLiability => Liability
    case RetainedEarnings | OwnerEquity => Equity
    case Sales | OtherIncome => Income
    case OperatingExpense | Payroll | TaxExpense | OtherExpense => Expense
  }

  /** Every subtype is listed under exactly one account type. */
  lemma SubtypeGroupsPartition(st: AccountSubtype, t: AccountType)
    ensures st in SubtypesOf(t) <==> t == TypeOfSubtype(st)
  {
  }

  /** The enum's string value, which the accounts screen searches. */
  function SubtypeName(st: AccountSubtype): string
  {
    match st
    case Cash => "CASH"
    case Bank => "BANK"
    case AccountsReceivable => "ACCOUNTS_RECEIVABLE"
    case Inventory => "INVENTORY"
    case FixedAsset => "FIXED_ASSET"
    case OtherAsset => "OTHER_ASSET"
    case AccountsPayable => "ACCOUNTS_PAYABLE"
    case CreditCard => "CREDIT_CARD"
    case Loan => "LOAN"
    case TaxPayable => "TAX_PAYABLE"
    case OtherLiability => "OTHER_LIABILITY"
    case RetainedEarnings => "RETAINED_EARNINGS"
    case OwnerEquity => "OWNER_EQUITY"
    case Sales => "SALES"
    case OtherIncome => "OTHER_INCOME"
    case OperatingExpense => "OPERATING_EXPENSE"
    case Payroll => "PAYROLL"
    case TaxExpense => "TAX_EXPENSE"
    case OtherExpense => "OTHER_EXPENSE"
  }

  datatype Account = Account(
    id: string,
    name: string,
    accountType: AccountType,
    subtype: AccountSubtype,
    number: Option<string>,
    description: Option<string>,
    balance: real,
    isActive: bool,
    isArchived: bool,
    createdAt: Date,
    updatedAt: Date)

  /** One line of a transaction: a positive amount is a debit, a negative one a credit. */
  datatype JournalEntry = JournalEntry(
    id: string,
    transactionId: string,
    accountId: string,
    amount: real,
    memo: Option<string>)

  predicate IsDebit(e: JournalEntry) { e.amount > 0.0 }

  predicate IsCredit(e: JournalEntry) { e.amount < 0.0 }

  /** An entry is a debit, a credit or of amount zero, and never both a debit and a credit. */
  lemma EntrySide(e: JournalEntry)
    ensures !(IsDebit(e) && IsCredit(e))
    ensures !IsDebit(e) && !IsCredit(e) <==> e.amount == 0.0
  {
  }

  datatype Transaction = Transaction(
    id: string,
    date: Date,
    description: string,
    reference: Option<string>,
    entries: seq<JournalEntry>,
    isReconciled: bool,
    createdAt: Date,
    updatedAt: Date)

  datatype InvoiceStatus = Draft | Sent | PartiallyPaid | Paid | Overdue | Cancelled

  const AllInvoiceStatuses: seq<InvoiceStatus> := [Draft, Sent, PartiallyPaid, Paid, Overdue, Cancelled]

  /** An invoice is in exactly one of six states. */
  lemma InvoiceStatusCount(s: InvoiceStatus)
    ensures s in AllInvoiceStatuses
    ensures |AllInvoiceStatuses| == 6
    ensures forall i, j :: 0 <= i < j < 6 ==> AllInvoiceStatuses[i] != AllInvoiceStatuses[j]
  {
  }

  datatype InvoiceItem = InvoiceItem(
    id: string,
    invoiceId: string,
    description: string,
    quantity: real,
    price: real,
    amount: real,
    taxable: bool)

  datatype Invoice = Invoice(
    id: string,
    invoiceNumber: string,
    customerId: string,
    customerName: string,
    date: Date,
    dueDate: Date,
    items: seq<InvoiceItem>,
    notes: Option<string>,
    terms: Option<string>,
    taxRate: Option<real>,
    taxAmount: Option<real>,
    subtotal: real,
    total: real,
    amountPaid: real,
    status: InvoiceStatus,
    createdAt: Date,
    updatedAt: Date)

  datatype BankAccount = BankAccount(
    id: string,
    accountId: string,
    institutionName: string,
    accountName: string,
    accountType: string,
    accountNumber: string,
    routingNumber: Option<string>,
    plaidAccessToken: Option<string>,
    plaidItemId: Option<string>,
    balance: real,
    lastUpdated: Date)

  /** A transaction reported by the bank; `transactionId` refers to the matched ledger transaction. */
  datatype BankTransaction = BankTransaction(
    id: string,
    bankAccountId: string,
    date: Date,
    description: string,
    amount: real,
    category: Option<string>,
    pending: bool,
    transactionId: Option<string>,
    isMatched: bool,
    plaidTransactionId: string)

  /** The intended reading of `isMatched`: it holds exactly when a ledger transaction is referenced. */
  predicate MatchConsistent(t: BankTransaction)
  {
    t.isMatched <==> t.transactionId.Some?
  }

  datatype User = User(
    id: string,
    email: string,
    firstName: string,
    lastName: string,
    businessName: Option<string>,
    isOnboarded: bool)
}
