/** The bank-feed slice of the store: `bankReducer`. */
module BankReducer {
  import opened Wrappers
  import opened Types
  import opened Actions
  import opened Records
  import Lists

  datatype BankState = BankState(
    bankAccounts: seq<BankAccount>,
    currentBankAccount: Option<BankAccount>,
    bankTransactions: seq<BankTransaction>,
    loading: bool,
    plaidLinkToken: Option<string>,
    error: Option<string>)

  const InitialBankState: BankState := BankState([], None, [], false, None, None)

  function AccountId(b: BankAccount): string { b.id }

  function TransactionId(t: BankTransaction): string { t.id }

  /** The bank account a bank transaction belongs to. */
  function OwnerId(t: BankTransaction): string { t.bankAccountId }

  /** The `MATCH_TRANSACTION_SUCCESS` update: link to a ledger transaction. */
  function MatchWith(transactionId: string): BankTransaction -> BankTransaction
  {
    (t: BankTransaction) => t.(transactionId := Some(transactionId), isMatched := true)
  }

  /** The `UNMATCH_TRANSACTION` update: `transactionId: undefined, isMatched: false`. */
  function Unmatched(t: BankTransaction): BankTransaction
  {
    t.(transactionId := None, isMatched := false)
  }

  /** `current?.id === id`: false when there is no current bank account. */
  predicate IsCurrent(current: Option<BankAccount>, id: string)
  {
    current.Some? && current.value.id == id
  }

  predicate IsRequest(a: BankAction)
  {
    a.FetchBankAccountsRequest? || a.FetchBankAccountRequest? || a.LinkBankAccountRequest?
    || a.DeleteBankAccountRequest? || a.FetchBankTransactionsRequest? || a.MatchTransactionRequest?
    || a.CreatePlaidLinkTokenRequest? || a.SyncBankDataRequest?
  }

  predicate IsFailure(a: BankAction)
  {
    a.FetchBankAccountsFailure? || a.FetchBankAccountFailure? || a.LinkBankAccountFailure?
    || a.DeleteBankAccountFailure? || a.FetchBankTransactionsFailure? || a.MatchTransactionFailure?
    || a.CreatePlaidLinkTokenFailure? || a.SyncBankDataFailure?
  }

  /** `bankReducer(state, action)`: an action of another slice falls to `default`. */
  function Reduce(s: BankState, a: Action): (r: BankState)
    ensures SliceOf(a) != BankSlice ==> r == s
  {
    match a
    case BankAct(action) => Step(s, action)
    case _ => s
  }

  /** The actions whose branch assigns `bankAccounts`. */
  predicate WritesAccounts(a: BankAction)
  {
    a.FetchBankAccountsSuccess? || a.LinkBankAccountSuccess? || a.DeleteBankAccountSuccess? || a.SyncBankDataSuccess?
  }

  /** The actions whose branch assigns `bankTransactions`; deleting a bank account is not one of them. */
  predicate WritesTransactions(a: BankAction)
  {
    a.FetchBankTransactionsSuccess? || a.MatchTransactionSuccess? || a.UnmatchTransaction? || a.SyncBankDataSuccess?
  }

  /** The branches of `bankReducer`'s switch; each list changes only under the actions that assign it. */
  function Step(s: BankState, a: BankAction): (r: BankState)
    ensures !WritesAccounts(a) ==> r.bankAccounts == s.bankAccounts
    ensures !WritesTransactions(a) ==> r.bankTransactions == s.bankTransactions
  {
    match a
    case FetchBankAccountsRequest | FetchBankAccountRequest | LinkBankAccountRequest
      | DeleteBankAccountRequest | FetchBankTransactionsRequest | MatchTransactionRequest
      | CreatePlaidLinkTokenRequest | SyncBankDataRequest =>
      s.(loading := true, error := None)
    case FetchBankAccountsSuccess(accounts) =>
      s.(loading := false, bankAccounts := accounts, error := None)
    case FetchBankAccountSuccess(account) =>
      s.(loading := false, currentBankAccount := Some(account), error := None)
    case LinkBankAccountSuccess(account) => Link(s, account)
    case DeleteBankAccountSuccess(id) => Delete(s, id)
    case FetchBankTransactionsSuccess(transactions) =>
      s.(loading := false, bankTransactions := transactions, error := None)
    case MatchTransactionSuccess(bankTransactionId, transactionId) => Match(s, bankTransactionId, transactionId)
    case UnmatchTransaction(id) => Unmatch(s, id)
    case CreatePlaidLinkTokenSuccess(token) =>
      s.(loading := false, plaidLinkToken := Some(token), error := None)
    case ClearPlaidLinkToken =>
      s.(plaidLinkToken := None)
    case SyncBankDataSuccess(account, transactions) => Sync(s, account, transactions)
    case FetchBankAccountsFailure(_) | FetchBankAccountFailure(_) | LinkBankAccountFailure(_)
      | DeleteBankAccountFailure(_) | FetchBankTransactionsFailure(_) | MatchTransactionFailure(_)
      | CreatePlaidLinkTokenFailure(_) | SyncBankDataFailure(_) =>
      s.(loading := false, error := Some(a.error))
    case ClearBankError =>
      s.(error := None)
  }

  /** `LINK_BANK_ACCOUNT_SUCCESS`. */
  function Link(s: BankState, account: BankAccount): BankState
  {
    s.(loading := false, bankAccounts := s.bankAccounts + [account],
       currentBankAccount := Some(account), error := None)
  }

  /** `DELETE_BANK_ACCOUNT_SUCCESS`. */
  function Delete(s: BankState, id: string): BankState
  {
    s.(loading := false, bankAccounts := RemoveWhere(s.bankAccounts, AccountId, id),
       currentBankAccount := if IsCurrent(s.currentBankAccount, id) then None else s.currentBankAccount,
       error := None)
  }

  /** `MATCH_TRANSACTION_SUCCESS`. */
  function Match(s: BankState, bankTransactionId: string, transactionId: string): BankState
  {
    s.(loading := false,
       bankTransactions := UpdateWhere(s.bankTransactions, TransactionId, bankTransactionId, MatchWith(transactionId)),
       error := None)
  }

  /** `UNMATCH_TRANSACTION`. */
  function Unmatch(s: BankState, id: string): BankState
  {
    s.(bankTransactions := UpdateWhere(s.bankTransactions, TransactionId, id, Unmatched))
  }

  /** `SYNC_BANK_DATA_SUCCESS`. */
  function Sync(s: BankState, account: BankAccount, transactions: seq<BankTransaction>): BankState
  {
    s.(loading := false,
       bankAccounts := ReplaceWhere(s.bankAccounts, AccountId, account),
       currentBankAccount := if IsCurrent(s.currentBankAccount, account.id) then Some(account)
                             else s.currentBankAccount,
       bankTransactions := RemoveWhere(s.bankTransactions, OwnerId, account.id) + transactions,
       error := None)
  }

  lemma RequestAndFailure(s: BankState, a: BankAction)
    ensures IsRequest(a) ==> Step(s, a) == s.(loading := true, error := None)
    ensures IsFailure(a) ==> Step(s, a) == s.(loading := false, error := Some(a.error))
  {
  }

  /** Linking appends the account and makes it current. */
  lemma LinkBankAccountAppends(s: BankState, account: BankAccount)
    ensures var r := Step(s, LinkBankAccountSuccess(account));
      && r.bankAccounts == s.bankAccounts + [account]
      && r.currentBankAccount == Some(account)
      && r.bankTransactions == s.bankTransactions
  {
  }

  /**
   * Matching links the bank transactions with that id to the ledger
   * transaction and marks them matched; nothing else of any bank transaction
   * changes, and the list keeps its length and order.
   */
  lemma MatchTransactionEffect(s: BankState, bankTransactionId: string, transactionId: string)
    ensures var r := Step(s, MatchTransactionSuccess(bankTransactionId, transactionId));
      && |r.bankTransactions| == |s.bankTransactions|
      && (forall i :: 0 <= i < |s.bankTransactions| ==>
            var (before, after) := (s.bankTransactions[i], r.bankTransactions[i]);
            if before.id == bankTransactionId
            then after.transactionId == Some(transactionId) && after.isMatched
                 && after.(transactionId := before.transactionId, isMatched := before.isMatched) == before
            else after == before)
      && r.bankAccounts == s.bankAccounts
  {
  }

  /**
   * Unmatching clears the link and the flag of the bank transactions with
   * that id and changes nothing else; applying it twice is applying it once.
   */
  lemma UnmatchTransactionEffect(s: BankState, id: string)
    ensures var r := Step(s, UnmatchTransaction(id));
      && |r.bankTransactions| == |s.bankTransactions|
      && (forall i :: 0 <= i < |s.bankTransactions| ==>
            var (before, after) := (s.bankTransactions[i], r.bankTransactions[i]);
            if before.id == id
            then after.transactionId == None && !after.isMatched
                 && after.(transactionId := before.transactionId, isMatched := before.isMatched) == before
            else after == before)
      && r.loading == s.loading && r.error == s.error
    ensures Step(Step(s, UnmatchTransaction(id)), UnmatchTransaction(id)) == Step(s, UnmatchTransaction(id))
  {
    UpdateWhereIdempotent(s.bankTransactions, TransactionId, id, Unmatched);
  }

  /** Every bank transaction is matched exactly when it references a ledger transaction. */
  predicate AllMatchConsistent(ts: seq<BankTransaction>)
  {
    forall i :: 0 <= i < |ts| ==> MatchConsistent(ts[i])
  }

  /** Unmatching a matched bank transaction restores the fields it had before the match. */
  lemma {:induction false} UnmatchUndoesMatch(s: BankState, bankTransactionId: string, transactionId: string)
    requires forall i :: 0 <= i < |s.bankTransactions| && s.bankTransactions[i].id == bankTransactionId ==>
               s.bankTransactions[i].transactionId == None && !s.bankTransactions[i].isMatched
    ensures Step(Step(s, MatchTransactionSuccess(bankTransactionId, transactionId)), UnmatchTransaction(bankTransactionId)).bankTransactions
         == s.bankTransactions
  {
    var matched := Match(s, bankTransactionId, transactionId);
    assert Step(s, MatchTransactionSuccess(bankTransactionId, transactionId)) == matched;
    assert Step(matched, UnmatchTransaction(bankTransactionId)) == Unmatch(matched, bankTransactionId);
    UpdateWhereCompose(s.bankTransactions, TransactionId, bankTransactionId, MatchWith(transactionId), Unmatched, Unmatched);
    var restored := UpdateWhere(s.bankTransactions, TransactionId, bankTransactionId, Unmatched);
    assert restored == s.bankTransactions by {
      forall i | 0 <= i < |restored| ensures restored[i] == s.bankTransactions[i] { }
    }
  }

  /** The actions that install bank transactions from their payload. */
  predicate PayloadMatchConsistent(a: BankAction)
  {
    match a
    case FetchBankTransactionsSuccess(ts) => AllMatchConsistent(ts)
    case SyncBankDataSuccess(_, ts) => AllMatchConsistent(ts)
    case _ => true
  }

  /** Every action keeps "matched exactly when linked", given consistent payloads. */
  lemma {:induction false} MatchConsistencyPreserved(s: BankState, a: BankAction)
    requires AllMatchConsistent(s.bankTransactions)
    requires PayloadMatchConsistent(a)
    ensures AllMatchConsistent(Step(s, a).bankTransactions)
  {
    match a
    case SyncBankDataSuccess(account, transactions) =>
      var kept := RemoveWhere(s.bankTransactions, OwnerId, account.id);
      forall i | 0 <= i < |kept + transactions|
        ensures MatchConsistent((kept + transactions)[i])
      {
        if i < |kept| {
          assert kept[i] in s.bankTransactions;
        } else {
          assert (kept + transactions)[i] == transactions[i - |kept|];
        }
      }
    case MatchTransactionSuccess(bankTransactionId, transactionId) =>
      MatchTransactionEffect(s, bankTransactionId, transactionId);
    case UnmatchTransaction(id) =>
      UnmatchTransactionEffect(s, id);
    case _ =>
  }

  /**
   * A sync keeps the other accounts' transactions in their order and puts
   * the payload's transactions after them.
   */
  lemma SyncReplacesTransactions(s: BankState, account: BankAccount, transactions: seq<BankTransaction>)
    ensures var r := Step(s, SyncBankDataSuccess(account, transactions));
      var kept := r.bankTransactions[..|r.bankTransactions| - |transactions|];
      && |transactions| <= |r.bankTransactions|
      && r.bankTransactions[|kept|..] == transactions
      && Lists.IsSubsequence(kept, s.bankTransactions)
      && (forall t | t in kept :: t in s.bankTransactions && t.bankAccountId != account.id)
      && (forall t | t in s.bankTransactions && t.bankAccountId != account.id :: t in kept)
      && (forall x | x in s.bankTransactions ::
            multiset(kept)[x] == if x.bankAccountId != account.id then multiset(s.bankTransactions)[x] else 0)
  {
    var r := Step(s, SyncBankDataSuccess(account, transactions));
    var removed := RemoveWhere(s.bankTransactions, OwnerId, account.id);
    assert r == Sync(s, account, transactions);
    assert r.bankTransactions[..|removed|] == removed;
  }

  /**
   * A sync replaces the bank account with the payload's id, in the list and
   * as the current account, and leaves the other accounts alone.
   */
  lemma SyncReplacesAccount(s: BankState, account: BankAccount, transactions: seq<BankTransaction>)
    ensures var r := Step(s, SyncBankDataSuccess(account, transactions));
      && |r.bankAccounts| == |s.bankAccounts|
      && (forall i :: 0 <= i < |s.bankAccounts| ==>
            r.bankAccounts[i] == if s.bankAccounts[i].id == account.id then account else s.bankAccounts[i])
      && r.currentBankAccount == if IsCurrent(s.currentBankAccount, account.id) then Some(account) else s.currentBankAccount
  {
  }

  /** Re-filtering the synced list drops exactly the payload again. */
  lemma ResyncTransactions(ts: seq<BankTransaction>, id: string, transactions: seq<BankTransaction>)
    requires forall i :: 0 <= i < |transactions| ==> transactions[i].bankAccountId == id
    ensures RemoveWhere(RemoveWhere(ts, OwnerId, id) + transactions, OwnerId, id) == RemoveWhere(ts, OwnerId, id)
  {
    var kept := RemoveWhere(ts, OwnerId, id);
    RemoveWhereConcat(kept, transactions, OwnerId, id);
    RemoveWhereIdempotent(ts, OwnerId, id);
    RemoveWhereDropsAll(transactions, OwnerId, id);
    assert RemoveWhere(kept, OwnerId, id) + [] == kept;
  }

  /** Syncing the same data twice is syncing it once, when the payload belongs to the synced account. */
  lemma SyncIdempotent(s: BankState, account: BankAccount, transactions: seq<BankTransaction>)
    requires forall i :: 0 <= i < |transactions| ==> transactions[i].bankAccountId == account.id
    ensures Step(Step(s, SyncBankDataSuccess(account, transactions)), SyncBankDataSuccess(account, transactions))
         == Step(s, SyncBankDataSuccess(account, transactions))
  {
    var once := Step(s, SyncBankDataSuccess(account, transactions));
    assert once == Sync(s, account, transactions);
    assert Step(once, SyncBankDataSuccess(account, transactions)) == Sync(once, account, transactions);
    ResyncTransactions(s.bankTransactions, account.id, transactions);
    ReplaceWhereIdempotent(s.bankAccounts, AccountId, account);
  }

  /**
   * Deleting a bank account removes it and clears it as current exactly
   * when its id matched; the bank transactions are left as they are, those
   * of the deleted account included.
   */
  lemma DeleteBankAccountEffect(s: BankState, id: string)
    ensures var r := Step(s, DeleteBankAccountSuccess(id));
      && (forall x | x in r.bankAccounts :: x in s.bankAccounts && x.id != id)
      && (forall x | x in s.bankAccounts && x.id != id :: x in r.bankAccounts)
      && Lists.IsSubsequence(r.bankAccounts, s.bankAccounts)
      && (forall x :: multiset(r.bankAccounts)[x] == if x.id != id then multiset(s.bankAccounts)[x] else 0)
      && (r.currentBankAccount == None <==> (s.currentBankAccount == None || s.currentBankAccount.value.id == id))
      && (r.currentBankAccount != None ==> r.currentBankAccount == s.currentBankAccount)
      && r.bankTransactions == s.bankTransactions
  {
  }
}
