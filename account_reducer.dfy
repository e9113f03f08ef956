/** The chart-of-accounts slice of the store: `accountReducer`. */
module AccountReducer {
  import opened Wrappers
  import opened Types
  import opened Actions
  import opened Records
  import Lists

  datatype AccountState = AccountState(
    accounts: seq<Account>,
    currentAccount: Option<Account>,
    loading: bool,
    error: Option<string>)

  const InitialAccountState: AccountState := AccountState([], None, false, None)

  function Id(a: Account): string { a.id }

  function SetArchived(a: Account): Account { a.(isArchived := true) }

  /** `current?.id === id`: false when there is no current account. */
  predicate IsCurrent(current: Option<Account>, id: string)
  {
    current.Some? && current.value.id == id
  }

  /** The request actions, which all start a network call. */
  predicate IsRequest(a: AccountAction)
  {
    a.FetchAccountsRequest? || a.FetchAccountRequest? || a.CreateAccountRequest?
    || a.UpdateAccountRequest? || a.DeleteAccountRequest?
  }

  /** The failure actions, which all carry an error message. */
  predicate IsFailure(a: AccountAction)
  {
    a.FetchAccountsFailure? || a.FetchAccountFailure? || a.CreateAccountFailure?
    || a.UpdateAccountFailure? || a.DeleteAccountFailure?
  }

  /** `accountReducer(state, action)`: an action of another slice falls to `default`. */
  function Reduce(s: AccountState, a: Action): (r: AccountState)
    ensures SliceOf(a) != AccountSlice ==> r == s
  {
    match a
    case AccountAct(action) => Step(s, action)
    case _ => s
  }

  /** The actions whose branch assigns `accounts`. */
  predicate WritesList(a: AccountAction)
  {
    a.FetchAccountsSuccess? || a.CreateAccountSuccess? || a.UpdateAccountSuccess?
    || a.DeleteAccountSuccess? || a.ArchiveAccount?
  }

  /** The branches of `accountReducer`'s switch; every other action leaves the list alone. */
  function Step(s: AccountState, a: AccountAction): (r: AccountState)
    ensures !WritesList(a) ==> r.accounts == s.accounts
  {
    match a
    case FetchAccountsRequest | FetchAccountRequest | CreateAccountRequest
      | UpdateAccountRequest | DeleteAccountRequest =>
      s.(loading := true, error := None)
    case FetchAccountsSuccess(accounts) =>
      s.(loading := false, accounts := accounts, error := None)
    case FetchAccountSuccess(account) =>
      s.(loading := false, currentAccount := Some(account), error := None)
    case CreateAccountSuccess(account) =>
      s.(loading := false, accounts := s.accounts + [account], currentAccount := Some(account), error := None)
    case UpdateAccountSuccess(account) =>
      s.(loading := false, accounts := ReplaceWhere(s.accounts, Id, account),
         currentAccount := Some(account), error := None)
    case DeleteAccountSuccess(id) =>
      s.(loading := false, accounts := RemoveWhere(s.accounts, Id, id),
         currentAccount := if IsCurrent(s.currentAccount, id) then None else s.currentAccount,
         error := None)
    case ArchiveAccount(id) =>
      s.(accounts := UpdateWhere(s.accounts, Id, id, SetArchived),
         currentAccount := if IsCurrent(s.currentAccount, id) then Some(SetArchived(s.currentAccount.value))
                           else s.currentAccount)
    case FetchAccountsFailure(_) | FetchAccountFailure(_) | CreateAccountFailure(_)
      | UpdateAccountFailure(_) | DeleteAccountFailure(_) =>
      s.(loading := false, error := Some(a.error))
    case ClearAccountError =>
      s.(error := None)
  }

  /**
   * Requests set `loading` and clear `error`; failures clear `loading` and
   * store the message. Neither touches the accounts or the current account.
   */
  lemma RequestAndFailure(s: AccountState, a: AccountAction)
    ensures IsRequest(a) ==> Step(s, a) == s.(loading := true, error := None)
    ensures IsFailure(a) ==> Step(s, a) == s.(loading := false, error := Some(a.error))
  {
  }

  /**
   * Archiving sets `isArchived` on the accounts with that id and changes no
   * other field of any account; the current account follows when its id matches.
   */
  lemma ArchiveAccountEffect(s: AccountState, id: string)
    ensures var r := Step(s, ArchiveAccount(id));
      && |r.accounts| == |s.accounts|
      && (forall i :: 0 <= i < |s.accounts| ==>
            r.accounts[i].(isArchived := s.accounts[i].isArchived) == s.accounts[i]
            && r.accounts[i].isArchived == (s.accounts[i].isArchived || s.accounts[i].id == id))
      && r.currentAccount.Some? == s.currentAccount.Some?
      && (r.currentAccount.Some? ==>
            r.currentAccount.value.(isArchived := s.currentAccount.value.isArchived) == s.currentAccount.value
            && r.currentAccount.value.isArchived == (s.currentAccount.value.isArchived || s.currentAccount.value.id == id))
      && r.loading == s.loading && r.error == s.error
  {
  }

  lemma ArchiveAccountIdempotent(s: AccountState, id: string)
    ensures Step(Step(s, ArchiveAccount(id)), ArchiveAccount(id)) == Step(s, ArchiveAccount(id))
  {
    UpdateWhereIdempotent(s.accounts, Id, id, SetArchived);
  }

  /** Creation appends the new account after the existing ones and makes it current. */
  lemma CreateAccountAppends(s: AccountState, account: Account)
    ensures var r := Step(s, CreateAccountSuccess(account));
      && |r.accounts| == |s.accounts| + 1
      && r.accounts[..|s.accounts|] == s.accounts
      && r.accounts[|s.accounts|] == account
      && r.currentAccount == Some(account)
      && !r.loading && r.error == None
  {
  }

  /** An update replaces the accounts with the payload's id, in place. */
  lemma UpdateAccountReplaces(s: AccountState, account: Account)
    ensures var r := Step(s, UpdateAccountSuccess(account));
      && |r.accounts| == |s.accounts|
      && (forall i :: 0 <= i < |s.accounts| ==>
            r.accounts[i] == if s.accounts[i].id == account.id then account else s.accounts[i])
      && r.currentAccount == Some(account)
  {
  }

  /**
   * Deletion keeps exactly the accounts with another id, in their order, and
   * clears the current account exactly when its id matched.
   */
  lemma DeleteAccountRemoves(s: AccountState, id: string)
    ensures var r := Step(s, DeleteAccountSuccess(id));
      && (forall x | x in r.accounts :: x in s.accounts && x.id != id)
      && (forall x | x in s.accounts && x.id != id :: x in r.accounts)
      && Lists.IsSubsequence(r.accounts, s.accounts)
      && (forall x :: multiset(r.accounts)[x] == if x.id != id then multiset(s.accounts)[x] else 0)
      && (r.currentAccount == None <==> (s.currentAccount == None || s.currentAccount.value.id == id))
      && (r.currentAccount != None ==> r.currentAccount == s.currentAccount)
  {
  }
}
