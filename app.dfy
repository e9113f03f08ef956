/** The application store: `initialAppState` and `appReducer`. */
module App {
  import opened Actions
  import opened Types
  import A = AccountReducer
  import T = TransactionReducer
  import I = InvoiceReducer
  import B = BankReducer
  import U = AuthReducer

  datatype AppState = AppState(
    auth: U.AuthState,
    account: A.AccountState,
    transaction: T.TransactionState,
    invoice: I.InvoiceState,
    bank: B.BankState)

  /** `initialAppState`: every slice at its reducer's initial state. */
  const InitialAppState: AppState :=
    AppState(U.InitialAuthState, A.InitialAccountState, T.InitialTransactionState,
             I.InitialInvoiceState, B.InitialBankState)

  /** `appReducer`: every action is passed to all five reducers. */
  function AppReducer(s: AppState, a: Action): (r: AppState)
    ensures SliceOf(a) == NoSlice ==> r == s
    ensures ChangedSlices(s, r) <= {SliceOf(a)}
  {
    AppState(U.Reduce(s.auth, a), A.Reduce(s.account, a), T.Reduce(s.transaction, a),
             I.Reduce(s.invoice, a), B.Reduce(s.bank, a))
  }

  /** The slices in which two store states differ. */
  function ChangedSlices(s: AppState, r: AppState): (c: set<Slice>)
    ensures NoSlice !in c
    ensures c == {} <==> s == r
  {
    (if s.auth != r.auth then {AuthSlice} else {})
    + (if s.account != r.account then {AccountSlice} else {})
    + (if s.transaction != r.transaction then {TransactionSlice} else {})
    + (if s.invoice != r.invoice then {InvoiceSlice} else {})
    + (if s.bank != r.bank then {BankSlice} else {})
  }

  /** The initial store is signed out and holds no records. */
  lemma InitialAppStateEmpty()
    ensures !InitialAppState.auth.isAuthenticated && InitialAppState.auth.user.None?
    ensures InitialAppState.account.accounts == [] && InitialAppState.transaction.transactions == []
    ensures InitialAppState.invoice.invoices == [] && InitialAppState.bank.bankAccounts == []
    ensures InitialAppState.bank.bankTransactions == []
  {
  }

  /**
   * The three action types the onboarding screens dispatch fall to every
   * reducer's `default`: the batch of chart-of-accounts accounts, the linked
   * bank accounts and the user update are all dropped.
   */
  lemma OnboardingActionsDropped(s: AppState, o: OtherAction)
    ensures AppReducer(s, OtherAct(o)) == s
    ensures o.CreateAccountsBatch? ==> AppReducer(s, OtherAct(o)).account.accounts == s.account.accounts
    ensures o.AddBankAccounts? ==> AppReducer(s, OtherAct(o)).bank.bankAccounts == s.bank.bankAccounts
    ensures o.UpdateUser? ==> AppReducer(s, OtherAct(o)).auth.user == s.auth.user
  {
  }

  /**
   * Recording a transaction leaves the chart of accounts as it was: no
   * account's balance moves, whatever the transaction's entries.
   */
  lemma CreateTransactionKeepsBalances(s: AppState, t: Transaction)
    ensures var r := AppReducer(s, TransactionAct(CreateTransactionSuccess(t)));
      && r.account == s.account
      && (forall i :: 0 <= i < |s.account.accounts| ==> r.account.accounts[i].balance == s.account.accounts[i].balance)
      && r.transaction.transactions == s.transaction.transactions + [t]
  {
    T.CreateTransactionAppends(s.transaction, t);
  }

  /** The store after dispatching `actions` in order from `s`. */
  function Run(s: AppState, actions: seq<Action>): AppState
    decreases |actions|
  {
    if actions == [] then s else Run(AppReducer(s, actions[0]), actions[1..])
  }

  /** The session slice of the store evolves as `authReducer` alone would evolve it. */
  lemma {:induction false} RunAuth(s: AppState, actions: seq<Action>)
    ensures Run(s, actions).auth == U.Run(s.auth, actions)
    decreases |actions|
  {
    if actions != [] {
      RunAuth(AppReducer(s, actions[0]), actions[1..]);
    }
  }

  /** In every state the store can reach, the session is authenticated exactly when a user is present. */
  lemma ReachableSessionConsistent(actions: seq<Action>)
    ensures var r := Run(InitialAppState, actions);
      r.auth.isAuthenticated <==> r.auth.user.Some?
  {
    U.InitialConsistent();
    U.ReachableConsistent(InitialAppState.auth, actions);
    RunAuth(InitialAppState, actions);
  }
}
