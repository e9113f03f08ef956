/** The ledger slice of the store: `transactionReducer`. */
module TransactionReducer {
  import opened Wrappers
  import opened Types
  import opened Actions
  import opened Records
  import Lists

  datatype TransactionState = TransactionState(
    transactions: seq<Transaction>,
    currentTransaction: Option<Transaction>,
    loading: bool,
    error: Option<string>)

  const InitialTransactionState: TransactionState := TransactionState([], None, false, None)

  function Id(t: Transaction): string { t.id }

  function SetReconciled(t: Transaction): Transaction { t.(isReconciled := true) }

  /** `current?.id === id`: false when there is no current transaction. */
  predicate IsCurrent(current: Option<Transaction>, id: string)
  {
    current.Some? && current.value.id == id
  }

  predicate IsRequest(a: TransactionAction)
  {
    a.FetchTransactionsRequest? || a.FetchTransactionRequest? || a.CreateTransactionRequest?
    || a.UpdateTransactionRequest? || a.DeleteTransactionRequest?
  }

  predicate IsFailure(a: TransactionAction)
  {
    a.FetchTransactionsFailure? || a.FetchTransactionFailure? || a.CreateTransactionFailure?
    || a.UpdateTransactionFailure? || a.DeleteTransactionFailure?
  }

  /** The actions whose branch rewrites the transaction list. */
  predicate WritesList(a: TransactionAction)
  {
    a.FetchTransactionsSuccess? || a.CreateTransactionSuccess? || a.UpdateTransactionSuccess?
    || a.DeleteTransactionSuccess? || a.ReconcileTransaction?
  }

  /** `transactionReducer(state, action)`: an action of another slice falls to `default`. */
  function Reduce(s: TransactionState, a: Action): (r: TransactionState)
    ensures SliceOf(a) != TransactionSlice ==> r == s
  {
    match a
    case TransactionAct(action) => Step(s, action)
    case _ => s
  }

  /** The branches of `transactionReducer`'s switch; only five of them rewrite the list. */
  function Step(s: TransactionState, a: TransactionAction): (r: TransactionState)
    ensures !WritesList(a) ==> r.transactions == s.transactions
  {
    match a
    case FetchTransactionsRequest | FetchTransactionRequest | CreateTransactionRequest
      | UpdateTransactionRequest | DeleteTransactionRequest =>
      s.(loading := true, error := None)
    case FetchTransactionsSuccess(transactions) =>
      s.(loading := false, transactions := transactions, error := None)
    case FetchTransactionSuccess(transaction) =>
      s.(loading := false, currentTransaction := Some(transaction), error := None)
    case CreateTransactionSuccess(transaction) =>
      s.(loading := false, transactions := s.transactions + [transaction],
         currentTransaction := Some(transaction), error := None)
    case UpdateTransactionSuccess(transaction) =>
      s.(loading := false, transactions := ReplaceWhere(s.transactions, Id, transaction),
         currentTransaction := Some(transaction), error := None)
    case DeleteTransactionSuccess(id) =>
      s.(loading := false, transactions := RemoveWhere(s.transactions, Id, id),
         currentTransaction := if IsCurrent(s.currentTransaction, id) then None else s.currentTransaction,
         error := None)
    case ReconcileTransaction(id) =>
      s.(transactions := UpdateWhere(s.transactions, Id, id, SetReconciled),
         currentTransaction := if IsCurrent(s.currentTransaction, id)
                               then Some(SetReconciled(s.currentTransaction.value))
                               else s.currentTransaction)
    case FetchTransactionsFailure(_) | FetchTransactionFailure(_) | CreateTransactionFailure(_)
      | UpdateTransactionFailure(_) | DeleteTransactionFailure(_) =>
      s.(loading := false, error := Some(a.error))
    case ClearTransactionError =>
      s.(error := None)
  }

  lemma RequestAndFailure(s: TransactionState, a: TransactionAction)
    ensures IsRequest(a) ==> Step(s, a) == s.(loading := true, error := None)
    ensures IsFailure(a) ==> Step(s, a) == s.(loading := false, error := Some(a.error))
  {
  }

  /** Creation appends exactly one transaction after the existing ones. */
  lemma CreateTransactionAppends(s: TransactionState, t: Transaction)
    ensures var r := Step(s, CreateTransactionSuccess(t));
      && r.transactions == s.transactions + [t]
      && r.currentTransaction == Some(t)
      && !r.loading && r.error == None
  {
  }

  /** Creating a transaction with a fresh id and deleting that id restores the list. */
  lemma CreateThenDeleteTransaction(s: TransactionState, t: Transaction)
    requires Fresh(s.transactions, Id, t.id)
    ensures Step(Step(s, CreateTransactionSuccess(t)), DeleteTransactionSuccess(t.id)).transactions
            == s.transactions
  {
    CreateTransactionAppends(s, t);
    DeleteTransactionRemoves(Step(s, CreateTransactionSuccess(t)), t.id);
    AppendThenRemove(s.transactions, Id, t);
  }

  /** An update replaces the transactions with the payload's id, in place. */
  lemma UpdateTransactionReplaces(s: TransactionState, t: Transaction)
    ensures var r := Step(s, UpdateTransactionSuccess(t));
      && |r.transactions| == |s.transactions|
      && (forall i :: 0 <= i < |s.transactions| ==>
            r.transactions[i] == if s.transactions[i].id == t.id then t else s.transactions[i])
      && r.currentTransaction == Some(t)
  {
  }

  /**
   * Deletion keeps exactly the transactions with another id, in their order,
   * and clears the current transaction exactly when its id matched.
   */
  lemma {:induction false} DeleteTransactionRemoves(s: TransactionState, id: string)
    ensures var r := Step(s, DeleteTransactionSuccess(id));
      && r.transactions == RemoveWhere(s.transactions, Id, id)
      && (forall x | x in r.transactions :: x in s.transactions && x.id != id)
      && (forall x | x in s.transactions && x.id != id :: x in r.transactions)
      && Lists.IsSubsequence(r.transactions, s.transactions)
      && (forall x :: multiset(r.transactions)[x] == if x.id != id then multiset(s.transactions)[x] else 0)
      && (r.currentTransaction == None <==> (s.currentTransaction == None || s.currentTransaction.value.id == id))
      && (r.currentTransaction != None ==> r.currentTransaction == s.currentTransaction)
  {
  }

  /**
   * Reconciling sets `isReconciled` on the transactions with that id and
   * changes nothing else of any transaction, its entries included.
   */
  lemma ReconcileTransactionEffect(s: TransactionState, id: string)
    ensures var r := Step(s, ReconcileTransaction(id));
      && |r.transactions| == |s.transactions|
      && (forall i :: 0 <= i < |s.transactions| ==>
            r.transactions[i].(isReconciled := s.transactions[i].isReconciled) == s.transactions[i]
            && r.transactions[i].entries == s.transactions[i].entries
            && r.transactions[i].isReconciled == (s.transactions[i].isReconciled || s.transactions[i].id == id))
      && r.loading == s.loading && r.error == s.error
  {
  }

  lemma ReconcileTransactionIdempotent(s: TransactionState, id: string)
    ensures Step(Step(s, ReconcileTransaction(id)), ReconcileTransaction(id)) == Step(s, ReconcileTransaction(id))
  {
    UpdateWhereIdempotent(s.transactions, Id, id, SetReconciled);
  }

  /** The actions that install transactions from their payload. */
  predicate InstallsPayload(a: TransactionAction)
  {
    a.FetchTransactionsSuccess? || a.CreateTransactionSuccess? || a.UpdateTransactionSuccess?
  }

  /**
   * No action clears `isReconciled`: apart from the actions that install a
   * payload, every unreconciled transaction after an action was already in
   * the list before it.
   */
  lemma NothingUnreconciles(s: TransactionState, a: TransactionAction)
    requires !InstallsPayload(a)
    ensures forall t | t in Step(s, a).transactions && !t.isReconciled :: t in s.transactions
  {
    if a.ReconcileTransaction? {
      var r := Step(s, a);
      forall t | t in r.transactions && !t.isReconciled
        ensures t in s.transactions
      {
        var i :| 0 <= i < |r.transactions| && r.transactions[i] == t;
        assert s.transactions[i].id != a.id;
      }
    }
  }

  function Amount(e: JournalEntry): real { e.amount }

  /** Debits equal credits: the entry amounts sum to zero. */
  predicate Balanced(t: Transaction)
  {
    Lists.Sum(t.entries, Amount) == 0.0
  }

  predicate AllBalanced(ts: seq<Transaction>)
  {
    forall i :: 0 <= i < |ts| ==> Balanced(ts[i])
  }

  /** Every transaction an action carries is balanced. */
  predicate PayloadBalanced(a: TransactionAction)
  {
    match a
    case FetchTransactionsSuccess(ts) => AllBalanced(ts)
    case FetchTransactionSuccess(t) => Balanced(t)
    case CreateTransactionSuccess(t) => Balanced(t)
    case UpdateTransactionSuccess(t) => Balanced(t)
    case _ => true
  }

  /** Every action keeps every stored transaction balanced, given balanced payloads. */
  lemma BalancedPreserved(s: TransactionState, a: TransactionAction)
    requires AllBalanced(s.transactions)
    requires PayloadBalanced(a)
    ensures AllBalanced(Step(s, a).transactions)
  {
    var r := Step(s, a);
    if a.CreateTransactionSuccess? {
      CreateTransactionAppends(s, a.transaction);
    } else if a.UpdateTransactionSuccess? {
      UpdateTransactionReplaces(s, a.transaction);
    } else if a.DeleteTransactionSuccess? {
      DeleteTransactionRemoves(s, a.id);
      forall i | 0 <= i < |r.transactions|
        ensures Balanced(r.transactions[i])
      {
        assert r.transactions[i] in s.transactions;
      }
    } else if a.ReconcileTransaction? {
      ReconcileTransactionEffect(s, a.id);
    }
  }
}
