/** What a row of the transaction list shows: an amount, a direction, an icon and a colour. */
module TransactionItem {
  import opened Types
  import opened Text
  import opened Lists
  import TransactionReducer

  /** `entries.reduce((sum, e) => e.amount > 0 ? sum + e.amount : sum, 0)`: the debit total. */
  function DebitTotal(entries: seq<JournalEntry>): (r: real)
    ensures r >= 0.0
    ensures (forall i :: 0 <= i < |entries| ==> entries[i].amount <= 0.0) ==> r == 0.0
  {
    if entries == [] then 0.0
    else (if entries[0].amount > 0.0 then entries[0].amount else 0.0) + DebitTotal(entries[1..])
  }

  /** The magnitude of the credits: the sum of the negative amounts, negated. */
  function CreditTotal(entries: seq<JournalEntry>): (r: real)
    ensures r >= 0.0
  {
    if entries == [] then 0.0
    else (if entries[0].amount < 0.0 then -entries[0].amount else 0.0) + CreditTotal(entries[1..])
  }

  /** Debits less credits is the sum of all amounts. */
  lemma {:induction false} DebitsLessCredits(entries: seq<JournalEntry>)
    ensures DebitTotal(entries) - CreditTotal(entries) == Sum(entries, TransactionReducer.Amount)
  {
    if entries != [] {
      DebitsLessCredits(entries[1..]);
    }
  }

  /** For a balanced transaction the amount shown is both the debit total and the credit total. */
  lemma BalancedShowsEitherSide(t: Transaction)
    requires TransactionReducer.Balanced(t)
    ensures DebitTotal(t.entries) == CreditTotal(t.entries)
  {
    DebitsLessCredits(t.entries);
  }

  /** The entry credits an account whose id starts with `a1`, the bank account of the sample chart. */
  predicate CreditsBank(e: JournalEntry)
  {
    e.amount < 0.0 && StartsWith(e.accountId, "a1")
  }

  /** `isExpense`: some entry credits the bank account. */
  function IsExpense(t: Transaction): (r: bool)
    ensures r <==> exists i :: 0 <= i < |t.entries| && t.entries[i].amount < 0.0
                              && StartsWith(t.entries[i].accountId, "a1")
  {
    Any(t.entries, CreditsBank)
  }

  /** `getTransactionIcon()`: up for money leaving the bank account, down otherwise. */
  function Icon(t: Transaction): (r: string)
    ensures r == "arrow-up" || r == "arrow-down"
    ensures r == "arrow-up" <==> IsExpense(t)
  {
    if IsExpense(t) then "arrow-up" else "arrow-down"
  }

  const Red: string := "#F44336"
  const Green: string := "#4CAF50"

  /** `getIconColor()`: red for an expense, green otherwise. */
  function IconColor(t: Transaction): (r: string)
    ensures r == Red || r == Green
    ensures r == Red <==> IsExpense(t)
  {
    if IsExpense(t) then Red else Green
  }

  /** The icon points up and is red exactly for an expense; otherwise it points down and is green. */
  lemma IconShowsDirection(t: Transaction)
    ensures Icon(t) == "arrow-up" <==> IsExpense(t)
    ensures IconColor(t) == Red <==> IsExpense(t)
    ensures Icon(t) == "arrow-down" <==> IconColor(t) == Green
  {
  }

  /** The signed amount handed to `formatCurrency`: the debit total, negated for an expense. */
  function DisplayAmount(t: Transaction): (r: real)
    ensures IsExpense(t) ==> r <= 0.0
    ensures !IsExpense(t) ==> r >= 0.0
    ensures (if r < 0.0 then -r else r) == DebitTotal(t.entries)
  {
    var amount := DebitTotal(t.entries);
    if IsExpense(t) then -amount else amount
  }
}
