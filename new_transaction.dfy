/**
 * The new-transaction form: a transaction type, a description and a list of
 * journal lines that the handlers edit, the validation run before saving,
 * and the journal entries the saved transaction is built from.
 */
module NewTransaction {
  import opened Wrappers
  import opened Types
  import opened Text
  import opened Lists
  import TransactionReducer
  import Validation

  datatype Kind = Income | Expense | Transfer | Journal

  /** The text of an amount field: empty, or the rendering of a number. */
  datatype AmountText = Blank | Numeric(value: real)

  /** `Number(amount)`: an empty field reads as 0. */
  function AmountValue(a: AmountText): real
  {
    if a.Blank? then 0.0 else a.value
  }

  /** One line of the form. */
  datatype EntryLine = EntryLine(accountId: string, accountName: string, amount: AmountText, memo: string)

  const BlankLine: EntryLine := EntryLine("", "", Blank, "")

  function LineValue(l: EntryLine): real { AmountValue(l.amount) }

  /** `entry.accountId && entry.amount !== ""`: an account is chosen and an amount typed. */
  predicate IsComplete(l: EntryLine) { l.accountId != "" && l.amount != Blank }

  predicate IsAsset(a: Account) { a.accountType == Asset }

  predicate HasBankSubtype(a: Account) { a.subtype == Bank }

  /** `assetAccounts.find(acc => acc.subtype === "BANK")`: a bank account among the assets, if any. */
  function FirstBankAccount(accounts: seq<Account>): (r: Option<Account>)
    ensures r.Some? ==> r.value in accounts && r.value.accountType == Asset && r.value.subtype == Bank
    ensures r.None? <==> forall i :: 0 <= i < |accounts| ==> !(IsAsset(accounts[i]) && HasBankSubtype(accounts[i]))
  {
    var assets := Filter(accounts, IsAsset);
    var r := Find(assets, HasBankSubtype);
    assert r.None? ==> forall i :: 0 <= i < |accounts| ==> !(IsAsset(accounts[i]) && HasBankSubtype(accounts[i])) by {
      if r.None? {
        forall i | 0 <= i < |accounts| && IsAsset(accounts[i])
          ensures !HasBankSubtype(accounts[i])
        {
          assert accounts[i] in assets;
        }
      }
    }
    r
  }

  /** The line a switch to `kind` leaves at `index` (0 or 1), pre-filled with the bank account where the type asks for one. */
  function PrefilledLine(kind: Kind, index: nat, accounts: seq<Account>): EntryLine
  {
    var bank := FirstBankAccount(accounts);
    if bank.Some? && ((kind == Kind.Expense && index == 1) || (kind == Kind.Income && index == 0))
    then BlankLine.(accountId := bank.value.id, accountName := bank.value.name)
    else BlankLine
  }

  /**
   * The two lines an expense, income or transfer form is reset to: no
   * amounts, and the bank account on the credit line of an expense and on
   * the debit line of an income.
   */
  function ResetLines(kind: Kind, accounts: seq<Account>): (r: seq<EntryLine>)
    requires kind != Kind.Journal
    ensures |r| == 2
    ensures forall i :: 0 <= i < 2 ==> r[i].amount == Blank && r[i].memo == ""
    ensures kind == Kind.Transfer || FirstBankAccount(accounts).None? ==> r == [BlankLine, BlankLine]
    ensures var bank := FirstBankAccount(accounts);
      bank.Some? && kind == Kind.Expense ==>
        r[0] == BlankLine && r[1] == BlankLine.(accountId := bank.value.id, accountName := bank.value.name)
    ensures var bank := FirstBankAccount(accounts);
      bank.Some? && kind == Kind.Income ==>
        r[1] == BlankLine && r[0] == BlankLine.(accountId := bank.value.id, accountName := bank.value.name)
  {
    [PrefilledLine(kind, 0, accounts), PrefilledLine(kind, 1, accounts)]
  }

  /** A freshly reset form holds no complete line, so it cannot be saved until both lines are filled in. */
  lemma ResetLinesIncomplete(kind: Kind, accounts: seq<Account>)
    requires kind != Kind.Journal
    ensures Filter(ResetLines(kind, accounts), IsComplete) == []
    ensures Sum(ResetLines(kind, accounts), LineValue) == 0.0
  {
    var r := ResetLines(kind, accounts);
    FilterDropsAll(r, IsComplete);
    assert Sum(r, LineValue) == LineValue(r[0]) + Sum(r[1..], LineValue);
  }

  function HasId(id: string): Account -> bool
  {
    (a: Account) => a.id == id
  }

  /** `accountState.accounts.find(acc => acc.id === accountId)`. */
  function FindAccount(accounts: seq<Account>, id: string): (r: Option<Account>)
    ensures r.Some? ==> r.value in accounts && r.value.id == id
    ensures r.None? <==> forall i :: 0 <= i < |accounts| ==> accounts[i].id != id
  {
    Find(accounts, HasId(id))
  }

  /** A change made through `handleEntryChange`: the amount field or the memo field. */
  datatype Edit = SetAmount(amount: AmountText) | SetMemo(memo: string)

  function Applied(l: EntryLine, e: Edit): EntryLine
  {
    match e
    case SetAmount(a) => l.(amount := a)
    case SetMemo(m) => l.(memo := m)
  }

  /**
   * `updatedEntries.splice(index, 1)`: a negative index counts from the end
   * and an index past the end removes nothing.
   */
  function Splice(s: seq<EntryLine>, index: int): (r: seq<EntryLine>)
    ensures 0 <= index < |s| ==> r == s[..index] + s[index + 1..]
    ensures index >= |s| ==> r == s
    ensures |r| == if s != [] && index < |s| then |s| - 1 else |s|
  {
    var start := if index < 0 then (if |s| + index < 0 then 0 else |s| + index)
                 else (if index < |s| then index else |s|);
    if start < |s| then s[..start] + s[start + 1..] else s
  }

  /** The switch of the type-change effect for the types that reset the lines. */
  method ResetEntries(kind: Kind, accounts: seq<Account>) returns (updated: seq<EntryLine>)
    requires kind != Kind.Journal
    ensures updated == ResetLines(kind, accounts)
  {
    updated := [BlankLine, BlankLine];
    var bank := FirstBankAccount(accounts);
    match kind {
      case Expense =>
        if bank.Some? {
          updated := updated[1 := updated[1].(accountId := bank.value.id, accountName := bank.value.name)];
        }
      case Income =>
        if bank.Some? {
          updated := updated[0 := updated[0].(accountId := bank.value.id, accountName := bank.value.name)];
        }
      case Transfer =>
    }
    assert updated == [PrefilledLine(kind, 0, accounts), PrefilledLine(kind, 1, accounts)];
  }

  class NewTransactionForm {
    var kind: Kind
    var date: Date
    var description: string
    var reference: string
    var entries: seq<EntryLine>
    var selectedEntryIndex: Option<int>

    /** The form never holds fewer than two lines. */
    predicate Valid()
      reads this
    {
      |entries| >= 2
    }

    /** The form as first shown: an expense dated `now`, after the type effect's first run. */
    constructor(now: Date, accounts: seq<Account>)
      ensures Valid()
      ensures kind == Kind.Expense && date == now && description == "" && reference == ""
      ensures entries == ResetLines(Kind.Expense, accounts)
      ensures selectedEntryIndex == None
    {
      kind := Kind.Expense;
      date := now;
      description := "";
      reference := "";
      selectedEntryIndex := None;
      var lines := [BlankLine, BlankLine];
      var bank := FirstBankAccount(accounts);
      if bank.Some? {
        lines := lines[1 := lines[1].(accountId := bank.value.id, accountName := bank.value.name)];
      }
      entries := lines;
    }

    /** Tapping the account field of line `index` (`setSelectedEntryIndex(index)`), which opens the picker. */
    method OpenPicker(index: int)
      requires Valid() && 0 <= index < |entries|
      modifies this
      ensures Valid()
      ensures selectedEntryIndex == Some(index)
      ensures entries == old(entries) && kind == old(kind) && date == old(date)
      ensures description == old(description) && reference == old(reference)
    {
      selectedEntryIndex := Some(index);
    }

    /**
     * `setTransactionType(newKind)` and the effect it triggers: a switch to
     * expense, income or transfer resets the lines; a switch to journal, or
     * choosing the type already selected, keeps them.
     */
    method ChangeType(newKind: Kind, accounts: seq<Account>)
      requires Valid()
      modifies this
      ensures Valid()
      ensures kind == newKind
      ensures entries == if newKind == old(kind) || newKind == Kind.Journal then old(entries) else ResetLines(newKind, accounts)
      ensures date == old(date) && description == old(description) && reference == old(reference)
      ensures selectedEntryIndex == old(selectedEntryIndex)
    {
      if newKind == kind {
        return;
      }
      kind := newKind;
      if newKind != Kind.Journal {
        entries := ResetEntries(newKind, accounts);
      }
    }

    /**
     * `handleSelectAccount(accountId)`: puts the chosen account on the line
     * the picker was opened for and closes the picker; nothing happens when
     * no line is selected or no account has that id.
     */
    method SelectAccount(accountId: string, accounts: seq<Account>)
      requires Valid()
      requires selectedEntryIndex.Some? ==> 0 <= selectedEntryIndex.value < |entries|
      modifies this
      ensures Valid()
      ensures var found := FindAccount(accounts, accountId);
        if old(selectedEntryIndex).None? || found.None? then
          entries == old(entries) && selectedEntryIndex == old(selectedEntryIndex)
        else
          var k := old(selectedEntryIndex).value;
          && entries == old(entries)[k := old(entries)[k].(accountId := accountId, accountName := found.value.name)]
          && selectedEntryIndex == None
      ensures kind == old(kind) && date == old(date) && description == old(description) && reference == old(reference)
    {
      if selectedEntryIndex.None? {
        return;
      }
      var account := FindAccount(accounts, accountId);
      if account.None? {
        return;
      }
      var k := selectedEntryIndex.value;
      entries := entries[k := entries[k].(accountId := accountId, accountName := account.value.name)];
      selectedEntryIndex := None;
    }

    /**
     * `handleEntryChange(index, field, value)`. Typing an amount on the first
     * line of an expense, income or transfer also writes its negation on the
     * second line, so that the two lines cancel.
     */
    method EditEntry(index: int, edit: Edit)
      requires Valid() && 0 <= index < |entries|
      modifies this
      ensures Valid() && |entries| == |old(entries)|
      ensures entries[index] == Applied(old(entries)[index], edit)
      ensures var offsets := edit.SetAmount? && kind != Kind.Journal && index == 0;
        && (offsets ==> entries[1] == old(entries)[1].(amount := Numeric(-AmountValue(edit.amount))))
        && (offsets ==> LineValue(entries[0]) + LineValue(entries[1]) == 0.0)
        && (forall i :: 0 <= i < |entries| && i != index && !(offsets && i == 1) ==> entries[i] == old(entries)[i])
      ensures kind == old(kind) && date == old(date) && description == old(description) && reference == old(reference)
      ensures selectedEntryIndex == old(selectedEntryIndex)
    {
      var updated := entries[index := Applied(entries[index], edit)];
      if edit.SetAmount? && kind != Kind.Journal && index == 0 {
        var numValue := AmountValue(edit.amount);
        updated := updated[1 := updated[1].(amount := Numeric(-numValue))];
      }
      entries := updated;
    }

    /** `addJournalEntryLine()`: one empty line at the end. */
    method AddLine()
      requires Valid()
      modifies this
      ensures Valid()
      ensures entries == old(entries) + [BlankLine]
      ensures kind == old(kind) && date == old(date) && description == old(description) && reference == old(reference)
      ensures selectedEntryIndex == old(selectedEntryIndex)
    {
      entries := entries + [BlankLine];
    }

    /** `removeJournalEntryLine(index)`: refused while only two lines are left. */
    method RemoveLine(index: int)
      requires Valid()
      modifies this
      ensures Valid()
      ensures |old(entries)| <= 2 ==> entries == old(entries)
      ensures |old(entries)| > 2 ==> entries == Splice(old(entries), index)
      ensures kind == old(kind) && date == old(date) && description == old(description) && reference == old(reference)
      ensures selectedEntryIndex == old(selectedEntryIndex)
    {
      if |entries| <= 2 {
        return;
      }
      entries := Splice(entries, index);
    }
  }

  // ---- validateTransaction

  datatype FormError = BlankDescription | IncompleteEntries | Unbalanced

  predicate IsDebitLine(l: EntryLine) { LineValue(l) > 0.0 }

  predicate IsCreditLine(l: EntryLine) { LineValue(l) < 0.0 }

  /** `Math.abs(Number(entry.amount))`. */
  function Magnitude(l: EntryLine): real
  {
    if LineValue(l) < 0.0 then -LineValue(l) else LineValue(l)
  }

  /** The sum of the positive amounts. */
  function TotalDebits(lines: seq<EntryLine>): real
  {
    Sum(Filter(lines, IsDebitLine), LineValue)
  }

  /** The sum of the magnitudes of the negative amounts. */
  function TotalCredits(lines: seq<EntryLine>): real
  {
    Sum(Filter(lines, IsCreditLine), Magnitude)
  }

  /** Debits less credits is the plain sum of the amounts. */
  lemma {:induction false} DebitsMinusCredits(lines: seq<EntryLine>)
    ensures TotalDebits(lines) - TotalCredits(lines) == Sum(lines, LineValue)
  {
    if lines != [] {
      DebitsMinusCredits(lines[1..]);
    }
  }

  /** The rounding allowance of the journal balance check. */
  const JournalTolerance: real := 0.001

  /**
   * `validateTransaction()`: the description must not be blank, at least two
   * lines must be complete, and a journal's amounts (over all its lines)
   * must cancel to within the tolerance, inclusive. The first failing check
   * is reported.
   */
  function Validate(kind: Kind, description: string, lines: seq<EntryLine>): (r: Option<FormError>)
    ensures r == Some(BlankDescription) <==> IsBlank(description)
    ensures r == Some(IncompleteEntries) <==> !IsBlank(description) && |Filter(lines, IsComplete)| < 2
    ensures r == None <==> (!IsBlank(description) && |Filter(lines, IsComplete)| >= 2
      && (kind == Kind.Journal ==> -JournalTolerance <= Sum(lines, LineValue) <= JournalTolerance))
  {
    DebitsMinusCredits(lines);
    var difference := TotalDebits(lines) - TotalCredits(lines);
    if Trim(description) == "" then Some(BlankDescription)
    else if |Filter(lines, IsComplete)| < 2 then Some(IncompleteEntries)
    else if kind == Kind.Journal && (if difference < 0.0 then -difference else difference) > JournalTolerance then Some(Unbalanced)
    else None
  }

  // ---- saveTransaction

  /** `entry-${now.getTime()}-${index}`. */
  function EntryId(now: Date, index: nat): string
  {
    "entry-" + IntToString(now) + "-" + NatToString(index)
  }

  /** The journal entries for `lines`, numbered from `start`. */
  function FormatEntries(lines: seq<EntryLine>, transactionId: string, now: Date, start: nat): (r: seq<JournalEntry>)
    ensures |r| == |lines|
    ensures forall i :: 0 <= i < |lines| ==>
      r[i] == JournalEntry(EntryId(now, start + i), transactionId, lines[i].accountId, LineValue(lines[i]), Some(lines[i].memo))
    ensures Sum(r, TransactionReducer.Amount) == Sum(lines, LineValue)
  {
    if lines == [] then []
    else [JournalEntry(EntryId(now, start), transactionId, lines[0].accountId, LineValue(lines[0]), Some(lines[0].memo))]
         + FormatEntries(lines[1..], transactionId, now, start + 1)
  }

  /**
   * The entries of the saved transaction: one for each complete line, in
   * order, all carrying the new transaction's id.
   */
  function BuildEntries(lines: seq<EntryLine>, transactionId: string, now: Date): (r: seq<JournalEntry>)
    ensures |r| == |Filter(lines, IsComplete)|
    ensures forall i :: 0 <= i < |r| ==> r[i].transactionId == transactionId && r[i].accountId != ""
    ensures Sum(r, TransactionReducer.Amount) == Sum(Filter(lines, IsComplete), LineValue)
    ensures var complete := Filter(lines, IsComplete);
      forall i :: 0 <= i < |r| ==>
        r[i] == JournalEntry(EntryId(now, i), transactionId, complete[i].accountId, LineValue(complete[i]), Some(complete[i].memo))
  {
    var complete := Filter(lines, IsComplete);
    assert forall i :: 0 <= i < |complete| ==> IsComplete(complete[i]) by {
      forall i | 0 <= i < |complete| ensures IsComplete(complete[i]) {
        assert complete[i] in complete;
      }
    }
    FormatEntries(complete, transactionId, now, 0)
  }

  /**
   * `saveTransaction()`: nothing when validation fails; otherwise the new,
   * unreconciled transaction that is then dispatched as
   * `CREATE_TRANSACTION_SUCCESS`. The id and the clock are inputs.
   */
  function SaveTransaction(kind: Kind, date: Date, description: string, reference: string,
                           lines: seq<EntryLine>, transactionId: string, now: Date): (r: Option<Transaction>)
    ensures r.Some? <==> Validate(kind, description, lines) == None
    ensures r.Some? ==> && r.value.id == transactionId && !r.value.isReconciled
                        && r.value.description == description && r.value.reference == Some(reference)
                        && r.value.date == date && r.value.createdAt == now && r.value.updatedAt == now
                        && r.value.entries == BuildEntries(lines, transactionId, now)
                        && |r.value.entries| >= 2
  {
    if Validate(kind, description, lines) != None then None
    else Some(Transaction(transactionId, date, description, Some(reference),
                          BuildEntries(lines, transactionId, now), false, now, now))
  }

  /**
   * A saved journal whose every line with an amount also has an account
   * balances to within the tolerance.
   */
  lemma SavedJournalBalances(date: Date, description: string, reference: string,
                             lines: seq<EntryLine>, transactionId: string, now: Date)
    requires SaveTransaction(Kind.Journal, date, description, reference, lines, transactionId, now).Some?
    requires forall i :: 0 <= i < |lines| && lines[i].amount != Blank ==> lines[i].accountId != ""
    ensures var t := SaveTransaction(Kind.Journal, date, description, reference, lines, transactionId, now).value;
      -JournalTolerance <= Sum(t.entries, TransactionReducer.Amount) <= JournalTolerance
  {
    SumFilterZero(lines, IsComplete, LineValue);
  }

  // ---- getEntryDirection

  /** `getEntryDirection(index)`: the debit label on the first line, the credit label on the others. */
  function EntryDirection(kind: Kind, index: int): (r: string)
    ensures kind == Kind.Journal <==> r == ""
    ensures kind != Kind.Journal ==> (StartsWith(r, "Debit") <==> index == 0)
    ensures kind != Kind.Journal ==> (StartsWith(r, "Credit") <==> index != 0)
  {
    var r :=
      match kind
      case Journal => ""
      case Expense => if index == 0 then "Debit (Expense)" else "Credit (Bank)"
      case Income => if index == 0 then "Debit (Bank)" else "Credit (Income)"
      case Transfer => if index == 0 then "Debit (To)" else "Credit (From)";
    assert kind != Kind.Journal && index != 0 ==> r[..6] == "Credit";
    assert kind != Kind.Journal && index == 0 ==> r[0] == 'D' && "Credit"[0] == 'C';
    r
  }

  // ---- what validation lets through

  /**
   * Only journals are balance-checked: an expense whose second line was
   * edited after the automatic offset is accepted and saved with entries
   * that do not cancel.
   */
  lemma NonJournalNotBalanceChecked()
    ensures var lines := [EntryLine("a1", "Office Supplies", Numeric(100.0), ""),
                          EntryLine("b1", "Checking", Numeric(-50.0), "")];
      && Validate(Kind.Expense, "Supplies", lines) == None
      && Sum(BuildEntries(lines, "t1", 0), TransactionReducer.Amount) == 50.0
  {
    var lines := [EntryLine("a1", "Office Supplies", Numeric(100.0), ""),
                  EntryLine("b1", "Checking", Numeric(-50.0), "")];
    assert !IsBlank("Supplies") by {
      assert !IsWhitespace("Supplies"[0]);
    }
    FilterKeepsAll(lines, IsComplete);
  }

  /**
   * A journal's balance is checked over all its lines, but only complete
   * lines are saved: an amount typed on a line with no account makes the
   * check pass and then disappears from the saved transaction.
   */
  lemma IncompleteLineCountedInBalance()
    ensures var lines := [EntryLine("a1", "Cash", Numeric(100.0), ""),
                          EntryLine("b1", "Sales", Numeric(-50.0), ""),
                          EntryLine("", "", Numeric(-50.0), "")];
      && Validate(Kind.Journal, "Sale", lines) == None
      && Sum(BuildEntries(lines, "t1", 0), TransactionReducer.Amount) == 50.0
  {
    var cash, sales, loose := EntryLine("a1", "Cash", Numeric(100.0), ""),
                              EntryLine("b1", "Sales", Numeric(-50.0), ""),
                              EntryLine("", "", Numeric(-50.0), "");
    var lines := [cash, sales, loose];
    assert !IsBlank("Sale") by {
      assert !IsWhitespace("Sale"[0]);
    }
    assert IsComplete(cash) && IsComplete(sales) && !IsComplete(loose);
    assert Filter(lines, IsComplete) == [cash, sales] by {
      assert lines[1..] == [sales, loose];
      assert lines[1..][1..] == [loose];
      assert Filter([loose], IsComplete) == [];
    }
    assert Sum([cash, sales], LineValue) == 50.0 by {
      assert [cash, sales][1..] == [sales];
      assert Sum([sales], LineValue) == -50.0;
    }
    assert Sum(lines, LineValue) == 0.0 by {
      assert lines[1..] == [sales, loose];
      assert [sales, loose][1..] == [loose];
      assert Sum([loose], LineValue) == -50.0;
    }
  }

  /**
   * The journal check allows a difference of exactly the tolerance, which
   * `doesTransactionBalance` refuses: the two balance checks disagree at
   * the boundary.
   */
  lemma ToleranceBoundary()
    ensures var lines := [EntryLine("a1", "Cash", Numeric(1.001), ""),
                          EntryLine("b1", "Sales", Numeric(-1.0), "")];
      && Validate(Kind.Journal, "Sale", lines) == None
      && !Validation.DoesTransactionBalance([Some(1.001), Some(-1.0)])
  {
    var cash, sales := EntryLine("a1", "Cash", Numeric(1.001), ""), EntryLine("b1", "Sales", Numeric(-1.0), "");
    var lines := [cash, sales];
    assert !IsBlank("Sale") by {
      assert !IsWhitespace("Sale"[0]);
    }
    FilterKeepsAll(lines, IsComplete);
    assert Sum(lines, LineValue) == 0.001 by {
      assert lines[1..] == [sales];
      assert Sum([sales], LineValue) == -1.0;
    }
    var amounts: seq<Option<real>> := [Some(1.001), Some(-1.0)];
    assert Sum(amounts, Validation.OrZero) == 0.001 by {
      assert amounts[1..] == [Some(-1.0)];
      assert Sum([Some(-1.0)], Validation.OrZero) == -1.0;
    }
  }
}
