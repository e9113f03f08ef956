/**
 * The onboarding step that sets up the chart of accounts: a list of
 * account templates the user ticks, and the accounts built from the ticked
 * ones when the user continues.
 */
module ChartOfAccounts {
  import opened Wrappers
  import opened Types
  import opened Lists
  import opened Text
  import opened Actions
  import App

  datatype Template = Template(name: string, accountType: AccountType, subtype: AccountSubtype, isSelected: bool)

  /** The templates offered, grouped by type; all but "Interest Income" start ticked. */
  const DefaultTemplates: seq<Template> :=
    AssetTemplates + LiabilityTemplates + EquityTemplates + IncomeTemplates + ExpenseTemplates

  const AssetTemplates: seq<Template> := [
    Template("Checking Account", Asset, Bank, true),
    Template("Savings Account", Asset, Bank, true),
    Template("Accounts Receivable", Asset, AccountsReceivable, true),
    Template("Inventory", Asset, Inventory, true),
    Template("Office Equipment", Asset, FixedAsset, true)]

  const LiabilityTemplates: seq<Template> := [
    Template("Accounts Payable", Liability, AccountsPayable, true),
    Template("Credit Card", Liability, CreditCard, true),
    Template("Sales Tax Payable", Liability, TaxPayable, true)]

  const EquityTemplates: seq<Template> := [
    Template("Owner's Equity", Equity, OwnerEquity, true),
    Template("Retained Earnings", Equity, RetainedEarnings, true)]

  const IncomeTemplates: seq<Template> := [
    Template("Sales Revenue", Income, Sales, true),
    Template("Interest Income", Income, OtherIncome, false)]

  const ExpenseTemplates: seq<Template> := [
    Template("Rent Expense", Expense, OperatingExpense, true),
    Template("Utilities", Expense, OperatingExpense, true),
    Template("Office Supplies", Expense, OperatingExpense, true),
    Template("Payroll", Expense, Payroll, true),
    Template("Insurance", Expense, OperatingExpense, true),
    Template("Income Tax", Expense, TaxExpense, true)]

  /** Every template's subtype belongs to its type. */
  predicate WellTyped(ts: seq<Template>)
  {
    forall t | t in ts :: t.subtype in SubtypesOf(t.accountType)
  }

  /** No two templates share a name and a type. */
  predicate UniqueRows(ts: seq<Template>)
  {
    forall i, j :: 0 <= i < j < |ts| ==> ts[i].name != ts[j].name || ts[i].accountType != ts[j].accountType
  }

  /** Every template in `ts` is of type `t`. */
  predicate OfTypeOnly(ts: seq<Template>, t: AccountType)
  {
    forall x | x in ts :: x.accountType == t
  }

  /**
   * The default list has eighteen templates, each pairing a type with one of
   * that type's subtypes, and no two with the same name and type.
   */
  lemma DefaultTemplatesValid()
    ensures |DefaultTemplates| == 18
    ensures WellTyped(DefaultTemplates) && UniqueRows(DefaultTemplates)
  {
    AssetTemplatesTyped();
    AssetTemplatesUnique();
    LiabilityTemplatesTyped();
    LiabilityTemplatesUnique();
    EquityTemplatesTyped();
    EquityTemplatesUnique();
    IncomeTemplatesTyped();
    IncomeTemplatesUnique();
    ExpenseTemplatesTyped();
    ExpenseTemplatesUnique();
    var al := AssetTemplates + LiabilityTemplates;
    RowsConcat(AssetTemplates, LiabilityTemplates);
    RowsConcat(al, EquityTemplates);
    RowsConcat(al + EquityTemplates, IncomeTemplates);
    RowsConcat(al + EquityTemplates + IncomeTemplates, ExpenseTemplates);
  }

  lemma AssetTemplatesTyped()
    ensures WellTyped(AssetTemplates) && OfTypeOnly(AssetTemplates, Asset)
  {
  }

  lemma AssetTemplatesUnique()
    ensures UniqueRows(AssetTemplates)
  {
  }

  lemma LiabilityTemplatesTyped()
    ensures WellTyped(LiabilityTemplates) && OfTypeOnly(LiabilityTemplates, Liability)
  {
  }

  lemma LiabilityTemplatesUnique()
    ensures UniqueRows(LiabilityTemplates)
  {
  }

  lemma EquityTemplatesTyped()
    ensures WellTyped(EquityTemplates) && OfTypeOnly(EquityTemplates, Equity)
  {
  }

  lemma EquityTemplatesUnique()
    ensures UniqueRows(EquityTemplates)
  {
  }

  lemma IncomeTemplatesTyped()
    ensures WellTyped(IncomeTemplates) && OfTypeOnly(IncomeTemplates, Income)
  {
  }

  lemma IncomeTemplatesUnique()
    ensures UniqueRows(IncomeTemplates)
  {
  }

  lemma ExpenseTemplatesTyped()
    ensures WellTyped(ExpenseTemplates) && OfTypeOnly(ExpenseTemplates, Expense)
  {
  }

  lemma ExpenseTemplatesUnique()
    ensures UniqueRows(ExpenseTemplates)
  {
  }

  /** Lists of valid templates whose types differ join into a valid list. */
  lemma RowsConcat(a: seq<Template>, b: seq<Template>)
    requires WellTyped(a) && WellTyped(b) && UniqueRows(a) && UniqueRows(b)
    requires forall x, y | x in a && y in b :: x.accountType != y.accountType
    ensures WellTyped(a + b) && UniqueRows(a + b)
  {
    forall i, j | 0 <= i < j < |a + b|
      ensures (a + b)[i].name != (a + b)[j].name || (a + b)[i].accountType != (a + b)[j].accountType
    {
      if j < |a| {
        assert (a + b)[i] == a[i] && (a + b)[j] == a[j];
      } else if i >= |a| {
        assert (a + b)[i] == b[i - |a|] && (a + b)[j] == b[j - |a|];
      } else {
        assert (a + b)[i] in a && (a + b)[j] in b;
      }
    }
  }

  /** The row test of `findIndex`: same name and same type. */
  function SameRow(x: Template): Template -> bool
  {
    (y: Template) => y.name == x.name && y.accountType == x.accountType
  }

  /**
   * `defaultAccounts.findIndex(acc => acc.name === account.name && acc.type === account.type)`:
   * with unique rows each rendered row finds its own index, so a tick
   * toggles the row it was made on.
   */
  lemma LookupFindsOwnRow(ts: seq<Template>, i: nat)
    requires UniqueRows(ts) && i < |ts|
    ensures FindIndex(ts, SameRow(ts[i])) == i
  {
    var r := FindIndex(ts, SameRow(ts[i]));
    assert SameRow(ts[i])(ts[i]);
  }

  /** The list after `toggleAccountSelection(index)`. */
  function Toggled(ts: seq<Template>, index: nat): (r: seq<Template>)
    requires index < |ts|
    ensures |r| == |ts|
  {
    ts[index := ts[index].(isSelected := !ts[index].isSelected)]
  }

  /**
   * A toggle flips the one tick and changes nothing else: toggling twice
   * restores the list, and the rows stay unique and well typed.
   */
  lemma ToggleFlipsOne(ts: seq<Template>, index: nat)
    requires index < |ts|
    ensures forall i :: 0 <= i < |ts| ==>
      Toggled(ts, index)[i].(isSelected := ts[i].isSelected) == ts[i]
      && (Toggled(ts, index)[i].isSelected == (ts[i].isSelected != (i == index)))
    ensures Toggled(Toggled(ts, index), index) == ts
    ensures UniqueRows(ts) ==> UniqueRows(Toggled(ts, index))
    ensures WellTyped(ts) ==> WellTyped(Toggled(ts, index))
  {
  }

  class ChartOfAccountsForm {
    var templates: seq<Template>

    constructor()
      ensures templates == DefaultTemplates
    {
      templates := DefaultTemplates;
    }

    /** `toggleAccountSelection(index)`. */
    method ToggleSelection(index: nat)
      requires index < |templates|
      modifies this
      ensures templates == Toggled(old(templates), index)
    {
      var updated := templates;
      updated := updated[index := updated[index].(isSelected := !updated[index].isSelected)];
      templates := updated;
    }
  }

  predicate IsSelected(t: Template) { t.isSelected }

  /** `acc-${Date.now()}-${idx}`. */
  function AccountId(stamp: Date, index: nat): string
  {
    "acc-" + IntToString(stamp) + "-" + NatToString(index)
  }

  /** The accounts built from the ticked templates, numbered from `start`. */
  function BuildAccounts(selected: seq<Template>, now: Date, stamp: Date, start: nat): (r: seq<Account>)
    ensures |r| == |selected|
    ensures forall i :: 0 <= i < |selected| ==>
      && r[i].id == AccountId(stamp, start + i)
      && r[i].name == selected[i].name && r[i].accountType == selected[i].accountType
      && r[i].subtype == selected[i].subtype
      && r[i].balance == 0.0 && r[i].isActive && !r[i].isArchived
      && r[i].createdAt == now && r[i].updatedAt == now
  {
    if selected == [] then []
    else
      var t := selected[0];
      [Account(AccountId(stamp, start), t.name, t.accountType, t.subtype, None, None, 0.0, true, false, now, now)]
      + BuildAccounts(selected[1..], now, stamp, start + 1)
  }

  /**
   * `handleContinue()`: nothing is dispatched when no template is ticked;
   * otherwise one `CREATE_ACCOUNTS_BATCH` carrying an account per ticked
   * template, in order. `now` and `stamp` are the two clock reads.
   */
  function HandleContinue(ts: seq<Template>, now: Date, stamp: Date): (r: Option<Action>)
    ensures r.None? <==> forall i :: 0 <= i < |ts| ==> !ts[i].isSelected
    ensures r.Some? ==> (
      && r.value.OtherAct? && r.value.otherAction.CreateAccountsBatch?
      && r.value.otherAction.accounts == BuildAccounts(Filter(ts, IsSelected), now, stamp, 0)
      && 0 < |r.value.otherAction.accounts| <= |ts|)
  {
    var selected := Filter(ts, IsSelected);
    if |selected| == 0 then
      assert forall i | 0 <= i < |ts| :: !ts[i].isSelected by {
        forall i | 0 <= i < |ts| ensures !ts[i].isSelected {
          assert ts[i] in ts;
        }
      }
      None
    else
      assert selected[0] in selected;
      Some(OtherAct(CreateAccountsBatch(BuildAccounts(selected, now, stamp, 0))))
  }

  /**
   * No reducer handles `CREATE_ACCOUNTS_BATCH`, so continuing leaves the
   * store exactly as it was: the chart of accounts the user picked is never stored.
   */
  lemma ContinueStoresNothing(s: App.AppState, ts: seq<Template>, now: Date, stamp: Date)
    requires HandleContinue(ts, now, stamp).Some?
    ensures App.AppReducer(s, HandleContinue(ts, now, stamp).value) == s
  {
  }

  /** With the default ticks, continuing dispatches a batch. */
  lemma DefaultContinueDispatches(now: Date, stamp: Date)
    ensures HandleContinue(DefaultTemplates, now, stamp).Some?
  {
    assert DefaultTemplates[0].isSelected;
  }

  predicate OfType(t: AccountType, x: Template) { x.accountType == t }

  /** The templates listed under one type's heading, in order. */
  function Group(ts: seq<Template>, t: AccountType): (r: seq<Template>)
    ensures forall x | x in r :: x in ts && x.accountType == t
    ensures forall x | x in ts && x.accountType == t :: x in r
  {
    var r := Filter(ts, (x: Template) => OfType(t, x));
    r
  }

  /** The five headings together list every template exactly once. */
  lemma {:induction false} GroupsPartition(ts: seq<Template>)
    ensures |Group(ts, Asset)| + |Group(ts, Liability)| + |Group(ts, Equity)|
            + |Group(ts, Income)| + |Group(ts, Expense)| == |ts|
  {
    if ts != [] {
      GroupsPartition(ts[1..]);
    }
  }
}
