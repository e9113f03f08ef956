/** The chart-of-accounts list: a text search, a type filter, the hiding of inactive accounts, and the type icons. */
module AccountsScreen {
  import opened Types
  import opened Text
  import opened Lists

  /** The type chips: "ALL" or one account type. */
  datatype TypeFilter = AllTypes | OfType(accountType: AccountType)

  /** The search: the name or the subtype's enum value contains the query, ignoring case. */
  predicate MatchesSearch(a: Account, query: string)
  {
    Includes(ToLower(a.name), ToLower(query)) || Includes(ToLower(SubtypeName(a.subtype)), ToLower(query))
  }

  predicate MatchesType(a: Account, filter: TypeFilter)
  {
    filter == AllTypes || a.accountType == filter.accountType
  }

  /** Only active, unarchived accounts are listed. */
  predicate IsShown(a: Account)
  {
    a.isActive && !a.isArchived
  }

  function Keeps(query: string, filter: TypeFilter): Account -> bool
  {
    a => MatchesSearch(a, query) && MatchesType(a, filter) && IsShown(a)
  }

  /** An empty query matches every account. */
  lemma EmptySearchMatchesAll(a: Account)
    ensures MatchesSearch(a, "")
  {
    IncludesEmpty(ToLower(a.name));
  }

  /**
   * `filteredAccounts`: the stored accounts, in order, that match the search
   * and the type and are active and not archived.
   */
  function FilteredAccounts(accounts: seq<Account>, query: string, filter: TypeFilter): (r: seq<Account>)
    ensures IsSubsequence(r, accounts)
    ensures forall a | a in r :: a.isActive && !a.isArchived && MatchesSearch(a, query)
                                 && (filter.OfType? ==> a.accountType == filter.accountType)
    ensures forall a | a in accounts && Keeps(query, filter)(a) :: a in r
    ensures forall a | a in accounts :: multiset(r)[a] == if Keeps(query, filter)(a) then multiset(accounts)[a] else 0
  {
    var p := Keeps(query, filter);
    FilterIsSubsequence(accounts, p);
    FilterCounts(accounts, p);
    var r := Filter(accounts, p);
    r
  }

  /** Archiving an account removes it from the list, whatever the search and filter. */
  lemma ArchivedAccountHidden(accounts: seq<Account>, query: string, filter: TypeFilter, i: nat)
    requires i < |accounts|
    ensures accounts[i].(isArchived := true) !in FilteredAccounts(accounts[i := accounts[i].(isArchived := true)], query, filter)
  {
  }

  /** With no query and the "ALL" chip every shown account is listed. */
  lemma NoFilterShowsActive(accounts: seq<Account>)
    ensures FilteredAccounts(accounts, "", AllTypes) == Filter(accounts, IsShown)
  {
    forall i | 0 <= i < |accounts| ensures Keeps("", AllTypes)(accounts[i]) == IsShown(accounts[i]) {
      EmptySearchMatchesAll(accounts[i]);
    }
    FilterCongruent(accounts, Keeps("", AllTypes), IsShown);
  }

  /** `getAccountIcon(type)`: income and expense share the `cash-` family of icons. */
  function AccountIcon(t: AccountType): (r: string)
    ensures r != ""
    ensures StartsWith(r, "cash-") <==> t == Income || t == Expense
  {
    var r := match t
      case Asset => "bank"
      case Liability => "credit-card"
      case Equity => "chart-pie"
      case Income => "cash-plus"
      case Expense => "cash-minus";
    assert t != Income && t != Expense ==> |r| < 5 || r[..5][1] != "cash-"[1];
    r
  }

  /** The five account types get five different icons. */
  lemma AccountIconsDistinct(a: AccountType, b: AccountType)
    ensures AccountIcon(a) == AccountIcon(b) <==> a == b
  {
  }
}
