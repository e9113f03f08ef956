/**
 * The form validators of `validationUtils`. Each regular expression is
 * written as a check over the string's characters, and each check is proved
 * equivalent to a declarative description of the strings the expression
 * accepts. A JavaScript number is `NaN` or a finite value.
 */
module Validation {
  import opened Wrappers
  import opened Text
  import opened Lists

  /** `isEmpty(value)`: null or undefined (`None`), or nothing but whitespace. */
  function IsEmpty(value: Option<string>): (r: bool)
    ensures r <==> value.None? || IsBlank(value.value)
  {
    value.None? || Trim(value.value) == ""
  }

  // ---- isValidEmail: /^[a-zA-Z0-9._%+-]+@[a-zA-Z0-9.-]+\.[a-zA-Z]{2,}$/

  predicate LocalChar(c: char) { IsAlphanumeric(c) || c in "._%+-" }

  predicate DomainChar(c: char) { IsAlphanumeric(c) || c == '.' || c == '-' }

  /**
   * The email expression matches `e` with its `@` at `at` and the dot before
   * the top-level label at `dot`.
   */
  predicate EmailSplit(e: string, at: int, dot: int)
  {
    && 0 < at && at + 1 < dot && dot + 2 < |e|
    && e[at] == '@' && e[dot] == '.'
    && (forall i :: 0 <= i < at ==> LocalChar(e[i]))
    && (forall i :: at < i < dot ==> DomainChar(e[i]))
    && (forall i :: dot < i < |e| ==> IsLetter(e[i]))
  }

  /**
   * `isValidEmail(e)`. The expression can only place its `@` at the one `@`
   * of the address and its final dot at the last dot, so trying that single
   * split decides the match.
   */
  function IsValidEmail(e: string): (r: bool)
    ensures r <==> exists at, dot :: EmailSplit(e, at, dot)
  {
    var at := IndexOf(e, '@');
    var dot := LastIndexOf(e, '.');
    var r := !IsEmpty(Some(e)) && EmailSplit(e, at, dot);
    assert (exists at', dot' :: EmailSplit(e, at', dot')) ==> r by {
      if exists at', dot' :: EmailSplit(e, at', dot') {
        var at', dot' :| EmailSplit(e, at', dot');
        EmailSplitIsFound(e, at', dot');
      }
    }
    r
  }

  /** Any split the expression can match is the first `@` and the last dot, of a non-blank address. */
  lemma EmailSplitIsFound(e: string, at: int, dot: int)
    requires EmailSplit(e, at, dot)
    ensures at == IndexOf(e, '@') && dot == LastIndexOf(e, '.') && !IsBlank(e)
  {
    assert !IsWhitespace(e[0]);
    assert forall i :: 0 <= i < at ==> e[i] != '@';
    assert forall i :: dot < i < |e| ==> e[i] != '.';
  }

  /** No character class of the expression contains `@`. */
  lemma NotAt(c: char)
    ensures LocalChar(c) || DomainChar(c) || IsLetter(c) || c == '.' ==> c != '@'
  {
  }

  /**
   * A valid address has exactly one `@`, a non-empty part before it, and a
   * final dot-separated label of at least two letters.
   */
  lemma {:induction false} ValidEmailShape(e: string)
    requires IsValidEmail(e)
    ensures exists at :: 0 < at < |e| && e[at] == '@' && forall i :: 0 <= i < |e| && e[i] == '@' ==> i == at
    ensures exists dot :: (0 <= dot && dot + 2 < |e| && e[dot] == '.'
      && forall i :: dot < i < |e| ==> IsLetter(e[i]))
  {
    var at, dot :| EmailSplit(e, at, dot);
    forall i | 0 <= i < |e| && i != at ensures e[i] != '@' {
      NotAt(e[i]);
    }
    assert 0 < at < |e| && e[at] == '@';
    assert 0 <= dot && dot + 2 < |e| && e[dot] == '.';
  }

  // ---- isStrongPassword

  /** `isStrongPassword(p)`; the length is JavaScript's, in UTF-16 code units. */
  function IsStrongPassword(p: string): (r: bool)
    ensures r <==> (JsLength(p) >= 8
      && (exists i :: 0 <= i < |p| && IsUpper(p[i]))
      && (exists i :: 0 <= i < |p| && IsLower(p[i]))
      && (exists i :: 0 <= i < |p| && IsDigit(p[i])))
  {
    var hasUpper := Any(p, IsUpper);
    var r := !(IsEmpty(Some(p)) || JsLength(p) < 8) && hasUpper && Any(p, IsLower) && Any(p, IsDigit);
    assert hasUpper ==> !IsBlank(p) by {
      if hasUpper {
        var i :| 0 <= i < |p| && IsUpper(p[i]);
        assert !IsWhitespace(p[i]);
      }
    }
    r
  }
  /**
   * Six characters can make a strong password: three emoji above U+FFFF
   * count as six code units, for a length of nine.
   */
  lemma AstralCharactersCountTwice()
    ensures |"Aa1\U{1F600}\U{1F600}\U{1F600}"| == 6
    ensures JsLength("Aa1\U{1F600}\U{1F600}\U{1F600}") == 9
    ensures IsStrongPassword("Aa1\U{1F600}\U{1F600}\U{1F600}")
  {
    var p := "Aa1\U{1F600}\U{1F600}\U{1F600}";
    assert IsUpper(p[0]) && IsLower(p[1]) && IsDigit(p[2]);
  }

  // ---- isValidPhone

  /** `phone.replace(/\D/g, "")`: the digits of `s`, in order. */
  function Digits(s: string): (r: string)
    ensures forall i :: 0 <= i < |r| ==> IsDigit(r[i])
    ensures IsSubsequence(r, s)
  {
    FilterIsSubsequence(s, IsDigit);
    Filter(s, IsDigit)
  }

  /** `isValidPhone(phone)`: between 10 and 15 digits, whatever else the text holds. */
  function IsValidPhone(phone: string): (r: bool)
    ensures r <==> 10 <= |Digits(phone)| <= 15
  {
    var n := |Digits(phone)|;
    var r := !IsEmpty(Some(phone)) && n >= 10 && n <= 15;
    assert n > 0 ==> !IsBlank(phone) by {
      if n > 0 {
        assert Digits(phone)[0] in phone;
      }
    }
    r
  }

  /** Inserting a separator, a space or any other non-digit never changes the verdict. */
  lemma PhoneIgnoresNonDigits(phone: string, k: nat, c: char)
    requires k <= |phone| && !IsDigit(c)
    ensures IsValidPhone(phone[..k] + [c] + phone[k..]) == IsValidPhone(phone)
  {
    var a, b := phone[..k], phone[k..];
    assert a + b == phone;
    assert Filter([c], IsDigit) == [];
    FilterConcat(a, [c], IsDigit);
    FilterConcat(a + [c], b, IsDigit);
    FilterConcat(a, b, IsDigit);
  }

  // ---- number checks

  /** A JavaScript number: `NaN` or a finite value. */
  datatype JsNumber = NaN | Finite(value: real)

  /** `isPositiveNumber(value)`, for a value already given as a number: `NaN` is refused. */
  function IsPositiveNumber(n: JsNumber): (r: bool)
    ensures r ==> n.Finite? && n != Finite(0.0)
    ensures n.Finite? ==> (r <==> 0.0 < n.value)
  {
    n != NaN && n.value > 0.0
  }

  /** `isNonNegativeNumber(value)`, for a value already given as a number: `NaN` is refused. */
  function IsNonNegativeNumber(n: JsNumber): (r: bool)
    ensures r ==> n.Finite?
    ensures n.Finite? ==> (r <==> !(n.value < 0.0))
  {
    n != NaN && n.value >= 0.0
  }

  /** A positive number is non-negative; the only non-negative number that is not positive is zero. */
  lemma PositiveIsNonNegative(n: JsNumber)
    ensures IsPositiveNumber(n) ==> IsNonNegativeNumber(n)
    ensures IsNonNegativeNumber(n) && !IsPositiveNumber(n) <==> n == Finite(0.0)
  {
  }

  /** `isValidTaxRate(rate)`: a percentage from 0 to 100 inclusive; `NaN` is refused. */
  function IsValidTaxRate(rate: JsNumber): (r: bool)
    ensures r ==> IsNonNegativeNumber(rate)
    ensures r <==> rate.Finite? && 0.0 <= rate.value <= 100.0
  {
    !(rate == NaN) && rate.value >= 0.0 && rate.value <= 100.0
  }

  // ---- doesTransactionBalance

  /** `amount || 0`: a missing amount counts as zero. */
  function OrZero(amount: Option<real>): real
  {
    amount.GetOr(0.0)
  }

  /** The tolerance the balance check allows for rounding. */
  const Tolerance: real := 0.001

  /**
   * `doesTransactionBalance(amounts)`: false for an empty list, otherwise
   * whether the amounts sum to zero within the tolerance (strictly).
   */
  function DoesTransactionBalance(amounts: seq<Option<real>>): (r: bool)
    ensures amounts == [] ==> !r
    ensures amounts != [] ==> (r <==> -Tolerance < Sum(amounts, OrZero) < Tolerance)
  {
    if amounts == [] then false
    else
      var sum := Sum(amounts, OrZero);
      (if sum < 0.0 then -sum else sum) < Tolerance
  }

  /** The verdict does not depend on the order of the entries. */
  lemma BalanceIgnoresOrder(a: seq<Option<real>>, b: seq<Option<real>>)
    requires multiset(a) == multiset(b)
    ensures DoesTransactionBalance(a) == DoesTransactionBalance(b)
  {
    SumPermutation(a, b, OrZero);
    if a == [] {
      assert |b| == |multiset(b)| == 0;
    } else {
      assert |b| == |multiset(b)| == |multiset(a)| == |a|;
    }
  }

  /** A debit and a matching credit balance; an entry left blank adds nothing. */
  lemma OffsettingPairBalances(x: real, rest: seq<Option<real>>)
    requires DoesTransactionBalance(rest) || rest == []
    ensures DoesTransactionBalance([Some(x), Some(-x)] + rest)
    ensures DoesTransactionBalance(rest) ==> DoesTransactionBalance(rest + [None])
  {
    SumConcat([Some(x), Some(-x)], rest, OrZero);
    SumConcat(rest, [None], OrZero);
  }

  // ---- isValidDateString, shape half: /^\d{4}-\d{2}-\d{2}$/

  /** Four digits, a dash, two digits, a dash, two digits. */
  predicate DateShape(s: string)
  {
    |s| == 10 && s[4] == '-' && s[7] == '-'
    && forall i :: 0 <= i < 10 && i != 4 && i != 7 ==> IsDigit(s[i])
  }

  /** `s` matches `pattern` position by position; a `'#'` in the pattern stands for any digit. */
  function MatchesPattern(s: string, pattern: string): (r: bool)
    ensures r <==> (|s| == |pattern|
      && forall i :: 0 <= i < |s| ==> if pattern[i] == '#' then IsDigit(s[i]) else s[i] == pattern[i])
  {
    if s == [] || pattern == [] then s == pattern
    else
      (if pattern[0] == '#' then IsDigit(s[0]) else s[0] == pattern[0])
      && MatchesPattern(s[1..], pattern[1..])
  }

  /**
   * `isValidDateString(s)`. The calendar check `new Date(s)` is not part of
   * this model; `isCalendarDate` stands for its verdict.
   */
  function IsValidDateString(s: string, isCalendarDate: string -> bool): (r: bool)
    ensures r <==> DateShape(s) && isCalendarDate(s)
  {
    var shaped := MatchesPattern(s, "####-##-##");
    assert shaped ==> !IsBlank(s) by {
      if shaped {
        assert !IsWhitespace(s[0]);
      }
    }
    !IsEmpty(Some(s)) && shaped && isCalendarDate(s)
  }

  /** A well-shaped date is a four-digit year, a two-digit month and a two-digit day joined by dashes. */
  lemma DateShapeSplit(s: string)
    requires DateShape(s)
    ensures s == s[..4] + "-" + s[5..7] + "-" + s[8..]
    ensures |s[..4]| == 4 && |s[5..7]| == 2 && |s[8..]| == 2
    ensures forall i :: 0 <= i < 4 ==> IsDigit(s[..4][i])
  {
  }

  // ---- isValidAccountNumber and isValidInvoiceNumber

  /** `[a-zA-Z0-9\-\s]`. */
  predicate AccountNumberChar(c: char) { IsAlphanumeric(c) || c == '-' || IsWhitespace(c) }

  /** `[a-zA-Z0-9\-\.]`. */
  predicate InvoiceNumberChar(c: char) { IsAlphanumeric(c) || c == '-' || c == '.' }

  /**
   * `isValidAccountNumber(s)`: letters, digits, dashes and whitespace only,
   * and not whitespace alone.
   */
  function IsValidAccountNumber(s: string): (r: bool)
    ensures r <==> ((forall i :: 0 <= i < |s| ==> AccountNumberChar(s[i]))
      && exists i :: 0 <= i < |s| && !IsWhitespace(s[i]))
  {
    !IsEmpty(Some(s)) && |s| > 0 && All(s, AccountNumberChar)
  }

  /** `isValidInvoiceNumber(s)`: one or more letters, digits, dashes and dots. */
  function IsValidInvoiceNumber(s: string): (r: bool)
    ensures r <==> |s| > 0 && forall i :: 0 <= i < |s| ==> InvoiceNumberChar(s[i])
  {
    var r := !IsEmpty(Some(s)) && |s| > 0 && All(s, InvoiceNumberChar);
    assert |s| > 0 && InvoiceNumberChar(s[0]) ==> !IsBlank(s);
    r
  }
}
