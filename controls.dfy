/** The pagination control strip: Previous, one button per page, Next,
    derived entirely from the current page and the page count. */
module Controls {

  datatype ButtonKind = Previous | PageNumber(page: nat) | Next

  /** A generated button: what it does, its text, its aria-label, whether it
      is disabled, whether it has the `active` class and whether it carries
      aria-current="page". */
  datatype Button = Button(kind: ButtonKind, text: string, ariaLabel: string,
                           disabled: bool, active: bool, ariaCurrent: bool)

  function Digit(d: nat): (c: char)
    requires d < 10
    ensures '0' <= c <= '9' && DigitValue(c) == d
  {
    ('0' as int + d) as char
  }

  function DigitValue(c: char): int {
    c as int - '0' as int
  }

  predicate AllDigits(s: string) {
    forall k :: 0 <= k < |s| ==> '0' <= s[k] <= '9'
  }

  /** The number a string of decimal digits denotes, most significant digit first. */
  function Value(s: string): nat
    requires AllDigits(s)
  {
    if s == [] then 0 else 10 * Value(s[..|s| - 1]) + DigitValue(s[|s| - 1])
  }

  /** The decimal text JavaScript gives a non-negative integer: digits that
      denote `n`, with no leading zero. */
  function DecimalString(n: nat): (s: string)
    ensures |s| >= 1 && (n >= 10 ==> |s| >= 2)
    ensures AllDigits(s) && Value(s) == n
    ensures |s| > 1 ==> s[0] != '0'
  {
    if n < 10 then [Digit(n)]
    else
      var prefix := DecimalString(n / 10);
      var s := prefix + [Digit(n % 10)];
      assert s[..|s| - 1] == prefix;
      s
  }

  /** Different numbers have different decimal texts: each text denotes its
      own number. */
  lemma DecimalStringInjective(a: nat, b: nat)
    requires DecimalString(a) == DecimalString(b)
    ensures a == b
  {
  }

  /** A digit string is worth at least its leading digit. */
  lemma {:induction false} ValueAtLeastLeadingDigit(t: string)
    requires |t| >= 1 && AllDigits(t)
    ensures Value(t) >= DigitValue(t[0])
  {
    if |t| > 1 {
      ValueAtLeastLeadingDigit(t[..|t| - 1]);
    }
  }

  /** The text of a number is determined by its contract: any non-empty digit
      string without a leading zero that denotes `n` is DecimalString(n). */
  lemma {:induction false} DecimalStringUnique(n: nat, s: string)
    requires |s| >= 1 && AllDigits(s) && Value(s) == n
    requires |s| > 1 ==> s[0] != '0'
    ensures s == DecimalString(n)
  {
    if |s| == 1 {
      assert s[..0] == [];
      assert s == [Digit(n)];
    } else {
      var prefix := s[..|s| - 1];
      ValueAtLeastLeadingDigit(prefix);
      assert prefix[0] == s[0];
      assert n / 10 == Value(prefix) && n % 10 == DigitValue(s[|s| - 1]);
      DecimalStringUnique(n / 10, prefix);
      assert s == prefix + [Digit(n % 10)];
    }
  }

  function PreviousButton(current: int): Button {
    Button(Previous, "Previous", "Previous Page", current == 1, false, false)
  }

  function PageButton(i: nat, current: int): Button {
    Button(PageNumber(i), DecimalString(i), "Page " + DecimalString(i), false, i == current, i == current)
  }

  function NextButton(current: int, total: nat): Button {
    Button(Next, "Next", "Next Page", current == total, false, false)
  }

  /** The buttons for pages 1 .. count. */
  function PageButtons(current: int, count: nat): seq<Button> {
    seq(count, k requires 0 <= k => PageButton(k + 1, current))
  }

  /** The container's contents after it is rebuilt for `current` of `total`
      pages: empty when there is at most one page, otherwise Previous,
      1 .. total, Next. */
  function Strip(current: int, total: nat): (s: seq<Button>)
    ensures total <= 1 ==> s == []
    ensures total > 1 ==> |s| == total + 2 && s[0].kind == Previous && s[total + 1].kind == Next
    ensures forall k :: 1 <= k <= total && total > 1 ==> s[k].kind == PageNumber(k) && !s[k].disabled
    ensures total > 1 ==> (s[0].disabled <==> current == 1) && (s[total + 1].disabled <==> current == total)
    ensures forall k :: 0 <= k < |s| ==> (s[k].active <==> k == current && 1 <= k <= total)
    ensures forall k :: 0 <= k < |s| ==> s[k].ariaCurrent == s[k].active
    ensures total > 1 ==> s[0].text == "Previous" && s[0].ariaLabel == "Previous Page"
    ensures total > 1 ==> s[total + 1].text == "Next" && s[total + 1].ariaLabel == "Next Page"
    ensures forall k :: 1 <= k <= total && total > 1 ==>
              s[k].text == DecimalString(k) && s[k].ariaLabel == "Page " + DecimalString(k)
  {
    if total <= 1 then [] else [PreviousButton(current)] + PageButtons(current, total) + [NextButton(current, total)]
  }

  /** Exactly one button of a rendered strip is the current page's: the one
      numbered `current`. */
  lemma ExactlyOneActive(current: int, total: nat)
    requires 1 <= current <= total && total > 1
    ensures Strip(current, total)[current].kind == PageNumber(current)
    ensures Strip(current, total)[current].active && Strip(current, total)[current].ariaCurrent
    ensures forall k :: 0 <= k < |Strip(current, total)| && Strip(current, total)[k].active ==> k == current
  {
  }

  /** Every button of a strip has its own aria-label, so each names its own
      action or page. */
  lemma {:induction false} AriaLabelsDistinct(current: int, total: nat)
    ensures forall j, k :: 0 <= j < k < |Strip(current, total)| ==>
              Strip(current, total)[j].ariaLabel != Strip(current, total)[k].ariaLabel
  {
    var s := Strip(current, total);
    forall j, k | 0 <= j < k < |s| ensures s[j].ariaLabel != s[k].ariaLabel {
      if 1 <= j && k <= total {
        assert s[j].ariaLabel[5..] == DecimalString(j);
        assert s[k].ariaLabel[5..] == DecimalString(k);
      } else if j == 0 && k <= total {
        assert s[j].ariaLabel[1] == 'r' && s[k].ariaLabel[1] == 'a';
      } else {
        assert s[j].ariaLabel[0] == 'P' && s[k].ariaLabel[0] == 'N';
      }
    }
  }
}
