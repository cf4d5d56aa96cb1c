/**
 * Decimal text of integers, as the handler reads and writes it: `Parse` is
 * Python's `int(text)` on a query parameter, `Show` is `str(n)`, which is what
 * `.format` substitutes into the query text.
 */
module IntText {
  import opened Wrappers

  /**
   * The ASCII characters `int(text)` skips around its digits: the space and
   * the controls 9 to 13 (C's `isspace`; not the separators 28 to 31).
   */
  predicate IsSpace(c: char) {
    c == ' ' || 9 <= c as int <= 13
  }

  predicate IsDigit(c: char) {
    '0' <= c <= '9'
  }

  function DropLeadingSpace(s: string): (r: string)
    ensures |r| <= |s| && r == s[|s| - |r|..]
    ensures r != [] ==> !IsSpace(r[0])
  {
    if |s| > 0 && IsSpace(s[0]) then DropLeadingSpace(s[1..]) else s
  }

  function DropTrailingSpace(s: string): (r: string)
    ensures |r| <= |s| && r == s[..|r|]
    ensures r != [] ==> !IsSpace(r[|r| - 1])
  {
    if |s| > 0 && IsSpace(s[|s| - 1]) then DropTrailingSpace(s[..|s| - 1]) else s
  }

  /** `text` with the whitespace `int(text)` skips removed from both ends. */
  function Strip(s: string): string {
    DropTrailingSpace(DropLeadingSpace(s))
  }

  /**
   * The digit part Python accepts: digits, where an underscore may stand
   * between two digits but not first, last or twice in a row.
   */
  predicate IsDigitRun(t: string) {
    |t| > 0 && IsDigit(t[0]) && IsDigit(t[|t| - 1]) &&
    (forall i :: 0 <= i < |t| ==> IsDigit(t[i]) || t[i] == '_') &&
    (forall i :: 0 <= i < |t| - 1 ==> t[i] == '_' ==> IsDigit(t[i + 1]))
  }

  function DigitValue(c: char): nat {
    if IsDigit(c) then c as int - '0' as int else 0
  }

  /** The value of a digit run, underscores skipped. */
  function Value(t: string): nat {
    if t == [] then 0
    else if t[|t| - 1] == '_' then Value(t[..|t| - 1])
    else Value(t[..|t| - 1]) * 10 + DigitValue(t[|t| - 1])
  }

  /** `int(text)`: `None` where Python raises `ValueError`. */
  function Parse(s: string): Option<int> {
    ParseTrimmed(Strip(s))
  }

  /** An optional sign and a digit run, the whole of `t`. */
  function ParseTrimmed(t: string): Option<int> {
    if |t| > 0 && (t[0] == '+' || t[0] == '-') then
      var magnitude: int := Value(t[1..]);
      if IsDigitRun(t[1..]) then Some(if t[0] == '-' then -magnitude else magnitude)
      else None
    else if IsDigitRun(t) then Some(Value(t))
    else None
  }

  function DigitChar(d: nat): (c: char)
    requires d < 10
    ensures IsDigit(c) && DigitValue(c) == d
  {
    ('0' as int + d) as char
  }

  /** `str(n)` for `n >= 0`: no sign, no leading zero, no underscore. */
  function ShowNat(n: nat): string
    decreases n
  {
    if n < 10 then [DigitChar(n)] else ShowNat(n / 10) + [DigitChar(n % 10)]
  }

  /** `str(n)`. */
  function Show(n: int): string {
    if n < 0 then "-" + ShowNat(-n) else ShowNat(n)
  }

  lemma {:induction false} ShowNatIsDigits(n: nat)
    ensures |ShowNat(n)| > 0
    ensures forall i :: 0 <= i < |ShowNat(n)| ==> IsDigit(ShowNat(n)[i])
    decreases n
  {
    if n >= 10 {
      ShowNatIsDigits(n / 10);
    }
  }

  lemma {:induction false} ValueOfShowNat(n: nat)
    ensures Value(ShowNat(n)) == n
    decreases n
  {
    var s := ShowNat(n);
    if n < 10 {
      assert s[..0] == [];
    } else {
      ValueOfShowNat(n / 10);
      assert s[..|s| - 1] == ShowNat(n / 10);
    }
  }

  lemma StripKeepsTrimmed(s: string)
    requires |s| > 0 && !IsSpace(s[0]) && !IsSpace(s[|s| - 1])
    ensures Strip(s) == s
  {
  }

  lemma ShowNatIsDigitRun(n: nat)
    ensures IsDigitRun(ShowNat(n))
  {
    ShowNatIsDigits(n);
  }

  lemma ParseDigitRun(d: string)
    requires IsDigitRun(d)
    ensures Parse(d) == Some(Value(d))
  {
    StripKeepsTrimmed(d);
  }

  lemma ParseNegatedDigitRun(d: string)
    requires IsDigitRun(d)
    ensures Parse("-" + d) == Some(-(Value(d) as int))
  {
    var t := "-" + d;
    assert t[|t| - 1] == d[|d| - 1];
    StripKeepsTrimmed(t);
    assert t[1..] == d;
  }

  /** What the handler prints is what it reads back: `int(str(n)) == n`. */
  lemma ParseShow(n: int)
    ensures Parse(Show(n)) == Some(n)
  {
    var m: nat := if n < 0 then -n else n;
    ShowNatIsDigitRun(m);
    ValueOfShowNat(m);
    if n < 0 {
      ParseNegatedDigitRun(ShowNat(m));
    } else {
      ParseDigitRun(ShowNat(m));
    }
  }

  /** A leading whitespace character does not change what `int` reads. */
  lemma {:induction false} ParseIgnoresPadding(s: string, c: char)
    requires IsSpace(c)
    ensures Parse([c] + s) == Parse(s)
  {
    assert ([c] + s)[1..] == s;
    assert DropLeadingSpace([c] + s) == DropLeadingSpace(s);
  }

  /** A file separator (28) before the digits is not whitespace to `int`: it is refused. */
  lemma SeparatorIsNotPadding(s: string)
    requires IsDigitRun(s)
    ensures Parse([28 as char] + s) == None
  {
    var t := [28 as char] + s;
    assert t[1..] == s;
    assert DropLeadingSpace(t) == t;
    assert DropTrailingSpace(t) == t;
  }
}
