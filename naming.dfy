/**
 * The derived display name of `_onNameChange` (module/actor/actor-sheet.js):
 * `base-label-sector-clone`, with the clone number rendered as JavaScript renders an
 * integer, and the laws that let the parts be read back.
 */
module Naming {
  import opened Wrappers

  predicate IsDigit(c: char) {
    '0' <= c <= '9'
  }

  predicate AllDigits(s: string) {
    forall i :: 0 <= i < |s| ==> IsDigit(s[i])
  }

  function DigitChar(d: nat): (c: char)
    requires d < 10
    ensures IsDigit(c) && c as int - '0' as int == d
  {
    ('0' as int + d) as char
  }

  /** Decimal digits of `n`, most significant first, without leading zeros. */
  function NatDigits(n: nat): (s: string)
    ensures |s| >= 1 && AllDigits(s)
    ensures |s| > 1 ==> s[0] != '0'
    decreases n
  {
    if n < 10 then [DigitChar(n)] else NatDigits(n / 10) + [DigitChar(n % 10)]
  }

  /** The value of a string of decimal digits. */
  function DigitsValue(s: string): (v: nat)
    requires AllDigits(s)
  {
    if s == [] then 0 else DigitsValue(s[..|s| - 1]) * 10 + (s[|s| - 1] as int - '0' as int)
  }

  /** Reading back the rendered digits gives the number. */
  lemma {:induction false} DigitsRoundTrip(n: nat)
    ensures DigitsValue(NatDigits(n)) == n
    decreases n
  {
    if n >= 10 {
      DigitsRoundTrip(n / 10);
      var s := NatDigits(n);
      assert s[..|s| - 1] == NatDigits(n / 10);
    }
  }

  /** The decimal rendering of an integer: `String(n)` for integers JavaScript holds exactly and writes without an exponent. */
  function DecimalString(n: int): (s: string)
    ensures n >= 0 ==> AllDigits(s) && DigitsValue(s) == n
    ensures n >= 0 ==> |s| >= 1 && (|s| > 1 ==> s[0] != '0')
    ensures n < 0 ==> |s| >= 2 && s[0] == '-' && AllDigits(s[1..]) && DigitsValue(s[1..]) == -n
    ensures n < 0 ==> s[1] != '0'
  {
    DigitsRoundTrip(if n < 0 then -n else n);
    if n < 0 then "-" + NatDigits(-n) else NatDigits(n)
  }

  /** The name root: `basename` when it is defined and not null, otherwise the current name. */
  function BaseName(basename: Option<string>, currentName: string): (r: string)
    ensures r == currentName || basename == Some(r)
  {
    match basename
    case Some(b) => b
    case None => currentName
  }

  /** Once the root is stored as `basename`, it stays the root whatever the current name becomes. */
  lemma BaseNameStable(basename: Option<string>, currentName: string, laterName: string)
    ensures BaseName(Some(BaseName(basename, currentName)), laterName) == BaseName(basename, currentName)
  {
  }

  /** The root, the clearance label, the sector and the clone number, joined by '-'. */
  function ComposedName(base: string, levelLabel: string, sector: string, clone: int): (r: string)
    ensures |r| == |base| + |levelLabel| + |sector| + |DecimalString(clone)| + 3
    ensures r[..|base| + 1] == base + "-"
    ensures r[|r| - |DecimalString(clone)| - 1..] == "-" + DecimalString(clone)
  {
    base + "-" + levelLabel + "-" + sector + "-" + DecimalString(clone)
  }

  /** The text after the last `sep` in `s` (all of `s` when `sep` does not occur). */
  function AfterLast(s: string, sep: char): (r: string)
    ensures sep !in r
    ensures |r| <= |s| && r == s[|s| - |r|..]
  {
    if s == [] || s[|s| - 1] == sep then [] else AfterLast(s[..|s| - 1], sep) + [s[|s| - 1]]
  }

  lemma {:induction false} AfterLastSeparator(p: string, sep: char, t: string)
    requires sep !in t
    ensures AfterLast(p + [sep] + t, sep) == t
  {
    if t != [] {
      var n := |t| - 1;
      AfterLastSeparator(p, sep, t[..n]);
      assert (p + [sep] + t)[..|p + [sep] + t| - 1] == p + [sep] + t[..n];
    }
  }

  /** A run of digits after a last `-` is the field `AfterLast` reads. */
  lemma DigitsAfterSeparator(prefix: string, digits: string)
    requires AllDigits(digits)
    ensures AfterLast(prefix + ['-'] + digits, '-') == digits
  {
    forall i | 0 <= i < |digits| ensures digits[i] != '-' {
      assert IsDigit(digits[i]);
    }
    AfterLastSeparator(prefix, '-', digits);
  }

  /** A non-negative clone number renders as the digits after the last separator. */
  lemma NonNegativeCloneField(prefix: string, clone: int)
    requires clone >= 0
    ensures AfterLast(prefix + "-" + DecimalString(clone), '-') == DecimalString(clone)
  {
    DigitsAfterSeparator(prefix, DecimalString(clone));
  }

  /** A negative clone number renders as a second `-` followed by its magnitude's digits. */
  lemma NegativeCloneField(prefix: string, clone: int)
    requires clone < 0
    ensures prefix + "-" + DecimalString(clone) == prefix + "--" + DecimalString(clone)[1..]
    ensures AfterLast(prefix + "-" + DecimalString(clone), '-') == DecimalString(clone)[1..]
  {
    var digits := DecimalString(clone)[1..];
    assert DecimalString(clone) == "-" + digits;
    assert prefix + "-" + DecimalString(clone) == (prefix + "-") + ['-'] + digits;
    DigitsAfterSeparator(prefix + "-", digits);
  }

  /**
   * The clone number can be read back from a composed name: a non-negative one is the last
   * `-`-separated field; a negative one leaves its magnitude there, after a doubled `-`.
   */
  lemma CloneNumberReadBack(base: string, levelLabel: string, sector: string, clone: int)
    ensures clone >= 0 ==> AfterLast(ComposedName(base, levelLabel, sector, clone), '-') == DecimalString(clone)
    ensures clone < 0 ==> AfterLast(ComposedName(base, levelLabel, sector, clone), '-') == DecimalString(clone)[1..]
    ensures DigitsValue(AfterLast(ComposedName(base, levelLabel, sector, clone), '-')) == if clone < 0 then -clone else clone
    ensures clone < 0 ==> ComposedName(base, levelLabel, sector, clone)
                            == base + "-" + levelLabel + "-" + sector + "--" + AfterLast(ComposedName(base, levelLabel, sector, clone), '-')
  {
    var prefix := base + "-" + levelLabel + "-" + sector;
    assert ComposedName(base, levelLabel, sector, clone) == prefix + "-" + DecimalString(clone);
    if clone < 0 {
      NegativeCloneField(prefix, clone);
    } else {
      NonNegativeCloneField(prefix, clone);
    }
  }

  /** A first recomputation for "Bob" of clearance label "RED", sector "A1" and clone 3. */
  lemma ComposedNameExample()
    ensures ComposedName(BaseName(None, "Bob"), "RED", "A1", 3) == "Bob-RED-A1-3"
  {
  }
}
