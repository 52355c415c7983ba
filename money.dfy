/** `formatMoney` (app.js:256-258): two decimals, then a comma after every digit
    that is followed by a positive multiple of three digits before the point.
    The amount is given in whole cents, so `toFixed(2)` is exact here. */
module Money {
  import opened Collections

  predicate IsDigit(c: char)
  {
    '0' <= c <= '9'
  }

  function DigitChar(d: nat): (c: char)
    requires d < 10
    ensures IsDigit(c) && c as int - '0' as int == d
  {
    ('0' as int + d) as char
  }

  function DigitValue(c: char): nat
    requires IsDigit(c)
  {
    c as int - '0' as int
  }

  predicate AllDigits(s: string)
  {
    forall i :: 0 <= i < |s| ==> IsDigit(s[i])
  }

  /** The decimal numeral of `n`, without leading zeros. */
  function Digits(n: nat): (s: string)
    ensures |s| >= 1 && AllDigits(s)
    ensures |s| > 1 ==> s[0] != '0'
  {
    if n < 10 then [DigitChar(n)] else Digits(n / 10) + [DigitChar(n % 10)]
  }

  /** The number a string of decimal digits denotes. */
  function Value(s: string): nat
    requires AllDigits(s)
  {
    if s == [] then 0 else Value(s[..|s| - 1]) * 10 + DigitValue(s[|s| - 1])
  }

  /** Reading back a numeral gives the number it was made from. */
  lemma {:induction false} ValueOfDigits(n: nat)
    ensures Value(Digits(n)) == n
  {
    if n >= 10 {
      ValueOfDigits(n / 10);
      var s := Digits(n);
      assert s[..|s| - 1] == Digits(n / 10);
    }
  }

  /** The replacement `/\d(?=(\d{3})+\.)/g` by `'$&,'` on the integer digits `s`:
      a comma follows each digit that has a positive multiple of three digits after it. */
  function Group(s: string): string
  {
    if s == [] then [] else [s[0]] + (if |s| > 1 && (|s| - 1) % 3 == 0 then "," else "") + Group(s[1..])
  }

  /** Grouping inserts exactly one comma per full group of three trailing digits. */
  lemma {:induction false} GroupLength(s: string)
    requires s != []
    ensures |Group(s)| == |s| + (|s| - 1) / 3
  {
    if |s| > 1 {
      GroupLength(s[1..]);
    }
  }

  /** The digits of `s`, separators dropped. */
  function DigitsOf(s: string): string
  {
    Filter(s, IsDigit)
  }

  /** Dropping the separators from a grouped numeral gives the numeral back. */
  lemma {:induction false} UngroupGroup(s: string)
    requires AllDigits(s)
    ensures DigitsOf(Group(s)) == s
  {
    if s != [] {
      var sep: string := if |s| > 1 && (|s| - 1) % 3 == 0 then "," else "";
      assert Group(s) == [s[0]] + sep + Group(s[1..]);
      UngroupGroup(s[1..]);
      UngroupStep(s[0], sep, Group(s[1..]));
      assert [s[0]] + s[1..] == s;
    }
  }

  /** One digit, then at most a comma, in front of `rest`: only the digit survives. */
  lemma UngroupStep(c: char, sep: string, rest: string)
    requires IsDigit(c) && (sep == "" || sep == ",")
    ensures DigitsOf([c] + sep + rest) == [c] + DigitsOf(rest)
  {
    var t, u := [c] + sep + rest, sep + rest;
    assert t[0] == c && t[1..] == u;
    assert Filter(t, IsDigit) == [c] + Filter(u, IsDigit);
    if sep != "" {
      assert u[0] == ',' && u[1..] == rest;
      assert Filter(u, IsDigit) == Filter(rest, IsDigit);
    } else {
      assert u == rest;
    }
  }

  /** Length of the leading group of a numeral of `n >= 1` digits: one to three. */
  function Lead(n: nat): nat
    requires n >= 1
  {
    (n - 1) % 3 + 1
  }

  /** One more digit either opens a new leading group or widens the current one. */
  lemma LeadStep(n: nat)
    requires n >= 2
    ensures (n - 1) % 3 == 0 ==> Lead(n - 1) == 3 && Lead(n) == 1
    ensures (n - 1) % 3 != 0 ==> Lead(n) == Lead(n - 1) + 1
  {
  }

  /** `s` is a run of blocks, each a comma followed by exactly three digits. */
  predicate CommaBlocks(s: string)
    decreases |s|
  {
    s == [] || (|s| >= 4 && s[0] == ',' && AllDigits(s[1..4]) && CommaBlocks(s[4..]))
  }

  /** The grouped numeral is a leading group of one to three digits followed by
      comma-and-three-digit blocks up to its end. */
  lemma {:induction false} GroupShape(s: string)
    requires s != [] && AllDigits(s)
    ensures var g := Group(s); var l := Lead(|s|);
      l <= |g| && AllDigits(g[..l]) && CommaBlocks(g[l..])
  {
    var g := Group(s);
    if |s| == 1 {
      assert g == [s[0]] && Lead(1) == 1;
      assert g[1..] == [];
    } else {
      var rest := Group(s[1..]);
      GroupShape(s[1..]);
      var l' := Lead(|s| - 1);
      LeadStep(|s|);
      if (|s| - 1) % 3 == 0 {
        assert g == [s[0]] + ("," + rest);
        OpenBlock(s[0], rest);
      } else {
        assert g == [s[0]] + rest;
        WidenLead(s[0], rest, l');
      }
    }
  }

  /** A digit, a comma and a numeral whose leading group has three digits. */
  lemma OpenBlock(c: char, rest: string)
    requires IsDigit(c) && 3 <= |rest| && AllDigits(rest[..3]) && CommaBlocks(rest[3..])
    ensures var g := [c] + ("," + rest); AllDigits(g[..1]) && CommaBlocks(g[1..])
  {
    var blocks := "," + rest;
    var g := [c] + blocks;
    assert g[..1] == [c] && g[1..] == blocks;
    assert blocks[1..4] == rest[..3];
    assert blocks[4..] == rest[3..];
  }

  /** A digit in front of a numeral whose leading group has `l` digits. */
  lemma WidenLead(c: char, rest: string, l: nat)
    requires IsDigit(c) && l <= |rest| && AllDigits(rest[..l]) && CommaBlocks(rest[l..])
    ensures var g := [c] + rest; AllDigits(g[..l + 1]) && CommaBlocks(g[l + 1..])
  {
    var g := [c] + rest;
    assert g[..l + 1] == [c] + rest[..l];
    assert g[l + 1..] == rest[l..];
  }

  /** `amount.toFixed(2)` then the grouping, for a non-negative amount of `cents` cents. */
  function FormatMoney(cents: nat): string
  {
    Group(Digits(cents / 100)) + "." + [DigitChar(cents % 100 / 10), DigitChar(cents % 10)]
  }

  lemma CentsSplit(cents: nat)
    ensures (cents / 100 * 10 + cents % 100 / 10) * 10 + cents % 10 == cents
  {
  }

  /** Dropping the separators from the formatted amount leaves the whole-unit
      numeral followed by the two cent digits. */
  lemma FormatMoneyDigitsOf(cents: nat)
    ensures DigitsOf(FormatMoney(cents)) ==
      Digits(cents / 100) + [DigitChar(cents % 100 / 10), DigitChar(cents % 10)]
  {
    UngroupPoint(Digits(cents / 100), DigitChar(cents % 100 / 10), DigitChar(cents % 10));
  }

  /** Dropping the separators from a grouped numeral, a point and two digits leaves
      the numeral followed by the two digits. */
  lemma UngroupPoint(whole: string, d1: char, d2: char)
    requires AllDigits(whole) && IsDigit(d1) && IsDigit(d2)
    ensures DigitsOf(Group(whole) + "." + [d1, d2]) == whole + [d1, d2]
  {
    var g, tail: string := Group(whole), "." + [d1, d2];
    assert g + "." + [d1, d2] == g + tail;
    FilterAppend(g, tail, IsDigit);
    UngroupGroup(whole);
    PointCents(d1, d2);
  }

  /** The point is dropped and the two cent digits are kept. */
  lemma PointCents(d1: char, d2: char)
    requires IsDigit(d1) && IsDigit(d2)
    ensures DigitsOf("." + [d1, d2]) == [d1, d2]
  {
    var tail: string := "." + [d1, d2];
    assert [d2][1..] == [];
    assert Filter([d2], IsDigit) == [d2];
    assert [d1, d2][1..] == [d2];
    assert Filter([d1, d2], IsDigit) == [d1, d2];
    assert tail[1..] == [d1, d2];
  }

  /** The digits of the formatted amount spell the amount in cents. */
  lemma FormatMoneyDigits(cents: nat)
    ensures AllDigits(DigitsOf(FormatMoney(cents)))
    ensures Value(DigitsOf(FormatMoney(cents))) == cents
  {
    var whole := Digits(cents / 100);
    var d1, d2 := DigitChar(cents % 100 / 10), DigitChar(cents % 10);
    FormatMoneyDigitsOf(cents);
    var all := whole + [d1, d2];
    assert all[..|all| - 1] == whole + [d1];
    assert (whole + [d1])[..|whole|] == whole;
    ValueOfDigits(cents / 100);
    assert Value(all) == (Value(whole) * 10 + DigitValue(d1)) * 10 + DigitValue(d2);
    CentsSplit(cents);
  }

}
