/** Names of CIResources: "cir-" and a decimal padded to four digits, the
    numeral read back from after the last dash, and the order of the names. */
module Names {
  import opened Api

  /** Largest value of the source's `int`. */
  const MAX_INT := 0x7fff_ffff_ffff_ffff

  const WIDTH := 4

  const DIGITS := "0123456789"

  function Digit(d: nat): (c: char)
    requires d < 10
    ensures '0' <= c <= '9' && c as int == '0' as int + d
  {
    DIGITS[d]
  }

  predicate IsDigit(c: char) {
    '0' <= c <= '9'
  }

  function DigitValue(c: char): nat
    requires IsDigit(c)
  {
    c as int - '0' as int
  }

  // ---------------------------------------------------------------- writing

  function Decimal(n: nat): string {
    if n < 10 then [Digit(n)] else Decimal(n / 10) + [Digit(n % 10)]
  }

  function Zeros(n: nat): string {
    seq(n, i => '0')
  }

  /** `%0wd` for a number that is not negative. */
  function Padded(w: nat, n: nat): string {
    var s := Decimal(n);
    if |s| >= w then s else Zeros(w - |s|) + s
  }

  /** `cir-%04d` */
  function CirName(n: nat): string {
    "cir-" + Padded(WIDTH, n)
  }

  // ---------------------------------------------------------------- reading

  predicate AllDigits(s: string) {
    forall i :: 0 <= i < |s| ==> IsDigit(s[i])
  }

  function Value(s: string): nat
    requires AllDigits(s)
  {
    if s == "" then 0 else 10 * Value(s[..|s| - 1]) + DigitValue(s[|s| - 1])
  }

  /** `strconv.Atoi`: an optional sign, at least one digit, nothing else, and a
      value in range. */
  function Atoi(s: string): Option<int> {
    var negative := s != "" && s[0] == '-';
    var digits := if s != "" && (s[0] == '-' || s[0] == '+') then s[1..] else s;
    if digits == "" || !AllDigits(digits) then None
    else
      var n: int := Value(digits);
      var v: int := if negative then 0 - n else n;
      if -MAX_INT - 1 <= v <= MAX_INT then Some(v) else None
  }

  function LastDash(s: string): (i: int)
    ensures -1 <= i < |s|
    ensures i >= 0 ==> s[i] == '-'
    ensures forall k :: i < k < |s| ==> s[k] != '-'
  {
    if s == "" then -1
    else if s[|s| - 1] == '-' then |s| - 1
    else LastDash(s[..|s| - 1])
  }

  /** The numeral of a name; None for a malformed one. */
  function Numeral(name: string): Option<int> {
    var i := LastDash(name);
    if i == -1 then None else Atoi(name[i + 1..])
  }

  // ------------------------------------------------------------- round trip

  lemma {:induction false} DecimalIsDigits(n: nat)
    ensures AllDigits(Decimal(n)) && Decimal(n) != "" && Value(Decimal(n)) == n
  {
    if n >= 10 {
      DecimalIsDigits(n / 10);
      var s := Decimal(n);
      assert s[..|s| - 1] == Decimal(n / 10);
    } else {
      assert Decimal(n)[..0] == "";
    }
  }

  lemma {:induction false} LeadingZeros(k: nat, s: string)
    requires AllDigits(s)
    ensures AllDigits(Zeros(k) + s) && Value(Zeros(k) + s) == Value(s)
    decreases k + |s|
  {
    var t := Zeros(k) + s;
    if s != "" {
      assert t[..|t| - 1] == Zeros(k) + s[..|s| - 1];
      LeadingZeros(k, s[..|s| - 1]);
    } else if k > 0 {
      assert t[..|t| - 1] == Zeros(k - 1) + s;
      LeadingZeros(k - 1, s);
    }
  }

  lemma PaddedValue(w: nat, n: nat)
    ensures AllDigits(Padded(w, n)) && Padded(w, n) != "" && Value(Padded(w, n)) == n
  {
    DecimalIsDigits(n);
    var s := Decimal(n);
    if |s| < w {
      LeadingZeros(w - |s|, s);
    }
  }

  /** Reading undoes writing for every numeral in range, also when it is wider
      than the padding. */
  lemma NumeralOfCirName(n: nat)
    requires n <= MAX_INT
    ensures Numeral(CirName(n)) == Some(n)
  {
    PaddedValue(WIDTH, n);
    var p := Padded(WIDTH, n);
    var name := CirName(n);
    assert name[3] == '-' && forall k :: 4 <= k < |name| ==> name[k] == p[k - 4];
    var i := LastDash(name);
    assert i == 3 by {
      assert forall k :: 4 <= k < |name| ==> IsDigit(name[k]);
    }
    assert name[4..] == p;
    assert IsDigit(p[0]);
  }

  // ------------------------------------------------------------- fresh names

  function Highest(names: seq<string>): nat {
    if names == [] then 0
    else
      var h := Highest(names[..|names| - 1]);
      match Numeral(names[|names| - 1])
      case None => h
      case Some(v) => if h < v then v else h
  }

  lemma NumeralInRange(name: string)
    ensures Numeral(name).Some? ==> -MAX_INT - 1 <= Numeral(name).value <= MAX_INT
  {
  }

  ghost predicate IsNumeralOf(names: seq<string>, v: int) {
    exists k :: 0 <= k < |names| && Numeral(names[k]) == Some(v)
  }

  /** No name carries a greater numeral, and the answer is 0 or some name's own. */
  lemma {:induction false} HighestIsMaximum(names: seq<string>)
    ensures forall k :: 0 <= k < |names| && Numeral(names[k]).Some? ==> Numeral(names[k]).value <= Highest(names)
    ensures Highest(names) == 0 || IsNumeralOf(names, Highest(names))
    ensures Highest(names) <= MAX_INT
  {
    hide Numeral;
    if names != [] {
      var front := names[..|names| - 1];
      HighestIsMaximum(front);
      NumeralInRange(names[|names| - 1]);
      if IsNumeralOf(front, Highest(front)) {
        var k :| 0 <= k < |front| && Numeral(front[k]) == Some(Highest(front));
        assert Numeral(names[k]) == Some(Highest(front));
      }
      if Highest(names) != Highest(front) {
        assert Numeral(names[|names| - 1]) == Some(Highest(names));
      }
    }
  }

  lemma CirNameInjective(m: nat, n: nat)
    requires m <= MAX_INT && n <= MAX_INT && CirName(m) == CirName(n)
    ensures m == n
  {
    NumeralOfCirName(m);
    NumeralOfCirName(n);
  }

  /** Whatever the existing names are, malformed ones included, the names built
      from the numerals after the highest are new and differ pairwise. */
  lemma FreshNames(names: seq<string>, deficit: nat)
    requires Highest(names) + deficit <= MAX_INT
    ensures forall i :: Highest(names) < i <= Highest(names) + deficit ==> CirName(i) !in names
    ensures forall i, j :: Highest(names) < i < j <= Highest(names) + deficit ==> CirName(i) != CirName(j)
  {
    HighestIsMaximum(names);
    forall i | Highest(names) < i <= Highest(names) + deficit ensures CirName(i) !in names {
      NumeralOfCirName(i);
    }
    forall i, j | Highest(names) < i < j <= Highest(names) + deficit ensures CirName(i) != CirName(j) {
      if CirName(i) == CirName(j) {
        CirNameInjective(i, j);
      }
    }
  }

  function NamesOf(cirs: seq<Cir>): (names: seq<string>)
    ensures |names| == |cirs| && forall k :: 0 <= k < |cirs| ==> names[k] == cirs[k].meta.name
  {
    seq(|cirs|, i requires 0 <= i < |cirs| => cirs[i].meta.name)
  }

  method GetHighestResourceNumeral(cirs: seq<Cir>) returns (highestNumeral: nat)
    ensures highestNumeral == Highest(NamesOf(cirs))
  {
    hide Atoi, LastDash;
    ghost var names := NamesOf(cirs);
    highestNumeral := 0;
    for k := 0 to |cirs|
      invariant highestNumeral == Highest(names[..k])
    {
      var name := cirs[k].meta.name;
      assert names[..k + 1][..k] == names[..k] && names[..k + 1][k] == name;
      var lastIndex := LastDash(name);
      if lastIndex == -1 {
        continue;
      }
      var currentNumeral := Atoi(name[lastIndex + 1..]);
      if currentNumeral.None? {
        continue;
      }
      if highestNumeral < currentNumeral.value {
        highestNumeral := currentNumeral.value;
      }
    }
    assert names[..|cirs|] == names;
  }

  /** What the names look like, below and above the width. */
  lemma NamesLookSo()
    ensures CirName(7) == "cir-0007" && CirName(12345) == "cir-12345"
  {
    assert Decimal(123) == "123";
    assert Decimal(12345) == "12345";
    assert Zeros(3) == "000";
  }

  // ------------------------------------------------------------ string order

  /** Byte-wise comparison of strings. */
  predicate Less(a: string, b: string) {
    b != "" && (a == "" || a[0] < b[0] || (a[0] == b[0] && Less(a[1..], b[1..])))
  }

  lemma {:induction false} LessTotal(a: string, b: string)
    ensures !(Less(a, b) && Less(b, a))
    ensures a == b || Less(a, b) || Less(b, a)
    ensures !Less(a, a)
  {
    if a != "" && b != "" {
      LessTotal(a[1..], b[1..]);
      LessTotal(a[1..], a[1..]);
      if a[0] == b[0] && a[1..] == b[1..] {
        assert a == [a[0]] + a[1..] && b == [b[0]] + b[1..];
      }
    } else if a != "" {
      LessTotal(a[1..], a[1..]);
    }
  }

  lemma {:induction false} LessTransitive(a: string, b: string, c: string)
    requires Less(a, b) && Less(b, c)
    ensures Less(a, c)
  {
    if a != "" && a[0] == b[0] && b[0] == c[0] {
      LessTransitive(a[1..], b[1..], c[1..]);
    }
  }

  function Pow10(w: nat): (p: nat)
    ensures p >= 1
  {
    if w == 0 then 1 else 10 * Pow10(w - 1)
  }

  /** The last `w` digits of `n`, leading zeros included. */
  function Fixed(w: nat, n: nat): (s: string)
    ensures |s| == w
  {
    if w == 0 then "" else Fixed(w - 1, n / 10) + [Digit(n % 10)]
  }

  lemma {:induction false} FixedZeros(w: nat)
    ensures Fixed(w, 0) == Zeros(w)
  {
    if w > 0 {
      FixedZeros(w - 1);
      assert Zeros(w) == Zeros(w - 1) + ['0'];
    }
  }

  /** Padding to `w` digits, for the numbers that fit. */
  lemma {:induction false} PaddedIsFixed(w: nat, n: nat)
    requires w > 0 && n < Pow10(w)
    ensures Padded(w, n) == Fixed(w, n) && |Decimal(n)| <= w
  {
    if n < 10 {
      FixedZeros(w - 1);
      assert n / 10 == 0;
      assert Fixed(w, n) == Zeros(w - 1) + [Digit(n)];
    } else {
      assert w > 1;
      PaddedIsFixed(w - 1, n / 10);
      assert Padded(w, n) == Padded(w - 1, n / 10) + [Digit(n % 10)];
    }
  }

  lemma {:induction false} LessAppend(a: string, b: string, c: char, d: char)
    requires |a| == |b|
    ensures Less(a + [c], b + [d]) <==> Less(a, b) || (a == b && c < d)
  {
    if a != "" {
      assert (a + [c])[1..] == a[1..] + [c] && (b + [d])[1..] == b[1..] + [d];
      LessAppend(a[1..], b[1..], c, d);
      assert a == [a[0]] + a[1..] && b == [b[0]] + b[1..];
    }
  }

  lemma {:induction false} FixedOrder(w: nat, m: nat, n: nat)
    requires m < Pow10(w) && n < Pow10(w)
    ensures Less(Fixed(w, m), Fixed(w, n)) <==> m < n
    ensures Fixed(w, m) == Fixed(w, n) <==> m == n
  {
    if w > 0 {
      FixedOrder(w - 1, m / 10, n / 10);
      var a, b := Fixed(w - 1, m / 10), Fixed(w - 1, n / 10);
      LessAppend(a, b, Digit(m % 10), Digit(n % 10));
      if Fixed(w, m) == Fixed(w, n) {
        assert Fixed(w, m)[..w - 1] == a && Fixed(w, n)[..w - 1] == b;
        assert Fixed(w, m)[w - 1] == Digit(m % 10) && Fixed(w, n)[w - 1] == Digit(n % 10);
      }
    }
  }

  /** For every width, zero-padded decimals compare as strings as they do as
      numbers, up to the last number that fits. */
  lemma PaddedOrder(w: nat, m: nat, n: nat)
    requires w > 0 && m < Pow10(w) && n < Pow10(w)
    ensures Less(Padded(w, m), Padded(w, n)) <==> m < n
  {
    PaddedIsFixed(w, m);
    PaddedIsFixed(w, n);
    FixedOrder(w, m, n);
  }

  lemma {:induction false} LessPrefix(p: string, a: string, b: string)
    ensures Less(p + a, p + b) <==> Less(a, b)
  {
    if p == "" {
      assert p + a == a && p + b == b;
    } else {
      assert (p + a)[1..] == p[1..] + a && (p + b)[1..] == p[1..] + b;
      LessPrefix(p[1..], a, b);
    }
  }

  /** Up to 9999, sorting by name is sorting by numeral. */
  lemma NamesSortByNumeral(m: nat, n: nat)
    requires m < 10000 && n < 10000
    ensures Less(CirName(m), CirName(n)) <==> m < n
  {
    assert Pow10(4) == 10000 by {
      assert Pow10(2) == 100;
    }
    PaddedOrder(WIDTH, m, n);
    LessPrefix("cir-", Padded(WIDTH, m), Padded(WIDTH, n));
  }

  /** The names of numerals up to `bound` sort as the numerals do. */
  ghost predicate SortsAlike(bound: nat) {
    forall m: nat, n: nat :: m <= bound && n <= bound ==> (Less(CirName(m), CirName(n)) <==> m < n)
  }

  /** The exact range in which newest first is what the name sort gives. */
  lemma SortsAlikeIffNarrow(bound: nat)
    ensures SortsAlike(bound) <==> bound <= 9999
  {
    hide CirName;
    if bound <= 9999 {
      forall m: nat, n: nat | m <= bound && n <= bound ensures Less(CirName(m), CirName(n)) <==> m < n {
        NamesSortByNumeral(m, n);
      }
    } else {
      WideNamesSortWrong();
    }
  }

  /** For every width the bound is tight: the first number that does not fit
      sorts before the last one that does. */
  lemma FirstWideNameSortsEarly(w: nat)
    requires w > 0
    ensures Less(Padded(w, Pow10(w)), Padded(w, Pow10(w) - 1))
  {
    Pow10Decimal(w);
    NinesDecimal(w);
    var a, b := Padded(w, Pow10(w)), Padded(w, Pow10(w) - 1);
    assert a[0] == '1' && b[0] == '9';
  }

  lemma {:induction false} Pow10Decimal(w: nat)
    ensures |Decimal(Pow10(w))| == w + 1 && Decimal(Pow10(w))[0] == '1'
  {
    if w > 0 {
      Pow10Decimal(w - 1);
      assert Pow10(w) / 10 == Pow10(w - 1) && Pow10(w) >= 10;
    }
  }

  lemma {:induction false} NinesDecimal(w: nat)
    requires w > 0
    ensures |Decimal(Pow10(w) - 1)| == w && Decimal(Pow10(w) - 1)[0] == '9'
  {
    if w > 1 {
      NinesDecimal(w - 1);
      assert (Pow10(w) - 1) / 10 == Pow10(w - 1) - 1 && Pow10(w) - 1 >= 10;
    }
  }

  /** So the name sort takes 10000 for older than 9999. */
  lemma WideNamesSortWrong()
    ensures Less(CirName(10000), CirName(9999))
  {
    assert Pow10(4) == 10000 by {
      assert Pow10(2) == 100;
    }
    FirstWideNameSortsEarly(WIDTH);
    LessPrefix("cir-", Padded(WIDTH, 10000), Padded(WIDTH, 9999));
  }
}
