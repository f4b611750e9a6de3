/** kernelVersion of raw/sys_conn_helper_linux.go: the first two numbers of a
    kernel release text. */
module KernelVersion {
  const TWO_63: int := 0x8000_0000_0000_0000

  /** Go's int is 64 bits wide and wraps around. */
  function Wrap(x: int): (r: int)
    ensures -TWO_63 <= r < TWO_63
    ensures -TWO_63 <= x < TWO_63 ==> r == x
  {
    (x + TWO_63) % (2 * TWO_63) - TWO_63
  }

  predicate IsDigit(c: int) {
    '0' as int <= c <= '9' as int
  }

  function DigitValue(c: int): int {
    c - '0' as int
  }

  ghost predicate Digits(s: seq<int>, from: nat, to: nat)
    requires to <= |s|
  {
    forall i :: from <= i < to ==> IsDigit(s[i])
  }

  /** The number a text of digits is read as. */
  function NumberOf(s: seq<int>): int {
    if s == [] then 0 else Wrap(NumberOf(s[..|s| - 1]) * 10 + DigitValue(s[|s| - 1]))
  }

  /** The first position at or after `from` that is not a digit, or the end. */
  function Break(s: seq<int>, from: nat): (k: nat)
    requires from <= |s|
    ensures from <= k <= |s| && Digits(s, from, k) && (k < |s| ==> !IsDigit(s[k]))
    decreases |s| - from
  {
    if from < |s| && IsDigit(s[from]) then Break(s, from + 1) else from
  }

  /** The number between `from` and the next non-digit; 0 if the text ends first. */
  function Field(s: seq<int>, from: nat): int
    requires from <= |s|
  {
    var k := Break(s, from);
    if k < |s| then NumberOf(s[from..k]) else 0
  }

  function MajorOf(release: seq<int>): int {
    Field(release, 0)
  }

  function MinorOf(release: seq<int>): int {
    var k := Break(release, 0);
    if k < |release| then Field(release, k + 1) else 0
  }

  lemma {:induction false} BreakIsUnique(s: seq<int>, from: nat, k: nat)
    requires from <= k < |s| && Digits(s, from, k) && !IsDigit(s[k])
    ensures Break(s, from) == k
    decreases k - from
  {
    if from < k {
      BreakIsUnique(s, from + 1, k);
    }
  }

  lemma OneMoreDigit(s: seq<int>, from: nat, i: nat)
    requires from <= i < |s|
    ensures NumberOf(s[from..i + 1]) == Wrap(NumberOf(s[from..i]) * 10 + DigitValue(s[i]))
    ensures Digits(s, from, i) && IsDigit(s[i]) ==> Digits(s, from, i + 1)
  {
    assert s[from..i + 1] == s[from..i] + [s[i]];
    assert s[from..i + 1][..i - from] == s[from..i];
  }

  /** The loop over uname.Release; values is indexed within its two entries on
      every text. */
  method KernelVersion(release: seq<int>) returns (major: int, minor: int)
    ensures major == MajorOf(release) && minor == MinorOf(release)
  {
    var values := new int[2](_ => 0);
    var value, vi := 0, 0;
    ghost var from := 0;   // where the number being read starts
    for i := 0 to |release|
      invariant 0 <= vi < 2 && 0 <= from <= i
      invariant value == NumberOf(release[from..i]) && Digits(release, from, i)
      invariant vi == 0 ==> from == 0 && values[0] == 0
      invariant vi == 1 ==> from > 0 && from - 1 == Break(release, 0) && values[0] == MajorOf(release)
      invariant values[1] == 0
    {
      var c := release[i];
      if IsDigit(c) {
        OneMoreDigit(release, from, i);
        value := Wrap(value * 10 + DigitValue(c));
      } else {
        BreakIsUnique(release, from, i);
        values[vi] := value;
        vi := vi + 1;
        if vi >= values.Length {
          break;
        }
        value := 0;
        from := i + 1;
      }
    }
    return values[0], values[1];
  }

  // ---- it inverts decimal printing -----------------------------------------

  function Decimal(n: nat): (s: seq<int>)
    ensures |s| >= 1
  {
    if n < 10 then ['0' as int + n] else Decimal(n / 10) + ['0' as int + n % 10]
  }

  lemma {:induction false} DecimalReadsBack(n: nat)
    requires n < TWO_63
    ensures Digits(Decimal(n), 0, |Decimal(n)|) && NumberOf(Decimal(n)) == n
    decreases n
  {
    var s := Decimal(n);
    if n < 10 {
      assert s[..0] == [];
      assert NumberOf(s[..0]) == 0;
    } else {
      DecimalReadsBack(n / 10);
      assert s[..|s| - 1] == Decimal(n / 10);
    }
  }

  lemma FieldOfPrinted(before: seq<int>, n: nat, sep: int, after: seq<int>)
    requires n < TWO_63 && !IsDigit(sep)
    ensures var s := before + Decimal(n) + [sep] + after;
            Break(s, |before|) == |before| + |Decimal(n)| && Field(s, |before|) == n
  {
    var d := Decimal(n);
    var s := before + d + [sep] + after;
    DecimalReadsBack(n);
    assert s[|before|..|before| + |d|] == d;
    assert forall i :: |before| <= i < |before| + |d| ==> s[i] == d[i - |before|];
    BreakIsUnique(s, |before|, |before| + |d|);
  }

  /** A release text of a major number, a dot, a minor number and anything that
      starts with a non-digit is parsed to exactly that pair. */
  lemma VersionReadsBack(major: nat, minor: nat, sep: int, rest: seq<int>)
    requires major < TWO_63 && minor < TWO_63 && (sep < 48 || 57 < sep)
    ensures var release := Decimal(major) + ['.' as int] + Decimal(minor) + [sep] + rest;
            MajorOf(release) == major && MinorOf(release) == minor
  {
    assert !IsDigit(sep) && !IsDigit('.' as int);
    TwoFields(major, minor, sep, rest);
  }

  lemma TwoFields(major: nat, minor: nat, sep: int, rest: seq<int>)
    requires major < TWO_63 && minor < TWO_63 && !IsDigit(sep)
    ensures var release := Decimal(major) + ['.' as int] + Decimal(minor) + [sep] + rest;
            MajorOf(release) == major && MinorOf(release) == minor
  {
    var a, b := Decimal(major), Decimal(minor);
    var release := a + ['.' as int] + b + [sep] + rest;
    FieldOfPrinted([], major, '.' as int, b + [sep] + rest);
    assert [] + a + ['.' as int] + (b + [sep] + rest) == release;
    FieldOfPrinted(a + ['.' as int], minor, sep, rest);
  }

  // ---- texts that do not parse ---------------------------------------------

  /** Digits, a dot, digits, and something that ends them. */
  predicate Parses(release: seq<int>) {
    var i := Break(release, 0);
    && 0 < i < |release| && release[i] == '.' as int
    && i + 1 < Break(release, i + 1) < |release|
  }

  /** The number a text of digits denotes. */
  function Value(s: seq<int>): int {
    if s == [] then 0 else Value(s[..|s| - 1]) * 10 + DigitValue(s[|s| - 1])
  }

  lemma WrapShift(x: int, k: int)
    ensures Wrap(x + k * (2 * TWO_63)) == Wrap(x)
  {
    var y := x + TWO_63;
    assert (y + k * (2 * TWO_63)) % (2 * TWO_63) == y % (2 * TWO_63);
  }

  lemma WrapDigit(x: int, d: int)
    ensures Wrap(Wrap(x) * 10 + d) == Wrap(x * 10 + d)
  {
    var k := (x + TWO_63) / (2 * TWO_63);
    assert Wrap(x) == x - k * (2 * TWO_63);
    WrapShift(x * 10 + d, -10 * k);
  }

  /** Wrapping after each digit is wrapping once. */
  lemma {:induction false} NumberIsWrapped(s: seq<int>)
    ensures NumberOf(s) == Wrap(Value(s))
  {
    if s != [] {
      var before, d := Value(s[..|s| - 1]), DigitValue(s[|s| - 1]);
      NumberIsWrapped(s[..|s| - 1]);
      WrapDigit(before, d);
    }
  }

  lemma WrapsToZero(x: int)
    ensures Wrap(x) == 0 <==> x % (2 * TWO_63) == 0
  {
  }

  /** No number that something ends starts here, or its value is a multiple of
      two to the 64. */
  predicate NothingAt(s: seq<int>, from: nat)
    requires from <= |s|
  {
    var k := Break(s, from);
    k == |s| || Value(s[from..k]) % (2 * TWO_63) == 0
  }

  lemma NothingReadsZero(s: seq<int>, from: nat)
    requires from <= |s|
    ensures Field(s, from) == 0 <==> NothingAt(s, from)
  {
    var k := Break(s, from);
    if k < |s| {
      NumberIsWrapped(s[from..k]);
      WrapsToZero(Value(s[from..k]));
    }
  }

  /** A text that does not parse gives 0, 0 if and only if neither its first number
      nor the one behind the first non-digit amounts to anything. */
  lemma UnparsedIsZeroIff(release: seq<int>)
    requires !Parses(release)
    ensures MajorOf(release) == 0 && MinorOf(release) == 0 <==>
            && NothingAt(release, 0)
            && (Break(release, 0) < |release| ==> NothingAt(release, Break(release, 0) + 1))
  {
    NothingReadsZero(release, 0);
    if Break(release, 0) < |release| {
      NothingReadsZero(release, Break(release, 0) + 1);
    }
  }

  /** And up to nineteen digits amount to something if and only if one is not 0. */
  lemma ShortNumberIsZeroIff(s: seq<int>)
    requires Digits(s, 0, |s|) && |s| <= 19
    ensures Value(s) % (2 * TWO_63) == 0 <==> forall i :: 0 <= i < |s| ==> s[i] == '0' as int
  {
    ValueBounds(s);
    PowersOfTen(|s|);
    SmallRemainder(Value(s));
  }

  lemma SmallRemainder(x: int)
    requires 0 <= x < 2 * TWO_63
    ensures x % (2 * TWO_63) == x
  {
  }

  function Pow10(n: nat): (p: nat)
    ensures p >= 1
  {
    if n == 0 then 1 else 10 * Pow10(n - 1)
  }

  lemma PowersOfTen(n: nat)
    requires n <= 19
    ensures Pow10(n) < 2 * TWO_63
  {
    if n < 19 {
      PowerGrows(n, 19);
    }
    assert Pow10(10) == 10_000_000_000;
    assert Pow10(19) == 10_000_000_000_000_000_000;
  }

  lemma {:induction false} PowerGrows(n: nat, m: nat)
    requires n <= m
    ensures Pow10(n) <= Pow10(m)
    decreases m
  {
    if n < m {
      PowerGrows(n, m - 1);
    }
  }

  lemma {:induction false} ValueBounds(s: seq<int>)
    requires Digits(s, 0, |s|)
    ensures 0 <= Value(s) < Pow10(|s|)
    ensures Value(s) == 0 <==> forall i :: 0 <= i < |s| ==> s[i] == '0' as int
  {
    if s != [] {
      ValueBounds(s[..|s| - 1]);
    }
  }

  /** A text that does not parse and still gives two numbers. */
  lemma UnparsedWithNumbers()
    ensures var release := ['5' as int, '-' as int, '3' as int, 0];
            !Parses(release) && MajorOf(release) == 5 && MinorOf(release) == 3
  {
    var release := ['5' as int, '-' as int, '3' as int, 0];
    BreakIsUnique(release, 0, 1);
    BreakIsUnique(release, 2, 3);
    assert release[0..1] == ['5' as int] && release[2..3] == ['3' as int];
    assert NumberOf([]) == 0;
    assert NumberOf(['5' as int]) == 5;
    assert NumberOf(['3' as int]) == 3;
  }
}
