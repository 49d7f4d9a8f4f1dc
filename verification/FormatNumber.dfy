/** Exact printing of scores (hermes_controller/brainstorm_core.py). */
module FormatNumber {
  import A = Arithmetic

  // --- fractions --------------------------------------------------------------------------------

  datatype Fraction = Fraction(num: int, den: nat)

  predicate Divides(d: nat, n: int) {
    d > 0 && n % d == 0
  }

  /** In lowest terms, as every Python Fraction is. */
  ghost predicate Reduced(q: Fraction) {
    q.den > 0 && forall d: nat :: d > 1 && Divides(d, q.den) ==> !Divides(d, q.num)
  }

  function Pow(b: nat, k: nat): nat {
    if k == 0 then 1 else b * Pow(b, k - 1)
  }

  function Abs(n: int): nat {
    if n < 0 then -n else n
  }

  // --- digits -----------------------------------------------------------------------------------------

  function Digit(d: nat): char
    requires d < 10
  {
    ('0' as int + d) as char
  }

  function Digits(n: nat): string {
    if n < 10 then [Digit(n)] else Digits(n / 10) + [Digit(n % 10)]
  }

  function SignedDigits(n: int): string {
    if n < 0 then "-" + Digits(-n) else Digits(n)
  }

  function Zeros(n: nat): string {
    if n == 0 then "" else Zeros(n - 1) + "0"
  }

  function RightJustify(s: string, width: nat): string {
    if |s| >= width then s else Zeros(width - |s|) + s
  }

  // --- printing --------------------------------------------------------------------------------------------

  /** How often 2, and 5, divide `n`, and what they leave. */
  function Twos(n: nat): nat
    requires n > 0
  {
    if n % 2 == 0 then 1 + Twos(n / 2) else 0
  }

  function StripTwos(n: nat): (rest: nat)
    requires n > 0
    ensures rest > 0
  {
    if n % 2 == 0 then StripTwos(n / 2) else n
  }

  function Fives(n: nat): nat
    requires n > 0
  {
    if n % 5 == 0 then 1 + Fives(n / 5) else 0
  }

  function StripFives(n: nat): (rest: nat)
    requires n > 0
    ensures rest > 0
  {
    if n % 5 == 0 then StripFives(n / 5) else n
  }

  /** What is left of a denominator without its factors 2 and 5. */
  function Rest(den: nat): nat
    requires den > 0
  {
    StripFives(StripTwos(den))
  }

  function Max(a: nat, b: nat): nat {
    if a >= b then a else b
  }

  function Places(den: nat): nat
    requires den > 0
  {
    Max(Twos(den), Fives(StripTwos(den)))
  }

  function Scaled(q: Fraction): nat
    requires q.den > 0
  {
    A.Div(A.Mul(Abs(q.num), Pow(10, Places(q.den))), q.den)
  }

  function Point(digits: string, places: nat): string
    requires places < |digits|
  {
    if places == 0 then digits else digits[..|digits| - places] + "." + digits[|digits| - places..]
  }

  function Padded(n: nat, places: nat): (s: string)
    ensures places < |s|
  {
    JustifyLength(Digits(n), places + 1);
    RightJustify(Digits(n), places + 1)
  }

  function Format(q: Fraction): string
    requires q.den > 0
  {
    if Rest(q.den) != 1 then SignedDigits(q.num) + "/" + Digits(q.den)
    else
      var text := Point(Padded(Scaled(q), Places(q.den)), Places(q.den));
      if q.num < 0 then "-" + text else text
  }

  lemma {:induction false} ZerosLength(n: nat)
    ensures |Zeros(n)| == n
  {
    if n > 0 {
      ZerosLength(n - 1);
    }
  }

  lemma JustifyLength(s: string, width: nat)
    ensures |RightJustify(s, width)| >= width
  {
    if |s| < width {
      ZerosLength(width - |s|);
    }
  }

  /** The digits with their point and sign. */
  method FormatDecimal(q: Fraction, places: nat) returns (text: string)
    requires q.den > 0 && places == Places(q.den) && Rest(q.den) == 1
    ensures text == Format(q)
  {
    hide Places, Rest, Digits, Pow;
    var digits := Padded(A.Div(A.Mul(Abs(q.num), Pow(10, places)), q.den), places);
    text := if places > 0 then digits[..|digits| - places] + "." + digits[|digits| - places..] else digits;
    if q.num < 0 {
      text := "-" + text;
    }
  }

  /** The loops over the denominator. */
  method FormatNumber(q: Fraction) returns (text: string)
    requires q.den > 0
    ensures text == Format(q)
  {
    hide Digits, Pow, Point, Padded, Scaled;
    var rest, twos, fives := q.den, 0, 0;
    while rest % 2 == 0
      invariant rest > 0 && StripTwos(rest) == StripTwos(q.den) && twos + Twos(rest) == Twos(q.den)
      decreases rest
    {
      rest, twos := rest / 2, twos + 1;
    }
    ghost var odd := rest;
    while rest % 5 == 0
      invariant rest > 0 && StripFives(rest) == StripFives(odd) && fives + Fives(rest) == Fives(odd)
      decreases rest
    {
      rest, fives := rest / 5, fives + 1;
    }
    if rest != 1 {
      text := SignedDigits(q.num) + "/" + Digits(q.den);
    } else {
      text := FormatDecimal(q, if twos >= fives then twos else fives);
    }
  }

  // --- reading back ---------------------------------------------------------------------------------------------

  predicate IsDigit(c: char) {
    '0' <= c <= '9'
  }

  predicate AllDigits(s: string) {
    forall c | c in s :: IsDigit(c)
  }

  function Value(s: string): int {
    if s == "" then 0 else 10 * Value(s[..|s| - 1]) + (s[|s| - 1] as int - '0' as int)
  }

  /** The first place of `c`, or the length. */
  function Find(s: string, c: char): nat {
    if s == "" || s[0] == c then 0 else 1 + Find(s[1..], c)
  }

  /** A printed number as numerator and denominator, not necessarily reduced. */
  function Read(text: string): (int, int) {
    if text != "" && text[0] == '-' then
      var (n, d) := ReadUnsigned(text[1..]);
      (-n, d)
    else ReadUnsigned(text)
  }

  function ReadUnsigned(text: string): (int, int) {
    var slash, point := Find(text, '/'), Find(text, '.');
    if slash < |text| then (Value(text[..slash]), Value(text[slash + 1..]))
    else if point < |text| then (Value(text[..point] + text[point + 1..]), Pow(10, |text| - point - 1))
    else (Value(text), 1)
  }

  lemma {:induction false} DigitsRead(n: nat)
    ensures AllDigits(Digits(n)) && Value(Digits(n)) == n && |Digits(n)| > 0
  {
    if n < 10 {
      assert [Digit(n)][..0] == "";
      assert Value([Digit(n)]) == 10 * Value("") + n;
    } else {
      DigitsRead(n / 10);
      assert Digits(n)[..|Digits(n)| - 1] == Digits(n / 10);
    }
  }

  lemma {:induction false} ZerosRead(n: nat, s: string)
    ensures AllDigits(Zeros(n)) && Value(Zeros(n) + s) == Value(s)
  {
    if n == 0 {
      assert Zeros(0) + s == s;
    } else {
      ZerosRead(n - 1, "0" + s);
      assert Zeros(n) + s == Zeros(n - 1) + ("0" + s);
      LeadingZero(s);
    }
  }

  lemma {:induction false} LeadingZero(s: string)
    ensures Value("0" + s) == Value(s)
  {
    if s == "" {
      assert "0" + s == "0" && "0"[..0] == "";
    } else {
      LeadingZero(s[..|s| - 1]);
      assert ("0" + s)[..|s|] == "0" + s[..|s| - 1];
    }
  }

  lemma PaddedReads(n: nat, places: nat)
    ensures AllDigits(Padded(n, places)) && Value(Padded(n, places)) == n
  {
    DigitsRead(n);
    if |Digits(n)| < places + 1 {
      ZerosRead(places + 1 - |Digits(n)|, Digits(n));
    }
  }

  lemma {:induction false} FindAfter(s: string, c: char, rest: string)
    requires c !in s
    ensures Find(s + [c] + rest, c) == |s| && Find(s, c) == |s|
  {
    if s == "" {
      assert s + [c] + rest == [c] + rest;
    } else {
      FindAfter(s[1..], c, rest);
      assert (s + [c] + rest)[1..] == s[1..] + [c] + rest;
    }
  }

  lemma {:induction false} FindNone(s: string, c: char)
    requires c !in s
    ensures Find(s, c) == |s|
  {
    if s != "" {
      FindNone(s[1..], c);
    }
  }

  lemma NotADigit(s: string, c: char)
    requires AllDigits(s) && !IsDigit(c)
    ensures c !in s
  {
  }

  lemma ReadFraction(n: string, d: string)
    requires AllDigits(n) && AllDigits(d)
    ensures ReadUnsigned(n + "/" + d) == (Value(n), Value(d))
  {
    NotADigit(n, '/');
    FindAfter(n, '/', d);
    var text := n + "/" + d;
    assert text[..|n|] == n && text[|n| + 1..] == d;
  }

  lemma ReadWhole(digits: string)
    requires AllDigits(digits)
    ensures ReadUnsigned(digits) == (Value(digits), 1)
  {
    hide AllDigits, Value;
    NotADigit(digits, '/');
    NotADigit(digits, '.');
    FindNone(digits, '/');
    FindNone(digits, '.');
  }

  lemma ReadPart(whole: string, part: string)
    requires AllDigits(whole) && AllDigits(part)
    ensures ReadUnsigned(whole + "." + part) == (Value(whole + part), Pow(10, |part|))
  {
    hide AllDigits, Value, Pow;
    var text := whole + "." + part;
    NotADigit(whole, '/');
    NotADigit(part, '/');
    NotADigit(whole, '.');
    FindNone(text, '/');
    FindAfter(whole, '.', part);
    assert text[..|whole|] == whole && text[|whole| + 1..] == part;
  }

  lemma ReadPoint(digits: string, places: nat)
    requires AllDigits(digits) && places < |digits|
    ensures ReadUnsigned(Point(digits, places)) == (Value(digits), Pow(10, places))
  {
    hide ReadUnsigned, Value;
    if places == 0 {
      ReadWhole(digits);
    } else {
      var whole, part := digits[..|digits| - places], digits[|digits| - places..];
      ReadPart(whole, part);
      assert whole + part == digits;
    }
  }

  // --- the arithmetic of the denominator -----------------------------------------------------------------------------

  lemma {:induction false} TwosFactor(n: nat)
    requires n > 0
    ensures n == StripTwos(n) * Pow(2, Twos(n)) && StripTwos(n) % 2 != 0
  {
    if n % 2 == 0 {
      TwosFactor(n / 2);
      var s, w := StripTwos(n), Pow(2, Twos(n / 2));
      A.Associate(s, 2, w);
      A.Associate(2, s, w);
    }
  }

  lemma {:induction false} FivesFactor(n: nat)
    requires n > 0
    ensures n == StripFives(n) * Pow(5, Fives(n)) && StripFives(n) % 5 != 0
  {
    if n % 5 == 0 {
      FivesFactor(n / 5);
      var s, w := StripFives(n), Pow(5, Fives(n / 5));
      A.Associate(s, 5, w);
      A.Associate(5, s, w);
    }
  }

  lemma {:induction false} PowTen(k: nat)
    ensures Pow(10, k) == Pow(2, k) * Pow(5, k)
  {
    if k > 0 {
      PowTen(k - 1);
      A.Regroup(2, Pow(2, k - 1), 5, Pow(5, k - 1));
    }
  }

  lemma {:induction false} PowAdd(b: nat, j: nat, k: nat)
    ensures Pow(b, j + k) == Pow(b, j) * Pow(b, k)
  {
    if j > 0 {
      PowAdd(b, j - 1, k);
      A.Associate(b, Pow(b, j - 1), Pow(b, k));
    }
  }

  /** What a terminating decimal's denominator lacks to be a power of ten. */
  function Cofactor(den: nat): nat
    requires den > 0
  {
    A.Mul(Pow(2, Places(den) - Twos(den)), Pow(5, Places(den) - Fives(StripTwos(den))))
  }

  lemma TenSplits(den: nat)
    requires den > 0 && Rest(den) == 1
    ensures Pow(10, Places(den)) == Cofactor(den) * den
  {
    hide Pow, Twos, Fives, StripTwos, StripFives;
    var a, b, p := Twos(den), Fives(StripTwos(den)), Places(den);
    TwosFactor(den);
    FivesFactor(StripTwos(den));
    assert den == Pow(2, a) * Pow(5, b);
    PowTen(p);
    PowAdd(2, p - a, a);
    PowAdd(5, p - b, b);
    A.Regroup(Pow(2, p - a), Pow(2, a), Pow(5, p - b), Pow(5, b));
  }

  /** The digits printed are those of the numerator times the cofactor. */
  lemma ScaledIs(q: Fraction)
    requires q.den > 0 && Rest(q.den) == 1
    ensures Scaled(q) == Abs(q.num) * Cofactor(q.den)
    ensures Scaled(q) * q.den == Abs(q.num) * Pow(10, Places(q.den))
  {
    hide Cofactor, Pow, Places, Rest, Abs;
    TenSplits(q.den);
    A.Associate(Abs(q.num), Cofactor(q.den), q.den);
    A.Multiple(q.den, Abs(q.num) * Cofactor(q.den));
  }

  // --- exact, injective, canonical ----------------------------------------------------------------------

  lemma FirstIsDigit(s: string)
    requires AllDigits(s) && |s| > 0
    ensures s[0] != '-'
  {
    assert s[0] in s;
  }

  function Signed(negative: bool, n: nat): int {
    if negative then 0 - n else n
  }

  lemma ReadDecimal(q: Fraction)
    requires q.den > 0 && Rest(q.den) == 1
    ensures Read(Format(q)) == (Signed(q.num < 0, Scaled(q)), Pow(10, Places(q.den)))
  {
    var p := Places(q.den);
    var digits := Padded(Scaled(q), p);
    PaddedReads(Scaled(q), p);
    ReadPoint(digits, p);
    FirstIsDigit(digits);
    var text := Point(digits, p);
    assert text[0] == digits[0];
    if q.num < 0 {
      assert ("-" + text)[1..] == text;
    }
  }

  lemma ReadRatio(q: Fraction)
    requires q.den > 0 && Rest(q.den) != 1
    ensures Read(Format(q)) == (q.num, q.den)
  {
    DigitsRead(Abs(q.num));
    DigitsRead(q.den);
    var n, d := Digits(Abs(q.num)), Digits(q.den);
    ReadFraction(n, d);
    FirstIsDigit(n);
    hide Digits, AllDigits, Value, ReadUnsigned, Rest;
    if q.num < 0 {
      assert Format(q)[1..] == n + "/" + d;
    } else {
      assert Format(q) == n + "/" + d && Format(q)[0] == n[0];
    }
  }

  lemma SignedProducts(num: int, s: nat, den: nat, t: nat)
    requires s * den == Abs(num) * t
    ensures Signed(num < 0, s) * den == num * t
  {
    A.Distribute(den, 0, s);
    A.Distribute(t, 0, num);
  }

  /** Reading the printed form back gives the same number. */
  lemma FormatIsExact(q: Fraction)
    requires q.den > 0
    ensures var (n, d) := Read(Format(q)); d > 0 && n * q.den == q.num * d
  {
    hide Read, Format, Rest, Scaled, Places, Pow;
    if Rest(q.den) == 1 {
      ReadDecimal(q);
      ScaledIs(q);
      PowPositive(10, Places(q.den));
      SignedProducts(q.num, Scaled(q), q.den, Pow(10, Places(q.den)));
    } else {
      ReadRatio(q);
    }
  }

  lemma {:induction false} PowPositive(b: nat, k: nat)
    requires b > 0
    ensures Pow(b, k) > 0
  {
    if k > 0 {
      PowPositive(b, k - 1);
    }
  }

  /** Distinct numbers print differently. */
  lemma FormatIsInjective(q: Fraction, r: Fraction)
    requires q.den > 0 && r.den > 0 && Format(q) == Format(r)
    ensures q.num * r.den == r.num * q.den
  {
    FormatIsExact(q);
    FormatIsExact(r);
    var (n, d) := Read(Format(q));
    SameNumber(n, d, q.num, q.den, r.num, r.den);
  }

  lemma SameNumber(n: int, d: int, a: int, b: int, e: int, f: int)
    requires d > 0 && n * b == a * d && n * f == e * d
    ensures a * f == e * b
  {
    A.Associate(n, b, f);
    A.Associate(n, f, b);
    A.Associate(d, a, f);
    A.Associate(d, e, b);
    assert b * f == f * b && a * d == d * a && e * d == d * e;
    A.Cancel(d, a * f, e * b);
  }

  /** `q` has a finite decimal expansion of `k` places. */
  predicate Terminates(q: Fraction, k: nat)
    requires q.den > 0
  {
    Divides(q.den, q.num * Pow(10, k))
  }

  /** Something without factors 2 and 5 that divides n * 10^k divides n. */
  lemma {:induction false} TensDoNotHelp(r: nat, t: int, n: int, k: nat)
    requires r > 0 && r % 2 != 0 && r % 5 != 0 && r * t == n * Pow(10, k)
    ensures Divides(r, n)
    decreases k
  {
    if k == 0 {
      A.Multiple(r, t);
    } else {
      var m := n * Pow(10, k - 1);
      A.Associate(n, 10, Pow(10, k - 1));
      A.Associate(10, n, Pow(10, k - 1));
      assert r * t == 10 * m;
      TenFactor(r, t, m);
      var u := t / 10;
      A.Associate(r, 10, u);
      A.Associate(10, r, u);
      assert 10 * (r * u) == 10 * m;
      TensDoNotHelp(r, u, n, k - 1);
    }
  }

  lemma TenTimes(x: int, m: int)
    requires x == 10 * m
    ensures x % 2 == 0 && x % 5 == 0
  {
    assert x == 2 * (5 * m) && x == 5 * (2 * m);
  }

  lemma TenFactor(r: nat, t: int, m: int)
    requires r % 2 != 0 && r % 5 != 0 && r * t == 10 * m
    ensures t % 10 == 0
  {
    TenTimes(r * t, m);
    A.ProductMod2(r, t);
    A.ProductMod5(r, t);
    A.Ten(t);
  }

  lemma Terminating(q: Fraction)
    requires q.den > 0 && Rest(q.den) == 1
    ensures Terminates(q, Places(q.den))
  {
    hide Pow, Places, Rest, Cofactor;
    TenSplits(q.den);
    A.Associate(q.num, Cofactor(q.den), q.den);
    A.Multiple(q.den, q.num * Cofactor(q.den));
  }

  lemma NoSlashInPoint(digits: string, places: nat)
    requires places < |digits| && '/' !in digits
    ensures '/' !in Point(digits, places)
  {
  }

  /** Only the form n/d has a slash. */
  lemma SlashMeansRatio(q: Fraction)
    requires q.den > 0
    ensures '/' in Format(q) <==> Rest(q.den) != 1
  {
    hide Rest, Places, Scaled, AllDigits, Digits, Padded, Point;
    if Rest(q.den) == 1 {
      var padded := Padded(Scaled(q), Places(q.den));
      PaddedReads(Scaled(q), Places(q.den));
      NotADigit(padded, '/');
      NoSlashInPoint(padded, Places(q.den));
    } else {
      var sign := SignedDigits(q.num);
      assert Format(q) == sign + "/" + Digits(q.den) && Format(q)[|sign|] == '/';
    }
  }

  /** The form n/d is printed exactly when the number has no finite decimal expansion. */
  lemma RatioExactlyWhenInfinite(q: Fraction)
    requires Reduced(q)
    ensures '/' in Format(q) <==> forall k: nat :: !Terminates(q, k)
  {
    SlashMeansRatio(q);
    hide Rest, Terminates, Format;
    if Rest(q.den) == 1 {
      Terminating(q);
    } else {
      forall k: nat
        ensures !Terminates(q, k)
      {
        if Terminates(q, k) {
          RestDivides(q, k);
        }
      }
    }
  }

  lemma RestIsFactor(den: nat)
    requires den > 0
    ensures exists w: nat :: den == Rest(den) * w
    ensures Rest(den) % 2 != 0 && Rest(den) % 5 != 0
  {
    hide Pow, Twos, Fives, StripTwos, StripFives;
    var odd := StripTwos(den);
    TwosFactor(den);
    FivesFactor(odd);
    var v, w := Pow(5, Fives(odd)), Pow(2, Twos(den));
    A.Associate(StripFives(odd), v, w);
    A.ProductNonNegative(v, w);
    assert den == Rest(den) * (v * w);
    if Rest(den) % 2 == 0 {
      A.FactorDivides(2, Rest(den), v);
    }
  }

  /** If the expansion is finite, the rest of the denominator divides both sides. */
  lemma RestDivides(q: Fraction, k: nat)
    requires Reduced(q) && Terminates(q, k)
    ensures Rest(q.den) == 1
  {
    hide Pow, Twos, Fives, StripTwos, StripFives;
    var r := Rest(q.den);
    RestIsFactor(q.den);
    var w: nat :| q.den == r * w;
    var t := q.num * Pow(10, k) / q.den;
    A.Exact(q.num * Pow(10, k), q.den);
    A.Associate(r, w, t);
    TensDoNotHelp(r, w * t, q.num, k);
    A.Multiple(r, w);
    RestOne(q, r);
  }

  lemma RestOne(q: Fraction, r: nat)
    requires Reduced(q) && Divides(r, q.den) && Divides(r, q.num)
    ensures r == 1
  {
  }

  lemma LastDigit(s: string)
    requires AllDigits(s) && s != ""
    ensures Value(s) % 10 == s[|s| - 1] as int - '0' as int
  {
    assert s[|s| - 1] in s;
  }

  /** A printed decimal has no superfluous zero at the end. */
  lemma NoTrailingZero(q: Fraction)
    requires Reduced(q) && Rest(q.den) == 1 && Places(q.den) > 0
    ensures Format(q) != "" && Format(q)[|Format(q)| - 1] != '0'
  {
    hide Value, Scaled, Rest, Places;
    var p := Places(q.den);
    var digits := Padded(Scaled(q), p);
    NotTenfold(q);
    PaddedReads(Scaled(q), p);
    LastDigit(digits);
    var text := Point(digits, p);
    assert text[|text| - 1] == digits[|digits| - 1];
  }

  lemma FiveTimes(x: int)
    ensures (5 * x) % 2 == x % 2
  {
    assert 5 * x == 2 * (2 * x) + x;
  }

  lemma {:induction false} FivesAreOdd(k: nat)
    ensures Pow(5, k) % 2 != 0
  {
    if k > 0 {
      FivesAreOdd(k - 1);
      FiveTimes(Pow(5, k - 1));
    }
  }

  lemma TwoTimes(x: int)
    requires x % 5 != 0
    ensures (2 * x) % 5 != 0
  {
    var k, r := x / 5, x % 5;
    assert 2 * x == 5 * (2 * k) + 2 * r;
  }

  lemma {:induction false} TwosHaveNoFive(k: nat)
    ensures Pow(2, k) % 5 != 0
  {
    if k > 0 {
      TwosHaveNoFive(k - 1);
      TwoTimes(Pow(2, k - 1));
    }
  }

  lemma NotTenfold(q: Fraction)
    requires Reduced(q) && Rest(q.den) == 1 && Places(q.den) > 0
    ensures Scaled(q) % 10 != 0
  {
    hide Pow, StripTwos, StripFives, Scaled;
    var a, b, p := Twos(q.den), Fives(StripTwos(q.den)), Places(q.den);
    ScaledIs(q);
    if a >= b {
      EvenDenominator(q);
      FivesAreOdd(p - b);
      PowZero(2);
      OddProduct(Abs(q.num), Pow(5, p - b));
    } else {
      FiveDenominator(q);
      TwosHaveNoFive(p - a);
      PowZero(5);
      NoFiveProduct(Abs(q.num), Pow(2, p - a));
    }
  }

  lemma PowZero(b: nat)
    ensures Pow(b, 0) == 1
  {
  }

  lemma EvenDenominator(q: Fraction)
    requires Reduced(q) && Twos(q.den) > 0
    ensures Abs(q.num) % 2 != 0
  {
    assert Divides(2, q.den);
    assert !Divides(2, q.num);
  }

  lemma FiveDenominator(q: Fraction)
    requires Reduced(q) && Fives(StripTwos(q.den)) > 0
    ensures Abs(q.num) % 5 != 0
  {
    TwosFactor(q.den);
    A.FactorDivides(5, StripTwos(q.den), Pow(2, Twos(q.den)));
    assert Divides(5, q.den);
    assert !Divides(5, q.num);
  }

  lemma OddProduct(n: int, w: int)
    requires n % 2 != 0 && w % 2 != 0
    ensures (n * w) % 2 != 0 && (n * w) % 10 != 0
  {
    A.Ten(n * w);
    if (n * w) % 2 == 0 {
      A.ProductMod2(n, w);
    }
  }

  lemma NoFiveProduct(n: int, w: int)
    requires n % 5 != 0 && w % 5 != 0
    ensures (n * w) % 5 != 0 && (n * w) % 10 != 0
  {
    A.Ten(n * w);
    if (n * w) % 5 == 0 {
      A.ProductMod5(n, w);
    }
  }
}
