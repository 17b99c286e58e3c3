/** Options, maxima, searches over byte strings, and decimal numerals.  Bytes are modelled as characters. */
module Text {

  datatype Option<+T> = None | Some(value: T)

  function Max(a: int, b: int): int { if a < b then b else a }

  lemma Regroup<T>(a: seq<T>, b: seq<T>, c: seq<T>)
    ensures a + b + c == a + (b + c)
  {
  }

  const CRLF: string := "\r\n"

  /** A CR LF pair starts at offset `i` of `s`. */
  predicate CrlfAt(s: string, i: int) {
    0 <= i && i + 1 < |s| && s[i] == '\r' && s[i + 1] == '\n'
  }

  ghost predicate NoCrlf(s: string) {
    forall i :: !CrlfAt(s, i)
  }

  /** Offset of the first CR LF pair, as `std::search` for it would find. */
  function FindCrlf(s: string): (r: Option<nat>)
    ensures r.Some? ==> CrlfAt(s, r.value) && forall i | i < r.value :: !CrlfAt(s, i)
    ensures r.None? ==> NoCrlf(s)
  {
    if |s| < 2 then None
    else if CrlfAt(s, 0) then Some(0)
    else
      var r := FindCrlf(s[1..]);
      assert forall i {:trigger CrlfAt(s, i)} | i > 0 :: CrlfAt(s, i) == CrlfAt(s[1..], i - 1);
      match r
      case None => None
      case Some(k) => Some(k + 1)
  }

  /** The first offset satisfying the defining property of `FindCrlf` is its result. */
  lemma FindCrlfUnique(s: string, k: nat)
    requires CrlfAt(s, k)
    requires forall i | i < k :: !CrlfAt(s, i)
    ensures FindCrlf(s) == Some(k)
  {
    var r := FindCrlf(s);
    assert !NoCrlf(s);
    assert CrlfAt(s, r.value);
  }

  /** A line without CR LF, terminated by CR LF, is cut off exactly, whatever follows. */
  lemma FindCrlfLine(line: string, more: string)
    requires NoCrlf(line)
    ensures FindCrlf(line + CRLF + more) == Some(|line|)
  {
    var s := line + CRLF + more;
    assert CrlfAt(s, |line|);
    forall i | i < |line| ensures !CrlfAt(s, i) {
      assert CrlfAt(s, i) ==> CrlfAt(line, i);
    }
    FindCrlfUnique(s, |line|);
  }

  /** Appending bytes after a found CR LF does not move it. */
  lemma FindCrlfPrefix(s: string, more: string)
    requires FindCrlf(s).Some?
    ensures FindCrlf(s + more) == FindCrlf(s)
  {
    var k := FindCrlf(s).value;
    assert CrlfAt(s + more, k);
    forall i | i < k ensures !CrlfAt(s + more, i) {
      assert CrlfAt(s + more, i) ==> CrlfAt(s, i);
    }
    FindCrlfUnique(s + more, k);
  }

  lemma NoCrlfConcat(a: string, b: string)
    requires NoCrlf(a) && NoCrlf(b)
    requires a == [] || b == [] || a[|a| - 1] != '\r' || b[0] != '\n'
    ensures NoCrlf(a + b)
  {
    forall i ensures !CrlfAt(a + b, i) {
      assert !CrlfAt(a, i) && !CrlfAt(b, i - |a|);
    }
  }

  /** Offset of the first `c`, or the length when there is none, as `std::find`. */
  function Find(s: string, c: char): (r: nat)
    ensures r <= |s|
    ensures r < |s| ==> s[r] == c
    ensures forall k | 0 <= k < r :: s[k] != c
  {
    if s == [] || s[0] == c then 0
    else
      var t := s[1..];
      assert forall k | 0 < k < |s| :: s[k] == t[k - 1];
      Find(t, c) + 1
  }

  lemma FindFirst(a: string, c: char, b: string)
    requires c !in a
    ensures Find(a + [c] + b, c) == |a|
  {
    var s := a + [c] + b;
    assert forall k | 0 <= k < |a| :: s[k] == a[k];
    assert s[|a|] == c;
  }

  /** What is before and after the first `c`. */
  function Split(s: string, c: char): (r: Option<(string, string)>)
    ensures r.Some? ==> c !in r.value.0 && s == r.value.0 + [c] + r.value.1
    ensures r.None? ==> c !in s
  {
    var k := Find(s, c);
    if k == |s| then None
    else
      Some((s[..k], s[k + 1..]))
  }

  lemma SplitFirst(a: string, c: char, b: string)
    requires c !in a
    ensures Split(a + [c] + b, c) == Some((a, b))
  {
    FindFirst(a, c, b);
    var s := a + [c] + b;
    assert s[..|a|] == a && s[|a| + 1..] == b;
  }

  // Decimal numerals

  predicate IsDigit(c: char) { '0' <= c <= '9' }

  predicate AllDigits(s: string) { forall i | 0 <= i < |s| :: IsDigit(s[i]) }

  function Digit(d: nat): (c: char)
    requires d < 10
    ensures IsDigit(c) && c as int - '0' as int == d
  {
    '0' + d as char
  }

  /** The decimal numeral of `n`, as `printf` writes it for `%d` or `%zd`. */
  function Decimal(n: nat): (s: string)
    ensures s != [] && AllDigits(s)
  {
    if n < 10 then [Digit(n)] else Decimal(n / 10) + [Digit(n % 10)]
  }

  function DigitsValue(s: string): nat
    requires AllDigits(s)
  {
    if s == [] then 0
    else 10 * DigitsValue(s[..|s| - 1]) + (s[|s| - 1] as nat - '0' as nat)
  }

  function ParseDecimal(s: string): Option<nat> {
    if s != [] && AllDigits(s) then Some(DigitsValue(s)) else None
  }

  lemma {:induction false} DecimalRoundTrip(n: nat)
    ensures ParseDecimal(Decimal(n)) == Some(n)
  {
    var s := Decimal(n);
    if n < 10 {
      assert s[..0] == "";
      assert DigitsValue("") == 0;
    } else {
      DecimalRoundTrip(n / 10);
      assert s[..|s| - 1] == Decimal(n / 10);
    }
  }

  lemma DecimalInjective(m: nat, n: nat)
    requires Decimal(m) == Decimal(n)
    ensures m == n
  {
    DecimalRoundTrip(m);
    DecimalRoundTrip(n);
  }

  function Pow10(k: nat): (p: nat)
    ensures p >= 1
  {
    if k == 0 then 1 else 10 * Pow10(k - 1)
  }

  /** A numeral has at most `k` digits exactly when its value is below 10^k. */
  lemma {:induction false} DecimalLength(n: nat, k: nat)
    requires k >= 1
    ensures |Decimal(n)| <= k <==> n < Pow10(k)
    decreases k
  {
    if n < 10 {
      assert Pow10(k) == 10 * Pow10(k - 1);
    } else if k == 1 {
      assert Pow10(1) == 10 * Pow10(0);
      assert |Decimal(n / 10)| >= 1;
    } else {
      DecimalLength(n / 10, k - 1);
      assert Pow10(k) == 10 * Pow10(k - 1);
    }
  }
}
