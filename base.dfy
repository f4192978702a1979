/** Shared vocabulary: optional and failing values, JavaScript truthiness of
    strings, decimal rendering of numbers and the code-unit order on strings
    that JavaScript's `<` uses. */
module Base {

  datatype Option<+T> = None | Some(value: T)

  datatype Result<+T, +E> = Ok(value: T) | Err(error: E)

  /** A string is truthy in JavaScript exactly when it is not empty. */
  predicate Truthy(s: string) { s != "" }

  /** `a || b` on possibly-undefined strings: `a` when it is defined and not
      empty, otherwise `b`. */
  function OrElse(a: Option<string>, b: Option<string>): (r: Option<string>)
    ensures a.Some? && a.value != "" ==> r == a
    ensures (a.None? || a.value == "") ==> r == b
  {
    if a.Some? && a.value != "" then a else b
  }

  /** `a || ''`: the string, or the empty string when it is undefined. */
  function OrEmpty(a: Option<string>): (r: string)
    ensures a.Some? ==> r == a.value
    ensures a.None? ==> r == ""
  {
    if a.Some? then a.value else ""
  }

  predicate StartsWith(s: string, prefix: string) {
    |prefix| <= |s| && s[..|prefix|] == prefix
  }

  // ---------------------------------------------------------------------
  // Decimal strings: Number.prototype.toString on non-negative integers.

  function DigitChar(d: nat): char
    requires d < 10
  {
    "0123456789"[d]
  }

  predicate IsDigit(c: char) { '0' <= c <= '9' }

  function DigitValue(c: char): nat
    requires IsDigit(c)
  {
    (c as int - '0' as int) as nat
  }

  /** The decimal rendering of `n`, without leading zeros. */
  function DecimalString(n: nat): (s: string)
    ensures |s| >= 1
    ensures forall i :: 0 <= i < |s| ==> IsDigit(s[i])
    ensures |s| > 1 ==> s[0] != '0'
    decreases n
  {
    if n < 10 then [DigitChar(n)] else DecimalString(n / 10) + [DigitChar(n % 10)]
  }

  /** Reads a string of decimal digits back to its value. */
  function ParseDecimal(s: string): nat
    requires forall i :: 0 <= i < |s| ==> IsDigit(s[i])
    decreases |s|
  {
    if s == [] then 0 else ParseDecimal(s[..|s| - 1]) * 10 + DigitValue(s[|s| - 1])
  }

  lemma DigitRoundTrip(d: nat)
    requires d < 10
    ensures IsDigit(DigitChar(d)) && DigitValue(DigitChar(d)) == d
  {
  }

  /** Rendering a number and reading it back gives the number. */
  lemma {:induction false} DecimalRoundTrip(n: nat)
    ensures ParseDecimal(DecimalString(n)) == n
    decreases n
  {
    var s := DecimalString(n);
    if n < 10 {
      DigitRoundTrip(n);
      assert s[..|s| - 1] == [];
    } else {
      DecimalRoundTrip(n / 10);
      DigitRoundTrip(n % 10);
      assert s[..|s| - 1] == DecimalString(n / 10);
    }
  }

  /** Different numbers render differently. */
  lemma DecimalInjective(m: nat, n: nat)
    requires DecimalString(m) == DecimalString(n)
    ensures m == n
  {
    DecimalRoundTrip(m);
    DecimalRoundTrip(n);
  }

  // ---------------------------------------------------------------------
  // JavaScript string comparison `a < b`: lexicographic over UTF-16 code
  // units. A `char` is a Unicode scalar value, so a character above U+FFFF
  // is first split into its surrogate pair.

  /** The UTF-16 code units of one character. */
  function CodeUnits(c: char): (u: seq<int>)
    ensures 1 <= |u| <= 2
  {
    var n := c as int;
    if n < 0x10000 then [n] else [0xD800 + (n - 0x10000) / 0x400, 0xDC00 + (n - 0x10000) % 0x400]
  }

  /** The UTF-16 encoding of a string. */
  function Utf16(s: string): seq<int>
    decreases |s|
  {
    if s == [] then [] else CodeUnits(s[0]) + Utf16(s[1..])
  }

  /** No character's code units begin another character's encoding, since
      a scalar value is never a surrogate. */
  lemma CodeUnitsPrefixFree(c: char, d: char, x: seq<int>, y: seq<int>)
    requires CodeUnits(c) + x == CodeUnits(d) + y
    ensures c == d
  {
    var s := CodeUnits(c) + x;
    assert s[0] == CodeUnits(c)[0] == CodeUnits(d)[0];
    if c as int >= 0x10000 && d as int >= 0x10000 {
      assert s[1] == CodeUnits(c)[1] == CodeUnits(d)[1];
    }
  }

  /** Different strings have different encodings. */
  lemma {:induction false} Utf16Injective(a: string, b: string)
    ensures Utf16(a) == Utf16(b) ==> a == b
    decreases |a|
  {
    if Utf16(a) == Utf16(b) && a != [] && b != [] {
      var x, y := Utf16(a[1..]), Utf16(b[1..]);
      CodeUnitsPrefixFree(a[0], b[0], x, y);
      var u := CodeUnits(a[0]);
      assert x == (u + x)[|u|..] == (u + y)[|u|..] == y;
      Utf16Injective(a[1..], b[1..]);
      assert a == [a[0]] + a[1..] && b == [b[0]] + b[1..];
    }
  }

  /** Lexicographic order on code-unit sequences. */
  predicate UnitsLt(a: seq<int>, b: seq<int>)
    decreases |a|
  {
    if a == [] then b != []
    else if b == [] then false
    else if a[0] != b[0] then a[0] < b[0]
    else UnitsLt(a[1..], b[1..])
  }

  lemma {:induction false} UnitsLtIrreflexive(a: seq<int>)
    ensures !UnitsLt(a, a)
    decreases |a|
  {
    if a != [] { UnitsLtIrreflexive(a[1..]); }
  }

  lemma {:induction false} UnitsLtAsymmetric(a: seq<int>, b: seq<int>)
    requires UnitsLt(a, b)
    ensures !UnitsLt(b, a)
    decreases |a|
  {
    if a != [] && b != [] && a[0] == b[0] { UnitsLtAsymmetric(a[1..], b[1..]); }
  }

  lemma {:induction false} UnitsLtTransitive(a: seq<int>, b: seq<int>, c: seq<int>)
    requires UnitsLt(a, b) && UnitsLt(b, c)
    ensures UnitsLt(a, c)
    decreases |a|
  {
    if a != [] && b != [] && c != [] && a[0] == b[0] && b[0] == c[0] {
      UnitsLtTransitive(a[1..], b[1..], c[1..]);
    }
  }

  lemma {:induction false} UnitsLtTotal(a: seq<int>, b: seq<int>)
    requires a != b
    ensures UnitsLt(a, b) || UnitsLt(b, a)
    decreases |a|
  {
    if a != [] && b != [] && a[0] == b[0] {
      assert a == [a[0]] + a[1..] && b == [b[0]] + b[1..];
      UnitsLtTotal(a[1..], b[1..]);
    }
  }

  predicate StrLt(a: string, b: string) {
    UnitsLt(Utf16(a), Utf16(b))
  }

  lemma StrLtIrreflexive(a: string)
    ensures !StrLt(a, a)
  {
    UnitsLtIrreflexive(Utf16(a));
  }

  lemma StrLtAsymmetric(a: string, b: string)
    requires StrLt(a, b)
    ensures !StrLt(b, a)
  {
    UnitsLtAsymmetric(Utf16(a), Utf16(b));
  }

  lemma StrLtTransitive(a: string, b: string, c: string)
    requires StrLt(a, b) && StrLt(b, c)
    ensures StrLt(a, c)
  {
    UnitsLtTransitive(Utf16(a), Utf16(b), Utf16(c));
  }

  lemma StrLtTotal(a: string, b: string)
    requires a != b
    ensures StrLt(a, b) || StrLt(b, a)
  {
    Utf16Injective(a, b);
    UnitsLtTotal(Utf16(a), Utf16(b));
  }

  /** Within the Basic Multilingual Plane the order is that of the
      characters; a character above U+FFFF sorts as its high surrogate,
      before U+E000 to U+FFFF. */
  lemma OneCharOrder(c: char, d: char)
    ensures (c as int) < 0x10000 && (d as int) < 0x10000 ==> (StrLt([c], [d]) <==> c < d)
    ensures (c as int) >= 0x10000 && (d as int) >= 0xE000 && (d as int) < 0x10000 ==> StrLt([c], [d])
  {
    assert [c][1..] == [] && [d][1..] == [];
    assert Utf16([c]) == CodeUnits(c) && Utf16([d]) == CodeUnits(d);
    if (c as int) < 0x10000 && (d as int) < 0x10000 {
      var u, v := CodeUnits(c), CodeUnits(d);
      assert u[1..] == [] && v[1..] == [];
      assert UnitsLt(u, v) <==> (c as int) < (d as int);
    }
  }

  /** U+10000 sorts before U+FFFF, as in JavaScript. */
  lemma SupplementaryBeforeLastBmp()
    ensures StrLt("\U{10000}", "\U{FFFF}")
  {
    OneCharOrder('\U{10000}', '\U{FFFF}');
  }

  /** `a` is not after `b`. */
  predicate StrLe(a: string, b: string) { !StrLt(b, a) }

  lemma StrLeTransitive(a: string, b: string, c: string)
    requires StrLe(a, b) && StrLe(b, c)
    ensures StrLe(a, c)
  {
    if StrLt(c, a) {
      if a == b {
      } else {
        StrLtTotal(a, b);
        StrLtTransitive(c, a, b);
      }
    }
  }

  lemma StrLeTotal(a: string, b: string)
    ensures StrLe(a, b) || StrLe(b, a)
  {
    if a == b {
      StrLtIrreflexive(a);
    } else {
      StrLtTotal(a, b);
      if StrLt(a, b) { StrLtAsymmetric(a, b); } else { StrLtAsymmetric(b, a); }
    }
  }

  // ---------------------------------------------------------------------
  // Sequences without repetition.

  predicate NoDup<T(==)>(s: seq<T>) {
    forall i, j :: 0 <= i < j < |s| ==> s[i] != s[j]
  }

  /** A repetition-free sequence has as many distinct elements as entries. */
  lemma {:induction false} NoDupCard<T>(s: seq<T>)
    requires NoDup(s)
    ensures |set x | x in s| == |s|
  {
    if s != [] {
      var t := s[..|s| - 1];
      NoDupCard(t);
      assert (set x | x in s) == (set x | x in t) + {s[|s| - 1]};
      assert s[|s| - 1] !in (set x | x in t);
    }
  }
}
