/** String helpers shared by the model: JavaScript truthiness of optional strings,
    `slice(0, n)`, `startsWith`, `includes`, ASCII `toLowerCase`, and
    `Number.prototype.toString(radix)` for integers. */
module Text {
  import opened Wrappers

  /** JavaScript truthiness of a possibly-missing string: `undefined` and `""` are falsy. */
  predicate Truthy(s: Option<string>) {
    s.Some? && s.value != ""
  }

  /** `s || fallback` for a possibly-missing string. */
  function OrElse(s: Option<string>, fallback: string): (r: string)
    ensures Truthy(s) ==> r == s.value
    ensures !Truthy(s) ==> r == fallback
  {
    if Truthy(s) then s.value else fallback
  }

  function Min(a: int, b: int): int {
    if a <= b then a else b
  }

  /** `xs.slice(0, n)` for n >= 0. */
  function Take<T>(xs: seq<T>, n: nat): (r: seq<T>)
    ensures |r| == Min(n, |xs|)
    ensures r <= xs
  {
    if n <= |xs| then xs[..n] else xs
  }

  /** `xs.slice(n)` for n >= 0. */
  function Drop<T>(xs: seq<T>, n: nat): (r: seq<T>)
    ensures Take(xs, n) + r == xs
  {
    if n <= |xs| then xs[n..] else []
  }

  predicate StartsWith(s: string, prefix: string) {
    |prefix| <= |s| && s[..|prefix|] == prefix
  }

  /** `s.includes(sub)`, scanning from the left. */
  predicate Contains(s: string, sub: string)
    decreases |s|
  {
    StartsWith(s, sub) || (|s| > 0 && Contains(s[1..], sub))
  }

  /** `sub` occurs in `s` starting at position i. */
  predicate OccursAt(s: string, sub: string, i: int) {
    0 <= i <= |s| - |sub| && s[i..i + |sub|] == sub
  }

  lemma OccursShift(s: string, sub: string, i: int)
    requires |s| > 0 && i >= 1
    ensures OccursAt(s, sub, i) <==> OccursAt(s[1..], sub, i - 1)
  {
    if 0 <= i <= |s| - |sub| {
      assert s[1..][i - 1..i - 1 + |sub|] == s[i..i + |sub|];
    }
  }

  /** The scan agrees with the positional definition of a substring occurrence. */
  lemma {:induction false} ContainsAt(s: string, sub: string)
    ensures Contains(s, sub) <==> exists i :: OccursAt(s, sub, i)
    decreases |s|
  {
    if |s| == 0 {
      if |sub| == 0 {
        assert OccursAt(s, sub, 0);
      }
    } else {
      ContainsAt(s[1..], sub);
      forall i | i >= 1
        ensures OccursAt(s, sub, i) <==> OccursAt(s[1..], sub, i - 1)
      {
        OccursShift(s, sub, i);
      }
      if StartsWith(s, sub) {
        assert OccursAt(s, sub, 0);
      } else if Contains(s[1..], sub) {
        var j :| OccursAt(s[1..], sub, j);
        assert OccursAt(s, sub, j + 1);
      }
    }
  }

  function LowerChar(c: char): char {
    if 'A' <= c <= 'Z' then (c as int + 32) as char else c
  }

  /** `toLowerCase()` restricted to the ASCII letters A-Z. */
  function ToLower(s: string): (r: string)
    ensures |r| == |s|
    ensures forall i :: 0 <= i < |s| ==> r[i] == LowerChar(s[i])
  {
    seq(|s|, i requires 0 <= i < |s| => LowerChar(s[i]))
  }

  /** The digit character for a value below 36: `0`-`9`, then `a`-`z`. */
  function DigitChar(d: nat): char
    requires d < 36
  {
    if d < 10 then ('0' as int + d) as char else ('a' as int + d - 10) as char
  }

  /** The value of a digit character, -1 for anything else. */
  function DigitValue(c: char): int {
    if '0' <= c <= '9' then c as int - '0' as int
    else if 'a' <= c <= 'z' then c as int - 'a' as int + 10
    else -1
  }

  /** Euclidean division by a base of at least 2 shrinks a number that is not below it. */
  lemma DivMod(n: nat, base: nat)
    requires 2 <= base
    ensures n == (n / base) * base + n % base
    ensures 0 <= n % base < base
    ensures n >= base ==> n / base < n
  {
  }

  /** `n.toString(base)` for a non-negative integer: most significant digit first,
      no leading zeros. */
  function NatToRadix(n: nat, base: nat): (r: string)
    requires 2 <= base <= 36
    ensures |r| > 0
    decreases n
  {
    DivMod(n, base);
    if n < base then [DigitChar(n)] else NatToRadix(n / base, base) + [DigitChar(n % base)]
  }

  /** `x.toString(base)`: a minus sign before the digits of |x| when x is negative. */
  function IntToRadix(x: int, base: nat): (r: string)
    requires 2 <= base <= 36
    ensures |r| > 0
  {
    if x < 0 then "-" + NatToRadix(-x, base) else NatToRadix(x, base)
  }

  /** Reads digits back, most significant first. */
  function ParseNat(s: string, base: nat): int
    decreases |s|
  {
    if s == [] then 0 else ParseNat(s[..|s| - 1], base) * base + DigitValue(s[|s| - 1])
  }

  function ParseInt(s: string, base: nat): int {
    if |s| > 0 && s[0] == '-' then -ParseNat(s[1..], base) else ParseNat(s, base)
  }

  /** The leading character of a printed natural number is a digit, never a sign. */
  lemma {:induction false} NatToRadixLeadsWithDigit(n: nat, base: nat)
    requires 2 <= base <= 36
    ensures NatToRadix(n, base)[0] != '-'
    decreases n
  {
    DivMod(n, base);
    if n >= base {
      NatToRadixLeadsWithDigit(n / base, base);
    }
  }

  lemma {:induction false} NatToRadixRoundTrip(n: nat, base: nat)
    requires 2 <= base <= 36
    ensures ParseNat(NatToRadix(n, base), base) == n
    decreases n
  {
    DivMod(n, base);
    if n >= base {
      NatToRadixRoundTrip(n / base, base);
      var s := NatToRadix(n, base);
      assert s[..|s| - 1] == NatToRadix(n / base, base);
      assert DigitValue(s[|s| - 1]) == n % base;
    } else {
      assert DigitValue(DigitChar(n)) == n;
    }
  }

  /** Printing an integer in a radix loses nothing: parsing the text gives it back. */
  lemma IntToRadixRoundTrip(x: int, base: nat)
    requires 2 <= base <= 36
    ensures ParseInt(IntToRadix(x, base), base) == x
  {
    NatToRadixRoundTrip(if x < 0 then -x else x, base);
    NatToRadixLeadsWithDigit(if x < 0 then -x else x, base);
    var digits := NatToRadix(if x < 0 then -x else x, base);
    if x < 0 {
      assert IntToRadix(x, base)[1..] == digits;
    }
  }

  /** Hence two different integers never print the same. */
  lemma IntToRadixInjective(x: int, y: int, base: nat)
    requires 2 <= base <= 36
    ensures IntToRadix(x, base) == IntToRadix(y, base) ==> x == y
  {
    IntToRadixRoundTrip(x, base);
    IntToRadixRoundTrip(y, base);
  }
}
