/** Byte strings, decimal numerals and sequence helpers shared by the models. */
module Bytes {
  type byte = x: int | 0 <= x < 256

  datatype Option<+T> = None | Some(value: T)

  datatype Result<+T, +E> = Ok(value: T) | Err(error: E)

  function Min(a: int, b: int): int {
    if a <= b then a else b
  }

  /** The concatenation of a list of sequences, in order. */
  function Flatten<T>(parts: seq<seq<T>>): seq<T> {
    if parts == [] then [] else parts[0] + Flatten(parts[1..])
  }

  lemma {:induction false} FlattenAppend<T>(a: seq<seq<T>>, b: seq<seq<T>>)
    ensures Flatten(a + b) == Flatten(a) + Flatten(b)
  {
    if a == [] {
      assert a + b == b;
    } else {
      assert (a + b)[0] == a[0] && (a + b)[1..] == a[1..] + b;
      FlattenAppend(a[1..], b);
    }
  }

  lemma Assoc<T>(a: seq<T>, b: seq<T>, c: seq<T>)
    ensures a + b + c == a + (b + c)
  {
  }

  lemma PrefixUnder<T>(a: seq<T>, b: seq<T>, c: seq<T>)
    requires b <= c
    ensures a + b <= a + c
  {
  }

  lemma CutAppend<T>(a: seq<T>, b: seq<T>, k: nat)
    requires k <= |a|
    ensures (a + b)[..k] == a[..k]
    ensures (a + b)[k..] == a[k..] + b
  {
  }

  // Decimal numerals ------------------------------------------------------

  predicate IsDigit(c: int) {
    48 <= c <= 57
  }

  predicate AllDigits(text: seq<int>) {
    forall i :: 0 <= i < |text| ==> IsDigit(text[i])
  }

  /** The digits `format!("{}", n)` prints: no sign, no leading zero. */
  function Decimal(n: nat): (text: seq<byte>)
    ensures text != [] && AllDigits(text)
    ensures DecimalValue(text) == n
    ensures n < 10 <==> |text| == 1
  {
    if n < 10 then [48 + n]
    else
      var text := Decimal(n / 10) + [48 + n % 10];
      assert text[..|text| - 1] == Decimal(n / 10);
      text
  }

  /** The number a string of digits denotes. */
  function DecimalValue(text: seq<int>): nat
    requires AllDigits(text)
  {
    if text == [] then 0
    else 10 * DecimalValue(text[..|text| - 1]) + (text[|text| - 1] - 48)
  }

  /** A numeral below ten to the power `k` has at most `k` digits. */
  lemma {:induction false} DecimalLength(n: nat, k: nat)
    requires 0 < k && n < Pow10(k)
    ensures |Decimal(n)| <= k
  {
    if n >= 10 {
      if k > 1 {
        DecimalLength(n / 10, k - 1);
      }
    }
  }

  function Pow10(k: nat): nat {
    if k == 0 then 1 else 10 * Pow10(k - 1)
  }
}
