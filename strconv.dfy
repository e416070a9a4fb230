/**
 * `strconv.ParseUint(s, 10, 64)`, the only use the querier makes of Go's
 * number parser: a non-empty string of decimal digits whose value fits in
 * 64 bits. The digits are scanned left to right, so a range error at the
 * first overflowing digit wins over a syntax error further on.
 */
module Strconv {
  import opened GoTypes

  datatype NumReason = ErrSyntax | ErrRange

  /** `*strconv.NumError` with `Func == "ParseUint"`: the offending input and why it failed. */
  datatype NumError = NumError(num: string, reason: NumReason)

  datatype NumResult = Num(value: uint64) | Failed(err: NumError)

  /** The smallest `n` such that `n * 10` no longer fits in 64 bits. */
  const Cutoff: int := MaxUint64 / 10 + 1

  predicate IsDigit(c: char)
  {
    '0' <= c <= '9'
  }

  predicate AllDigits(s: string)
  {
    forall i :: 0 <= i < |s| ==> IsDigit(s[i])
  }

  function DigitValue(c: char): nat
    requires IsDigit(c)
  {
    (c as int) - ('0' as int)
  }

  /** The value of a string of decimal digits, read most significant digit first. */
  function DecimalValue(s: string): nat
    requires AllDigits(s)
    decreases |s|
  {
    if |s| == 0 then 0 else 10 * DecimalValue(s[..|s| - 1]) + DigitValue(s[|s| - 1])
  }

  /** The first `k` characters of `s` are digits whose value no longer fits in 64 bits. */
  predicate OverflowsAt(s: string, k: int)
  {
    0 < k <= |s| && AllDigits(s[..k]) && DecimalValue(s[..k]) > MaxUint64
  }

  predicate Overflows(s: string)
  {
    exists k :: 0 < k <= |s| && OverflowsAt(s, k)
  }

  /** What `strconv.ParseUint(s, 10, 64)` returns. */
  function ParsedUint(s: string): NumResult
  {
    if |s| == 0 then Failed(NumError(s, ErrSyntax))
    else if Overflows(s) then Failed(NumError(s, ErrRange))
    else if AllDigits(s) then
      assert s[..|s|] == s && !OverflowsAt(s, |s|);
      Num(DecimalValue(s))
    else Failed(NumError(s, ErrSyntax))
  }

  /** `NumError.Error()`; `strconv.Quote`'s escaping of unusual characters is not modelled. */
  function NumErrorText(e: NumError): string
  {
    "strconv.ParseUint: parsing \"" + e.num + "\": "
      + (if e.reason == ErrSyntax then "invalid syntax" else "value out of range")
  }

  /** A non-empty all-digit string has at least the value of each of its prefixes. */
  lemma {:induction false} PrefixValueAtMost(s: string, k: nat)
    requires AllDigits(s) && k <= |s|
    ensures AllDigits(s[..k]) && DecimalValue(s[..k]) <= DecimalValue(s)
    decreases |s| - k
  {
    if k < |s| {
      var front := s[..|s| - 1];
      assert s[..k] == front[..k];
      PrefixValueAtMost(front, k);
    } else {
      assert s[..k] == s;
    }
  }

  /**
   * `ParseUint` accepts exactly the non-empty strings of decimal digits whose
   * value is at most 2^64 - 1, leading zeros included, and then returns that
   * value; every failure names the offending input.
   */
  lemma ParsedUintAccepts(s: string)
    ensures ParsedUint(s).Num? <==> |s| > 0 && AllDigits(s) && DecimalValue(s) <= MaxUint64
    ensures ParsedUint(s).Num? ==> ParsedUint(s).value == DecimalValue(s)
    ensures ParsedUint(s).Failed? ==> ParsedUint(s).err.num == s
  {
    if |s| > 0 && AllDigits(s) && DecimalValue(s) <= MaxUint64 {
      forall k | 0 < k <= |s|
        ensures !OverflowsAt(s, k)
      {
        PrefixValueAtMost(s, k);
      }
    }
  }

  /** An all-digit prefix `s[..i+1]` is the prefix `s[..i]` with one more digit. */
  lemma DigitPrefixStep(s: string, i: nat)
    requires i < |s| && AllDigits(s[..i]) && IsDigit(s[i])
    ensures AllDigits(s[..i + 1])
    ensures DecimalValue(s[..i + 1]) == 10 * DecimalValue(s[..i]) + DigitValue(s[i])
  {
    assert s[..i + 1][..i] == s[..i];
  }

  /** A non-digit at `i` rules out every all-digit prefix longer than `i`, and `s` itself. */
  lemma NonDigitBlocks(s: string, i: nat)
    requires i < |s| && !IsDigit(s[i])
    ensures !AllDigits(s)
    ensures forall k :: i < k <= |s| ==> !OverflowsAt(s, k)
  {
    forall k | i < k <= |s|
      ensures !OverflowsAt(s, k)
    {
      assert s[..k][i] == s[i];
    }
  }

  /** Go's loop: digit by digit, checking for multiplication and addition overflow as it goes. */
  method ParseUint(s: string) returns (r: NumResult)
    ensures r == ParsedUint(s)
  {
    if |s| == 0 {
      return Failed(NumError(s, ErrSyntax));
    }
    var n: int := 0;
    for i := 0 to |s|
      invariant AllDigits(s[..i]) && n == DecimalValue(s[..i]) && n <= MaxUint64
      invariant forall k :: 0 < k <= i ==> !OverflowsAt(s, k)
    {
      var c := s[i];
      // A letter maps to a digit of at least 10, which base 10 rejects: the same syntax error.
      if !IsDigit(c) {
        NonDigitBlocks(s, i);
        return Failed(NumError(s, ErrSyntax));
      }
      DigitPrefixStep(s, i);
      var d := DigitValue(c);
      if n >= Cutoff {
        assert OverflowsAt(s, i + 1);
        return Failed(NumError(s, ErrRange));
      }
      n := n * 10;
      // In Go a sum past 2^64 - 1 wraps and is caught by `n1 < n`; either way it is out of range.
      var n1 := n + d;
      if n1 > MaxUint64 {
        assert OverflowsAt(s, i + 1);
        return Failed(NumError(s, ErrRange));
      }
      n := n1;
    }
    assert s[..|s|] == s;
    return Num(n);
  }
}
