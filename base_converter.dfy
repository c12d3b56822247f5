/** `BaseConverter`: digit sequences in one base to digit sequences in another, through an
    integer. `ToDecimal` reads its digits least significant first; `FromDecimal` writes
    them most significant first, so a round trip reverses the digits in between. */
module BaseConverter {
  import opened Errors
  import opened DotNet

  // ---------------------------------------------------------------- specification

  function Pow(b: int, i: nat): int
    decreases i
  {
    if i == 0 then 1 else b * Pow(b, i - 1)
  }

  lemma {:induction false} PowPositive(b: int, i: nat)
    requires b > 0
    ensures Pow(b, i) > 0
    decreases i
  {
    if i > 0 {
      PowPositive(b, i - 1);
    }
  }

  /** The value of `digits` in base `b`, digit `i` weighing `b` to the power `i`. */
  function LittleEndianValue(digits: seq<byte>, b: int): int
    decreases |digits|
  {
    if digits == [] then 0
    else LittleEndianValue(digits[..|digits| - 1], b) + digits[|digits| - 1] * Pow(b, |digits| - 1)
  }

  /** The value of `digits` in base `b`, the last digit weighing one. */
  function BigEndianValue(digits: seq<byte>, b: int): int
    decreases |digits|
  {
    if digits == [] then 0
    else BigEndianValue(digits[..|digits| - 1], b) * b + digits[|digits| - 1]
  }

  function Reverse<T>(s: seq<T>): (r: seq<T>)
    ensures |r| == |s| && forall i :: 0 <= i < |s| ==> r[i] == s[|s| - 1 - i]
  {
    if s == [] then [] else Reverse(s[1..]) + [s[0]]
  }

  /** The digits of a positive `n` in base `b`, most significant first; none for `n <= 0`. */
  function DigitsOf(n: int, b: int): (r: seq<byte>)
    requires 2 <= b <= 256
    ensures DigitsBelow(r, b)
    decreases if n <= 0 then 0 else n
  {
    if n <= 0 then [] else DigitsOf(n / b, b) + [n % b]
  }

  /** One step of the division loop: the quotient shrinks and the remainder is a digit. */
  lemma DivStep(n: int, b: int)
    requires n > 0 && 2 <= b
    ensures 0 <= n / b < n && 0 <= n % b < b && n == n / b * b + n % b
  {
  }

  /** What `FromDecimal` returns: a lone zero digit for zero, otherwise the digits of `n`. */
  function Digits(n: int, b: int): (r: seq<byte>)
    requires 2 <= b <= 256
    ensures DigitsBelow(r, b)
  {
    if n == 0 then [0] else DigitsOf(n, b)
  }

  predicate DigitsBelow(digits: seq<byte>, b: int) {
    forall i :: 0 <= i < |digits| ==> digits[i] < b
  }

  // ---------------------------------------------------------------- operations

  /** `ToDecimal`: digit `i` is weighted by `inputBase` to the power `i`. */
  method ToDecimal(input: seq<byte>, inputBase: int) returns (output: int)
    ensures output == LittleEndianValue(input, inputBase)
  {
    output := 0;
    for i := 0 to |input|
      invariant output == LittleEndianValue(input[..i], inputBase)
    {
      assert input[..i + 1][..i] == input[..i];
      output := output + input[i] * Pow(inputBase, i);
    }
    assert input[..|input|] == input;
  }

  /** `FromDecimal` for the bases its callers can reach once base 1 is refused: remainders
      are pushed on a stack while dividing, and the stack is read back top first. */
  method FromDecimal(input: int, outputBase: int) returns (r: seq<byte>)
    requires 2 <= outputBase <= 256
    ensures r == Digits(input, outputBase)
    ensures input >= 0 ==> BigEndianValue(r, outputBase) == input && DigitsBelow(r, outputBase)
    ensures input > 0 ==> r != [] && r[0] != 0
    ensures input < 0 ==> r == []
  {
    if input == 0 {
      return [0];
    }
    r := [];
    var n := input;
    while n > 0
      invariant n == input || 0 <= n
      invariant DigitsOf(input, outputBase) == DigitsOf(n, outputBase) + r
      decreases if n <= 0 then 0 else n
    {
      DivStep(n, outputBase);
      r := [(n % outputBase) as byte] + r;
      n := n / outputBase;
    }
    if input > 0 {
      DigitsOfValue(input, outputBase);
      DigitsOfLeading(input, outputBase);
    }
  }

  /** Both bases must lie in 1..128 for `Convert` as written, and base 1 is accepted. */
  predicate AcceptedAsWritten(b: int) {
    !(b <= 0 || b > 128)
  }

  /** The base check of `Convert` once an output base of 1 is refused as well. */
  predicate AcceptedOutputBase(b: int) {
    2 <= b <= 128
  }

  /** `Convert`: the digits are read in `inputBase` and written in `outputBase`; a base
      outside the accepted range is an ArgumentException. */
  method Convert(input: seq<byte>, inputBase: int, outputBase: int) returns (r: Result<seq<byte>>)
    ensures r.Err? <==> !AcceptedAsWritten(inputBase) || !AcceptedOutputBase(outputBase)
    ensures r.Err? ==> r.error == ArgumentException
    ensures r.Ok? ==> r.value == Digits(LittleEndianValue(input, inputBase), outputBase)
    ensures r.Ok? ==> DigitsBelow(r.value, outputBase)
    ensures r.Ok? ==> LittleEndianValue(Reverse(r.value), outputBase) == LittleEndianValue(input, inputBase)
  {
    if !AcceptedAsWritten(inputBase) {
      return Err(ArgumentException);
    }
    if !AcceptedOutputBase(outputBase) {
      return Err(ArgumentException);
    }
    var val := ToDecimal(input, inputBase);
    ValueNonNegative(input, inputBase);
    var digits := FromDecimal(val, outputBase);
    ReverseValue(digits, outputBase);
    return Ok(digits);
  }

  // ---------------------------------------------------------------- the loop as written

  /** The `while` loop of `FromDecimal` for any positive base, allowed at most `fuel`
      iterations: `None` when it has not finished by then. */
  function FromDecimalLoop(n: int, b: int, stack: seq<byte>, fuel: nat): Option<seq<byte>>
    requires 1 <= b <= 256
    decreases fuel
  {
    if n <= 0 then Some(stack)
    else if fuel == 0 then None
    else FromDecimalLoop(n / b, b, [n % b] + stack, fuel - 1)
  }

  /** With base 1 the remainder is always 0 and the quotient never shrinks, so the loop of
      `FromDecimal` does not finish for a positive input, however long it runs. */
  lemma {:induction false} BaseOneNeverFinishes(n: int, stack: seq<byte>, fuel: nat)
    requires n > 0
    ensures FromDecimalLoop(n, 1, stack, fuel) == None
    decreases fuel
  {
    if fuel > 0 {
      BaseOneNeverFinishes(n, [0] + stack, fuel - 1);
    }
  }

  /** `Convert` as written lets an output base of 1 through to that loop. */
  lemma ConvertAcceptsBaseOne(input: seq<byte>, inputBase: int, fuel: nat)
    requires AcceptedAsWritten(inputBase) && LittleEndianValue(input, inputBase) > 0
    ensures AcceptedAsWritten(1)
    ensures FromDecimalLoop(LittleEndianValue(input, inputBase), 1, [], fuel) == None
  {
    BaseOneNeverFinishes(LittleEndianValue(input, inputBase), [], fuel);
  }

  /** For a base of at least 2 the loop finishes within `n + 1` iterations with the digits of `n`. */
  lemma {:induction false} LoopGivesDigits(n: int, b: int, stack: seq<byte>, fuel: nat)
    requires 2 <= b <= 256 && fuel > n
    ensures FromDecimalLoop(n, b, stack, fuel) == Some(DigitsOf(n, b) + stack)
    decreases fuel
  {
    if n > 0 {
      DivStep(n, b);
      LoopGivesDigits(n / b, b, [n % b] + stack, fuel - 1);
      assert DigitsOf(n / b, b) + ([n % b] + stack) == DigitsOf(n, b) + stack;
    } else {
      assert DigitsOf(n, b) + stack == stack;
    }
  }

  // ---------------------------------------------------------------- properties

  lemma {:induction false} ValueNonNegative(digits: seq<byte>, b: int)
    requires b > 0
    ensures LittleEndianValue(digits, b) >= 0
    decreases |digits|
  {
    if digits != [] {
      ValueNonNegative(digits[..|digits| - 1], b);
      PowPositive(b, |digits| - 1);
    }
  }

  lemma {:induction false} DigitsOfValue(n: int, b: int)
    requires 2 <= b <= 256 && n >= 0
    ensures BigEndianValue(DigitsOf(n, b), b) == n
    ensures DigitsBelow(DigitsOf(n, b), b)
    decreases n
  {
    if n > 0 {
      DivStep(n, b);
      var d := DigitsOf(n, b);
      assert d[..|d| - 1] == DigitsOf(n / b, b);
      DigitsOfValue(n / b, b);
    }
  }

  /** The digits of a positive number are non-empty and do not start with a zero. */
  lemma {:induction false} DigitsOfLeading(n: int, b: int)
    requires 2 <= b <= 256 && n > 0
    ensures DigitsOf(n, b) != [] && DigitsOf(n, b)[0] != 0
    decreases n
  {
    DivStep(n, b);
    if n / b > 0 {
      DigitsOfLeading(n / b, b);
    } else {
      assert DigitsOf(n / b, b) == [];
    }
  }

  /** Putting a digit in front multiplies the rest by the base. */
  lemma {:induction false} LittleEndianCons(x: byte, t: seq<byte>, b: int)
    ensures LittleEndianValue([x] + t, b) == x + b * LittleEndianValue(t, b)
    decreases |t|
  {
    if t != [] {
      var u := [x] + t;
      var front, last := t[..|t| - 1], t[|t| - 1];
      assert u[..|u| - 1] == [x] + front && u[|u| - 1] == last;
      var f, p := LittleEndianValue(front, b), Pow(b, |t| - 1);
      assert LittleEndianValue(u, b) == LittleEndianValue([x] + front, b) + last * (b * p);
      LittleEndianCons(x, front, b);
      assert LittleEndianValue(t, b) == f + last * p;
      ConsArithmetic(x, b, f, last, p);
    }
  }

  lemma ConsArithmetic(x: int, b: int, f: int, last: int, p: int)
    ensures x + b * f + last * (b * p) == x + b * (f + last * p)
  {
    assert last * (b * p) == b * (last * p);
    assert b * (f + last * p) == b * f + b * (last * p);
  }

  /** Reversing a sequence with one more element at the end puts that element in front. */
  lemma ReverseSnoc<T>(s: seq<T>, x: T)
    ensures Reverse(s + [x]) == [x] + Reverse(s)
  {
  }

  /** Reading the reversed digits least significant first is reading them most significant first. */
  lemma {:induction false} ReverseValue(digits: seq<byte>, b: int)
    ensures LittleEndianValue(Reverse(digits), b) == BigEndianValue(digits, b)
    decreases |digits|
  {
    if digits != [] {
      var front := digits[..|digits| - 1];
      var last := digits[|digits| - 1];
      assert digits == front + [last];
      var r := Reverse(front);
      ReverseSnoc(front, last);
      assert Reverse(digits) == [last] + r;
      calc {
        LittleEndianValue(Reverse(digits), b);
        LittleEndianValue([last] + r, b);
        { LittleEndianCons(last, r, b); }
        last + b * LittleEndianValue(r, b);
        { ReverseValue(front, b); }
        last + b * BigEndianValue(front, b);
        BigEndianValue(digits, b);
      }
    }
  }

  /** Round trip: writing `n` in base `b` and reading the digits back in reverse gives `n`. */
  lemma RoundTrip(n: int, b: int)
    requires 2 <= b <= 256 && n >= 0
    ensures LittleEndianValue(Reverse(Digits(n, b)), b) == n
    ensures DigitsBelow(Digits(n, b), b)
  {
    DigitsOfValue(n, b);
    ReverseValue(Digits(n, b), b);
  }
}
