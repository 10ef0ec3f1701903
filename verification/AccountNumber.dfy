/** Account numbers: "KZ", two check digits (MOD 97-10 of ISO/IEC 7064), a bank code and 13 digits. */
module AccountNumber {
  import Int64

  const BANK_CODE: string := "125"

  predicate IsDigit(c: char) {
    '0' <= c <= '9'
  }

  predicate AllDigits(s: string) {
    forall i :: 0 <= i < |s| ==> IsDigit(s[i])
  }

  function DigitValue(c: char): int {
    c as int - '0' as int
  }

  /** The number a digit string denotes. */
  function Number(s: string): int {
    if s == "" then 0 else 10 * Number(s[..|s| - 1]) + DigitValue(s[|s| - 1])
  }

  /** -1 as soon as a character is not a digit. */
  function Remainder(s: string): int {
    if AllDigits(s) then Number(s) % 97 else -1
  }

  lemma Shift(x: int, k: int)
    ensures (97 * k + x) % 97 == x % 97
  {
  }

  lemma HornerStep(x: int, d: int)
    ensures (x % 97 * 10 + d) % 97 == (10 * x + d) % 97
  {
    Shift(x % 97 * 10 + d, x / 97 * 10);
  }

  method Mod97(digits: string) returns (rem: int)
    ensures rem == Remainder(digits)
  {
    rem := 0;
    for i := 0 to |digits|
      invariant AllDigits(digits[..i]) && rem == Number(digits[..i]) % 97
    {
      var ch := digits[i];
      if ch < '0' || ch > '9' {
        return -1;
      }
      assert digits[..i + 1][..i] == digits[..i];
      HornerStep(Number(digits[..i]), DigitValue(ch));
      rem := (rem * 10 + DigitValue(ch)) % 97;
    }
    assert digits[..|digits|] == digits;
  }

  function Digit(n: int): char
    requires 0 <= n < 10
  {
    ('0' as int + n) as char
  }

  function TwoDigits(n: int): (s: string)
    requires 0 <= n < 100
    ensures |s| == 2 && AllDigits(s) && Number(s) == n
  {
    var s := [Digit(n / 10), Digit(n % 10)];
    assert s[..1] == [s[0]] && s[..1][..0] == [];
    assert Number(s[..1]) == n / 10;
    s
  }

  // ---------------------------------------------------------------- trimming

  function TrimLeft(s: string): string {
    if s != "" && IsDigit(s[0]) then TrimLeft(s[1..]) else s
  }

  function TrimRight(s: string): string {
    if s != "" && IsDigit(s[|s| - 1]) then TrimRight(s[..|s| - 1]) else s
  }

  /** Trimming digits off both ends leaves nothing exactly if there are only digits. */
  lemma {:induction false} TrimExact(s: string)
    ensures TrimRight(TrimLeft(s)) == "" <==> AllDigits(s)
  {
    if s == "" {
    } else if IsDigit(s[0]) {
      TrimExact(s[1..]);
      assert s == [s[0]] + s[1..];
    } else {
      TrimStops(s);
    }
  }

  lemma {:induction false} TrimStops(s: string)
    requires s != "" && !IsDigit(s[0])
    ensures TrimRight(s) != ""
  {
    if |s| > 1 {
      TrimStops(s[..|s| - 1]);
    }
  }

  // ---------------------------------------------------------------- numbers

  function GenerateNumber(random13: string): Int64.Option<string> {
    if |random13| != 13 || TrimRight(TrimLeft(random13)) != "" then Int64.None
    else
      var bban := BANK_CODE + random13;
      assert AllDigits(bban + "203500") by {
        TrimExact(random13);
      }
      Int64.Some("KZ" + TwoDigits(98 - Remainder(bban + "203500")) + bban)
  }

  function Rearranged(number: string): string
    requires |number| == 20
  {
    number[4..] + "2035" + number[2..4]
  }

  predicate ValidNumber(number: string) {
    |number| == 20 && number[..2] == "KZ" && Remainder(Rearranged(number)) == 1
  }

  lemma AppendTwo(a: string, b: string)
    requires |b| == 2
    ensures Number(a + b) == 100 * Number(a) + Number(b)
  {
    assert (a + b)[..|a| + 1] == a + b[..1] && (a + b[..1])[..|a|] == a;
    assert b[..1] == [b[0]] && b[..1][..0] == "";
    assert Number(b[..1]) == DigitValue(b[0]);
  }

  /** Two check digits make a number valid exactly if they agree with the generated ones modulo 97. */
  lemma CheckDigits(bban: string, check: int)
    requires |bban| == 16 && AllDigits(bban) && 0 <= check < 100
    ensures ValidNumber("KZ" + TwoDigits(check) + bban) <==> (check - (98 - Remainder(bban + "203500"))) % 97 == 0
  {
    var number := "KZ" + TwoDigits(check) + bban;
    assert number[4..] == bban && number[2..4] == TwoDigits(check) && number[..2] == "KZ";
    var head := bban + "2035";
    AppendTwo(head, TwoDigits(check));
    assert bban + "203500" == head + "00";
    AppendTwo(head, "00");
    assert "00"[..1] == "0" && "0"[..0] == "";
    assert Number("0") == 0;
    Congruent(Number(head) * 100, check);
  }

  lemma Congruent(n: int, check: int)
    ensures (n + check) % 97 == 1 <==> (check - (98 - n % 97)) % 97 == 0
  {
  }

  /** Every generated number is valid, with check digits between 02 and 98; anything but 13 digits is
      refused. */
  lemma GeneratedValid(random13: string)
    ensures GenerateNumber(random13).Some? <==> |random13| == 13 && AllDigits(random13)
    ensures GenerateNumber(random13).Some? ==>
              var number := GenerateNumber(random13).value;
              && ValidNumber(number)
              && 2 <= Number(number[2..4]) <= 98
              && number[..2] == "KZ" && number[4..7] == "125" && number[7..] == random13
  {
    TrimExact(random13);
    if GenerateNumber(random13).Some? {
      var bban := BANK_CODE + random13;
      var check := 98 - Remainder(bban + "203500");
      CheckDigits(bban, check);
      var number := GenerateNumber(random13).value;
      assert number[2..4] == TwoDigits(check) && number[4..7] == BANK_CODE && number[7..] == random13;
    }
  }

  // ---------------------------------------------------------------- errors the digits catch

  /** Ten is invertible modulo 97: 10 * 68 == 7 * 97 + 1. */
  lemma TenInvertible(x: int)
    requires (10 * x) % 97 == 0
    ensures x % 97 == 0
  {
    var k := 10 * x / 97;
    assert x == 97 * (68 * k - 7 * x);
  }

  /** A number moved e decimal places to the left. */
  function Scaled(x: int, e: nat): int {
    if e == 0 then x else 10 * Scaled(x, e - 1)
  }

  lemma {:induction false} ScaledNonzero(x: int, e: nat)
    requires x % 97 != 0
    ensures Scaled(x, e) % 97 != 0
  {
    if e > 0 {
      ScaledNonzero(x, e - 1);
      if Scaled(x, e) % 97 == 0 {
        TenInvertible(Scaled(x, e - 1));
      }
    }
  }

  lemma {:induction false} ScaledAdd(x: int, y: int, e: nat)
    ensures Scaled(x, e) + Scaled(y, e) == Scaled(x + y, e)
  {
    if e > 0 {
      ScaledAdd(x, y, e - 1);
    }
  }

  lemma {:induction false} ScaledTen(x: int, e: nat)
    ensures Scaled(10 * x, e) == Scaled(x, e + 1)
  {
    if e > 0 {
      ScaledTen(x, e - 1);
    }
  }

  /** Overwriting one position moves the number by the difference at that position. */
  lemma {:induction false} ReplaceShifts(s: string, i: nat, c: char)
    requires i < |s|
    ensures Number(s[i := c]) == Number(s) + Scaled(DigitValue(c) - DigitValue(s[i]), |s| - 1 - i)
  {
    var n := |s| - 1;
    if i < n {
      ReplaceShifts(s[..n], i, c);
      assert s[i := c][..n] == s[..n][i := c];
    } else {
      assert s[i := c][..n] == s[..n];
    }
  }

  lemma Differs(x: int, d: int)
    requires d % 97 != 0
    ensures (x + d) % 97 != x % 97
  {
  }

  /** A single wrong character always changes the remainder. */
  lemma OneWrong(s: string, i: nat, c: char)
    requires AllDigits(s) && i < |s| && c != s[i]
    ensures Remainder(s[i := c]) != Remainder(s)
  {
    if IsDigit(c) {
      ReplaceShifts(s, i, c);
      var d := DigitValue(c) - DigitValue(s[i]);
      ScaledNonzero(d, |s| - 1 - i);
      Differs(Number(s), Scaled(d, |s| - 1 - i));
    } else {
      assert !IsDigit(s[i := c][i]);
    }
  }

  /** Where a position of the number stands in the rearranged string. */
  function Slot(i: nat): nat
    requires 2 <= i < 20
  {
    if i >= 4 then i - 4 else i + 18
  }

  lemma RearrangedReplace(number: string, i: nat, c: char)
    requires |number| == 20 && 2 <= i < 20
    ensures Rearranged(number[i := c]) == Rearranged(number)[Slot(i) := c]
    ensures Rearranged(number)[Slot(i)] == number[i]
  {
    if i >= 4 {
      assert number[i := c][4..] == number[4..][i - 4 := c] && number[i := c][2..4] == number[2..4];
    } else {
      assert number[i := c][4..] == number[4..] && number[i := c][2..4] == number[2..4][i - 2 := c];
    }
  }

  lemma ValidDigits(number: string)
    requires ValidNumber(number)
    ensures AllDigits(Rearranged(number))
  {
  }

  /** Changing any single character of a valid number makes it invalid. */
  lemma SingleErrorDetected(number: string, i: nat, c: char)
    requires ValidNumber(number) && i < 20 && c != number[i]
    ensures !ValidNumber(number[i := c])
  {
    if i < 2 {
      assert number[i := c][..2][i] == c && number[..2][i] == number[i];
    } else {
      ValidDigits(number);
      RearrangedReplace(number, i, c);
      OneWrong(Rearranged(number), Slot(i), c);
    }
  }

  function Swapped(s: string, i: nat, j: nat): string
    requires i < |s| && j < |s|
  {
    s[i := s[j]][j := s[i]]
  }

  lemma {:induction false} SwapShifts(s: string, i: nat, j: nat)
    requires i < j < |s|
    ensures var d := DigitValue(s[j]) - DigitValue(s[i]);
            Number(Swapped(s, i, j)) == Number(s) + Scaled(d, |s| - 1 - i) + Scaled(-d, |s| - 1 - j)
  {
    var once := s[i := s[j]];
    assert |once| == |s| && once[j] == s[j];
    ReplaceShifts(s, i, s[j]);
    ReplaceShifts(once, j, s[i]);
    assert DigitValue(s[i]) - DigitValue(once[j]) == -(DigitValue(s[j]) - DigitValue(s[i]));
  }

  /** Neighbours differ by a factor of ten, so a swap moves the number by nine times a power of it. */
  lemma NeighbourSwap(s: string, i: nat)
    requires AllDigits(s) && i + 1 < |s| && s[i] != s[i + 1]
    ensures Remainder(Swapped(s, i, i + 1)) != Remainder(s)
  {
    SwapShifts(s, i, i + 1);
    var d, e := DigitValue(s[i + 1]) - DigitValue(s[i]), |s| - 2 - i;
    ScaledTen(d, e);
    ScaledAdd(10 * d, -d, e);
    ScaledNonzero(9 * d, e);
    Differs(Number(s), Scaled(9 * d, e));
  }

  lemma Thousandfold(x: int, e: nat)
    ensures Scaled(x, e + 3) == 1000 * Scaled(x, e)
  {
    assert Scaled(x, e + 1) == 10 * Scaled(x, e) && Scaled(x, e + 2) == 10 * Scaled(x, e + 1);
  }

  lemma ScaledFar(d: int)
    ensures Scaled(d, 21) == 1_000_000_000_000_000_000_000 * d
  {
    Thousandfold(d, 0);
    Thousandfold(d, 3);
    Thousandfold(d, 6);
    Thousandfold(d, 9);
    Thousandfold(d, 12);
    Thousandfold(d, 15);
    Thousandfold(d, 18);
  }

  lemma EndsWeigh(d: int)
    requires -9 <= d <= 9 && d != 0
    ensures d * 999_999_999_999_999_999_999 % 97 != 0
  {
  }

  /** The last check digit and the first digit after it stand at the two ends once rearranged. */
  lemma EndsSwap(s: string)
    requires AllDigits(s) && |s| == 22 && s[0] != s[21]
    ensures Remainder(Swapped(s, 0, 21)) != Remainder(s)
  {
    SwapShifts(s, 0, 21);
    var d := DigitValue(s[21]) - DigitValue(s[0]);
    ScaledFar(d);
    EndsWeigh(d);
    Differs(Number(s), d * 999_999_999_999_999_999_999);
  }

  lemma RearrangedSwap(number: string, i: nat)
    requires |number| == 20 && 2 <= i < 19
    ensures Rearranged(Swapped(number, i, i + 1)) == Swapped(Rearranged(number), Slot(i), Slot(i + 1))
    ensures Rearranged(number)[Slot(i)] == number[i] && Rearranged(number)[Slot(i + 1)] == number[i + 1]
  {
    RearrangedReplace(number, i, number[i + 1]);
    RearrangedReplace(number, i + 1, number[i]);
    RearrangedReplace(number[i := number[i + 1]], i + 1, number[i]);
  }

  /** Swapping two unequal neighbours of a valid number makes it invalid. */
  lemma AdjacentSwapDetected(number: string, i: nat)
    requires ValidNumber(number) && i + 1 < 20 && number[i] != number[i + 1]
    ensures !ValidNumber(Swapped(number, i, i + 1))
  {
    var wrong := Swapped(number, i, i + 1);
    if i < 2 {
      assert wrong[..2][i] == number[i + 1] && number[..2][i] == number[i];
    } else {
      ValidDigits(number);
      RearrangedSwap(number, i);
      var s := Rearranged(number);
      if i == 3 {
        SwapOrder(s, 21, 0);
        EndsSwap(s);
      } else {
        NeighbourSwap(s, Slot(i));
      }
    }
  }

  lemma SwapOrder(s: string, i: nat, j: nat)
    requires i < |s| && j < |s|
    ensures Swapped(s, i, j) == Swapped(s, j, i)
  {
  }
}
