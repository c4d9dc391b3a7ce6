/** The printers of `gate_probe.py`: 26 base-32 digits for an identifier, and SQL string literals. */
module Encoding {
  import opened Prelude

  const ALPHABET := "0123456789ABCDEFGHJKMNPQRSTVWXYZ"
  const WIDTH := 26

  function Pow32(n: nat): (r: nat)
    ensures r > 0
  {
    if n == 0 then 1 else 32 * Pow32(n - 1)
  }

  /** `int.from_bytes(value, "big")`. */
  function FromBytes(value: seq<nat>): nat {
    if value == [] then 0 else 256 * FromBytes(value[..|value| - 1]) + value[|value| - 1]
  }

  ghost predicate Bytes(value: seq<nat>) {
    forall i | 0 <= i < |value| :: value[i] < 256
  }

  /** The digit a character stands for. */
  function Digit(c: char): (d: Option<nat>)
    ensures d.Some? ==> d.value < 32 && ALPHABET[d.value] == c
  {
    DigitFrom(c, 32)
  }

  function DigitFrom(c: char, n: nat): (d: Option<nat>)
    requires n <= 32
    ensures d.Some? ==> d.value < n && ALPHABET[d.value] == c
    ensures d.None? ==> forall i | 0 <= i < n :: ALPHABET[i] != c
  {
    if n == 0 then None else if ALPHABET[n - 1] == c then Some(n - 1) else DigitFrom(c, n - 1)
  }

  ghost predicate Printable(text: string) {
    forall i | 0 <= i < |text| :: Digit(text[i]).Some?
  }

  /** The number a text of digits denotes, most significant first. */
  function Parsed(text: string): nat
    requires Printable(text)
  {
    if text == [] then 0 else 32 * Parsed(text[..|text| - 1]) + Digit(text[|text| - 1]).value
  }

  lemma AlphabetAscends(i: nat)
    requires i < 31
    ensures ALPHABET[i] < ALPHABET[i + 1]
  {
  }

  lemma {:induction false} LaterIsGreater(i: nat, j: nat)
    requires i < j < 32
    ensures ALPHABET[i] < ALPHABET[j]
    decreases j
  {
    AlphabetAscends(j - 1);
    if i < j - 1 {
      LaterIsGreater(i, j - 1);
    }
  }

  lemma {:induction false} AlphabetIsDistinct(d: nat)
    requires d < 32
    ensures Digit(ALPHABET[d]) == Some(d)
  {
    var found := Digit(ALPHABET[d]).value;
    if found < d {
      LaterIsGreater(found, d);
    } else if d < found {
      LaterIsGreater(d, found);
    }
  }

  /** Where a digit or a capital letter stands: I, L, O and U are left out. */
  function Place(c: char): int {
    if '0' <= c <= '9' then c as int - '0' as int
    else if 'A' <= c <= 'H' then c as int - 'A' as int + 10
    else if 'J' <= c <= 'K' then c as int - 'J' as int + 18
    else if 'M' <= c <= 'N' then c as int - 'M' as int + 20
    else if 'P' <= c <= 'T' then c as int - 'P' as int + 22
    else if 'V' <= c <= 'Z' then c as int - 'V' as int + 27
    else -1
  }

  lemma PlaceIsDigit(d: nat)
    requires d < 32
    ensures Place(ALPHABET[d]) == d
  {
  }

  lemma PlaceIsTaken(c: char)
    requires Place(c) >= 0
    ensures Place(c) < 32 && ALPHABET[Place(c)] == c
  {
  }

  /** The digits are the decimal ones and then the capitals but I, L, O and U, in order. */
  lemma {:induction false} DigitMeans(c: char)
    ensures Digit(c) == if Place(c) >= 0 then Some(Place(c)) else None
  {
    if Digit(c).Some? {
      PlaceIsDigit(Digit(c).value);
    } else if Place(c) >= 0 {
      PlaceIsTaken(c);
    }
  }

  lemma {:induction false} DivideStep(number: nat, scale: nat)
    requires scale > 0
    ensures number / (32 * scale) == (number / 32) / scale
    ensures number % (32 * scale) == 32 * ((number / 32) % scale) + number % 32
  {
    var q, r := number / 32, number % 32;
    var a, b := q / scale, q % scale;
    assert q == scale * a + b;
    assert number == 32 * (scale * a + b) + r;
    assert number == (32 * scale) * a + (32 * b + r) by {
      assert 32 * (scale * a) == (32 * scale) * a;
    }
    assert 0 <= 32 * b + r < 32 * scale;
    Quotient(number, 32 * scale, a, 32 * b + r);
  }

  lemma Multiple(d: nat, k: int)
    ensures k >= 1 ==> d * k >= d
    ensures k <= -1 ==> d * k <= -(d as int)
  {
  }

  lemma {:induction false} Quotient(n: nat, d: nat, q: nat, r: nat)
    requires d > 0 && n == d * q + r && r < d
    ensures n / d == q && n % d == r
  {
    var k := n / d - q;
    assert d * k == r - n % d by {
      assert d * (n / d) - d * q == d * (n / d - q);
    }
    Multiple(d, k);
    assert k == 0;
  }

  /** The last `width` base-32 digits of a number. */
  function Printed(number: nat, width: nat): (text: string)
    ensures |text| == width
  {
    if width == 0 then "" else Printed(number / 32, width - 1) + [ALPHABET[number % 32]]
  }

  /** What was printed denotes the number modulo the range of the width. */
  lemma {:induction false} PrintedDenotes(number: nat, width: nat)
    ensures Printable(Printed(number, width))
    ensures Parsed(Printed(number, width)) == number % Pow32(width)
    decreases width
  {
    if width > 0 {
      PrintedDenotes(number / 32, width - 1);
      var front := Printed(number / 32, width - 1);
      var text := Printed(number, width);
      AlphabetIsDistinct(number % 32);
      assert text[..|text| - 1] == front;
      DivideStep(number, Pow32(width - 1));
    }
  }

  lemma {:induction false} PrintingIsFaithful(text: string)
    requires Printable(text)
    ensures Parsed(text) < Pow32(|text|) && Printed(Parsed(text), |text|) == text
    decreases |text|
  {
    if text != [] {
      var front, d := text[..|text| - 1], Digit(text[|text| - 1]).value;
      PrintingIsFaithful(front);
      Quotient(Parsed(text), 32, Parsed(front), d);
      SplitLast(text);
    }
  }

  /** The loop of the source: digits are prepended while the number is shifted away. */
  method PrintDigits(value: nat, width: nat) returns (result: string)
    ensures result == Printed(value, width)
  {
    var number := value;
    result := "";
    for i := 0 to width
      invariant Printed(number, width - i) + result == Printed(value, width)
    {
      assert Printed(number, width - i) == Printed(number / 32, width - i - 1) + [ALPHABET[number % 32]];
      result := [ALPHABET[number % 32]] + result;
      number := number / 32;
    }
  }

  method Crockford(value: seq<nat>) returns (result: string)
    requires Bytes(value)
    ensures |result| == WIDTH && Printable(result)
    ensures Parsed(result) == FromBytes(value) % Pow32(WIDTH)
  {
    result := PrintDigits(FromBytes(value), WIDTH);
    PrintedDenotes(FromBytes(value), WIDTH);
  }

  /** Two numbers print alike exactly when they agree modulo the range: what lies above it is dropped. */
  lemma {:induction false} PrintsAlikeIff(a: nat, b: nat, width: nat)
    ensures Printed(a, width) == Printed(b, width) <==> a % Pow32(width) == b % Pow32(width)
  {
    PrintedDenotes(a, width);
    PrintedDenotes(b, width);
    if a % Pow32(width) == b % Pow32(width) {
      PrintingIsFaithful(Printed(a, width));
      PrintingIsFaithful(Printed(b, width));
    }
  }

  /** A number is read back from its digits exactly when it fits them; 26 digits hold 130 bits. */
  lemma {:induction false} RoundTripIff(number: nat, width: nat)
    ensures Printable(Printed(number, width))
    ensures Parsed(Printed(number, width)) == number <==> number < Pow32(width)
  {
    PrintedDenotes(number, width);
    Remainder(number, Pow32(width));
  }

  lemma {:induction false} Remainder(n: nat, d: nat)
    requires d > 0
    ensures n % d == n <==> n < d
  {
    if n < d {
      Quotient(n, d, 0, n);
    }
  }

  function Zeros(n: nat): seq<nat> {
    if n == 0 then [] else Zeros(n - 1) + [0]
  }

  /** A byte followed by `n` zero bytes. */
  function Shifted(b: nat, n: nat): nat {
    if n == 0 then b else 256 * Shifted(b, n - 1)
  }

  lemma {:induction false} OneMoreZero(value: seq<nat>)
    ensures FromBytes(value + [0]) == 256 * FromBytes(value)
  {
    assert (value + [0])[..|value + [0]| - 1] == value;
  }

  lemma {:induction false} TrailingZeros(b: nat, n: nat)
    ensures |Zeros(n)| == n && Bytes(Zeros(n))
    ensures FromBytes([b] + Zeros(n)) == Shifted(b, n)
    decreases n
  {
    if n == 0 {
      assert [b] + Zeros(0) == [b] && [b][..0] == [];
    } else {
      TrailingZeros(b, n - 1);
      assert [b] + Zeros(n) == ([b] + Zeros(n - 1)) + [0];
      OneMoreZero([b] + Zeros(n - 1));
    }
  }

  /** A 4 before `5k + 1` zero bytes is the range of `8k + 2` digits. */
  lemma {:induction false} BytesFillDigits(k: nat)
    ensures Shifted(4, 5 * k + 1) == Pow32(8 * k + 2)
    decreases k
  {
    if k == 0 {
      assert Shifted(4, 1) == 1024 && Pow32(1) == 32;
    } else {
      BytesFillDigits(k - 1);
      var b, d := 5 * k - 4, 8 * k - 6;
      var base := Pow32(d);
      assert Shifted(4, b + 1) == 0x100 * base;
      assert Shifted(4, b + 2) == 0x1_0000 * base;
      assert Shifted(4, b + 3) == 0x100_0000 * base;
      assert Shifted(4, b + 4) == 0x1_0000_0000 * base;
      assert Shifted(4, b + 5) == 0x100_0000_0000 * base;
      assert Pow32(d + 1) == 0x20 * base;
      assert Pow32(d + 2) == 0x400 * base;
      assert Pow32(d + 3) == 0x8000 * base;
      assert Pow32(d + 4) == 0x10_0000 * base;
      assert Pow32(d + 5) == 0x200_0000 * base;
      assert Pow32(d + 6) == 0x4000_0000 * base;
      assert Pow32(d + 7) == 0x8_0000_0000 * base;
      assert Pow32(d + 8) == 0x100_0000_0000 * base;
    }
  }

  lemma {:induction false} OwnRemainder(d: nat)
    requires d > 0
    ensures d % d == 0 && 0 % d == 0
  {
    Quotient(d, d, 1, 0);
  }

  lemma {:induction false} RangePrintsAsZero(width: nat)
    ensures Printed(Pow32(width), width) == Printed(0, width)
  {
    OwnRemainder(Pow32(width));
    PrintsAlikeIff(Pow32(width), 0, width);
  }

  /** A seed of 17 bytes has six bits more than 26 digits print: this one prints like zero. */
  lemma {:induction false} SeventeenBytesCollide(width: nat, zeros: nat)
    requires width == WIDTH && zeros == 16
    ensures
      var seed := [4] + Zeros(zeros);
      && |seed| == 17 && Bytes(seed) && FromBytes(seed) > 0
      && Printed(FromBytes(seed), width) == Printed(0, width)
  {
    TrailingZeros(4, zeros);
    RangeOfSeed(width, zeros);
    RangePrintsAsZero(width);
  }

  lemma {:induction false} RangeOfSeed(width: nat, zeros: nat)
    requires width == WIDTH && zeros == 16
    ensures Shifted(4, zeros) == Pow32(width)
  {
    BytesFillDigits(3);
  }

  // ---------------------------------------------------------------------------------------------
  // SQL literals.

  /** `value.replace("'", "''")`. */
  function Doubled(value: string): string {
    if value == "" then "" else (if value[0] == '\'' then "''" else [value[0]]) + Doubled(value[1..])
  }

  function SqlLiteral(value: string): string {
    "'" + Doubled(value) + "'"
  }

  /** The body of a literal as SQL reads it: a doubled quote is a quote, a single one ends the literal. */
  function Body(text: string): Option<(string, string)> {
    if text == "" then None
    else if text[0] != '\'' then
      match Body(text[1..])
      case None => None
      case Some((value, rest)) => Some(([text[0]] + value, rest))
    else if |text| > 1 && text[1] == '\'' then
      match Body(text[2..])
      case None => None
      case Some((value, rest)) => Some((['\''] + value, rest))
    else Some(("", text[1..]))
  }

  function ReadLiteral(text: string): Option<(string, string)> {
    if text != "" && text[0] == '\'' then Body(text[1..]) else None
  }

  lemma {:induction false} PlainReads(x: char, after: string, value: string, rest: string)
    requires x != '\'' && Body(after) == Some((value, rest))
    ensures Body([x] + after) == Some(([x] + value, rest))
  {
    assert ([x] + after)[1..] == after;
  }

  lemma {:induction false} QuoteReads(after: string, value: string, rest: string)
    requires Body(after) == Some((value, rest))
    ensures Body("''" + after) == Some((['\''] + value, rest))
  {
    assert ("''" + after)[2..] == after;
  }

  lemma {:induction false} DoubledReads(value: string, rest: string)
    requires rest == "" || rest[0] != '\''
    ensures Body(Doubled(value) + "'" + rest) == Some((value, rest))
    decreases |value|
  {
    if value == "" {
      assert Doubled(value) + "'" + rest == "'" + rest;
      assert ("'" + rest)[1..] == rest;
    } else {
      var tail := value[1..];
      DoubledReads(tail, rest);
      var after := Doubled(tail) + "'" + rest;
      assert value == [value[0]] + tail;
      if value[0] == '\'' {
        assert Doubled(value) + "'" + rest == "''" + after;
        QuoteReads(after, tail, rest);
      } else {
        assert Doubled(value) + "'" + rest == [value[0]] + after;
        PlainReads(value[0], after, tail, rest);
      }
    }
  }

  /** Whatever the value holds, SQL reads the literal back as that value and nothing else of the statement. */
  lemma {:induction false} LiteralReadsBack(value: string, rest: string)
    requires rest == "" || rest[0] != '\''
    ensures ReadLiteral(SqlLiteral(value) + rest) == Some((value, rest))
  {
    DoubledReads(value, rest);
    var text := SqlLiteral(value) + rest;
    assert text[1..] == Doubled(value) + "'" + rest;
  }
}
