/** Decimal printing, `strconv.Atoi` and `strings.Split`, as far as tunnel addresses use them. */
module Text {

  datatype Option<+T> = None | Some(value: T)

  function Digit(d: nat): char
    requires d < 10
  {
    ('0' as int + d) as char
  }

  /** What `%d` prints for a non-negative number. */
  function Decimal(n: nat): string {
    if n < 10 then [Digit(n)] else Decimal(n / 10) + [Digit(n % 10)]
  }

  predicate AllDigits(s: string) {
    forall i :: 0 <= i < |s| ==> '0' <= s[i] <= '9'
  }

  function DigitsValue(s: string): nat
    requires AllDigits(s)
  {
    if s == "" then 0 else 10 * DigitsValue(s[..|s| - 1]) + (s[|s| - 1] as int - '0' as int)
  }

  const MAX_INT: int := 0x7fff_ffff_ffff_ffff

  /** `n, _ := strconv.Atoi(s)`: zero on a syntax error, the nearest bound on a range error. */
  function Atoi(s: string): int {
    var signed := s != "" && (s[0] == '-' || s[0] == '+');
    var digits := if signed then s[1..] else s;
    if digits == "" || !AllDigits(digits) then 0
    else
      var v: int := DigitsValue(digits);
      if signed && s[0] == '-' then (if -v < -MAX_INT - 1 then -MAX_INT - 1 else -v)
      else (if v > MAX_INT then MAX_INT else v)
  }

  /** `strings.Split` on a one-character separator. */
  function Split(s: string, sep: char): (parts: seq<string>)
    ensures |parts| > 0
  {
    if s == "" then [""]
    else
      var rest := Split(s[1..], sep);
      if s[0] == sep then [""] + rest else [[s[0]] + rest[0]] + rest[1..]
  }

  lemma {:induction false} DecimalRoundTrip(n: nat)
    ensures Decimal(n) != "" && AllDigits(Decimal(n)) && DigitsValue(Decimal(n)) == n
  {
    if n >= 10 {
      DecimalRoundTrip(n / 10);
      var s := Decimal(n);
      assert s[..|s| - 1] == Decimal(n / 10);
    } else {
      assert Decimal(n)[..0] == "";
    }
  }

  lemma AtoiDecimal(n: nat)
    ensures Atoi(Decimal(n)) == if n <= MAX_INT then n else MAX_INT
  {
    DecimalRoundTrip(n);
  }

  lemma DecimalHasNo(n: nat, c: char)
    requires !('0' <= c <= '9')
    ensures c !in Decimal(n)
  {
    DecimalRoundTrip(n);
  }

  lemma {:induction false} SplitWhole(field: string, sep: char)
    requires sep !in field
    ensures Split(field, sep) == [field]
  {
    if field != "" {
      SplitWhole(field[1..], sep);
      assert [field[0]] + field[1..] == field;
    }
  }

  lemma {:induction false} SplitField(field: string, rest: string, sep: char)
    requires sep !in field
    ensures Split(field + [sep] + rest, sep) == [field] + Split(rest, sep)
  {
    var s := field + [sep] + rest;
    if field == "" {
      assert s[1..] == rest;
    } else {
      SplitField(field[1..], rest, sep);
      assert s[1..] == field[1..] + [sep] + rest;
      assert [field[0]] + field[1..] == field;
    }
  }

  function Join(parts: seq<string>, sep: char): string
    requires |parts| > 0
  {
    if |parts| == 1 then parts[0] else parts[0] + [sep] + Join(parts[1..], sep)
  }

  /** Splitting cuts at every separator and loses nothing else. */
  lemma {:induction false} JoinSplit(s: string, sep: char)
    ensures Join(Split(s, sep), sep) == s
    ensures forall i :: 0 <= i < |Split(s, sep)| ==> sep !in Split(s, sep)[i]
  {
    if s != "" {
      JoinSplit(s[1..], sep);
      var rest, parts := Split(s[1..], sep), Split(s, sep);
      if s[0] == sep {
        assert parts[1..] == rest;
      } else {
        assert parts[1..] == rest[1..];
        assert parts[0] == [s[0]] + rest[0];
      }
      assert s == [s[0]] + s[1..];
    }
  }

  /** What is no number is zero. */
  lemma AtoiMalformed(s: string, i: nat)
    requires s == "" || (1 <= i < |s| && !('0' <= s[i] <= '9'))
    ensures Atoi(s) == 0
  {
    if s != "" {
      assert s[1..][i - 1] == s[i];
    }
  }

  /** A sign before a number counts, and a number too large is the nearest bound. */
  lemma AtoiSigned(n: nat)
    ensures Atoi("+" + Decimal(n)) == if n <= MAX_INT then n else MAX_INT
    ensures Atoi("-" + Decimal(n)) == if n <= MAX_INT then -(n as int) else -MAX_INT - 1
  {
    DecimalRoundTrip(n);
    assert ("+" + Decimal(n))[1..] == Decimal(n);
    assert ("-" + Decimal(n))[1..] == Decimal(n);
  }
}
