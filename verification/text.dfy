/** Text conversions shared by the components: decimal integers and space trimming. */
module Text {

  datatype Option<+T> = None | Some(value: T)

  const INT64_LIMIT := 0x8000_0000_0000_0000

  function DigitChar(d: nat): (c: char)
    requires d < 10
    ensures IsDigit(c) && DigitOf(c) == d
  {
    ('0' as int + d) as char
  }

  /** The decimal digits of a natural number. */
  function Digits(n: nat): (s: string)
    ensures |s| > 0
  {
    (if n < 10 then [] else Digits(n / 10)) + [DigitChar(n % 10)]
  }

  predicate IsDigit(c: char) {
    '0' <= c <= '9'
  }

  function DigitOf(c: char): int {
    c as int - '0' as int
  }

  predicate AllDigits(s: string) {
    forall k :: 0 <= k < |s| ==> IsDigit(s[k])
  }

  /** How many digits a text begins with. */
  function DigitRun(s: string): (n: nat)
    ensures n <= |s| && AllDigits(s[..n])
  {
    if s == "" || !IsDigit(s[0]) then 0
    else
      var n := DigitRun(s[1..]);
      assert s[..n + 1] == [s[0]] + s[1..][..n];
      n + 1
  }

  lemma {:induction false} DigitRunStops(digits: string, rest: string)
    requires AllDigits(digits) && (rest == "" || !IsDigit(rest[0]))
    ensures DigitRun(digits + rest) == |digits|
  {
    if digits == "" {
      assert digits + rest == rest;
    } else {
      assert (digits + rest)[1..] == digits[1..] + rest;
      DigitRunStops(digits[1..], rest);
    }
  }

  function DigitsValue(s: string): (v: int)
    requires AllDigits(s)
    ensures v >= 0
  {
    if s == [] then 0 else 10 * DigitsValue(s[..|s| - 1]) + DigitOf(s[|s| - 1])
  }

  /** strconv.Itoa */
  function Itoa(n: int): string {
    if n < 0 then "-" + Digits(-n) else Digits(n)
  }

  function InRange(v: int): Option<int> {
    if -INT64_LIMIT <= v < INT64_LIMIT then Some(v) else None
  }

  /** strconv.Atoi: an optional sign, at least one digit, and a value that fits 64 bits. */
  function Atoi(s: string): Option<int> {
    if s == [] then None
    else if AllDigits(s) then InRange(DigitsValue(s))
    else if |s| == 1 || !AllDigits(s[1..]) then None
    else if s[0] == '-' then InRange(-DigitsValue(s[1..]))
    else if s[0] == '+' then InRange(DigitsValue(s[1..]))
    else None
  }

  lemma DigitsValueSnoc(front: string, c: char)
    requires AllDigits(front) && IsDigit(c)
    ensures AllDigits(front + [c])
    ensures DigitsValue(front + [c]) == 10 * DigitsValue(front) + DigitOf(c)
  {
    assert (front + [c])[..|front|] == front;
  }

  lemma {:induction false} DigitsRoundTrip(n: nat)
    ensures AllDigits(Digits(n)) && DigitsValue(Digits(n)) == n
  {
    if n < 10 {
      DigitsValueSnoc([], DigitChar(n));
    } else {
      DigitsRoundTrip(n / 10);
      DigitsValueSnoc(Digits(n / 10), DigitChar(n % 10));
    }
  }

  lemma AtoiNegative(digits: string)
    requires digits != [] && AllDigits(digits)
    ensures Atoi("-" + digits) == InRange(-DigitsValue(digits))
  {
    var s := "-" + digits;
    assert s[1..] == digits;
    assert !IsDigit(s[0]);
  }

  /** Parsing undoes printing, for every 64-bit integer. */
  lemma AtoiItoa(n: int)
    requires -INT64_LIMIT <= n < INT64_LIMIT
    ensures Atoi(Itoa(n)) == Some(n)
  {
    var digits := Digits(if n < 0 then -n else n);
    assert AllDigits(digits) && DigitsValue(digits) == (if n < 0 then -n else n) by {
      DigitsRoundTrip(if n < 0 then -n else n);
    }
    if n < 0 {
      AtoiNegative(digits);
    }
  }

  lemma ItoaInjective(a: nat, b: nat)
    requires Itoa(a) == Itoa(b)
    ensures a == b
  {
    DigitsRoundTrip(a);
    DigitsRoundTrip(b);
  }

  /** unicode.IsSpace */
  predicate IsSpace(c: char) {
    || '\t' <= c <= '\r' || c == ' ' || c == '\U{0085}' || c == '\U{00A0}' || c == '\U{1680}'
    || '\U{2000}' <= c <= '\U{200A}' || c == '\U{2028}' || c == '\U{2029}' || c == '\U{202F}'
    || c == '\U{205F}' || c == '\U{3000}'
  }

  /** strings.TrimSpace */
  function TrimSpace(s: string): (r: string)
    ensures |r| <= |s|
    ensures r != [] ==> !IsSpace(r[0]) && !IsSpace(r[|r| - 1])
    ensures r == [] <==> forall k :: 0 <= k < |s| ==> IsSpace(s[k])
    ensures (s != [] ==> !IsSpace(s[0]) && !IsSpace(s[|s| - 1])) ==> r == s
    decreases |s|
  {
    if s == [] then s
    else if IsSpace(s[0]) then
      assert forall k :: 0 < k < |s| ==> s[k] == s[1..][k - 1];
      TrimSpace(s[1..])
    else if IsSpace(s[|s| - 1]) then TrimSpace(s[..|s| - 1])
    else s
  }

  predicate AllSpace(s: string) {
    forall k :: 0 <= k < |s| ==> IsSpace(s[k])
  }

  /** A text is blanks, a core and blanks. */
  predicate Wraps(s: string, x: string, core: string, y: string) {
    s == x + core + y && AllSpace(x) && AllSpace(y)
  }

  lemma WrapFront(s: string, x: string, core: string, y: string)
    requires s != "" && IsSpace(s[0]) && Wraps(s[1..], x, core, y)
    ensures Wraps(s, [s[0]] + x, core, y)
  {
    assert s == [s[0]] + s[1..];
  }

  lemma WrapBack(s: string, x: string, core: string, y: string)
    requires s != "" && IsSpace(s[|s| - 1]) && Wraps(s[..|s| - 1], x, core, y)
    ensures Wraps(s, x, core, y + [s[|s| - 1]])
  {
    assert s == s[..|s| - 1] + [s[|s| - 1]];
  }

  /** Trimming takes blanks off both ends and nothing else. */
  lemma {:induction false} TrimSplits(s: string)
    ensures exists x, y :: Wraps(s, x, TrimSpace(s), y)
    decreases |s|
  {
    if s != "" && IsSpace(s[0]) {
      TrimSplits(s[1..]);
      var x, y :| Wraps(s[1..], x, TrimSpace(s[1..]), y);
      WrapFront(s, x, TrimSpace(s), y);
    } else if s != "" && IsSpace(s[|s| - 1]) {
      var front := s[..|s| - 1];
      TrimSplits(front);
      var x, y :| Wraps(front, x, TrimSpace(front), y);
      WrapBack(s, x, TrimSpace(s), y);
    } else {
      assert s == "" + s + "" && Wraps(s, "", TrimSpace(s), "");
    }
  }

  lemma TrimDigits(s: string)
    requires s != [] && AllDigits(s)
    ensures TrimSpace(s) == s
  {
    assert !IsSpace(s[0]) && !IsSpace(s[|s| - 1]);
  }

  lemma TrimItoa(n: nat)
    ensures TrimSpace(Itoa(n)) == Itoa(n) && Itoa(n) != ""
  {
    assert Itoa(n) != "" && AllDigits(Itoa(n)) by {
      DigitsRoundTrip(n);
    }
    TrimDigits(Itoa(n));
  }
}
