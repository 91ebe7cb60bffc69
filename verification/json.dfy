/** JSON values and the compact encoding that encoding/json writes for them: object keys in
    byte order, number literals as spelled, HTML-safe string escapes. */
module Json {
  import opened Text

  /** What decoding into interface{} with UseNumber yields. */
  datatype Json =
    | Null
    | Bool(b: bool)
    | Num(literal: string)
    | Str(text: string)
    | Arr(items: seq<Json>)
    | Obj(fields: map<string, Json>)

  predicate IsNumChar(c: char) {
    '0' <= c <= '9' || c == '-' || c == '+' || c == '.' || c == 'e' || c == 'E'
  }

  predicate AllNumChars(s: string) {
    forall k :: 0 <= k < |s| ==> IsNumChar(s[k])
  }

  /** exp of section 6 of RFC 8259, or nothing. */
  predicate IsExponent(s: string) {
    || s == ""
    || ((s[0] == 'e' || s[0] == 'E')
        && var digits := if |s| > 1 && (s[1] == '+' || s[1] == '-') then s[2..] else s[1..];
           digits != "" && AllDigits(digits))
  }

  /** frac and exp, each optional. */
  predicate IsFraction(s: string) {
    if s != "" && s[0] == '.' then
      var n := DigitRun(s[1..]);
      n >= 1 && IsExponent(s[1..][n..])
    else IsExponent(s)
  }

  /** int, frac and exp without a sign. */
  predicate IsUnsigned(s: string) {
    var n := DigitRun(s);
    n >= 1 && (s[0] == '0' ==> n == 1) && IsFraction(s[n..])
  }

  /** A number of section 6 of RFC 8259. */
  predicate IsNumber(s: string) {
    s != "" && IsUnsigned(if s[0] == '-' then s[1..] else s)
  }

  lemma CharsJoin(a: string, b: string)
    requires AllNumChars(a) && AllNumChars(b)
    ensures AllNumChars(a + b)
  {
  }

  lemma DigitsAreChars(s: string)
    requires AllDigits(s)
    ensures AllNumChars(s)
  {
    forall k | 0 <= k < |s| ensures IsNumChar(s[k]) {
      assert IsDigit(s[k]);
    }
  }

  lemma ExponentChars(s: string)
    requires IsExponent(s)
    ensures AllNumChars(s)
  {
    if s != "" {
      var n := if |s| > 1 && (s[1] == '+' || s[1] == '-') then 2 else 1;
      DigitsAreChars(s[n..]);
      assert s == s[..n] + s[n..];
      CharsJoin(s[..n], s[n..]);
    }
  }

  lemma FractionChars(s: string)
    requires IsFraction(s)
    ensures AllNumChars(s)
  {
    if s != "" && s[0] == '.' {
      var n := DigitRun(s[1..]);
      var digits, rest := s[1..][..n], s[1..][n..];
      DigitsAreChars(digits);
      ExponentChars(rest);
      CharsJoin(digits, rest);
      CharsJoin([s[0]], digits + rest);
      assert s == [s[0]] + (digits + rest);
    } else {
      ExponentChars(s);
    }
  }

  lemma UnsignedChars(s: string)
    requires IsUnsigned(s)
    ensures AllNumChars(s)
  {
    var n := DigitRun(s);
    DigitsAreChars(s[..n]);
    FractionChars(s[n..]);
    CharsJoin(s[..n], s[n..]);
    assert s == s[..n] + s[n..];
  }

  /** A number consists of number characters, so it ends where they end. */
  lemma NumberChars(s: string)
    requires IsNumber(s)
    ensures s != "" && AllNumChars(s)
  {
    if s[0] == '-' {
      UnsignedChars(s[1..]);
      CharsJoin([s[0]], s[1..]);
      assert s == [s[0]] + s[1..];
    } else {
      UnsignedChars(s);
    }
  }

  predicate WellFormed(j: Json) {
    match j
    case Num(literal) => IsNumber(literal)
    case Arr(items) => forall k :: 0 <= k < |items| ==> WellFormed(items[k])
    case Obj(fields) => forall k :: k in fields ==> WellFormed(fields[k])
    case _ => true
  }

  // ---- Strings ----------------------------------------------------------------------

  function HexDigit(d: nat): (c: char)
    requires d < 16
  {
    if d < 10 then ('0' as int + d) as char else ('a' as int + d - 10) as char
  }

  function HexValue(c: char): int {
    if '0' <= c <= '9' then c as int - '0' as int
    else if 'a' <= c <= 'f' then c as int - 'a' as int + 10
    else if 'A' <= c <= 'F' then c as int - 'A' as int + 10
    else -1
  }

  lemma HexRoundTrip(d: nat)
    requires d < 16
    ensures HexValue(HexDigit(d)) == d
  {
  }

  function Hex4(n: nat): (s: string)
    requires n < 0x10000
    ensures |s| == 4
  {
    [HexDigit(n / 4096), HexDigit(n / 256 % 16), HexDigit(n / 16 % 16), HexDigit(n % 16)]
  }

  lemma Nibbles(n: nat)
    requires n < 0x10000
    ensures n == 4096 * (n / 4096) + 256 * (n / 256 % 16) + 16 * (n / 16 % 16) + n % 16
  {
    assert n / 256 == 16 * (n / 4096) + n / 256 % 16;
    assert n / 16 == 16 * (n / 256) + n / 16 % 16;
  }

  function Hex4Value(s: string): int
    requires |s| == 4
  {
    4096 * HexValue(s[0]) + 256 * HexValue(s[1]) + 16 * HexValue(s[2]) + HexValue(s[3])
  }

  lemma Hex4RoundTrip(n: nat)
    requires n < 0x10000
    ensures Hex4Value(Hex4(n)) == n
  {
    Nibbles(n);
    HexRoundTrip(n / 4096);
    HexRoundTrip(n / 256 % 16);
    HexRoundTrip(n / 16 % 16);
    HexRoundTrip(n % 16);
  }

  /** Characters with a two-character escape, and the letter that follows the backslash. */
  function ShortEscape(c: char): Option<char> {
    if c == '\"' then Some('\"')
    else if c == '\\' then Some('\\')
    else if c == '\n' then Some('n')
    else if c == '\r' then Some('r')
    else if c == '\t' then Some('t')
    else if c == '\U{0008}' then Some('b')
    else if c == '\U{000C}' then Some('f')
    else None
  }

  predicate HexEscaped(c: char) {
    || (c < ' ' && ShortEscape(c).None?)
    || c == '<' || c == '>' || c == '&' || c == '\U{2028}' || c == '\U{2029}'
  }

  function EscapeChar(c: char): (s: string)
    ensures |s| >= 1 && s[0] != '\"'
  {
    match ShortEscape(c)
    case Some(letter) => ['\\', letter]
    case None => if HexEscaped(c) then ['\\', 'u'] + Hex4(c as int) else [c]
  }

  lemma ShortInjective(c: char, d: char)
    requires ShortEscape(c).Some? && ShortEscape(c) == ShortEscape(d)
    ensures c == d
  {
  }

  lemma ShortNotU(c: char)
    ensures ShortEscape(c) != Some('u')
  {
  }

  /** No escape is a prefix of another one. */
  lemma EscapePrefix(c: char, d: char, x: string, y: string)
    requires EscapeChar(c) + x == EscapeChar(d) + y
    ensures c == d && x == y
  {
    var a, b := EscapeChar(c), EscapeChar(d);
    var u, v := a + x, b + y;
    assert u[0] == a[0] && v[0] == b[0];
    if |a| > 1 && |b| > 1 {
      assert u[1] == a[1] && v[1] == b[1];
      ShortNotU(c);
      ShortNotU(d);
      if ShortEscape(c).Some? {
        ShortInjective(c, d);
      } else {
        assert u[2..6] == Hex4(c as int) && v[2..6] == Hex4(d as int);
        Hex4RoundTrip(c as int);
        Hex4RoundTrip(d as int);
      }
    }
    assert |a| == |b|;
    assert u[|a|..] == x && v[|b|..] == y;
  }

  /** Exactly what encoding/json escapes: quotes, backslashes, control characters, the HTML characters
      and the two line separators. */
  lemma EscapedChars(c: char)
    ensures EscapeChar('<') == "\\u003c" && EscapeChar('>') == "\\u003e" && EscapeChar('&') == "\\u0026"
    ensures EscapeChar('\U{2028}') == "\\u2028" && EscapeChar('\U{2029}') == "\\u2029"
    ensures EscapeChar('\n') == "\\n" && EscapeChar('\t') == "\\t" && EscapeChar('\U{001F}') == "\\u001f"
    ensures c >= ' ' && c !in {'\"', '\\', '<', '>', '&', '\U{2028}', '\U{2029}'} ==> EscapeChar(c) == [c]
  {
  }

  function EscapeAll(s: string): string {
    if s == [] then [] else EscapeChar(s[0]) + EscapeAll(s[1..])
  }

  lemma EscapeSplit(s: string, x: string)
    requires s != []
    ensures EscapeAll(s) + "\"" + x == EscapeChar(s[0]) + (EscapeAll(s[1..]) + "\"" + x)
  {
  }

  lemma DropQuote(x: string, y: string)
    requires "" + "\"" + x == "" + "\"" + y
    ensures x == y
  {
    assert ("" + "\"" + x)[1..] == x && ("" + "\"" + y)[1..] == y;
  }

  lemma {:induction false} EscapeAllPrefix(s: string, t: string, x: string, y: string)
    requires EscapeAll(s) + "\"" + x == EscapeAll(t) + "\"" + y
    ensures s == t && x == y
    decreases |s|
  {
    EscapeHead(s, x);
    EscapeHead(t, y);
    if s == [] {
      DropQuote(x, y);
    } else {
      var x', y' := EscapeAll(s[1..]) + "\"" + x, EscapeAll(t[1..]) + "\"" + y;
      EscapeSplit(s, x);
      EscapeSplit(t, y);
      EscapePrefix(s[0], t[0], x', y');
      EscapeAllPrefix(s[1..], t[1..], x, y);
      assert s == [s[0]] + s[1..] && t == [t[0]] + t[1..];
    }
  }

  /** The closing quote is recognisable: no escaped text begins with one. */
  lemma EscapeHead(s: string, x: string)
    ensures (EscapeAll(s) + "\"" + x)[0] == '\"' <==> s == []
  {
    if s != [] {
      assert (EscapeAll(s) + "\"" + x)[0] == EscapeChar(s[0])[0];
    }
  }

  function Quote(s: string): string {
    "\"" + EscapeAll(s) + "\""
  }

  lemma QuotePrefix(s: string, t: string, x: string, y: string)
    requires Quote(s) + x == Quote(t) + y
    ensures s == t && x == y
  {
    var u, v := Quote(s) + x, Quote(t) + y;
    assert u[1..] == EscapeAll(s) + "\"" + x;
    assert v[1..] == EscapeAll(t) + "\"" + y;
    EscapeAllPrefix(s, t, x, y);
  }

  // ---- Key order --------------------------------------------------------------------

  /** Code point order, which is the byte order of UTF-8. */
  predicate KeyLe(a: string, b: string) {
    a == [] || (b != [] && (a[0] < b[0] || (a[0] == b[0] && KeyLe(a[1..], b[1..]))))
  }

  /** Keys are ordered by their first difference, a prefix before the longer key. */
  lemma {:induction false} KeyLeMeans(a: string, b: string)
    ensures KeyLe(a, b) <==>
            exists p :: 0 <= p <= |a| && p <= |b| && a[..p] == b[..p] && (p == |a| || (p < |b| && a[p] < b[p]))
    decreases |a|
  {
    if a == [] {
      assert a[..0] == b[..0];
    } else if b != [] && a[0] == b[0] {
      KeyLeMeans(a[1..], b[1..]);
      if p :| 0 <= p <= |a[1..]| && p <= |b[1..]| && a[1..][..p] == b[1..][..p]
              && (p == |a[1..]| || (p < |b[1..]| && a[1..][p] < b[1..][p])) {
        assert a[..p + 1] == [a[0]] + a[1..][..p] && b[..p + 1] == [b[0]] + b[1..][..p];
      }
      if p :| 0 < p <= |a| && p <= |b| && a[..p] == b[..p] && (p == |a| || (p < |b| && a[p] < b[p])) {
        assert a[1..][..p - 1] == a[..p][1..] && b[1..][..p - 1] == b[..p][1..];
      }
    } else if b != [] && a[0] < b[0] {
      assert a[..0] == b[..0];
    } else {
      forall p | 0 < p <= |a| && p <= |b| ensures a[..p] != b[..p] {
        assert a[..p][0] == a[0] && b[..p][0] == b[0];
      }
    }
  }

  lemma KeyLeTotal(a: string, b: string)
    ensures KeyLe(a, b) || KeyLe(b, a)
  {
  }

  lemma {:induction false} KeyLeTransitive(a: string, b: string, c: string)
    requires KeyLe(a, b) && KeyLe(b, c)
    ensures KeyLe(a, c)
    decreases |a|
  {
    if a != [] && a[0] == b[0] && b[0] == c[0] {
      KeyLeTransitive(a[1..], b[1..], c[1..]);
    }
  }

  ghost predicate IsLeast(keys: set<string>, k: string) {
    k in keys && forall k' :: k' in keys ==> KeyLe(k, k')
  }

  lemma {:induction false} LeastExists(keys: set<string>)
    requires keys != {}
    ensures exists k :: IsLeast(keys, k)
    decreases |keys|
  {
    var k :| k in keys;
    KeyLeTotal(k, k);
    if keys == {k} {
      assert IsLeast(keys, k);
    } else {
      LeastExists(keys - {k});
      var m :| IsLeast(keys - {k}, m);
      KeyLeTotal(k, m);
      if KeyLe(k, m) {
        forall k' | k' in keys ensures KeyLe(k, k') {
          if k' != k {
            KeyLeTransitive(k, m, k');
          }
        }
        assert IsLeast(keys, k);
      } else {
        assert IsLeast(keys, m);
      }
    }
  }

  lemma ConsElements(k: string, rest: seq<string>)
    ensures (set x | x in [k] + rest) == {k} + (set x | x in rest)
  {
    forall x ensures x in [k] + rest <==> x == k || x in rest {
    }
  }

  ghost predicate KeysSorted(ks: seq<string>) {
    forall i, j :: 0 <= i < j < |ks| ==> KeyLe(ks[i], ks[j]) && ks[i] != ks[j]
  }

  lemma ConsSorted(k: string, rest: seq<string>)
    requires KeysSorted(rest) && forall x :: x in rest ==> KeyLe(k, x) && x != k
    ensures KeysSorted([k] + rest)
  {
    var ks := [k] + rest;
    forall i, j | 0 <= i < j < |ks| ensures KeyLe(ks[i], ks[j]) && ks[i] != ks[j] {
      assert ks[j] == rest[j - 1];
    }
  }

  ghost function SortedKeys(keys: set<string>): (ks: seq<string>)
    ensures (set k | k in ks) == keys
    ensures KeysSorted(ks)
  {
    if keys == {} then []
    else
      LeastExists(keys);
      var k :| IsLeast(keys, k);
      var rest := SortedKeys(keys - {k});
      assert forall x :: x in rest ==> x in (set y | y in rest);
      ConsElements(k, rest);
      ConsSorted(k, rest);
      [k] + rest
  }

  // ---- Encoding ---------------------------------------------------------------------

  /** json.Marshal of a decoded value. */
  ghost function Encode(j: Json): string
    decreases j, 2, 0
  {
    match j
    case Null => "null"
    case Bool(b) => if b then "true" else "false"
    case Num(literal) => literal
    case Str(text) => Quote(text)
    case Arr(items) => if items == [] then "[]" else "[" + Encode(items[0]) + MoreItems(items[1..])
    case Obj(fields) =>
      var keys := SortedKeys(fields.Keys);
      assert forall i :: 0 <= i < |keys| ==> keys[i] in fields by { InKeys(fields.Keys); }
      if keys == [] then "{}" else "{" + Member(j, keys[0]) + MoreMembers(j, keys[1..])
  }

  lemma InKeys(keys: set<string>)
    ensures forall i :: 0 <= i < |SortedKeys(keys)| ==> SortedKeys(keys)[i] in keys
  {
    var ks := SortedKeys(keys);
    forall i | 0 <= i < |ks| ensures ks[i] in keys {
      assert ks[i] in set k | k in ks;
    }
  }

  ghost function MoreItems(items: seq<Json>): string
    decreases items, 1, |items|
  {
    if items == [] then "]" else "," + Encode(items[0]) + MoreItems(items[1..])
  }

  ghost function Member(j: Json, key: string): string
    requires j.Obj? && key in j.fields
    decreases j, 0, 0
  {
    Quote(key) + ":" + Encode(j.fields[key])
  }

  ghost function MoreMembers(j: Json, keys: seq<string>): string
    requires j.Obj? && forall i :: 0 <= i < |keys| ==> keys[i] in j.fields
    decreases j, 1, |keys|
  {
    if keys == [] then "}" else "," + Member(j, keys[0]) + MoreMembers(j, keys[1..])
  }

  // ---- Unique readability -----------------------------------------------------------

  /** What may follow a value inside an encoding. */
  predicate Stops(x: string) {
    x == "" || !IsNumChar(x[0])
  }

  lemma NumberEnds(a: string, b: string, x: string, y: string)
    requires |a| < |b| && Stops(x) && AllNumChars(b)
    ensures a + x != b + y
  {
    assert (b + y)[|a|] == b[|a|];
    if x != "" {
      assert (a + x)[|a|] == x[0];
    }
  }

  lemma {:induction false} NumberPrefix(a: string, b: string, x: string, y: string)
    requires AllNumChars(a) && AllNumChars(b)
    requires Stops(x) && Stops(y) && a + x == b + y
    ensures a == b && x == y
  {
    if |a| < |b| {
      NumberEnds(a, b, x, y);
    }
    if |b| < |a| {
      NumberEnds(b, a, y, x);
    }
    assert (a + x)[..|a|] == a && (b + y)[..|b|] == b;
    assert (a + x)[|a|..] == x && (b + y)[|b|..] == y;
  }

  datatype Kind = KNull | KTrue | KFalse | KNum | KStr | KArr | KObj

  function KindOf(j: Json): Kind {
    match j
    case Null => KNull
    case Bool(b) => if b then KTrue else KFalse
    case Num(_) => KNum
    case Str(_) => KStr
    case Arr(_) => KArr
    case Obj(_) => KObj
  }

  function KindOfChar(c: char): Kind {
    if c == 'n' then KNull else if c == 't' then KTrue else if c == 'f' then KFalse
    else if c == '\"' then KStr else if c == '[' then KArr else if c == '{' then KObj else KNum
  }

  lemma EncodeHead(j: Json)
    requires WellFormed(j)
    ensures Encode(j) != "" && KindOfChar(Encode(j)[0]) == KindOf(j)
  {
    if j.Num? {
      NumberChars(j.literal);
      assert IsNumChar(j.literal[0]);
    }
  }

  /** An encoding followed by anything that stops it determines the value and the rest. */
  lemma {:induction false} EncodePrefix(a: Json, b: Json, x: string, y: string)
    requires WellFormed(a) && WellFormed(b) && Stops(x) && Stops(y)
    requires Encode(a) + x == Encode(b) + y
    ensures a == b && x == y
    decreases a, 2, 0
  {
    EncodeHead(a);
    EncodeHead(b);
    assert (Encode(a) + x)[0] == Encode(a)[0] && (Encode(b) + y)[0] == Encode(b)[0];
    assert KindOf(a) == KindOf(b);
    match a {
      case Null => Cancel("null", x, y);
      case Bool(t) => Cancel(Encode(a), x, y);
      case Num(_) =>
        NumberChars(a.literal);
        NumberChars(b.literal);
        NumberPrefix(a.literal, b.literal, x, y);
      case Str(_) => QuotePrefix(a.text, b.text, x, y);
      case Arr(_) => ArrayPrefix(a, b, x, y);
      case Obj(_) => ObjectPrefix(a, b, x, y);
    }
  }

  lemma Cancel(p: string, x: string, y: string)
    requires p + x == p + y
    ensures x == y
  {
    assert (p + x)[|p|..] == x && (p + y)[|p|..] == y;
  }

  lemma Associate(a: string, b: string, c: string, d: string)
    ensures a + b + c + d == a + (b + (c + d))
  {
  }

  lemma Peel(h: string, e: string, r: string, x: string, f: string, q: string, y: string)
    requires h + e + r + x == h + f + q + y
    ensures e + (r + x) == f + (q + y)
  {
    assert h + e + r + x == h + (e + (r + x));
    assert h + f + q + y == h + (f + (q + y));
    Cancel(h, e + (r + x), f + (q + y));
  }

  lemma MoreItemsHead(items: seq<Json>, x: string)
    ensures Stops(MoreItems(items) + x) && (MoreItems(items) + x)[0] == (if items == [] then ']' else ',')
  {
  }

  lemma {:induction false} MoreItemsPrefix(a: seq<Json>, b: seq<Json>, x: string, y: string)
    requires forall k :: 0 <= k < |a| ==> WellFormed(a[k])
    requires forall k :: 0 <= k < |b| ==> WellFormed(b[k])
    requires MoreItems(a) + x == MoreItems(b) + y
    ensures a == b && x == y
    decreases a, 1, |a|
  {
    MoreItemsHead(a, x);
    MoreItemsHead(b, y);
    if a == [] {
      Cancel("]", x, y);
    } else {
      var x', y' := MoreItems(a[1..]) + x, MoreItems(b[1..]) + y;
      MoreItemsHead(a[1..], x);
      MoreItemsHead(b[1..], y);
      Peel(",", Encode(a[0]), MoreItems(a[1..]), x, Encode(b[0]), MoreItems(b[1..]), y);
      EncodePrefix(a[0], b[0], x', y');
      MoreItemsPrefix(a[1..], b[1..], x, y);
      assert a == [a[0]] + a[1..] && b == [b[0]] + b[1..];
    }
  }

  /** A nonempty list is written like its continuation, with a bracket for the comma. */
  lemma {:induction false} ArrayPrefix(a: Json, b: Json, x: string, y: string)
    requires WellFormed(a) && WellFormed(b) && a.Arr? && b.Arr?
    requires Encode(a) + x == Encode(b) + y
    ensures a == b && x == y
    decreases a, 1, |a.items|
  {
    var p, q := a.items, b.items;
    if p == [] || q == [] {
      ArraySecond(a, x);
      ArraySecond(b, y);
      Cancel("[]", x, y);
    } else {
      var x', y' := MoreItems(p[1..]) + x, MoreItems(q[1..]) + y;
      MoreItemsHead(p[1..], x);
      MoreItemsHead(q[1..], y);
      Peel("[", Encode(p[0]), MoreItems(p[1..]), x, Encode(q[0]), MoreItems(q[1..]), y);
      EncodePrefix(p[0], q[0], x', y');
      MoreItemsPrefix(p[1..], q[1..], x, y);
      assert p == [p[0]] + p[1..] && q == [q[0]] + q[1..];
    }
  }

  lemma ArraySecond(a: Json, x: string)
    requires WellFormed(a) && a.Arr?
    ensures |Encode(a) + x| >= 2 && ((Encode(a) + x)[1] == ']' <==> a.items == [])
  {
    if a.items != [] {
      EncodeHead(a.items[0]);
      assert (Encode(a) + x)[1] == Encode(a.items[0])[0];
      EncodeNotClosing(a.items[0]);
    }
  }

  lemma EncodeNotClosing(j: Json)
    requires WellFormed(j)
    ensures Encode(j) != "" && Encode(j)[0] != ']' && Encode(j)[0] != '}'
  {
    if j.Num? {
      NumberChars(j.literal);
      assert IsNumChar(j.literal[0]);
    }
  }

  lemma MoreMembersHead(j: Json, keys: seq<string>, x: string)
    requires j.Obj? && forall i :: 0 <= i < |keys| ==> keys[i] in j.fields
    ensures Stops(MoreMembers(j, keys) + x) && (MoreMembers(j, keys) + x)[0] == (if keys == [] then '}' else ',')
  {
  }

  lemma {:induction false} MemberPrefix(a: Json, k: string, b: Json, m: string, x: string, y: string)
    requires WellFormed(a) && WellFormed(b) && a.Obj? && b.Obj? && k in a.fields && m in b.fields
    requires Stops(x) && Stops(y) && Member(a, k) + x == Member(b, m) + y
    ensures k == m && a.fields[k] == b.fields[m] && x == y
    decreases a, 0, 0
  {
    var x', y' := Encode(a.fields[k]) + x, Encode(b.fields[m]) + y;
    Associate(Quote(k), ":", Encode(a.fields[k]), x);
    Associate(Quote(m), ":", Encode(b.fields[m]), y);
    QuotePrefix(k, m, ":" + x', ":" + y');
    Cancel(":", x', y');
    EncodePrefix(a.fields[k], b.fields[m], x, y);
  }

  ghost predicate SameAt(a: Json, b: Json, keys: seq<string>)
    requires a.Obj? && b.Obj?
  {
    forall i :: 0 <= i < |keys| ==> keys[i] in a.fields && keys[i] in b.fields && a.fields[keys[i]] == b.fields[keys[i]]
  }

  lemma {:induction false} MoreMembersPrefix(a: Json, ka: seq<string>, b: Json, kb: seq<string>, x: string, y: string)
    requires WellFormed(a) && WellFormed(b) && a.Obj? && b.Obj?
    requires forall i :: 0 <= i < |ka| ==> ka[i] in a.fields
    requires forall i :: 0 <= i < |kb| ==> kb[i] in b.fields
    requires MoreMembers(a, ka) + x == MoreMembers(b, kb) + y
    ensures ka == kb && x == y && SameAt(a, b, ka)
    decreases a, 1, |ka|
  {
    MoreMembersHead(a, ka, x);
    MoreMembersHead(b, kb, y);
    if ka == [] {
      Cancel("}", x, y);
    } else {
      var x', y' := MoreMembers(a, ka[1..]) + x, MoreMembers(b, kb[1..]) + y;
      MoreMembersHead(a, ka[1..], x);
      MoreMembersHead(b, kb[1..], y);
      Peel(",", Member(a, ka[0]), MoreMembers(a, ka[1..]), x, Member(b, kb[0]), MoreMembers(b, kb[1..]), y);
      MemberPrefix(a, ka[0], b, kb[0], x', y');
      MoreMembersPrefix(a, ka[1..], b, kb[1..], x, y);
      assert ka == [ka[0]] + ka[1..] && kb == [kb[0]] + kb[1..];
    }
  }

  lemma ObjectSecond(a: Json, x: string)
    requires a.Obj?
    ensures |Encode(a) + x| >= 2 && ((Encode(a) + x)[1] == '}' <==> SortedKeys(a.fields.Keys) == [])
  {
    var keys := SortedKeys(a.fields.Keys);
    if keys != [] {
      InKeys(a.fields.Keys);
      var member, more := Member(a, keys[0]), MoreMembers(a, keys[1..]);
      assert Encode(a) == "{" + member + more;
      assert member[0] == '\"';
      assert (Encode(a) + x)[1] == member[0];
    }
  }

  lemma SameMap(a: map<string, Json>, b: map<string, Json>, keys: seq<string>)
    requires (set k | k in keys) == a.Keys && (set k | k in keys) == b.Keys
    requires forall i :: 0 <= i < |keys| ==> keys[i] in a && keys[i] in b && a[keys[i]] == b[keys[i]]
    ensures a == b
  {
    forall k | k in a ensures k in b && a[k] == b[k] {
      assert k in (set x | x in keys);
    }
  }

  lemma SameFields(a: Json, b: Json)
    requires a.Obj? && b.Obj? && SortedKeys(a.fields.Keys) == SortedKeys(b.fields.Keys)
    requires SameAt(a, b, SortedKeys(a.fields.Keys))
    ensures a == b
  {
    SameMap(a.fields, b.fields, SortedKeys(a.fields.Keys));
  }

  lemma {:induction false} MembersPrefix(a: Json, ka: seq<string>, b: Json, kb: seq<string>, x: string, y: string)
    requires WellFormed(a) && WellFormed(b) && a.Obj? && b.Obj? && ka != [] && kb != []
    requires forall i :: 0 <= i < |ka| ==> ka[i] in a.fields
    requires forall i :: 0 <= i < |kb| ==> kb[i] in b.fields
    requires "{" + Member(a, ka[0]) + MoreMembers(a, ka[1..]) + x
             == "{" + Member(b, kb[0]) + MoreMembers(b, kb[1..]) + y
    ensures ka == kb && x == y && SameAt(a, b, ka)
    decreases a, 1, |ka|
  {
    MoreMembersHead(a, ka[1..], x);
    MoreMembersHead(b, kb[1..], y);
    Peel("{", Member(a, ka[0]), MoreMembers(a, ka[1..]), x, Member(b, kb[0]), MoreMembers(b, kb[1..]), y);
    MemberPrefix(a, ka[0], b, kb[0], MoreMembers(a, ka[1..]) + x, MoreMembers(b, kb[1..]) + y);
    MoreMembersPrefix(a, ka[1..], b, kb[1..], x, y);
    assert ka == [ka[0]] + ka[1..] && kb == [kb[0]] + kb[1..];
  }

  lemma {:induction false} ObjectPrefix(a: Json, b: Json, x: string, y: string)
    requires WellFormed(a) && WellFormed(b) && a.Obj? && b.Obj?
    requires Encode(a) + x == Encode(b) + y
    ensures a == b && x == y
    decreases a, 1, |SortedKeys(a.fields.Keys)| + 1
  {
    var ka, kb := SortedKeys(a.fields.Keys), SortedKeys(b.fields.Keys);
    InKeys(a.fields.Keys);
    InKeys(b.fields.Keys);
    ObjectSecond(a, x);
    ObjectSecond(b, y);
    if ka == [] || kb == [] {
      Cancel("{}", x, y);
    } else {
      MembersPrefix(a, ka, b, kb, x, y);
    }
    SameFields(a, b);
  }

  /** The encoding is injective: equal bytes mean equal decoded values, and conversely. */
  lemma EncodeInjective(a: Json, b: Json)
    requires WellFormed(a) && WellFormed(b)
    ensures Encode(a) == Encode(b) <==> a == b
  {
    if Encode(a) == Encode(b) {
      assert Encode(a) + "" == Encode(b) + "";
      EncodePrefix(a, b, "", "");
    }
  }
}
