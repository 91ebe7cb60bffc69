/** computeRequestHash (internal/ingestion/request_hash.go): JSON text is decoded, re-encoded in
    canonical form and hashed. Texts are given by their concrete syntax (RFC 8259, sections 2 to
    7), whitespace, member order and escape spelling included. */
module RequestHash {
  import opened Text
  import opened Json

  // ---- Concrete syntax --------------------------------------------------------------

  /** One character of a string literal: as itself, as a two-character escape, as \uXXXX, as two of
      those for a surrogate pair, or as a surrogate without its other half. */
  datatype Spelled =
    | Raw(c: char)
    | Short(letter: char)
    | Hex(digits: string)
    | Pair(high: string, low: string)
    | Lone(digits: string)

  datatype Syntax =
    | SNull
    | SBool(b: bool)
    | SNum(literal: string)
    | SStr(chars: seq<Spelled>)
    | SArr(items: seq<Padded>, inner: string)
    | SObj(members: seq<SMember>, inner: string)

  /** A value between two runs of whitespace. */
  datatype Padded = Padded(before: string, value: Syntax, after: string)

  datatype SMember = SMember(before: string, key: seq<Spelled>, mid: string, value: Padded)

  predicate IsWs(c: char) {
    c == ' ' || c == '\t' || c == '\n' || c == '\r'
  }

  predicate AllWs(s: string) {
    forall k :: 0 <= k < |s| ==> IsWs(s[k])
  }

  function ShortChar(letter: char): Option<char> {
    if letter == '\"' then Some('\"') else if letter == '\\' then Some('\\') else if letter == '/' then Some('/')
    else if letter == 'b' then Some('\U{0008}') else if letter == 'f' then Some('\U{000C}')
    else if letter == 'n' then Some('\n') else if letter == 'r' then Some('\r') else if letter == 't' then Some('\t')
    else None
  }

  predicate IsHex4(digits: string) {
    |digits| == 4 && forall k :: 0 <= k < 4 ==> HexValue(digits[k]) >= 0
  }

  predicate IsHigh(digits: string) {
    IsHex4(digits) && 0xD800 <= Hex4Value(digits) < 0xDC00
  }

  predicate IsLow(digits: string) {
    IsHex4(digits) && 0xDC00 <= Hex4Value(digits) < 0xE000
  }

  predicate SpelledOk(p: Spelled) {
    match p
    case Raw(c) => c != '\"' && c != '\\' && c >= ' '
    case Short(letter) => ShortChar(letter).Some?
    case Hex(digits) => IsHex4(digits) && !IsHigh(digits) && !IsLow(digits)
    case Pair(high, low) => IsHigh(high) && IsLow(low)
    case Lone(digits) => IsHigh(digits) || IsLow(digits)
  }

  function PairCode(high: string, low: string): (n: int)
    requires IsHigh(high) && IsLow(low)
    ensures 0x10000 <= n < 0x110000
  {
    0x10000 + (Hex4Value(high) - 0xD800) * 0x400 + (Hex4Value(low) - 0xDC00)
  }

  lemma Hex4Bound(digits: string)
    requires IsHex4(digits)
    ensures 0 <= Hex4Value(digits) < 0x10000
  {
    assert HexValue(digits[0]) >= 0 && HexValue(digits[1]) >= 0 && HexValue(digits[2]) >= 0 && HexValue(digits[3]) >= 0;
  }

  /** The character a well-formed spelling stands for. */
  function CharOf(p: Spelled): char {
    match p
    case Raw(c) => c
    case Short(letter) => if ShortChar(letter).Some? then ShortChar(letter).value else ' '
    case Hex(digits) => if SpelledOk(p) then Hex4Bound(digits); Hex4Value(digits) as char else ' '
    case Pair(high, low) => if SpelledOk(p) then PairCode(high, low) as char else ' '
    case Lone(_) => '\U{FFFD}'
  }

  /** A high surrogate followed by a low one is a pair, not two lone ones. */
  predicate AllSpelledOk(chars: seq<Spelled>) {
    && (forall k :: 0 <= k < |chars| ==> SpelledOk(chars[k]))
    && (forall k :: 0 <= k < |chars| - 1 ==> !SplitsPair(chars[k], chars[k + 1]))
  }

  predicate SplitsPair(p: Spelled, q: Spelled) {
    p.Lone? && q.Lone? && IsHigh(p.digits) && IsLow(q.digits)
  }

  function Denoted(chars: seq<Spelled>): string {
    if chars == [] then [] else [CharOf(chars[0])] + Denoted(chars[1..])
  }

  predicate SyntaxOk(s: Syntax) {
    match s
    case SNum(literal) => IsNumber(literal)
    case SStr(chars) => AllSpelledOk(chars)
    case SArr(items, inner) => AllWs(inner) && (items != [] ==> inner == "")
                               && forall k :: 0 <= k < |items| ==> PaddedOk(items[k])
    case SObj(members, inner) => AllWs(inner) && (members != [] ==> inner == "")
                                 && forall k :: 0 <= k < |members| ==> MemberOk(members[k])
    case _ => true
  }

  predicate PaddedOk(p: Padded) {
    AllWs(p.before) && AllWs(p.after) && SyntaxOk(p.value)
  }

  predicate MemberOk(m: SMember) {
    AllWs(m.before) && AllWs(m.mid) && AllSpelledOk(m.key) && PaddedOk(m.value)
  }

  // ---- Decoding ---------------------------------------------------------------------

  /** The decoded value; of two members with the same key the later one wins. */
  function ValueOf(s: Syntax): Json {
    match s
    case SNull => Null
    case SBool(b) => Bool(b)
    case SNum(literal) => Num(literal)
    case SStr(chars) => Str(Denoted(chars))
    case SArr(items, _) => Arr(ItemValues(items))
    case SObj(members, _) => Obj(FieldValues(members))
  }

  function ItemValues(items: seq<Padded>): (vs: seq<Json>)
    ensures |vs| == |items|
    ensures forall k :: 0 <= k < |items| ==> vs[k] == ValueOf(items[k].value)
  {
    if items == [] then [] else [ValueOf(items[0].value)] + ItemValues(items[1..])
  }

  function FieldValues(members: seq<SMember>): map<string, Json>
    decreases members
  {
    if members == [] then map[]
    else
      var last := members[|members| - 1];
      FieldValues(members[..|members| - 1])[Denoted(last.key) := ValueOf(last.value.value)]
  }

  lemma {:induction false} ValueWellFormed(s: Syntax)
    requires SyntaxOk(s)
    ensures WellFormed(ValueOf(s))
    decreases s
  {
    match s {
      case SArr(items, _) =>
        forall k | 0 <= k < |items| ensures WellFormed(ItemValues(items)[k]) {
          assert PaddedOk(items[k]);
          ValueWellFormed(items[k].value);
        }
      case SObj(members, _) => FieldsWellFormed(members);
      case _ =>
    }
  }

  lemma {:induction false} FieldsWellFormed(members: seq<SMember>)
    requires forall k :: 0 <= k < |members| ==> MemberOk(members[k])
    ensures forall k :: k in FieldValues(members) ==> WellFormed(FieldValues(members)[k])
    decreases members
  {
    if members != [] {
      FieldsWellFormed(members[..|members| - 1]);
      assert MemberOk(members[|members| - 1]);
      assert PaddedOk(members[|members| - 1].value);
      ValueWellFormed(members[|members| - 1].value.value);
    }
  }

  // ---- Text -------------------------------------------------------------------------

  function SpelledText(p: Spelled): (s: string)
    ensures s != ""
  {
    match p
    case Raw(c) => [c]
    case Short(letter) => ['\\', letter]
    case Hex(digits) => ['\\', 'u'] + digits
    case Pair(high, low) => ['\\', 'u'] + high + ['\\', 'u'] + low
    case Lone(digits) => ['\\', 'u'] + digits
  }

  function CharsText(chars: seq<Spelled>): string {
    if chars == [] then [] else SpelledText(chars[0]) + CharsText(chars[1..])
  }

  function TextOf(s: Syntax): string
    decreases s, 2, 0
  {
    match s
    case SNull => "null"
    case SBool(b) => if b then "true" else "false"
    case SNum(literal) => literal
    case SStr(chars) => "\"" + CharsText(chars) + "\""
    case SArr(items, inner) =>
      if items == [] then "[" + inner + "]" else "[" + PaddedText(items[0]) + MoreText(items[1..])
    case SObj(members, inner) =>
      if members == [] then "{" + inner + "}" else "{" + MemberText(members[0]) + MoreMemberText(members[1..])
  }

  function PaddedText(p: Padded): string
    decreases p, 3, 0
  {
    p.before + TextOf(p.value) + p.after
  }

  function MoreText(items: seq<Padded>): string
    decreases items, 1, |items|
  {
    if items == [] then "]" else "," + PaddedText(items[0]) + MoreText(items[1..])
  }

  function MemberText(m: SMember): string
    decreases m, 4, 0
  {
    m.before + ("\"" + CharsText(m.key) + "\"") + m.mid + (":" + PaddedText(m.value))
  }

  function MoreMemberText(members: seq<SMember>): string
    decreases members, 1, |members|
  {
    if members == [] then "}" else "," + MemberText(members[0]) + MoreMemberText(members[1..])
  }

  // ---- The text determines the syntax -----------------------------------------------

  predicate Solid(x: string) {
    x == "" || !IsWs(x[0])
  }

  lemma WsEnds(a: string, b: string, x: string, y: string)
    requires |a| < |b| && Solid(x) && AllWs(b)
    ensures a + x != b + y
  {
    assert (b + y)[|a|] == b[|a|];
    if x != "" {
      assert (a + x)[|a|] == x[0];
    }
  }

  lemma SkipWs(a: string, b: string, x: string, y: string)
    requires AllWs(a) && AllWs(b) && Solid(x) && Solid(y) && a + x == b + y
    ensures a == b && x == y
  {
    if |a| < |b| {
      WsEnds(a, b, x, y);
    }
    if |b| < |a| {
      WsEnds(b, a, y, x);
    }
    assert (a + x)[..|a|] == a && (b + y)[..|b|] == b;
    assert (a + x)[|a|..] == x && (b + y)[|b|..] == y;
  }

  /** The digits of an escape that begins with \u. */
  function FirstDigits(p: Spelled): string
    requires p.Hex? || p.Pair? || p.Lone?
  {
    if p.Pair? then p.high else p.digits
  }

  /** A text begins with \u and the digits of a low surrogate. */
  predicate StartsLow(x: string) {
    |x| >= 6 && x[0] == '\\' && x[1] == 'u' && IsLow(x[2..6])
  }

  lemma PairStarts(p: Spelled, x: string)
    requires SpelledOk(p) && p.Pair?
    ensures var u := SpelledText(p) + x;
            && |u| >= 12 && u[0] == '\\' && u[1] == 'u' && u[2..6] == p.high
            && u[6..] == ['\\', 'u'] + p.low + x && StartsLow(u[6..])
  {
    var u := SpelledText(p) + x;
    assert u[2..6] == p.high;
    assert u[6..] == ['\\', 'u'] + p.low + x;
    assert u[6..][2..6] == p.low;
  }

  lemma HexStarts(p: Spelled, x: string)
    requires SpelledOk(p) && (p.Hex? || p.Lone?)
    ensures var u := SpelledText(p) + x;
            |u| >= 6 && u[0] == '\\' && u[1] == 'u' && u[2..6] == p.digits && u[6..] == x
  {
    var u := SpelledText(p) + x;
    assert u[2..6] == p.digits;
  }

  lemma EscapeStarts(p: Spelled, x: string)
    requires SpelledOk(p)
    ensures var u := SpelledText(p) + x;
            && (p.Raw? <==> u[0] != '\\')
            && (!p.Raw? ==> |u| >= 2 && (p.Short? <==> u[1] != 'u') && (p.Short? ==> u[1] == p.letter))
            && (p.Hex? || p.Pair? || p.Lone? ==> |u| >= 6 && u[2..6] == FirstDigits(p))
            && (p.Pair? ==> |u| >= 12 && u[6..] == ['\\', 'u'] + p.low + x && StartsLow(u[6..]))
            && (p.Hex? || p.Lone? ==> u[6..] == x)
  {
    if p.Pair? {
      PairStarts(p, x);
    } else if p.Hex? || p.Lone? {
      HexStarts(p, x);
    } else {
      assert ShortChar('u').None?;
    }
  }

  lemma PairTail(p: Spelled, q: Spelled, x: string, y: string)
    requires p.Pair? && q.Pair? && |p.low| == 4 && |q.low| == 4
    requires ['\\', 'u'] + p.low + x == ['\\', 'u'] + q.low + y
    ensures p.low == q.low && x == y
  {
    var u, v := ['\\', 'u'] + p.low + x, ['\\', 'u'] + q.low + y;
    assert u[2..6] == p.low && v[2..6] == q.low;
    assert u[6..] == x && v[6..] == y;
  }

  /** A lone high surrogate is told from a pair by what follows it. */
  lemma SpelledPrefix(p: Spelled, q: Spelled, x: string, y: string)
    requires SpelledOk(p) && SpelledOk(q) && SpelledText(p) + x == SpelledText(q) + y
    requires p.Lone? && IsHigh(p.digits) ==> !StartsLow(x)
    requires q.Lone? && IsHigh(q.digits) ==> !StartsLow(y)
    ensures p == q && x == y
  {
    EscapeStarts(p, x);
    EscapeStarts(q, y);
    var u, v := SpelledText(p) + x, SpelledText(q) + y;
    if p.Raw? {
      assert u[0] == p.c && v[0] == q.c && u[1..] == x && v[1..] == y;
    } else if p.Short? {
      assert u[2..] == x && v[2..] == y;
    } else if p.Pair? && q.Pair? {
      PairTail(p, q, x, y);
    }
  }

  /** What follows a spelling in a string literal never completes it to a pair. */
  lemma NoLowFollows(chars: seq<Spelled>, x: string)
    requires AllSpelledOk(chars) && chars != [] && chars[0].Lone? && IsHigh(chars[0].digits)
    ensures !StartsLow(CharsText(chars[1..]) + "\"" + x)
  {
    var rest := chars[1..];
    CharsTail(chars);
    if rest == [] {
      assert (CharsText(rest) + "\"" + x)[0] == '\"';
    } else {
      CharsSplit(rest, x);
      EscapeStarts(rest[0], CharsText(rest[1..]) + "\"" + x);
      assert !SplitsPair(chars[0], chars[1]) && rest[0] == chars[1];
    }
  }

  lemma CharsTail(chars: seq<Spelled>)
    requires AllSpelledOk(chars) && chars != []
    ensures SpelledOk(chars[0]) && AllSpelledOk(chars[1..])
  {
    var rest := chars[1..];
    assert forall k :: 0 <= k < |rest| ==> rest[k] == chars[k + 1];
  }

  lemma CharsHead(chars: seq<Spelled>, x: string)
    requires AllSpelledOk(chars)
    ensures (CharsText(chars) + "\"" + x)[0] == '\"' <==> chars == []
  {
    if chars != [] {
      assert SpelledOk(chars[0]);
      assert (CharsText(chars) + "\"" + x)[0] == SpelledText(chars[0])[0];
    }
  }

  lemma CharsSplit(chars: seq<Spelled>, x: string)
    requires chars != []
    ensures CharsText(chars) + "\"" + x == SpelledText(chars[0]) + (CharsText(chars[1..]) + "\"" + x)
  {
  }

  lemma {:induction false} CharsPrefix(a: seq<Spelled>, b: seq<Spelled>, x: string, y: string)
    requires AllSpelledOk(a) && AllSpelledOk(b)
    requires CharsText(a) + "\"" + x == CharsText(b) + "\"" + y
    ensures a == b && x == y
    decreases |a|
  {
    CharsHead(a, x);
    CharsHead(b, y);
    if a == [] {
      DropQuote(x, y);
    } else {
      var x', y' := CharsText(a[1..]) + "\"" + x, CharsText(b[1..]) + "\"" + y;
      CharsSplit(a, x);
      CharsSplit(b, y);
      CharsTail(a);
      CharsTail(b);
      if a[0].Lone? && IsHigh(a[0].digits) {
        NoLowFollows(a, x);
      }
      if b[0].Lone? && IsHigh(b[0].digits) {
        NoLowFollows(b, y);
      }
      SpelledPrefix(a[0], b[0], x', y');
      CharsPrefix(a[1..], b[1..], x, y);
      assert a == [a[0]] + a[1..] && b == [b[0]] + b[1..];
    }
  }

  lemma LiteralPrefix(a: seq<Spelled>, b: seq<Spelled>, x: string, y: string)
    requires AllSpelledOk(a) && AllSpelledOk(b)
    requires "\"" + CharsText(a) + "\"" + x == "\"" + CharsText(b) + "\"" + y
    ensures a == b && x == y
  {
    Peel("\"", CharsText(a), "\"", x, CharsText(b), "\"", y);
    assert CharsText(a) + ("\"" + x) == CharsText(a) + "\"" + x;
    assert CharsText(b) + ("\"" + y) == CharsText(b) + "\"" + y;
    CharsPrefix(a, b, x, y);
  }

  function SyntaxKind(s: Syntax): Kind {
    match s
    case SNull => KNull
    case SBool(b) => if b then KTrue else KFalse
    case SNum(_) => KNum
    case SStr(_) => KStr
    case SArr(_, _) => KArr
    case SObj(_, _) => KObj
  }

  lemma TextHead(s: Syntax)
    requires SyntaxOk(s)
    ensures TextOf(s) != "" && KindOfChar(TextOf(s)[0]) == SyntaxKind(s)
    ensures !IsSpace(TextOf(s)[0]) && TextOf(s)[0] != ']' && TextOf(s)[0] != '}'
  {
    if s.SNum? {
      NumberChars(s.literal);
      assert IsNumChar(s.literal[0]);
    }
  }

  /** What may follow a value in a text: a delimiter, or nothing. */
  predicate Ends(x: string) {
    x == "" || x[0] == ',' || x[0] == ']' || x[0] == '}'
  }

  lemma PaddingStops(after: string, x: string)
    requires AllWs(after) && Ends(x)
    ensures Stops(after + x) && Solid(x)
  {
    if after != "" {
      assert (after + x)[0] == after[0] && IsWs(after[0]);
    }
  }

  /** A text followed by anything determines its syntax and the rest; only a number must stop. */
  lemma {:induction false} TextPrefix(a: Syntax, b: Syntax, x: string, y: string)
    requires SyntaxOk(a) && SyntaxOk(b) && (a.SNum? ==> Stops(x)) && (b.SNum? ==> Stops(y))
    requires TextOf(a) + x == TextOf(b) + y
    ensures a == b && x == y
    decreases a, 2, 0
  {
    TextHead(a);
    TextHead(b);
    assert (TextOf(a) + x)[0] == TextOf(a)[0] && (TextOf(b) + y)[0] == TextOf(b)[0];
    assert SyntaxKind(a) == SyntaxKind(b);
    match a {
      case SNull => Cancel("null", x, y);
      case SBool(_) => Cancel(TextOf(a), x, y);
      case SNum(_) =>
        NumberChars(a.literal);
        NumberChars(b.literal);
        NumberPrefix(a.literal, b.literal, x, y);
      case SStr(_) => LiteralPrefix(a.chars, b.chars, x, y);
      case SArr(_, _) => ArrayText(a, b, x, y);
      case SObj(_, _) => ObjectText(a, b, x, y);
    }
  }

  lemma {:induction false} PaddedPrefix(p: Padded, q: Padded, x: string, y: string)
    requires PaddedOk(p) && PaddedOk(q) && Ends(x) && Ends(y)
    requires PaddedText(p) + x == PaddedText(q) + y
    ensures p == q && x == y
    decreases p, 3, 0
  {
    var x', y' := p.after + x, q.after + y;
    var t, u := TextOf(p.value) + x', TextOf(q.value) + y';
    Associate(p.before, TextOf(p.value), p.after, x);
    Associate(q.before, TextOf(q.value), q.after, y);
    TextHead(p.value);
    TextHead(q.value);
    assert t[0] == TextOf(p.value)[0] && u[0] == TextOf(q.value)[0];
    SkipWs(p.before, q.before, t, u);
    PaddingStops(p.after, x);
    PaddingStops(q.after, y);
    TextPrefix(p.value, q.value, x', y');
    SkipWs(p.after, q.after, x, y);
  }

  lemma MoreTextHead(items: seq<Padded>, x: string)
    ensures Ends(MoreText(items) + x) && (MoreText(items) + x)[0] == (if items == [] then ']' else ',')
  {
  }

  lemma {:induction false} MoreTextPrefix(a: seq<Padded>, b: seq<Padded>, x: string, y: string)
    requires forall k :: 0 <= k < |a| ==> PaddedOk(a[k])
    requires forall k :: 0 <= k < |b| ==> PaddedOk(b[k])
    requires MoreText(a) + x == MoreText(b) + y
    ensures a == b && x == y
    decreases a, 1, |a|
  {
    MoreTextHead(a, x);
    MoreTextHead(b, y);
    if a == [] {
      Cancel("]", x, y);
    } else {
      MoreTextHead(a[1..], x);
      MoreTextHead(b[1..], y);
      Peel(",", PaddedText(a[0]), MoreText(a[1..]), x, PaddedText(b[0]), MoreText(b[1..]), y);
      PaddedPrefix(a[0], b[0], MoreText(a[1..]) + x, MoreText(b[1..]) + y);
      MoreTextPrefix(a[1..], b[1..], x, y);
      assert a == [a[0]] + a[1..] && b == [b[0]] + b[1..];
    }
  }

  /** An empty bracket pair is never mistaken for one that begins with a value. */
  lemma NotEmpty(inner: string, close: char, x: string, before: string, t: string)
    requires AllWs(inner) && AllWs(before) && !IsWs(close)
    requires t != "" && !IsWs(t[0]) && t[0] != close
    ensures inner + ([close] + x) != before + t
  {
    var u := [close] + x;
    assert u[0] == close;
    if inner + u == before + t {
      SkipWs(inner, before, u, t);
    }
  }

  lemma EmptyText(open: string, inner: string, close: string, x: string, inner': string, y: string)
    requires AllWs(inner) && AllWs(inner') && |close| == 1 && !IsWs(close[0])
    requires open + inner + close + x == open + inner' + close + y
    ensures inner == inner' && x == y
  {
    Peel(open, inner, close, x, inner', close, y);
    assert (close + x)[0] == close[0] && (close + y)[0] == close[0];
    SkipWs(inner, inner', close + x, close + y);
    Cancel(close, x, y);
  }

  lemma EmptyArrayText(inner: string, x: string, p: Padded, rest: string, y: string)
    requires AllWs(inner) && PaddedOk(p)
    ensures "[" + inner + "]" + x != "[" + PaddedText(p) + rest + y
  {
    if "[" + inner + "]" + x == "[" + PaddedText(p) + rest + y {
      Peel("[", inner, "]", x, PaddedText(p), rest, y);
      var t := TextOf(p.value) + (p.after + (rest + y));
      Associate(p.before, TextOf(p.value), p.after, rest + y);
      TextHead(p.value);
      assert t[0] == TextOf(p.value)[0];
      NotEmpty(inner, ']', x, p.before, t);
    }
  }

  lemma {:induction false} ArrayText(a: Syntax, b: Syntax, x: string, y: string)
    requires SyntaxOk(a) && SyntaxOk(b) && a.SArr? && b.SArr?
    requires TextOf(a) + x == TextOf(b) + y
    ensures a == b && x == y
    decreases a, 1, |a.items|
  {
    var p, q := a.items, b.items;
    if p == [] && q == [] {
      EmptyText("[", a.inner, "]", x, b.inner, y);
    } else if p == [] {
      assert PaddedOk(q[0]);
      EmptyArrayText(a.inner, x, q[0], MoreText(q[1..]), y);
    } else if q == [] {
      assert PaddedOk(p[0]);
      EmptyArrayText(b.inner, y, p[0], MoreText(p[1..]), x);
    } else {
      assert PaddedOk(p[0]) && PaddedOk(q[0]);
      MoreTextHead(p[1..], x);
      MoreTextHead(q[1..], y);
      Peel("[", PaddedText(p[0]), MoreText(p[1..]), x, PaddedText(q[0]), MoreText(q[1..]), y);
      PaddedPrefix(p[0], q[0], MoreText(p[1..]) + x, MoreText(q[1..]) + y);
      MoreTextPrefix(p[1..], q[1..], x, y);
      assert p == [p[0]] + p[1..] && q == [q[0]] + q[1..];
    }
  }

  // ---- Objects ----------------------------------------------------------------------

  function KeyText(m: SMember): string {
    "\"" + CharsText(m.key) + "\""
  }

  lemma {:induction false} MemberTextPrefix(a: SMember, b: SMember, x: string, y: string)
    requires MemberOk(a) && MemberOk(b) && Ends(x) && Ends(y)
    requires MemberText(a) + x == MemberText(b) + y
    ensures a == b && x == y
    decreases a, 4, 0
  {
    var pa, pb := PaddedText(a.value) + x, PaddedText(b.value) + y;
    var ra, rb := a.mid + (":" + pa), b.mid + (":" + pb);
    MemberShape(a, x);
    MemberShape(b, y);
    assert (KeyText(a) + ra)[0] == '\"' && (KeyText(b) + rb)[0] == '\"';
    SkipWs(a.before, b.before, KeyText(a) + ra, KeyText(b) + rb);
    LiteralPrefix(a.key, b.key, ra, rb);
    assert (":" + pa)[0] == ':' && (":" + pb)[0] == ':';
    SkipWs(a.mid, b.mid, ":" + pa, ":" + pb);
    Cancel(":", pa, pb);
    PaddedPrefix(a.value, b.value, x, y);
  }

  lemma MemberShape(m: SMember, x: string)
    ensures MemberText(m) + x == m.before + (KeyText(m) + (m.mid + (":" + (PaddedText(m.value) + x))))
  {
    Associate(m.before, KeyText(m), m.mid, ":" + PaddedText(m.value) + x);
    assert MemberText(m) + x == m.before + KeyText(m) + m.mid + (":" + PaddedText(m.value) + x);
    assert ":" + PaddedText(m.value) + x == ":" + (PaddedText(m.value) + x);
  }

  lemma MoreMemberHead(ms: seq<SMember>, x: string)
    ensures Ends(MoreMemberText(ms) + x) && (MoreMemberText(ms) + x)[0] == (if ms == [] then '}' else ',')
  {
  }

  lemma {:induction false} MoreMemberPrefix(a: seq<SMember>, b: seq<SMember>, x: string, y: string)
    requires forall k :: 0 <= k < |a| ==> MemberOk(a[k])
    requires forall k :: 0 <= k < |b| ==> MemberOk(b[k])
    requires MoreMemberText(a) + x == MoreMemberText(b) + y
    ensures a == b && x == y
    decreases a, 1, |a|
  {
    MoreMemberHead(a, x);
    MoreMemberHead(b, y);
    if a == [] {
      Cancel("}", x, y);
    } else {
      MoreMemberHead(a[1..], x);
      MoreMemberHead(b[1..], y);
      Peel(",", MemberText(a[0]), MoreMemberText(a[1..]), x, MemberText(b[0]), MoreMemberText(b[1..]), y);
      MemberTextPrefix(a[0], b[0], MoreMemberText(a[1..]) + x, MoreMemberText(b[1..]) + y);
      MoreMemberPrefix(a[1..], b[1..], x, y);
      assert a == [a[0]] + a[1..] && b == [b[0]] + b[1..];
    }
  }

  lemma EmptyObjectText(inner: string, x: string, m: SMember, rest: string, y: string)
    requires AllWs(inner) && MemberOk(m)
    ensures "{" + inner + "}" + x != "{" + MemberText(m) + rest + y
  {
    if "{" + inner + "}" + x == "{" + MemberText(m) + rest + y {
      Peel("{", inner, "}", x, MemberText(m), rest, y);
      var t := KeyText(m) + (m.mid + (":" + (PaddedText(m.value) + (rest + y))));
      MemberShape(m, rest + y);
      assert t[0] == '\"';
      NotEmpty(inner, '}', x, m.before, t);
    }
  }

  lemma {:induction false} ObjectText(a: Syntax, b: Syntax, x: string, y: string)
    requires SyntaxOk(a) && SyntaxOk(b) && a.SObj? && b.SObj?
    requires TextOf(a) + x == TextOf(b) + y
    ensures a == b && x == y
    decreases a, 1, |a.members|
  {
    var p, q := a.members, b.members;
    if p == [] && q == [] {
      EmptyText("{", a.inner, "}", x, b.inner, y);
    } else if p == [] {
      assert MemberOk(q[0]);
      EmptyObjectText(a.inner, x, q[0], MoreMemberText(q[1..]), y);
    } else if q == [] {
      assert MemberOk(p[0]);
      EmptyObjectText(b.inner, y, p[0], MoreMemberText(p[1..]), x);
    } else {
      assert MemberOk(p[0]) && MemberOk(q[0]);
      MoreMemberHead(p[1..], x);
      MoreMemberHead(q[1..], y);
      Peel("{", MemberText(p[0]), MoreMemberText(p[1..]), x, MemberText(q[0]), MoreMemberText(q[1..]), y);
      MemberTextPrefix(p[0], q[0], MoreMemberText(p[1..]) + x, MoreMemberText(q[1..]) + y);
      MoreMemberPrefix(p[1..], q[1..], x, y);
      assert p == [p[0]] + p[1..] && q == [q[0]] + q[1..];
    }
  }

  // ---- Decoding a payload -----------------------------------------------------------

  ghost predicate Spells(p: Padded, text: string) {
    PaddedOk(p) && PaddedText(p) == text
  }

  /** The one JSON value a payload consists of, if it is one. */
  ghost function Decode(text: string): Option<Json> {
    if exists p :: Spells(p, text) then
      var p :| Spells(p, text);
      Some(ValueOf(p.value))
    else None
  }

  /** Decoding undoes writing, whatever the layout: no text has two readings. */
  lemma DecodeText(p: Padded)
    requires PaddedOk(p)
    ensures Decode(PaddedText(p)) == Some(ValueOf(p.value))
  {
    var text := PaddedText(p);
    assert Spells(p, text);
    forall q | Spells(q, text) ensures q == p {
      assert PaddedText(q) + "" == PaddedText(p) + "";
      PaddedPrefix(q, p, "", "");
    }
  }

  lemma DecodeWellFormed(text: string)
    requires Decode(text).Some?
    ensures WellFormed(Decode(text).value)
  {
    var p :| Spells(p, text) && Decode(text) == Some(ValueOf(p.value));
    ValueWellFormed(p.value);
  }

  /** A blank payload holds no value, blank in the sense of Unicode. */
  lemma BlankRejected(text: string)
    requires TrimSpace(text) == ""
    ensures Decode(text).None?
  {
    forall p | PaddedOk(p) ensures PaddedText(p) != text {
      TextHead(p.value);
      assert PaddedText(p)[|p.before|] == TextOf(p.value)[0];
    }
  }

  lemma NotOneValue(r: Padded, p: Padded, rest: string)
    requires PaddedOk(p) && PaddedOk(r) && !AllWs(rest) && (p.value.SNum? ==> Stops(rest))
    ensures PaddedText(r) != p.before + (TextOf(p.value) + rest)
  {
    var t, u := TextOf(p.value) + rest, TextOf(r.value) + r.after;
    assert PaddedText(r) == r.before + u;
    TextHead(p.value);
    TextHead(r.value);
    assert t[0] == TextOf(p.value)[0] && u[0] == TextOf(r.value)[0];
    PaddingStops(r.after, "");
    assert r.after + "" == r.after;
    if r.before + u == p.before + t {
      SkipWs(r.before, p.before, u, t);
      TextPrefix(r.value, p.value, r.after, rest);
    }
  }

  /** Whatever follows the first value, other than whitespace, is rejected: another value, with or
      without a gap, or no value at all. Only a number must not run on into what follows. */
  lemma TrailingRejected(p: Padded, rest: string)
    requires PaddedOk(p) && p.after == "" && !AllWs(rest) && (p.value.SNum? ==> Stops(rest))
    ensures Decode(PaddedText(p) + rest).None?
  {
    assert PaddedText(p) + rest == p.before + (TextOf(p.value) + rest);
    forall r | PaddedOk(r) ensures PaddedText(r) != PaddedText(p) + rest {
      NotOneValue(r, p, rest);
    }
  }

  // ---- Member order -----------------------------------------------------------------

  ghost predicate Holds(ms: seq<SMember>, key: string, value: Json) {
    exists i :: 0 <= i < |ms| && Denoted(ms[i].key) == key && ValueOf(ms[i].value.value) == value
  }

  ghost predicate DistinctKeys(ms: seq<SMember>) {
    forall i, j :: 0 <= i < j < |ms| ==> Denoted(ms[i].key) != Denoted(ms[j].key)
  }

  lemma {:induction false} FieldsHold(ms: seq<SMember>, key: string)
    requires DistinctKeys(ms)
    ensures key in FieldValues(ms) ==> Holds(ms, key, FieldValues(ms)[key])
    ensures forall value :: Holds(ms, key, value) ==> key in FieldValues(ms) && FieldValues(ms)[key] == value
    decreases |ms|
  {
    if ms != [] {
      var front, last := ms[..|ms| - 1], ms[|ms| - 1];
      FieldsHold(front, key);
      if key in FieldValues(ms) {
        if Denoted(last.key) != key {
          var i :| 0 <= i < |front| && Denoted(front[i].key) == key
            && ValueOf(front[i].value.value) == FieldValues(front)[key];
          assert ms[i] == front[i];
        }
      }
      forall value | Holds(ms, key, value) ensures key in FieldValues(ms) && FieldValues(ms)[key] == value {
        var i :| 0 <= i < |ms| && Denoted(ms[i].key) == key && ValueOf(ms[i].value.value) == value;
        if i < |front| {
          assert front[i] == ms[i] && Holds(front, key, value);
        }
      }
    }
  }

  /** Objects whose members are the same in any order, with any layout, decode alike. */
  lemma MemberOrderIrrelevant(ms: seq<SMember>, ns: seq<SMember>)
    requires DistinctKeys(ms) && DistinctKeys(ns)
    requires forall key, value :: Holds(ms, key, value) <==> Holds(ns, key, value)
    ensures FieldValues(ms) == FieldValues(ns)
  {
    forall key ensures (key in FieldValues(ms) <==> key in FieldValues(ns))
                       && (key in FieldValues(ms) ==> FieldValues(ms)[key] == FieldValues(ns)[key]) {
      FieldsHold(ms, key);
      FieldsHold(ns, key);
    }
  }

  /** Of several members with one name the last one counts. */
  lemma LastMemberWins(ms: seq<SMember>, m: SMember)
    ensures Denoted(m.key) in FieldValues(ms + [m])
    ensures FieldValues(ms + [m])[Denoted(m.key)] == ValueOf(m.value.value)
    ensures forall key :: key != Denoted(m.key) ==>
              && (key in FieldValues(ms + [m]) <==> key in FieldValues(ms))
              && (key in FieldValues(ms) ==> FieldValues(ms + [m])[key] == FieldValues(ms)[key])
  {
    assert (ms + [m])[..|ms|] == ms;
  }

  /** The two-character escapes, upper-case hex digits and surrogate pairs mean what RFC 8259 says. */
  lemma EscapesMean(k: nat, high: nat, low: nat)
    requires k < 6 && high < 0x400 && low < 0x400
    ensures CharOf(Short('/')) == '/' && CharOf(Short('b')) == '\U{0008}' && CharOf(Short('n')) == '\n'
    ensures HexValue('A' + k as char) == 10 + k && HexValue('a' + k as char) == 10 + k
    ensures IsHigh(Hex4(0xD800 + high)) && IsLow(Hex4(0xDC00 + low))
    ensures CharOf(Pair(Hex4(0xD800 + high), Hex4(0xDC00 + low))) as int == 0x10000 + high * 0x400 + low
  {
    Hex4IsHex(0xD800 + high);
    Hex4IsHex(0xDC00 + low);
  }

  lemma Hex4IsHex(n: nat)
    requires n < 0x10000
    ensures IsHex4(Hex4(n)) && Hex4Value(Hex4(n)) == n
  {
    Hex4RoundTrip(n);
    HexRoundTrip(n / 4096);
    HexRoundTrip(n / 256 % 16);
    HexRoundTrip(n / 16 % 16);
    HexRoundTrip(n % 16);
  }

  // ---- The canonical form is itself a text ----------------------------------------------

  function Spell(c: char): Spelled {
    match ShortEscape(c)
    case Some(letter) => Short(letter)
    case None => if HexEscaped(c) then Hex(Hex4(c as int)) else Raw(c)
  }

  lemma SpellMeans(c: char)
    ensures SpelledOk(Spell(c)) && !Spell(c).Lone? && SpelledText(Spell(c)) == EscapeChar(c) && CharOf(Spell(c)) == c
  {
    if ShortEscape(c).None? && HexEscaped(c) {
      Hex4IsHex(c as int);
    }
  }

  function SpellAll(text: string): seq<Spelled> {
    if text == [] then [] else [Spell(text[0])] + SpellAll(text[1..])
  }

  lemma {:induction false} SpellAllMeans(text: string)
    ensures AllSpelledOk(SpellAll(text)) && CharsText(SpellAll(text)) == EscapeAll(text)
    ensures Denoted(SpellAll(text)) == text
    ensures forall k :: 0 <= k < |SpellAll(text)| ==> !SpellAll(text)[k].Lone?
  {
    if text != [] {
      SpellMeans(text[0]);
      SpellAllMeans(text[1..]);
      assert SpellAll(text)[1..] == SpellAll(text[1..]);
      assert text == [text[0]] + text[1..];
    }
  }

  /** The syntax of a value's canonical form. */
  ghost function SyntaxFor(j: Json): Syntax
    decreases j, 2, 0
  {
    match j
    case Null => SNull
    case Bool(b) => SBool(b)
    case Num(literal) => SNum(literal)
    case Str(text) => SStr(SpellAll(text))
    case Arr(items) => SArr(ItemsFor(items), "")
    case Obj(fields) =>
      InKeys(fields.Keys);
      SObj(MembersFor(j, SortedKeys(fields.Keys)), "")
  }

  ghost function ItemsFor(items: seq<Json>): seq<Padded>
    decreases items, 1, |items|
  {
    if items == [] then [] else [Padded("", SyntaxFor(items[0]), "")] + ItemsFor(items[1..])
  }

  ghost function MemberFor(j: Json, key: string): SMember
    requires j.Obj? && key in j.fields
    decreases j, 0, 0
  {
    SMember("", SpellAll(key), "", Padded("", SyntaxFor(j.fields[key]), ""))
  }

  ghost function MembersFor(j: Json, keys: seq<string>): seq<SMember>
    requires j.Obj? && forall i :: 0 <= i < |keys| ==> keys[i] in j.fields
    decreases j, 1, |keys|
  {
    if keys == [] then [] else [MemberFor(j, keys[0])] + MembersFor(j, keys[1..])
  }

  lemma Unpadded(t: string)
    ensures "" + t + "" == t
  {
  }

  lemma {:induction false} SyntaxForText(j: Json)
    requires WellFormed(j)
    ensures SyntaxOk(SyntaxFor(j)) && TextOf(SyntaxFor(j)) == Encode(j)
    decreases j, 2, 0
  {
    match j {
      case Str(text) => SpellAllMeans(text);
      case Arr(items) => ItemsForText(items);
      case Obj(fields) =>
        InKeys(fields.Keys);
        MembersForText(j, SortedKeys(fields.Keys));
      case _ =>
    }
  }

  lemma {:induction false} ItemsForText(items: seq<Json>)
    requires forall k :: 0 <= k < |items| ==> WellFormed(items[k])
    ensures |ItemsFor(items)| == |items| && forall k :: 0 <= k < |items| ==> PaddedOk(ItemsFor(items)[k])
    ensures MoreText(ItemsFor(items)) == MoreItems(items)
    ensures items != [] ==> PaddedText(ItemsFor(items)[0]) == Encode(items[0])
                            && ItemsFor(items)[1..] == ItemsFor(items[1..])
                            && MoreText(ItemsFor(items)[1..]) == MoreItems(items[1..])
    decreases items, 1, |items|
  {
    if items != [] {
      SyntaxForText(items[0]);
      ItemsForText(items[1..]);
      Unpadded(TextOf(SyntaxFor(items[0])));
    }
  }

  lemma PlainMember(chars: seq<Spelled>, v: Syntax)
    ensures MemberText(SMember("", chars, "", Padded("", v, ""))) == "\"" + CharsText(chars) + "\"" + ":" + TextOf(v)
  {
    Unpadded(TextOf(v));
    MemberJoin("\"" + CharsText(chars) + "\"", TextOf(v));
  }

  lemma MemberJoin(key: string, value: string)
    ensures "" + key + "" + (":" + value) == key + ":" + value
  {
  }

  lemma {:induction false} MemberForText(j: Json, key: string)
    requires WellFormed(j) && j.Obj? && key in j.fields
    ensures MemberOk(MemberFor(j, key)) && MemberText(MemberFor(j, key)) == Member(j, key)
    decreases j, 0, 0
  {
    SpellAllMeans(key);
    SyntaxForText(j.fields[key]);
    PlainMember(SpellAll(key), SyntaxFor(j.fields[key]));
  }

  lemma {:induction false} MembersForText(j: Json, keys: seq<string>)
    requires WellFormed(j) && j.Obj? && forall i :: 0 <= i < |keys| ==> keys[i] in j.fields
    ensures |MembersFor(j, keys)| == |keys| && forall k :: 0 <= k < |keys| ==> MemberOk(MembersFor(j, keys)[k])
    ensures MoreMemberText(MembersFor(j, keys)) == MoreMembers(j, keys)
    ensures keys != [] ==> MemberText(MembersFor(j, keys)[0]) == Member(j, keys[0])
                           && MembersFor(j, keys)[1..] == MembersFor(j, keys[1..])
                           && MoreMemberText(MembersFor(j, keys)[1..]) == MoreMembers(j, keys[1..])
    decreases j, 1, |keys|
  {
    if keys != [] {
      MemberForText(j, keys[0]);
      MembersForText(j, keys[1..]);
    }
  }

  lemma {:induction false} SyntaxForValue(j: Json)
    ensures ValueOf(SyntaxFor(j)) == j
    decreases j, 2, 0
  {
    match j {
      case Str(text) => SpellAllMeans(text);
      case Arr(items) => ItemsForValue(items);
      case Obj(fields) =>
        InKeys(fields.Keys);
        MembersForValue(j, SortedKeys(fields.Keys));
        FieldsComplete(FieldValues(MembersFor(j, SortedKeys(fields.Keys))), fields, SortedKeys(fields.Keys));
      case _ =>
    }
  }

  lemma FieldsComplete(values: map<string, Json>, fields: map<string, Json>, keys: seq<string>)
    requires (set x | x in keys) == fields.Keys && forall k :: k in values <==> k in keys
    requires forall k :: k in keys ==> k in fields && k in values && values[k] == fields[k]
    ensures values == fields
  {
    forall k | k in fields ensures k in values {
      assert k in (set x | x in keys);
    }
  }

  lemma {:induction false} ItemsAt(items: seq<Json>)
    ensures |ItemsFor(items)| == |items|
    ensures forall i :: 0 <= i < |items| ==> ItemsFor(items)[i] == Padded("", SyntaxFor(items[i]), "")
    decreases |items|
  {
    if items != [] {
      ItemsAt(items[1..]);
    }
  }

  lemma {:induction false} ItemsForValue(items: seq<Json>)
    ensures ItemValues(ItemsFor(items)) == items
    decreases items, 1, |items|
  {
    ItemsAt(items);
    forall i | 0 <= i < |items| ensures ItemValues(ItemsFor(items))[i] == items[i] {
      SyntaxForValue(items[i]);
    }
  }

  lemma {:induction false} MemberForValue(j: Json, key: string)
    requires j.Obj? && key in j.fields
    ensures Denoted(MemberFor(j, key).key) == key && ValueOf(MemberFor(j, key).value.value) == j.fields[key]
    decreases j, 0, 0
  {
    SpellAllMeans(key);
    SyntaxForValue(j.fields[key]);
  }

  lemma {:induction false} MembersAt(j: Json, keys: seq<string>)
    requires j.Obj? && forall i :: 0 <= i < |keys| ==> keys[i] in j.fields
    ensures |MembersFor(j, keys)| == |keys|
    ensures forall i :: 0 <= i < |keys| ==> MembersFor(j, keys)[i] == MemberFor(j, keys[i])
    decreases |keys|
  {
    if keys != [] {
      MembersAt(j, keys[1..]);
    }
  }

  lemma {:induction false} MembersForValue(j: Json, keys: seq<string>)
    requires j.Obj? && KeysSorted(keys) && forall i :: 0 <= i < |keys| ==> keys[i] in j.fields
    ensures forall k :: k in FieldValues(MembersFor(j, keys)) <==> k in keys
    ensures forall k :: k in keys ==> k in j.fields && FieldValues(MembersFor(j, keys))[k] == j.fields[k]
    decreases j, 1, |keys|
  {
    var ms := MembersFor(j, keys);
    MembersAt(j, keys);
    forall i | 0 <= i < |keys|
      ensures Denoted(ms[i].key) == keys[i] && ValueOf(ms[i].value.value) == j.fields[keys[i]] {
      MemberForValue(j, keys[i]);
    }
    FieldsAre(j.fields, keys, ms);
  }

  lemma FieldsAre(fields: map<string, Json>, keys: seq<string>, ms: seq<SMember>)
    requires KeysSorted(keys) && |ms| == |keys| && forall i :: 0 <= i < |keys| ==> keys[i] in fields
    requires forall i :: 0 <= i < |ms| ==>
               Denoted(ms[i].key) == keys[i] && ValueOf(ms[i].value.value) == fields[keys[i]]
    ensures forall k :: k in FieldValues(ms) <==> k in keys
    ensures forall k :: k in keys ==> k in fields && FieldValues(ms)[k] == fields[k]
  {
    forall k
      ensures (k in FieldValues(ms) <==> k in keys) && (k in keys ==> k in fields && FieldValues(ms)[k] == fields[k]) {
      FieldsHold(ms, k);
      if k in keys {
        var i :| 0 <= i < |keys| && keys[i] == k;
        assert Holds(ms, k, fields[k]);
      }
    }
  }

  /** The canonical form of a value is a JSON text that decodes to the value. */
  lemma EncodeDecodes(j: Json)
    requires WellFormed(j)
    ensures Decode(Encode(j)) == Some(j)
  {
    SyntaxForText(j);
    SyntaxForValue(j);
    Unpadded(Encode(j));
    DecodeText(Padded("", SyntaxFor(j), ""));
  }

  // ---- The hash ---------------------------------------------------------------------

  /** json.Marshal of requestHashInput. */
  ghost function CanonicalBytes(eventType: string, source: string, payload: Json): string {
    "{\"event_type\":" + Quote(eventType) + ",\"source\":" + Quote(source) + ",\"payload\":" + (Encode(payload) + "}")
  }

  /** The layout of the canonical bytes: the struct's fields in order, without whitespace. */
  lemma CanonicalLayout()
    ensures CanonicalBytes("t", "s", Null) == "{\"event_type\":\"t\",\"source\":\"s\",\"payload\":null}"
  {
    assert EscapeAll("t") == "t" && EscapeAll("s") == "s";
  }

  lemma PeelQuote(h: string, s: string, x: string, t: string, y: string)
    requires h + Quote(s) + x == h + Quote(t) + y
    ensures s == t && x == y
  {
    assert h + Quote(s) + x == h + (Quote(s) + x) && h + Quote(t) + y == h + (Quote(t) + y);
    Cancel(h, Quote(s) + x, Quote(t) + y);
    QuotePrefix(s, t, x, y);
  }

  /** Canonical bytes are equal exactly when event type, source and decoded payload are. */
  lemma CanonicalBytesIff(t1: string, s1: string, p1: Json, t2: string, s2: string, p2: Json)
    requires WellFormed(p1) && WellFormed(p2)
    ensures CanonicalBytes(t1, s1, p1) == CanonicalBytes(t2, s2, p2) <==> t1 == t2 && s1 == s2 && p1 == p2
  {
    if CanonicalBytes(t1, s1, p1) == CanonicalBytes(t2, s2, p2) {
      var h1, h2, h3 := "{\"event_type\":", ",\"source\":", ",\"payload\":";
      var e1, e2 := h3 + (Encode(p1) + "}"), h3 + (Encode(p2) + "}");
      Regroup(h1, Quote(t1), h2, Quote(s1), h3, Encode(p1) + "}");
      Regroup(h1, Quote(t2), h2, Quote(s2), h3, Encode(p2) + "}");
      PeelQuote(h1, t1, h2 + Quote(s1) + e1, t2, h2 + Quote(s2) + e2);
      PeelQuote(h2, s1, e1, s2, e2);
      Cancel(h3, Encode(p1) + "}", Encode(p2) + "}");
      EncodePrefix(p1, p2, "}", "}");
    }
  }

  lemma Regroup(a: string, b: string, c: string, d: string, e: string, f: string)
    ensures a + b + c + d + e + f == a + b + (c + d + (e + f))
  {
  }

  /** computeRequestHash, with the digest function as a parameter. */
  ghost function ComputeRequestHash(sha: string -> string, eventType: string, source: string, payload: string)
    : Option<string>
  {
    match Decode(payload)
    case None => None
    case Some(value) => Some(sha(CanonicalBytes(eventType, source, value)))
  }

  /** Two hashes agree exactly when the digest maps the two canonical byte strings to one value, and
      those strings are one exactly when event type, source and decoded payload are: whitespace,
      member order and escape spelling do not count, array order and number spelling do. */
  lemma RequestHashIff(sha: string -> string, t1: string, s1: string, p1: string, t2: string, s2: string, p2: string)
    requires Decode(p1).Some? && Decode(p2).Some?
    ensures var b1 := CanonicalBytes(t1, s1, Decode(p1).value);
            var b2 := CanonicalBytes(t2, s2, Decode(p2).value);
            && (ComputeRequestHash(sha, t1, s1, p1) == ComputeRequestHash(sha, t2, s2, p2) <==> sha(b1) == sha(b2))
            && (b1 == b2 <==> t1 == t2 && s1 == s2 && Decode(p1) == Decode(p2))
  {
    DecodeWellFormed(p1);
    DecodeWellFormed(p2);
    CanonicalBytesIff(t1, s1, Decode(p1).value, t2, s2, Decode(p2).value);
  }
}

/** The member of the retry set is the JSON text of the message's value map. */
module RetryMember {
  import opened Json
  import opened Protocol

  function FieldName(f: Field): string {
    match f
    case OutboxId => "outbox_id"
    case EventId => "event_id"
    case EventType => "event_type"
    case Source => "source"
    case Payload => "payload"
    case RetryCount => "retry"
    case CreatedAt => "created_at"
    case OriginalStreamId => "original_stream_id"
    case ReplayMark => "replay"
    case RedriveMark => "redrive"
    case DlqAt => "dlq_at"
    case ErrorText => "error"
  }

  lemma FieldNameInjective(f: Field, g: Field)
    requires FieldName(f) == FieldName(g)
    ensures f == g
  {
  }

  ghost function MemberFields(v: Values): (fields: map<string, Json>)
    ensures forall f :: f in v ==> FieldName(f) in fields && fields[FieldName(f)] == Str(v[f])
    ensures forall k :: k in fields ==> exists f :: f in v && FieldName(f) == k
  {
    forall f, g | FieldName(f) == FieldName(g) ensures f == g { FieldNameInjective(f, g); }
    map f | f in v :: FieldName(f) := Str(v[f])
  }

  /** scheduleRetry's member: the JSON text of the message's value map. */
  ghost function MemberText(v: Values): string {
    Encode(Obj(MemberFields(v)))
  }

  lemma MemberWellFormed(v: Values)
    ensures WellFormed(Obj(MemberFields(v)))
  {
    var fields := MemberFields(v);
    forall k | k in fields ensures WellFormed(fields[k]) {
      var f :| f in v && FieldName(f) == k;
    }
  }

  /** Two value maps have the same member text exactly when they are the same map, so the set of
      texts that Redis keeps and a set of value maps are one and the same. */
  lemma MemberTextIff(v: Values, w: Values)
    ensures MemberText(v) == MemberText(w) <==> v == w
  {
    MemberWellFormed(v);
    MemberWellFormed(w);
    EncodeInjective(Obj(MemberFields(v)), Obj(MemberFields(w)));
    if MemberText(v) == MemberText(w) {
      SubsetOf(v, w);
      SubsetOf(w, v);
    }
  }

  lemma SubsetOf(v: Values, w: Values)
    requires MemberFields(v) == MemberFields(w)
    ensures forall f :: f in v ==> f in w && w[f] == v[f]
  {
    forall f | f in v ensures f in w && w[f] == v[f] {
      var g :| g in w && FieldName(g) == FieldName(f);
      FieldNameInjective(f, g);
    }
  }
}
