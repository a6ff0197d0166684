/**
 Canonical JSON as the audit chain hashes it: `json.dumps` with sorted keys, no spaces and
 ASCII-only strings (fusion_identity/store.py, `_chain_hash`).

 Object members are given in their sorted order. A number stands for its rendered text. Python
 strings are sequences of Unicode scalar values here.
 */
module CanonicalJson {
  import opened Util

  datatype Json =
    | Null
    | Bool(b: bool)
    | Num(text: string)
    | Str(s: string)
    | Arr(items: seq<Json>)
    | Obj(members: seq<Member>)

  datatype Member = Member(name: string, value: Json)

  // ----- Rendering -----

  function HexDigit(d: int): char
    requires 0 <= d < 16
  {
    "0123456789abcdef"[d]
  }

  function Hex4(n: int): (r: string)
    requires 0 <= n < 0x10000
    ensures |r| == 4
  {
    [HexDigit(n / 16 / 16 / 16), HexDigit(n / 16 / 16 % 16), HexDigit(n / 16 % 16), HexDigit(n % 16)]
  }

  /** The two code units of a character beyond the basic plane. */
  function High(c: char): (u: int)
    requires 0x10000 <= c as int
    ensures 0xd800 <= u < 0xdc00
  {
    0xd800 + (c as int - 0x10000) / 1024
  }

  function Low(c: char): (u: int)
    requires 0x10000 <= c as int
    ensures 0xdc00 <= u < 0xe000
  {
    0xdc00 + (c as int - 0x10000) % 1024
  }

  /** One character inside a string literal. */
  function Escape(c: char): string {
    if c == '"' then "\\\""
    else if c == '\\' then "\\\\"
    else if c == '\n' then "\\n"
    else if c == '\r' then "\\r"
    else if c == '\t' then "\\t"
    else if c == '\U{000C}' then "\\f"
    else if c == '\U{0008}' then "\\b"
    else if ' ' <= c <= '~' then [c]
    else if c as int < 0x10000 then "\\u" + Hex4(c as int)
    else "\\u" + Hex4(High(c)) + "\\u" + Hex4(Low(c))
  }

  /** The characters of a string, its closing quote, and then `k`. */
  function Chars(s: string, k: string): string {
    if s == "" then ['"'] + k else Escape(s[0]) + Chars(s[1..], k)
  }

  /** The text of a value with `k` after it; the value alone has nothing after it. */
  function Text(j: Json, k: string := ""): string
    decreases j, 1
  {
    match j
    case Null => "null" + k
    case Bool(b) => (if b then "true" else "false") + k
    case Num(text) => text + k
    case Str(s) => ['"'] + Chars(s, k)
    case Arr(items) => ['['] + Items(items, [']'] + k)
    case Obj(members) => ['{'] + Members(members, ['}'] + k)
  }

  function Items(items: seq<Json>, k: string): string
    decreases items, 0
  {
    if items == [] then k
    else Text(items[0], if |items| == 1 then k else [','] + Items(items[1..], k))
  }

  function Members(members: seq<Member>, k: string): string
    decreases members, 0
  {
    if members == [] then k
    else
      ['"'] + Chars(members[0].name,
        [':'] + Text(members[0].value, if |members| == 1 then k else [','] + Members(members[1..], k)))
  }

  predicate IsNumChar(c: char) {
    '0' <= c <= '9' || c in "+-.eENaInfity"
  }

  predicate IsNumStart(c: char) {
    '0' <= c <= '9' || c in "-NI"
  }

  /** A rendered Python number, including NaN and the infinities. */
  predicate IsNumber(text: string) {
    text != "" && IsNumStart(text[0]) && forall i :: 0 <= i < |text| ==> IsNumChar(text[i])
  }

  predicate WellFormed(j: Json) {
    match j
    case Null => true
    case Bool(_) => true
    case Num(text) => IsNumber(text)
    case Str(_) => true
    case Arr(items) => forall i :: 0 <= i < |items| ==> WellFormed(items[i])
    case Obj(members) => forall i :: 0 <= i < |members| ==> WellFormed(members[i].value)
  }

  // ----- The texts themselves -----

  lemma ShortEscapesAre()
    ensures Escape('"') == "\\\"" && Escape('\\') == "\\\\" && Escape('\n') == "\\n" && Escape('\r') == "\\r"
    ensures Escape('\t') == "\\t" && Escape('\U{0008}') == "\\b" && Escape('\U{000C}') == "\\f"
    ensures Escape(' ') == " " && Escape('a') == "a" && Escape('/') == "/" && Escape('~') == "~"
  {
  }

  /** Anything else is four hexadecimal digits, or twice four beyond the basic plane. */
  lemma LongEscapesAre()
    ensures Escape('\U{0001}') == "\\u0001" && Escape('\U{007F}') == "\\u007f" && Escape('\U{00E9}') == "\\u00e9"
  {
  }

  lemma HighIs()
    ensures Hex4(0xd83d) == "d83d"
  {
  }

  lemma LowIs()
    ensures Hex4(0xde00) == "de00"
  {
  }

  lemma PairEscapeIs()
    ensures Escape('\U{1F600}') == "\\u" + "d83d" + "\\u" + "de00"
  {
    HighIs();
    LowIs();
    assert High('\U{1F600}') == 0xd83d && Low('\U{1F600}') == 0xde00;
  }

  lemma ScalarTextsAre(s: string, n: string, k: string)
    ensures Text(Null, k) == "null" + k && Text(Bool(true), k) == "true" + k && Text(Bool(false), k) == "false" + k
    ensures Text(Num(n), k) == n + k && Text(Str(s), k) == "\"" + Chars(s, k)
  {
  }

  /** Lists and objects have commas and colons, and no spaces. */
  lemma ListTextIs(a: Json, b: Json, k: string)
    ensures Text(Arr([]), k) == ['['] + ([']'] + k)
    ensures Text(Arr([a, b]), k) == ['['] + Text(a, [','] + Text(b, [']'] + k))
  {
    assert [a, b][1..] == [b];
    assert Items([b], [']'] + k) == Text(b, [']'] + k);
  }

  lemma ObjectTextIs(s: string, a: Json, k: string)
    ensures Text(Obj([]), k) == ['{'] + (['}'] + k)
    ensures Text(Obj([Member(s, a)]), k) == ['{'] + (['"'] + Chars(s, [':'] + Text(a, ['}'] + k)))
  {
  }

  // ----- Unique reading -----

  lemma SplitAt(a: string, b: string, x: string, y: string)
    requires |a| == |b| && a + x == b + y
    ensures a == b && x == y
  {
    assert (a + x)[..|a|] == a && (b + y)[..|b|] == b;
    assert (a + x)[|a|..] == x && (b + y)[|b|..] == y;
  }

  lemma Hex4Injective(n: int, m: int)
    requires 0 <= n < 0x10000 && 0 <= m < 0x10000 && Hex4(n) == Hex4(m)
    ensures n == m
  {
    HexDigits(n);
    HexDigits(m);
    assert Hex4(n)[0] == Hex4(m)[0] && Hex4(n)[1] == Hex4(m)[1] && Hex4(n)[2] == Hex4(m)[2] && Hex4(n)[3] == Hex4(m)[3];
    HexDigitInjective(n / 16 / 16 / 16, m / 16 / 16 / 16);
    HexDigitInjective(n / 16 / 16 % 16, m / 16 / 16 % 16);
    HexDigitInjective(n / 16 % 16, m / 16 % 16);
    HexDigitInjective(n % 16, m % 16);
  }

  lemma HexDigitInjective(a: int, b: int)
    requires 0 <= a < 16 && 0 <= b < 16 && HexDigit(a) == HexDigit(b)
    ensures a == b
  {
  }

  lemma HexDigits(n: int)
    requires 0 <= n < 0x10000
    ensures n == 4096 * (n / 16 / 16 / 16) + 256 * (n / 16 / 16 % 16) + 16 * (n / 16 % 16) + n % 16
  {
  }

  /** Which of the three forms an escape has: the character itself, a two-character escape, or
      one or two four-digit code units. */
  datatype Form = Plain | Short | Unit | Pair

  function FormOf(c: char): Form {
    if c in "\"\\\n\r\t\U{000C}\U{0008}" then Short
    else if ' ' <= c <= '~' then Plain
    else if c as int < 0x10000 then Unit else Pair
  }

  lemma EscapeShape(c: char)
    ensures Escape(c) != "" && Escape(c)[0] != '"'
    ensures FormOf(c) == Plain ==> Escape(c) == [c] && c != '\\'
    ensures FormOf(c) != Plain ==> |Escape(c)| >= 2 && Escape(c)[0] == '\\'
    ensures FormOf(c) == Short ==> |Escape(c)| == 2 && Escape(c)[1] != 'u'
    ensures FormOf(c) == Unit ==> |Escape(c)| == 6 && Escape(c)[1] == 'u'
    ensures FormOf(c) == Pair ==> |Escape(c)| == 12 && Escape(c)[1] == 'u'
  {
  }

  lemma ShortInjective(c: char, d: char)
    requires FormOf(c) == FormOf(d) == Short && Escape(c) == Escape(d)
    ensures c == d
  {
    assert Escape(c)[1] == Escape(d)[1];
  }

  lemma UnitInjective(c: char, d: char)
    requires FormOf(c) == FormOf(d) == Unit && Escape(c) == Escape(d)
    ensures c == d
  {
    assert Escape(c)[2..] == Hex4(c as int) && Escape(d)[2..] == Hex4(d as int);
    Hex4Injective(c as int, d as int);
  }

  lemma PairValue(c: char)
    requires FormOf(c) == Pair
    ensures 0xd800 <= High(c) < 0xdc00 <= Low(c) < 0xe000
    ensures c as int == 0x10000 + 1024 * (High(c) - 0xd800) + Low(c) - 0xdc00
  {
  }

  lemma TwoUnits(a: string, b: string)
    requires |a| == |b| == 4
    ensures ("\\u" + a + "\\u" + b)[2..6] == a && ("\\u" + a + "\\u" + b)[8..] == b
  {
  }

  lemma PairParts(c: char)
    requires FormOf(c) == Pair
    ensures 0xd800 <= High(c) < 0xdc00 <= Low(c) < 0xe000
    ensures |Escape(c)| == 12 && Escape(c)[2..6] == Hex4(High(c)) && Escape(c)[8..] == Hex4(Low(c))
  {
    PairValue(c);
    TwoUnits(Hex4(High(c)), Hex4(Low(c)));
    assert Escape(c) == "\\u" + Hex4(High(c)) + "\\u" + Hex4(Low(c));
  }

  lemma PairInjective(c: char, d: char)
    requires FormOf(c) == FormOf(d) == Pair && Escape(c) == Escape(d)
    ensures c == d
  {
    PairParts(c);
    PairParts(d);
    Hex4Injective(High(c), High(d));
    Hex4Injective(Low(c), Low(d));
    PairValue(c);
    PairValue(d);
  }

  lemma UnitDigits(c: char)
    requires FormOf(c) == Unit
    ensures |Escape(c)| == 6 && Escape(c)[2..6] == Hex4(c as int)
  {
  }

  /** No scalar value is a surrogate, so a single unit never starts like a pair. */
  lemma UnitIsNoPair(c: char, d: char)
    requires FormOf(c) == Unit && FormOf(d) == Pair && |Escape(c)| >= 6 && |Escape(d)| >= 6
    ensures Escape(c)[2..6] != Escape(d)[2..6]
  {
    UnitDigits(c);
    PairParts(d);
    if Hex4(c as int) == Hex4(High(d)) {
      Hex4Injective(c as int, High(d));
    }
  }

  lemma FourDigits(a: string, b: string, x: string, y: string)
    requires |a| >= 6 && |b| >= 6 && a + x == b + y
    ensures a[2..6] == b[2..6]
  {
    assert (a + x)[2..6] == a[2..6] && (b + y)[2..6] == b[2..6];
  }

  lemma EscapeUnique(c: char, d: char, x: string, y: string)
    requires Escape(c) + x == Escape(d) + y
    ensures c == d && x == y
  {
    EscapeShape(c);
    EscapeShape(d);
    assert (Escape(c) + x)[0] == Escape(c)[0] && (Escape(d) + y)[0] == Escape(d)[0];
    if FormOf(c) != Plain && FormOf(d) != Plain {
      assert (Escape(c) + x)[1] == Escape(c)[1] && (Escape(d) + y)[1] == Escape(d)[1];
      if FormOf(c) == Unit && FormOf(d) == Pair {
        UnitIsNoPair(c, d);
        FourDigits(Escape(c), Escape(d), x, y);
      } else if FormOf(c) == Pair && FormOf(d) == Unit {
        UnitIsNoPair(d, c);
        FourDigits(Escape(c), Escape(d), x, y);
      } else {
        SplitAt(Escape(c), Escape(d), x, y);
        match FormOf(c)
        case Short => ShortInjective(c, d);
        case Unit => UnitInjective(c, d);
        case Pair => PairInjective(c, d);
      }
    } else {
      SplitAt(Escape(c), Escape(d), x, y);
    }
  }

  /** A string literal says where it ends. */
  lemma {:induction false} CharsUnique(s: string, t: string, x: string, y: string)
    requires Chars(s, x) == Chars(t, y)
    ensures s == t && x == y
  {
    CharsHead(s, x);
    CharsHead(t, y);
    if s != "" && t != "" {
      EscapeUnique(s[0], t[0], Chars(s[1..], x), Chars(t[1..], y));
      CharsUnique(s[1..], t[1..], x, y);
      assert s == [s[0]] + s[1..] && t == [t[0]] + t[1..];
    } else {
      Uncons('"', x, y);
    }
  }

  lemma CharsHead(s: string, x: string)
    ensures Chars(s, x) != "" && (Chars(s, x)[0] == '"' <==> s == "")
  {
    if s != "" {
      EscapeShape(s[0]);
    }
  }

  lemma Uncons(c: char, x: string, y: string)
    requires [c] + x == [c] + y
    ensures x == y
  {
    SplitAt([c], [c], x, y);
  }

  /** What may follow a value: nothing, or a character no number continues with. */
  predicate Stops(x: string) {
    x == "" || !IsNumChar(x[0])
  }

  lemma NumberNotLonger(s: string, t: string, x: string, y: string)
    requires IsNumber(t) && Stops(x) && s + x == t + y
    ensures |t| <= |s|
  {
    assert forall i :: 0 <= i < |t| ==> (t + y)[i] == t[i];
    assert forall i :: 0 <= i < |x| ==> (s + x)[|s| + i] == x[i];
  }

  lemma NumberUnique(s: string, t: string, x: string, y: string)
    requires IsNumber(s) && IsNumber(t) && Stops(x) && Stops(y) && s + x == t + y
    ensures s == t && x == y
  {
    NumberNotLonger(s, t, x, y);
    NumberNotLonger(t, s, y, x);
    SplitAt(s, t, x, y);
  }

  /** The first character tells which kind of value follows. */
  lemma TextHead(j: Json, k: string)
    requires WellFormed(j)
    ensures Text(j, k) != ""
    ensures var c := Text(j, k)[0];
            && (c == 'n' <==> j.Null?) && (c == 't' <==> j == Bool(true)) && (c == 'f' <==> j == Bool(false))
            && (IsNumStart(c) <==> j.Num?) && (c == '"' <==> j.Str?) && (c == '[' <==> j.Arr?) && (c == '{' <==> j.Obj?)
            && c != ']'
  {
  }

  /** Canonical JSON reads back in one way: equal texts that start with a value start with the
      same value. */
  lemma {:induction false} TextUnique(a: Json, b: Json, x: string, y: string)
    requires WellFormed(a) && WellFormed(b) && Stops(x) && Stops(y) && Text(a, x) == Text(b, y)
    ensures a == b && x == y
    decreases a, 1
  {
    TextHead(a, x);
    TextHead(b, y);
    match a
    case Null => SplitAt("null", "null", x, y);
    case Bool(v) => SplitAt(if v then "true" else "false", if v then "true" else "false", x, y);
    case Num(_) => NumberUnique(a.text, b.text, x, y);
    case Str(_) =>
      Uncons('"', Chars(a.s, x), Chars(b.s, y));
      CharsUnique(a.s, b.s, x, y);
    case Arr(_) =>
      Uncons('[', Items(a.items, [']'] + x), Items(b.items, [']'] + y));
      ItemsUnique(a.items, b.items, x, y);
    case Obj(_) =>
      Uncons('{', Members(a.members, ['}'] + x), Members(b.members, ['}'] + y));
      MembersUnique(a.members, b.members, x, y);
  }

  lemma {:induction false} ItemsUnique(a: seq<Json>, b: seq<Json>, x: string, y: string)
    requires (forall i :: 0 <= i < |a| ==> WellFormed(a[i])) && (forall i :: 0 <= i < |b| ==> WellFormed(b[i]))
    requires Items(a, [']'] + x) == Items(b, [']'] + y)
    ensures a == b && x == y
    decreases a, 0
  {
    var u := if |a| <= 1 then [']'] + x else [','] + Items(a[1..], [']'] + x);
    var v := if |b| <= 1 then [']'] + y else [','] + Items(b[1..], [']'] + y);
    if a != [] { TextHead(a[0], u); }
    if b != [] { TextHead(b[0], v); }
    if a == [] || b == [] {
      assert (']' == Items(a, [']'] + x)[0] <==> a == []) && (']' == Items(b, [']'] + y)[0] <==> b == []);
      Uncons(']', x, y);
    } else {
      TextUnique(a[0], b[0], u, v);
      assert u[0] == v[0];
      if |a| == 1 {
        Uncons(']', x, y);
      } else {
        Uncons(',', Items(a[1..], [']'] + x), Items(b[1..], [']'] + y));
        ItemsUnique(a[1..], b[1..], x, y);
        assert a == [a[0]] + a[1..] && b == [b[0]] + b[1..];
      }
    }
  }

  lemma {:induction false} MembersUnique(a: seq<Member>, b: seq<Member>, x: string, y: string)
    requires (forall i :: 0 <= i < |a| ==> WellFormed(a[i].value))
             && (forall i :: 0 <= i < |b| ==> WellFormed(b[i].value))
    requires Members(a, ['}'] + x) == Members(b, ['}'] + y)
    ensures a == b && x == y
    decreases a, 0
  {
    var u := if |a| <= 1 then ['}'] + x else [','] + Members(a[1..], ['}'] + x);
    var v := if |b| <= 1 then ['}'] + y else [','] + Members(b[1..], ['}'] + y);
    assert ('}' == Members(a, ['}'] + x)[0] <==> a == []) && ('}' == Members(b, ['}'] + y)[0] <==> b == []);
    if a == [] {
      Uncons('}', x, y);
    } else {
      FirstMember(a[0].name, b[0].name, Text(a[0].value, u), Text(b[0].value, v));
      TextUnique(a[0].value, b[0].value, u, v);
      assert u[0] == v[0];
      if |a| == 1 {
        Uncons('}', x, y);
      } else {
        Uncons(',', Members(a[1..], ['}'] + x), Members(b[1..], ['}'] + y));
        MembersUnique(a[1..], b[1..], x, y);
        assert a == [a[0]] + a[1..] && b == [b[0]] + b[1..];
      }
    }
  }

  lemma FirstMember(s: string, t: string, x: string, y: string)
    requires ['"'] + Chars(s, [':'] + x) == ['"'] + Chars(t, [':'] + y)
    ensures s == t && x == y
  {
    Uncons('"', Chars(s, [':'] + x), Chars(t, [':'] + y));
    CharsUnique(s, t, [':'] + x, [':'] + y);
    Uncons(':', x, y);
  }
}
