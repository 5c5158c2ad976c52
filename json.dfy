/** The part of Go's `encoding/json` that the i3bar protocol relies on:
    struct fields carrying `json:"key"` or `json:"key,omitempty"` tags, flat
    objects whose members are strings, integers and booleans, arrays of such
    objects, and `null` for a nil pointer.  Marshalling a struct walks its
    fields in declaration order and drops every `omitempty` field whose value
    is empty; that key selection is the heart of this module. */
module Json {
  import opened Wrappers

  /** A member value of the protocol's objects. */
  datatype Scalar = Str(s: string) | Int(i: int) | Bool(b: bool)

  /** The empty values of Go's `omitempty` for these kinds: "", 0 and false. */
  predicate IsEmpty(v: Scalar)
  {
    match v
    case Str(s) => s == ""
    case Int(i) => i == 0
    case Bool(b) => !b
  }

  /** One exported struct field as its tag declares it. */
  datatype Tag = Tag(key: string, value: Scalar, omitEmpty: bool)

  /** One member of an encoded object. */
  datatype Pair = Pair(key: string, value: Scalar)

  predicate Omitted(t: Tag)
  {
    t.omitEmpty && IsEmpty(t.value)
  }

  /** The members Marshal writes for a struct whose fields are `tags`. */
  function Select(tags: seq<Tag>): (r: seq<Pair>)
    ensures |r| <= |tags|
  {
    if tags == [] then []
    else (if Omitted(tags[0]) then [] else [Pair(tags[0].key, tags[0].value)]) + Select(tags[1..])
  }

  function TagKeys(tags: seq<Tag>): seq<string>
  {
    seq(|tags|, i requires 0 <= i < |tags| => tags[i].key)
  }

  function Keys(pairs: seq<Pair>): seq<string>
  {
    seq(|pairs|, i requires 0 <= i < |pairs| => pairs[i].key)
  }

  /** No two fields share a key (Go drops both fields of a clash; the structs here have none). */
  predicate DistinctKeys(tags: seq<Tag>)
  {
    forall i, j :: 0 <= i < j < |tags| ==> tags[i].key != tags[j].key
  }

  /** No key occurs twice. */
  predicate Distinct(keys: seq<string>)
  {
    forall i, j :: 0 <= i < j < |keys| ==> keys[i] != keys[j]
  }

  /** The value of the first member named `k`, if any. */
  function Lookup(pairs: seq<Pair>, k: string): (r: Option<Scalar>)
  {
    if pairs == [] then None
    else if pairs[0].key == k then Some(pairs[0].value)
    else Lookup(pairs[1..], k)
  }

  /** `a` can be obtained from `b` by deleting elements: same relative order. */
  predicate IsSubsequence<T(==)>(a: seq<T>, b: seq<T>)
    decreases |b|
  {
    a == [] ||
    (b != [] &&
     ((a[0] == b[0] && IsSubsequence(a[1..], b[1..])) || IsSubsequence(a, b[1..])))
  }

  /** Marshal writes no key the struct does not declare. */
  lemma {:induction false} SelectLookupAbsent(tags: seq<Tag>, k: string)
    requires k !in TagKeys(tags)
    ensures Lookup(Select(tags), k) == None
  {
    if tags != [] {
      var rest := tags[1..];
      assert TagKeys(tags) == [tags[0].key] + TagKeys(rest);
      SelectLookupAbsent(rest, k);
      if Omitted(tags[0]) {
        assert Select(tags) == Select(rest);
      } else {
        var sel := [Pair(tags[0].key, tags[0].value)] + Select(rest);
        assert Select(tags) == sel && sel[0].key != k;
        assert sel[1..] == Select(rest);
      }
    }
  }

  /** Marshal emits the key of field `i` exactly when that field is not
      omitted, and then with the field's value. */
  lemma {:induction false} SelectLookupAt(tags: seq<Tag>, i: nat)
    requires DistinctKeys(tags) && i < |tags|
    ensures Lookup(Select(tags), tags[i].key) ==
      if Omitted(tags[i]) then None else Some(tags[i].value)
  {
    var rest := tags[1..];
    var head := if Omitted(tags[0]) then [] else [Pair(tags[0].key, tags[0].value)];
    assert Select(tags) == head + Select(rest);
    assert (head + Select(rest))[|head|..] == Select(rest);
    if i == 0 {
      if Omitted(tags[0]) {
        assert tags[0].key !in TagKeys(rest);
        SelectLookupAbsent(rest, tags[0].key);
      }
    } else {
      assert tags[0].key != tags[i].key;
      assert rest[i - 1] == tags[i];
      SelectLookupAt(rest, i - 1);
    }
  }

  /** The same, for a struct declared with the distinct keys `keys`, in order:
      the `i`-th declared key is missing exactly when its field is omitted. */
  lemma SelectLookupDeclared(tags: seq<Tag>, keys: seq<string>, i: nat)
    requires TagKeys(tags) == keys && Distinct(keys) && i < |tags|
    ensures Lookup(Select(tags), keys[i]) ==
      if Omitted(tags[i]) then None else Some(tags[i].value)
  {
    assert DistinctKeys(tags) by {
      forall a, b | 0 <= a < b < |tags|
        ensures tags[a].key != tags[b].key
      {
        assert keys[a] == tags[a].key && keys[b] == tags[b].key;
      }
    }
    SelectLookupAt(tags, i);
  }

  /** Marshal keeps the declaration order of the fields it emits. */
  lemma {:induction false} SelectKeepsOrder(tags: seq<Tag>)
    ensures IsSubsequence(Keys(Select(tags)), TagKeys(tags))
  {
    if tags != [] {
      var rest := tags[1..];
      SelectKeepsOrder(rest);
      var a := Keys(Select(tags));
      var b := TagKeys(tags);
      assert b[1..] == TagKeys(rest);
      if Omitted(tags[0]) {
        assert Select(tags) == Select(rest);
      } else {
        assert Select(tags) == [Pair(tags[0].key, tags[0].value)] + Select(rest);
        assert a[0] == b[0];
        assert a[1..] == Keys(Select(rest));
      }
    }
  }

  // ---------------------------------------------------------------------------
  // Reference decoding: json.Unmarshal into a zero-valued struct.

  function StrMember(pairs: seq<Pair>, k: string): string
  {
    match Lookup(pairs, k)
    case Some(Str(s)) => s
    case _ => ""
  }

  function IntMember(pairs: seq<Pair>, k: string): int
  {
    match Lookup(pairs, k)
    case Some(Int(i)) => i
    case _ => 0
  }

  function BoolMember(pairs: seq<Pair>, k: string): bool
  {
    match Lookup(pairs, k)
    case Some(Bool(b)) => b
    case _ => false
  }

  // ---------------------------------------------------------------------------
  // Rendering, as encoding/json writes it (compact, HTML escaping on).

  /** A decimal digit. */
  function Digit(d: nat): char
    requires d < 10
  {
    ('0' as int + d) as char
  }

  /** A lower-case hexadecimal digit, as encoding/json writes them. */
  function Hex(n: nat): char
    requires n < 16
  {
    if n < 10 then Digit(n) else ('a' as int + n - 10) as char
  }

  /** A character that may stand unescaped inside an encoded string: no control
      character (so no line break), none of < > & and neither U+2028 nor U+2029. */
  predicate HtmlSafe(c: char)
  {
    c as int >= 0x20 && c != '<' && c != '>' && c != '&' && c as int != 0x2028 && c as int != 0x2029
  }

  function EscapeChar(c: char): (r: string)
    ensures |r| >= 1
    ensures forall i :: 0 <= i < |r| ==> HtmlSafe(r[i])
    ensures HtmlSafe(c) && c != '"' && c != '\\' ==> r == [c]
  {
    if c == '"' then "\\\""
    else if c == '\\' then "\\\\"
    else if c == '\n' then "\\n"
    else if c == '\r' then "\\r"
    else if c == '\t' then "\\t"
    else if c as int == 0x08 then "\\b"
    else if c as int == 0x0C then "\\f"
    else if c as int < 0x20 || c == '<' || c == '>' || c == '&' then
      "\\u00" + [Hex(c as int / 16), Hex(c as int % 16)]
    else if c as int == 0x2028 || c as int == 0x2029 then "\\u202" + [Hex(c as int % 16)]
    else [c]
  }

  /** The body of an encoded string. */
  function Escape(s: string): (r: string)
    ensures forall i :: 0 <= i < |r| ==> HtmlSafe(r[i])
    ensures (forall i :: 0 <= i < |s| ==> HtmlSafe(s[i]) && s[i] != '"' && s[i] != '\\') ==> r == s
  {
    if s == [] then [] else EscapeChar(s[0]) + Escape(s[1..])
  }

  function Quote(s: string): string
  {
    "\"" + Escape(s) + "\""
  }

  /** Decimal text of a natural number, with no leading zero. */
  function NatText(n: nat): (r: string)
    ensures |r| >= 1
    ensures forall i :: 0 <= i < |r| ==> '0' <= r[i] <= '9'
    ensures |r| > 1 ==> r[0] != '0'
  {
    if n < 10 then [Digit(n)] else NatText(n / 10) + [Digit(n % 10)]
  }

  /** Decimal text of an integer, with a leading '-' exactly when it is negative. */
  function IntText(i: int): (r: string)
    ensures |r| >= 1 && (r[0] == '-' <==> i < 0)
    ensures forall j :: 0 < j < |r| ==> '0' <= r[j] <= '9'
  {
    if i < 0 then "-" + NatText(-i) else NatText(i)
  }

  function RenderScalar(v: Scalar): string
  {
    match v
    case Str(s) => Quote(s)
    case Int(i) => IntText(i)
    case Bool(b) => if b then "true" else "false"
  }

  /** The items separated by commas. */
  function Join(items: seq<string>): string
  {
    if items == [] then ""
    else if |items| == 1 then items[0]
    else items[0] + "," + Join(items[1..])
  }

  lemma {:induction false} JoinSnoc(items: seq<string>, x: string)
    requires items != []
    ensures Join(items + [x]) == Join(items) + "," + x
  {
    if |items| == 1 {
      assert (items + [x])[1..] == [x];
    } else {
      assert (items + [x])[1..] == items[1..] + [x];
      JoinSnoc(items[1..], x);
    }
  }

  function MemberTexts(pairs: seq<Pair>): (r: seq<string>)
    ensures |r| == |pairs|
    ensures forall i :: 0 <= i < |pairs| ==>
      r[i] == Quote(pairs[i].key) + ":" + RenderScalar(pairs[i].value)
  {
    if pairs == [] then []
    else [Quote(pairs[0].key) + ":" + RenderScalar(pairs[0].value)] + MemberTexts(pairs[1..])
  }

  function RenderObject(pairs: seq<Pair>): string
  {
    "{" + Join(MemberTexts(pairs)) + "}"
  }

  /** Each element rendered in turn. */
  function Each<T>(render: T -> string, xs: seq<T>): (r: seq<string>)
    ensures |r| == |xs|
    ensures forall i :: 0 <= i < |xs| ==> r[i] == render(xs[i])
  {
    if xs == [] then [] else [render(xs[0])] + Each(render, xs[1..])
  }

  function RenderArray(items: seq<string>): string
  {
    "[" + Join(items) + "]"
  }

  // ---------------------------------------------------------------------------
  // Reading the rendered text back: what a JSON reader takes each string and
  // number to mean.

  /** The character a two-character escape `\x` stands for, if `x` names one. */
  function ShortEscape(x: char): Option<char>
  {
    if x == '"' then Some('"')
    else if x == '\\' then Some('\\')
    else if x == '/' then Some('/')
    else if x == 'b' then Some(0x08 as char)
    else if x == 'f' then Some(0x0C as char)
    else if x == 'n' then Some('\n')
    else if x == 'r' then Some('\r')
    else if x == 't' then Some('\t')
    else None
  }

  predicate IsHex(c: char)
  {
    '0' <= c <= '9' || 'a' <= c <= 'f' || 'A' <= c <= 'F'
  }

  function HexValue(c: char): (v: nat)
    requires IsHex(c)
    ensures v < 16
  {
    if c <= '9' then c as int - '0' as int
    else if c >= 'a' then c as int - 'a' as int + 10
    else c as int - 'A' as int + 10
  }

  /** The code unit four hexadecimal digits spell. */
  function CodeUnit(a: char, b: char, c: char, d: char): (v: nat)
    requires IsHex(a) && IsHex(b) && IsHex(c) && IsHex(d)
    ensures v < 0x10000
  {
    HexValue(a) * 4096 + HexValue(b) * 256 + HexValue(c) * 16 + HexValue(d)
  }

  function Cons(c: char, rest: Option<string>): Option<string>
  {
    match rest
    case None => None
    case Some(s) => Some([c] + s)
  }

  /** The characters the body of a JSON string stands for, or `None` when the
      body is not one: it holds a bare `"` (which would end the string early), a
      raw control character, or a malformed escape.  A `\\u` escape naming half
      of a surrogate pair is refused too; the escaper never writes one. */
  function Unescape(r: string): Option<string>
    decreases |r|
  {
    if r == [] then Some([])
    else if r[0] == '"' || r[0] as int < 0x20 then None
    else if r[0] != '\\' then Cons(r[0], Unescape(r[1..]))
    else if |r| >= 2 && ShortEscape(r[1]).Some? then Cons(ShortEscape(r[1]).value, Unescape(r[2..]))
    else if |r| >= 6 && r[1] == 'u' && IsHex(r[2]) && IsHex(r[3]) && IsHex(r[4]) && IsHex(r[5]) then
      var v := CodeUnit(r[2], r[3], r[4], r[5]);
      if 0xD800 <= v < 0xE000 then None else Cons(v as char, Unescape(r[6..]))
    else None
  }

  /** A quoted string's characters, or `None` when it is not one. */
  function Unquote(q: string): Option<string>
  {
    if |q| >= 2 && q[0] == '"' && q[|q| - 1] == '"' then Unescape(q[1..|q| - 1]) else None
  }

  lemma HexRoundTrip(n: nat)
    requires n < 16
    ensures IsHex(Hex(n)) && HexValue(Hex(n)) == n
  {
  }

  /** A two-character escape reads back as the character it replaced. */
  lemma ShortEscapeDecodes(c: char, x: char, rest: string)
    requires ShortEscape(x) == Some(c)
    ensures Unescape(['\\', x] + rest) == Cons(c, Unescape(rest))
  {
    var r := ['\\', x] + rest;
    assert r[0] == '\\' && r[1] == x && r[2..] == rest;
  }

  /** A six-character `\\u` escape reads back as the character it replaced. */
  lemma UnicodeEscapeDecodes(c: char, d: seq<nat>, rest: string)
    requires |d| == 4 && d[0] < 16 && d[1] < 16 && d[2] < 16 && d[3] < 16
    requires c as int == d[0] * 4096 + d[1] * 256 + d[2] * 16 + d[3]
    ensures Unescape(['\\', 'u', Hex(d[0]), Hex(d[1]), Hex(d[2]), Hex(d[3])] + rest) == Cons(c, Unescape(rest))
  {
    var r := ['\\', 'u', Hex(d[0]), Hex(d[1]), Hex(d[2]), Hex(d[3])] + rest;
    HexRoundTrip(d[0]);
    HexRoundTrip(d[1]);
    HexRoundTrip(d[2]);
    HexRoundTrip(d[3]);
    assert r[2] == Hex(d[0]) && r[3] == Hex(d[1]) && r[4] == Hex(d[2]) && r[5] == Hex(d[3]);
    assert r[6..] == rest;
  }

  /** Each escaped character reads back as itself, with nothing swallowed from
      what follows it. */
  lemma EscapeCharDecodes(c: char, rest: string)
    ensures Unescape(EscapeChar(c) + rest) == Cons(c, Unescape(rest))
  {
    var e := EscapeChar(c);
    if c == '"' || c == '\\' || c == '\n' || c == '\r' || c == '\t' || c as int == 0x08 || c as int == 0x0C {
      ShortEscapeDecodes(c, e[1], rest);
    } else if c as int < 0x20 || c == '<' || c == '>' || c == '&' {
      assert e == ['\\', 'u', Hex(0), Hex(0), Hex(c as int / 16), Hex(c as int % 16)];
      UnicodeEscapeDecodes(c, [0, 0, c as int / 16, c as int % 16], rest);
    } else if c as int == 0x2028 || c as int == 0x2029 {
      assert e == ['\\', 'u', Hex(2), Hex(0), Hex(2), Hex(c as int % 16)];
      UnicodeEscapeDecodes(c, [2, 0, 2, c as int % 16], rest);
    } else {
      assert (e + rest)[1..] == rest;
    }
  }

  /** Escaping loses nothing: the body reads back as the original string, so
      no `"` or `\\` in it is left bare. */
  lemma {:induction false} EscapeDecodes(s: string)
    ensures Unescape(Escape(s)) == Some(s)
  {
    if s != [] {
      EscapeCharDecodes(s[0], Escape(s[1..]));
      EscapeDecodes(s[1..]);
      assert [s[0]] + s[1..] == s;
    }
  }

  /** A quoted string reads back as the original string: its first bare `"`
      is the closing one. */
  lemma QuoteDecodes(s: string)
    ensures Unquote(Quote(s)) == Some(s)
  {
    var q := Quote(s);
    assert q[1..|q| - 1] == Escape(s);
    EscapeDecodes(s);
  }

  /** The number a run of decimal digits denotes. */
  function DigitsValue(s: string): nat
    requires forall i :: 0 <= i < |s| ==> '0' <= s[i] <= '9'
  {
    if s == [] then 0
    else DigitsValue(s[..|s| - 1]) * 10 + (s[|s| - 1] as int - '0' as int)
  }

  /** The number an optionally signed run of decimal digits denotes. */
  function IntValue(s: string): int
    requires |s| >= 1 && forall i :: 0 < i < |s| ==> '0' <= s[i] <= '9'
    requires s[0] != '-' ==> '0' <= s[0] <= '9'
  {
    if s[0] == '-' then -(DigitsValue(s[1..]) as int) else DigitsValue(s)
  }

  /** The digits `NatText` writes denote the number. */
  lemma {:induction false} NatTextValue(n: nat)
    ensures DigitsValue(NatText(n)) == n
  {
    var t := NatText(n);
    if n >= 10 {
      NatTextValue(n / 10);
      assert t[..|t| - 1] == NatText(n / 10);
    } else {
      assert t[..0] == [];
    }
  }

  /** The text `IntText` writes denotes the integer, sign included. */
  lemma IntTextValue(i: int)
    ensures IntValue(IntText(i)) == i
  {
    if i < 0 {
      NatTextValue(-i);
      assert IntText(i)[1..] == NatText(-i);
    } else {
      NatTextValue(i);
    }
  }

  // ---------------------------------------------------------------------------
  // Compact output is one line: a newline only ever appears escaped.

  predicate OneLine(s: string)
  {
    forall i :: 0 <= i < |s| ==> s[i] != '\n'
  }

  lemma OneLineConcat(a: string, b: string)
    requires OneLine(a) && OneLine(b)
    ensures OneLine(a + b)
  {
    assert forall i :: |a| <= i < |a + b| ==> (a + b)[i] == b[i - |a|];
  }

  lemma QuoteOneLine(s: string)
    ensures OneLine(Quote(s))
  {
    OneLineConcat("\"", Escape(s));
    OneLineConcat("\"" + Escape(s), "\"");
  }

  lemma ScalarOneLine(v: Scalar)
    ensures OneLine(RenderScalar(v))
  {
    match v
    case Str(s) => QuoteOneLine(s);
    case Int(i) =>
    case Bool(b) =>
  }

  lemma {:induction false} JoinOneLine(items: seq<string>)
    requires forall i :: 0 <= i < |items| ==> OneLine(items[i])
    ensures OneLine(Join(items))
  {
    if |items| > 1 {
      JoinOneLine(items[1..]);
      assert OneLine(items[0]);
      OneLineConcat(items[0], ",");
      OneLineConcat(items[0] + ",", Join(items[1..]));
    }
  }

  /** An object is written on one line, whatever its member values hold. */
  lemma ObjectOneLine(pairs: seq<Pair>)
    ensures OneLine(RenderObject(pairs))
  {
    var m := MemberTexts(pairs);
    forall i | 0 <= i < |m|
      ensures OneLine(m[i])
    {
      QuoteOneLine(pairs[i].key);
      ScalarOneLine(pairs[i].value);
      OneLineConcat(Quote(pairs[i].key), ":");
      OneLineConcat(Quote(pairs[i].key) + ":", RenderScalar(pairs[i].value));
    }
    ArrayFrameOneLine(m, "{", "}");
  }

  /** An array of one-line elements is written on one line. */
  lemma ArrayOneLine(items: seq<string>)
    requires forall i :: 0 <= i < |items| ==> OneLine(items[i])
    ensures OneLine(RenderArray(items))
  {
    ArrayFrameOneLine(items, "[", "]");
  }

  lemma ArrayFrameOneLine(items: seq<string>, open: string, close: string)
    requires forall i :: 0 <= i < |items| ==> OneLine(items[i])
    requires OneLine(open) && OneLine(close)
    ensures OneLine(open + Join(items) + close)
  {
    JoinOneLine(items);
    OneLineConcat(open, Join(items));
    OneLineConcat(open + Join(items), close);
  }
}
