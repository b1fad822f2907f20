/**
 * JSON text for the values of JsonValue: `JSON.stringify(v, undefined, 2)`
 * (two-space indentation, `undefined` members dropped, `undefined` array
 * items written as `null`) and `JSON.parse(text)`, with the round trip
 * between them.  Numbers are integers; a fraction or an exponent is not
 * read, and a `\u` escape naming a UTF-16 surrogate is not decoded.
 */
module JsonText {
  import opened Wrappers
  import opened JsonValue
  import JsNumber

  datatype ParseError = SyntaxError

  /** A value JSON text can carry: no `undefined` anywhere, unique keys. */
  predicate IsJson(v: Value)
  {
    match v
    case Undefined => false
    case Arr(items) => forall i :: 0 <= i < |items| ==> IsJson(items[i])
    case Obj(es) =>
      (forall i, j :: 0 <= i < j < |es| ==> es[i].key != es[j].key)
      && (forall i :: 0 <= i < |es| ==> IsJson(es[i].val))
    case _ => true
  }

  // ---------------------------------------------------------------------
  // JSON.stringify(v, undefined, 2)
  // ---------------------------------------------------------------------

  const HexDigits := "0123456789abcdef"

  function Indent(depth: nat): (s: string)
    ensures |s| == 2 * depth
    ensures forall i :: 0 <= i < |s| ==> s[i] == ' '
  {
    if depth == 0 then "" else "  " + Indent(depth - 1)
  }

  /** How one character of a string is written between the quotes. */
  function EscapeChar(c: char): (r: string)
    ensures |r| > 0
  {
    if c == '\"' then ['\\', '\"']
    else if c == '\\' then ['\\', '\\']
    else if c == '\U{8}' then ['\\', 'b']
    else if c == '\U{C}' then ['\\', 'f']
    else if c == '\n' then ['\\', 'n']
    else if c == '\r' then ['\\', 'r']
    else if c == '\t' then ['\\', 't']
    else if (c as int) < 0x20 then
      ['\\', 'u', '0', '0', HexDigits[(c as int) / 16], HexDigits[(c as int) % 16]]
    else [c]
  }

  function Escape(s: string): string
  {
    if s == [] then [] else EscapeChar(s[0]) + Escape(s[1..])
  }

  function Quote(s: string): string
  {
    "\"" + Escape(s) + "\""
  }

  /** A value at nesting `depth`; what a top-level `undefined` gives is `Stringify`'s concern. */
  function Render(v: Value, depth: nat): (r: string)
    ensures r != [] && !IsWs(r[0]) && r[0] != ']' && r[0] != '}'
    decreases v, 1, 0
  {
    match v
    case Undefined => "null"
    case Null => "null"
    case Bool(b) => if b then "true" else "false"
    case Num(n) => JsNumber.IntToString(n)
    case Str(s) => Quote(s)
    case Arr(_) => "[" + ArrayBody(v, depth)
    case Obj(_) => "{" + ObjectBody(v, depth)
  }

  /** What follows `[`: nothing but `]` when empty, else one item per line. */
  function ArrayBody(v: Value, depth: nat): string
    requires v.Arr?
    decreases v, 0, |v.items| + 1
  {
    if v.items == [] then "]"
    else "\n" + Indent(depth + 1) + RenderItems(v, 0, depth + 1) + "\n" + Indent(depth) + "]"
  }

  /** What follows `{`: nothing but `}` without a defined member, else one member per line. */
  function ObjectBody(v: Value, depth: nat): string
    requires v.Obj?
    decreases v, 0, |v.entries| + 1
  {
    if !HasMember(v.entries) then "}"
    else "\n" + Indent(depth + 1) + RenderMembers(v, 0, depth + 1, true) + "\n" + Indent(depth) + "}"
  }

  /** Items `i..` of an array, each but the first preceded by `,` and a new line. */
  function RenderItems(v: Value, i: nat, depth: nat): string
    requires v.Arr? && i <= |v.items|
    decreases v, 0, |v.items| - i
  {
    if i == |v.items| then ""
    else
      (if i == 0 then "" else ",\n" + Indent(depth)) + Render(v.items[i], depth)
      + RenderItems(v, i + 1, depth)
  }

  /** Members `i..` of an object whose value is not `undefined`; `first` says none was written yet. */
  function RenderMembers(v: Value, i: nat, depth: nat, first: bool): string
    requires v.Obj? && i <= |v.entries|
    decreases v, 0, |v.entries| - i
  {
    if i == |v.entries| then ""
    else if v.entries[i].val.Undefined? then RenderMembers(v, i + 1, depth, first)
    else
      (if first then "" else ",\n" + Indent(depth))
      + Quote(v.entries[i].key) + ": " + Render(v.entries[i].val, depth)
      + RenderMembers(v, i + 1, depth, false)
  }

  predicate HasMember(es: seq<Entry>)
  {
    exists i :: 0 <= i < |es| && !es[i].val.Undefined?
  }

  /** `JSON.stringify(v, undefined, 2)`: `undefined` gives no text at all. */
  function Stringify(v: Value): (r: Option<string>)
    ensures r.None? <==> v.Undefined?
  {
    if v.Undefined? then None else Some(Render(v, 0))
  }

  // ---------------------------------------------------------------------
  // JSON.parse(text)
  // ---------------------------------------------------------------------

  predicate IsWs(c: char)
  {
    c == ' ' || c == '\t' || c == '\n' || c == '\r'
  }

  function SkipWs(s: string): (r: string)
    ensures |r| <= |s| && r == s[|s| - |r|..]
    ensures r == [] || !IsWs(r[0])
  {
    if s != [] && IsWs(s[0]) then SkipWs(s[1..]) else s
  }

  function HexValue(c: char): (r: Option<nat>)
    ensures r.Some? ==> r.value < 16
  {
    if '0' <= c <= '9' then Some((c as int - '0' as int) as nat)
    else if 'a' <= c <= 'f' then Some((c as int - 'a' as int + 10) as nat)
    else if 'A' <= c <= 'F' then Some((c as int - 'A' as int + 10) as nat)
    else None
  }

  /** The character a `\u` escape names, if it is not a surrogate. */
  function UnicodeEscape(s: string): (r: Option<char>)
    requires |s| >= 4
  {
    match (HexValue(s[0]), HexValue(s[1]), HexValue(s[2]), HexValue(s[3]))
    case (Some(a), Some(b), Some(c), Some(d)) =>
      var code := ((a * 16 + b) * 16 + c) * 16 + d;
      if 0xD800 <= code < 0xE000 then None else Some(code as char)
    case _ => None
  }

  /** The character a two-character escape `\e` stands for. */
  function SimpleEscape(e: char): Option<char>
  {
    if e == '\"' then Some('\"') else if e == '\\' then Some('\\')
    else if e == '/' then Some('/') else if e == 'b' then Some('\U{8}')
    else if e == 'f' then Some('\U{C}') else if e == 'n' then Some('\n')
    else if e == 'r' then Some('\r') else if e == 't' then Some('\t')
    else None
  }

  /** An escape sequence at the head of `s`: the character it stands for and its length. */
  function EscapeAt(s: string): (r: Option<(char, nat)>)
    requires s != [] && s[0] == '\\'
    ensures r.Some? ==> 2 <= r.value.1 <= |s|
  {
    if |s| >= 2 && SimpleEscape(s[1]).Some? then Some((SimpleEscape(s[1]).value, 2))
    else if |s| >= 6 && s[1] == 'u' && UnicodeEscape(s[2..6]).Some? then Some((UnicodeEscape(s[2..6]).value, 6))
    else None
  }

  /** The body of a string after its opening quote, up to and including the closing one. */
  function ParseStringBody(s: string): (r: Result<(string, string), ParseError>)
    ensures r.Success? ==> |r.value.1| < |s|
  {
    if s == [] then Failure(SyntaxError)
    else if s[0] == '\"' then Success(("", s[1..]))
    else if (s[0] as int) < 0x20 then Failure(SyntaxError)
    else
      var step: Option<(char, nat)> :=
        if s[0] != '\\' then Some((s[0], 1)) else EscapeAt(s);
      match step
      case None => Failure(SyntaxError)
      case Some((c, n)) =>
        match ParseStringBody(s[n..])
        case Success((x, rest)) => Success(([c] + x, rest))
        case Failure(e) => Failure(e)
  }

  /** Digits of an integer literal: `0`, or a run not starting with `0`. */
  function ParseUnsigned(u: string): (r: Result<(nat, string), ParseError>)
    ensures r.Success? ==> |r.value.1| < |u|
  {
    if u == [] || !JsNumber.IsDecimal(u[0]) then Failure(SyntaxError)
    else
      var ds := if u[0] == '0' then u[..1] else JsNumber.DigitRun(u);
      var after := u[|ds|..];
      if after != [] && (after[0] == '.' || after[0] == 'e' || after[0] == 'E') then Failure(SyntaxError)
      else Success((JsNumber.RunValue(ds), after))
  }

  function ParseNumber(t: string): (r: Result<(Value, string), ParseError>)
    ensures r.Success? ==> |r.value.1| < |t| && r.value.0.Num?
  {
    if t != [] && t[0] == '-' then
      match ParseUnsigned(t[1..])
      case Success((m, rest)) => Success((Num(-(m as int)), rest))
      case Failure(e) => Failure(e)
    else
      match ParseUnsigned(t)
      case Success((m, rest)) => Success((Num(m), rest))
      case Failure(e) => Failure(e)
  }

  function ParseValue(s: string): (r: Result<(Value, string), ParseError>)
    ensures r.Success? ==> |r.value.1| < |s| && r.value.0 != Undefined
    decreases |s|, 2
  {
    ParseValueAt(SkipWs(s))
  }

  /** A value at the head of `t`, which does not start with white space. */
  function ParseValueAt(t: string): (r: Result<(Value, string), ParseError>)
    ensures r.Success? ==> |r.value.1| < |t| && r.value.0 != Undefined
    decreases |t|, 1
  {
    if t == [] then Failure(SyntaxError)
    else if t[0] == '{' then ParseObject(t[1..])
    else if t[0] == '[' then ParseArray(t[1..])
    else ParseScalar(t)
  }

  /** A string, `null`, `true`, `false` or a number at the head of `t`. */
  function ParseScalar(t: string): (r: Result<(Value, string), ParseError>)
    requires t != []
    ensures r.Success? ==> |r.value.1| < |t| && r.value.0 != Undefined
  {
    if t[0] == '\"' then
      match ParseStringBody(t[1..])
      case Success((x, rest)) => Success((Str(x), rest))
      case Failure(e) => Failure(e)
    else if t[0] == 'n' then ParseWord(t, "null", Null)
    else if t[0] == 't' then ParseWord(t, "true", Bool(true))
    else if t[0] == 'f' then ParseWord(t, "false", Bool(false))
    else ParseNumber(t)
  }

  /** The literal `word` standing for `v` at the head of `t`. */
  function ParseWord(t: string, word: string, v: Value): (r: Result<(Value, string), ParseError>)
    requires word != []
    ensures r.Success? ==> |r.value.1| < |t| && r.value.0 == v
  {
    if |t| >= |word| && t[..|word|] == word then Success((v, t[|word|..])) else Failure(SyntaxError)
  }

  /** After `[`. */
  function ParseArray(s: string): (r: Result<(Value, string), ParseError>)
    ensures r.Success? ==> |r.value.1| < |s| && r.value.0.Arr?
    decreases |s|, 4
  {
    var t := SkipWs(s);
    if t != [] && t[0] == ']' then Success((Arr([]), t[1..]))
    else ParseItems(t, [])
  }

  /** Items of an array, the ones before `s` being `acc`. */
  function ParseItems(s: string, acc: seq<Value>): (r: Result<(Value, string), ParseError>)
    ensures r.Success? ==> |r.value.1| < |s| && r.value.0.Arr?
    decreases |s|, 3
  {
    match ParseValue(s)
    case Failure(e) => Failure(e)
    case Success((x, rest)) =>
      var u := SkipWs(rest);
      if u != [] && u[0] == ',' then ParseItems(u[1..], acc + [x])
      else if u != [] && u[0] == ']' then Success((Arr(acc + [x]), u[1..]))
      else Failure(SyntaxError)
  }

  /** After `{`. */
  function ParseObject(s: string): (r: Result<(Value, string), ParseError>)
    ensures r.Success? ==> |r.value.1| < |s| && r.value.0.Obj?
    decreases |s|, 4
  {
    var t := SkipWs(s);
    if t != [] && t[0] == '}' then Success((Obj([]), t[1..]))
    else ParseMembers(t, [])
  }

  /** Members of an object, the ones before `s` being `acc`. */
  function ParseMembers(s: string, acc: seq<Entry>): (r: Result<(Value, string), ParseError>)
    ensures r.Success? ==> |r.value.1| < |s| && r.value.0.Obj?
    decreases |s|, 3
  {
    ParseMembersAt(SkipWs(s), acc)
  }

  /** One member at the head of `t` and the ones after it; a repeated key keeps its first place and takes the later value. */
  function ParseMembersAt(t: string, acc: seq<Entry>): (r: Result<(Value, string), ParseError>)
    ensures r.Success? ==> |r.value.1| < |t| && r.value.0.Obj?
    decreases |t|, 2
  {
    if t == [] || t[0] != '\"' then Failure(SyntaxError)
    else
      match ParseStringBody(t[1..])
      case Failure(e) => Failure(e)
      case Success((key, r1)) =>
        var u := SkipWs(r1);
        if u == [] || u[0] != ':' then Failure(SyntaxError)
        else
          match ParseValue(u[1..])
          case Failure(e) => Failure(e)
          case Success((x, r2)) => MembersAfter(SetEntry(acc, key, x), r2)
  }

  /** After a member's value: `,` and more members, or the closing `}`. */
  function MembersAfter(es: seq<Entry>, r: string): (res: Result<(Value, string), ParseError>)
    ensures res.Success? ==> |res.value.1| < |r| && res.value.0.Obj?
    decreases |r|, 0
  {
    var w := SkipWs(r);
    if w != [] && w[0] == ',' then ParseMembers(w[1..], es)
    else if w != [] && w[0] == '}' then Success((Obj(es), w[1..]))
    else Failure(SyntaxError)
  }

  /** `JSON.parse(text)`: one value, surrounded by nothing but white space. */
  function Parse(text: string): (r: Result<Value, ParseError>)
    ensures r.Success? ==> r.value != Undefined
  {
    match ParseValue(text)
    case Failure(e) => Failure(e)
    case Success((v, rest)) =>
      if SkipWs(rest) == [] then Success(v) else Failure(SyntaxError)
  }

  // ---------------------------------------------------------------------
  // JSON.parse(JSON.stringify(v, undefined, 2)) is v
  // ---------------------------------------------------------------------

  /** What may follow a value in the rendered text. */
  predicate Follows(rest: string)
  {
    rest == [] || rest[0] == ',' || rest[0] == '\n'
  }

  lemma {:induction false} SkipWsPrefix(w: string, x: string)
    requires forall i :: 0 <= i < |w| ==> IsWs(w[i])
    ensures SkipWs(w + x) == SkipWs(x)
  {
    if w != [] {
      assert (w + x)[1..] == w[1..] + x;
      SkipWsPrefix(w[1..], x);
    } else {
      assert w + x == x;
    }
  }

  lemma NewlineIndentIsWs(depth: nat)
    ensures var w := "\n" + Indent(depth); forall i :: 0 <= i < |w| ==> IsWs(w[i])
  {
    var w := "\n" + Indent(depth);
    forall i | 0 <= i < |w| ensures IsWs(w[i]) {
      if i > 0 {
        assert w[i] == Indent(depth)[i - 1];
      }
    }
  }

  lemma SkipNewlineIndent(depth: nat, x: string)
    requires x == [] || !IsWs(x[0])
    ensures SkipWs("\n" + Indent(depth) + x) == x
  {
    var w := "\n" + Indent(depth);
    NewlineIndentIsWs(depth);
    SkipWsPrefix(w, x);
  }

  lemma NoSkip(s: string)
    requires s != [] && !IsWs(s[0])
    ensures SkipWs(s) == s
  {
  }

  lemma ValueAfterWs(w: string, x: string)
    requires forall i :: 0 <= i < |w| ==> IsWs(w[i])
    ensures ParseValue(w + x) == ParseValue(x)
  {
    SkipWsPrefix(w, x);
  }

  lemma ItemsAfterWs(w: string, x: string, acc: seq<Value>)
    requires forall i :: 0 <= i < |w| ==> IsWs(w[i])
    ensures ParseItems(w + x, acc) == ParseItems(x, acc)
  {
    ValueAfterWs(w, x);
  }

  lemma MembersAfterWs(w: string, x: string, acc: seq<Entry>)
    requires forall i :: 0 <= i < |w| ==> IsWs(w[i])
    ensures ParseMembers(w + x, acc) == ParseMembers(x, acc)
  {
    SkipWsPrefix(w, x);
  }

  lemma HexRoundTrip(k: nat)
    requires k < 16
    ensures HexValue(HexDigits[k]) == Some(k)
  {
  }

  /** Each escape `JSON.stringify` writes decodes to the character it came from. */
  lemma EscapeCharDecodes(c: char, tail: string)
    ensures var w := EscapeChar(c);
      if w[0] == '\\' then EscapeAt(w + tail) == Some((c, |w|))
      else w == [c] && c != '\"' && (c as int) >= 0x20
  {
    var w := EscapeChar(c);
    var s := w + tail;
    if (c as int) < 0x20 && !(c == '\U{8}' || c == '\U{C}' || c == '\n' || c == '\r' || c == '\t') {
      var hi := (c as int) / 16;
      var lo := (c as int) % 16;
      HexRoundTrip(hi);
      HexRoundTrip(lo);
      assert s[1] == 'u';
      assert s[2..6] == ['0', '0', HexDigits[hi], HexDigits[lo]];
      assert HexValue('0') == Some(0);
      assert UnicodeEscape(s[2..6]) == Some(c);
    }
  }

  lemma {:induction false} StringRoundTrip(x: string, rest: string)
    ensures ParseStringBody(Escape(x) + "\"" + rest) == Success((x, rest))
  {
    if x == [] {
      assert Escape(x) + "\"" + rest == "\"" + rest;
    } else {
      var c := x[0];
      var w := EscapeChar(c);
      var tail := Escape(x[1..]) + "\"" + rest;
      StringRoundTrip(x[1..], rest);
      assert Escape(x) + "\"" + rest == w + tail;
      EscapeCharDecodes(c, tail);
      assert (w + tail)[|w|..] == tail;
      assert [c] + x[1..] == x;
    }
  }

  lemma UnsignedRoundTrip(m: nat, rest: string)
    requires Follows(rest)
    ensures ParseUnsigned(JsNumber.NatToString(m) + rest) == Success((m, rest))
  {
    var d := JsNumber.NatToString(m);
    var u := d + rest;
    JsNumber.DecimalValue(m);
    JsNumber.DigitRunStops(d, rest);
    if d[0] == '0' {
      assert d == "0";
      assert u[..1] == d;
    }
    assert u[|d|..] == rest;
  }

  lemma NumberRoundTrip(n: int, rest: string)
    requires Follows(rest)
    ensures ParseNumber(JsNumber.IntToString(n) + rest) == Success((Num(n), rest))
  {
    if n < 0 {
      NegativeRoundTrip(n, rest);
    } else {
      var t := JsNumber.IntToString(n) + rest;
      assert t == JsNumber.NatToString(n) + rest;
      UnsignedRoundTrip(n, rest);
      assert t[0] != '-';
    }
  }

  lemma NegativeRoundTrip(n: int, rest: string)
    requires n < 0 && Follows(rest)
    ensures ParseNumber(JsNumber.IntToString(n) + rest) == Success((Num(n), rest))
  {
    NegativeShape(n, rest);
    SignedRoundTrip(JsNumber.IntToString(n) + rest, -n, rest);
  }

  lemma NegativeShape(n: int, rest: string)
    requires n < 0
    ensures var t := JsNumber.IntToString(n) + rest;
      t != [] && t[0] == '-' && t[1..] == JsNumber.NatToString(-n) + rest
  {
    var t := JsNumber.IntToString(n) + rest;
    assert t == "-" + (JsNumber.NatToString(-n) + rest);
  }

  lemma SignedRoundTrip(t: string, m: nat, rest: string)
    requires t != [] && t[0] == '-' && t[1..] == JsNumber.NatToString(m) + rest && Follows(rest)
    ensures ParseNumber(t) == Success((Num(-(m as int)), rest))
  {
    UnsignedRoundTrip(m, rest);
  }

  // One parser step at a time, on the shapes the renderer writes.

  lemma AtArray(t: string)
    requires t != [] && t[0] == '['
    ensures ParseValueAt(t) == ParseArray(t[1..])
  {
  }

  lemma AtObject(t: string)
    requires t != [] && t[0] == '{'
    ensures ParseValueAt(t) == ParseObject(t[1..])
  {
  }

  lemma AtString(x: string, rest: string)
    ensures ParseValueAt(Quote(x) + rest) == Success((Str(x), rest))
  {
    var t := Quote(x) + rest;
    assert t == "\"" + (Escape(x) + "\"" + rest);
    assert t[1..] == Escape(x) + "\"" + rest;
    StringRoundTrip(x, rest);
    assert ParseValueAt(t) == ParseScalar(t);
  }

  lemma AtLiteral(word: string, v: Value, rest: string)
    requires (word == "null" && v == Null) || (word == "true" && v == Bool(true))
      || (word == "false" && v == Bool(false))
    ensures ParseValueAt(word + rest) == Success((v, rest))
  {
    var t := word + rest;
    assert t[..|word|] == word && t[|word|..] == rest;
    assert ParseWord(t, word, v) == Success((v, rest));
    assert ParseValueAt(t) == ParseScalar(t);
  }

  lemma AtNumber(n: int, rest: string)
    requires Follows(rest)
    ensures ParseValueAt(JsNumber.IntToString(n) + rest) == Success((Num(n), rest))
  {
    var t := JsNumber.IntToString(n) + rest;
    assert t[0] == JsNumber.IntToString(n)[0];
    AtSignOrDigit(t);
    NumberRoundTrip(n, rest);
  }

  lemma AtSignOrDigit(t: string)
    requires t != [] && (t[0] == '-' || JsNumber.IsDecimal(t[0]))
    ensures ParseValueAt(t) == ParseNumber(t)
  {
    assert ParseValueAt(t) == ParseScalar(t);
  }

  lemma ArrayEmpty(rest: string)
    ensures ParseArray("]" + rest) == Success((Arr([]), rest))
  {
    var t := "]" + rest;
    NoSkip(t);
    assert t[1..] == rest;
  }

  lemma ObjectEmpty(rest: string)
    ensures ParseObject("}" + rest) == Success((Obj([]), rest))
  {
    var t := "}" + rest;
    NoSkip(t);
    assert t[1..] == rest;
  }

  lemma ArrayOpen(depth: nat, x: string)
    requires x != [] && !IsWs(x[0]) && x[0] != ']'
    ensures ParseArray("\n" + Indent(depth) + x) == ParseItems(x, [])
  {
    SkipNewlineIndent(depth, x);
  }

  lemma ObjectOpen(depth: nat, x: string)
    requires x != [] && x[0] == '\"'
    ensures ParseObject("\n" + Indent(depth) + x) == ParseMembersAt(x, [])
  {
    SkipNewlineIndent(depth, x);
    ObjectAfterWs("\n" + Indent(depth) + x, x);
  }

  lemma ObjectAfterWs(s: string, x: string)
    requires SkipWs(s) == x && x != [] && x[0] == '\"'
    ensures ParseObject(s) == ParseMembersAt(x, [])
  {
    NoSkip(x);
  }

  lemma CloseSkip(depth: nat, c: char, rest: string)
    requires !IsWs(c)
    ensures SkipWs("\n" + Indent(depth) + [c] + rest) == [c] + rest
  {
    assert "\n" + Indent(depth) + [c] + rest == "\n" + Indent(depth) + ([c] + rest);
    SkipNewlineIndent(depth, [c] + rest);
  }

  lemma ItemsClose(s: string, acc: seq<Value>, v: Value, r: string, rest: string)
    requires ParseValue(s) == Success((v, r)) && SkipWs(r) == "]" + rest
    ensures ParseItems(s, acc) == Success((Arr(acc + [v]), rest))
  {
    assert ("]" + rest)[1..] == rest;
  }

  lemma ItemsLast(s: string, acc: seq<Value>, v: Value, depth: nat, rest: string)
    requires ParseValue(s) == Success((v, "\n" + Indent(depth) + "]" + rest))
    ensures ParseItems(s, acc) == Success((Arr(acc + [v]), rest))
  {
    CloseSkip(depth, ']', rest);
    ItemsClose(s, acc, v, "\n" + Indent(depth) + "]" + rest, rest);
  }

  lemma ItemsNext(s: string, acc: seq<Value>, v: Value, depth: nat, next: string)
    requires ParseValue(s) == Success((v, ",\n" + Indent(depth) + next))
    ensures ParseItems(s, acc) == ParseItems(next, acc + [v])
  {
    var r := ",\n" + Indent(depth) + next;
    NoSkip(r);
    assert r[1..] == ("\n" + Indent(depth)) + next;
    NewlineIndentIsWs(depth);
    ItemsAfterWs("\n" + Indent(depth), next, acc + [v]);
  }

  lemma MemberHead(key: string, valueText: string, acc: seq<Entry>)
    requires ParseValue(valueText).Success?
    ensures var (x, r2) := ParseValue(valueText).value;
      ParseMembersAt(Quote(key) + ": " + valueText, acc) == MembersAfter(SetEntry(acc, key, x), r2)
  {
    var r1 := ": " + valueText;
    KeyShape(key, valueText);
    StringRoundTrip(key, r1);
    ColonShape(valueText);
    ValueAfterWs(" ", valueText);
    MemberAt(Quote(key) + ": " + valueText, key, r1, acc);
  }

  lemma KeyShape(key: string, valueText: string)
    ensures var t := Quote(key) + ": " + valueText;
      t != [] && t[0] == '\"' && t[1..] == Escape(key) + "\"" + (": " + valueText)
  {
    var t := Quote(key) + ": " + valueText;
    assert t == "\"" + (Escape(key) + "\"" + (": " + valueText));
  }

  lemma ColonShape(valueText: string)
    ensures var r1 := ": " + valueText; SkipWs(r1) == r1 && r1[0] == ':' && r1[1..] == " " + valueText
  {
    NoSkip(": " + valueText);
  }

  /** One member, its key and its value already known to parse. */
  lemma MemberAt(t: string, key: string, r1: string, acc: seq<Entry>)
    requires t != [] && t[0] == '\"' && ParseStringBody(t[1..]) == Success((key, r1))
    requires SkipWs(r1) == r1 && r1 != [] && r1[0] == ':' && ParseValue(r1[1..]).Success?
    ensures var (x, r2) := ParseValue(r1[1..]).value;
      ParseMembersAt(t, acc) == MembersAfter(SetEntry(acc, key, x), r2)
  {
  }

  lemma MembersLast(es: seq<Entry>, depth: nat, rest: string)
    ensures MembersAfter(es, "\n" + Indent(depth) + "}" + rest) == Success((Obj(es), rest))
  {
    var t := "}" + rest;
    assert "\n" + Indent(depth) + "}" + rest == "\n" + Indent(depth) + t;
    SkipNewlineIndent(depth, t);
    assert t[1..] == rest;
  }

  lemma MembersNext(es: seq<Entry>, depth: nat, next: string)
    requires next != [] && next[0] == '\"'
    ensures MembersAfter(es, ",\n" + Indent(depth) + next) == ParseMembersAt(next, es)
  {
    var r := ",\n" + Indent(depth) + next;
    NoSkip(r);
    assert r[1..] == ("\n" + Indent(depth)) + next;
    NewlineIndentIsWs(depth);
    MembersAfterWs("\n" + Indent(depth), next, es);
    NoSkip(next);
  }

  // The text the parser meets inside an array or an object, named so that
  // the induction below can speak of it without unfolding it.

  /** Item `i` of a rendered array at `depth`, with everything after it. */
  function ItemsText(v: Value, i: nat, depth: nat, rest: string): string
    requires v.Arr? && i < |v.items|
  {
    Render(v.items[i], depth + 1) + ItemsAfterText(v, i, depth, rest)
  }

  function ItemsAfterText(v: Value, i: nat, depth: nat, rest: string): string
    requires v.Arr? && i < |v.items|
  {
    RenderItems(v, i + 1, depth + 1) + "\n" + Indent(depth) + "]" + rest
  }

  /** Member `i` of a rendered object at `depth`, with everything after it. */
  function MembersText(v: Value, i: nat, depth: nat, rest: string): string
    requires v.Obj? && i < |v.entries|
  {
    Quote(v.entries[i].key) + ": " + MemberValueText(v, i, depth, rest)
  }

  function MemberValueText(v: Value, i: nat, depth: nat, rest: string): string
    requires v.Obj? && i < |v.entries|
  {
    Render(v.entries[i].val, depth + 1) + MembersAfterText(v, i, depth, rest)
  }

  function MembersAfterText(v: Value, i: nat, depth: nat, rest: string): string
    requires v.Obj? && i < |v.entries|
  {
    RenderMembers(v, i + 1, depth + 1, false) + "\n" + Indent(depth) + "}" + rest
  }

  lemma ArrayBodyShape(v: Value, depth: nat, rest: string)
    requires v.Arr? && v.items != []
    ensures ArrayBody(v, depth) + rest == "\n" + Indent(depth + 1) + ItemsText(v, 0, depth, rest)
    ensures var t := ItemsText(v, 0, depth, rest); t != [] && !IsWs(t[0]) && t[0] != ']'
  {
    var a := "\n" + Indent(depth + 1);
    var r := Render(v.items[0], depth + 1);
    var more := RenderItems(v, 1, depth + 1);
    var ri := RenderItems(v, 0, depth + 1);
    assert ri == r + more;
    assert ArrayBody(v, depth) == a + ri + "\n" + Indent(depth) + "]";
    assert ArrayBody(v, depth) + rest == a + (r + more) + "\n" + Indent(depth) + [']'] + rest;
    RegroupItems(a, r, more, Indent(depth), ']', rest);
    assert ItemsAfterText(v, 0, depth, rest) == more + "\n" + Indent(depth) + "]" + rest;
    assert ItemsText(v, 0, depth, rest) == r + (more + "\n" + Indent(depth) + "]" + rest);
    assert ItemsText(v, 0, depth, rest)[0] == r[0];
  }

  lemma RegroupItems(a: string, r: string, more: string, ind: string, c: char, rest: string)
    ensures a + (r + more) + "\n" + ind + [c] + rest == a + (r + (more + "\n" + ind + [c] + rest))
  {
  }

  lemma ItemsAfterLast(v: Value, i: nat, depth: nat, rest: string)
    requires v.Arr? && i + 1 == |v.items|
    ensures ItemsAfterText(v, i, depth, rest) == "\n" + Indent(depth) + "]" + rest
  {
    assert RenderItems(v, i + 1, depth + 1) == "";
  }

  lemma ItemsAfterMore(v: Value, i: nat, depth: nat, rest: string)
    requires v.Arr? && i + 1 < |v.items|
    ensures ItemsAfterText(v, i, depth, rest) == ",\n" + Indent(depth + 1) + ItemsText(v, i + 1, depth, rest)
  {
    assert RenderItems(v, i + 1, depth + 1)
      == ",\n" + Indent(depth + 1) + Render(v.items[i + 1], depth + 1) + RenderItems(v, i + 2, depth + 1);
  }

  lemma ObjectBodyShape(v: Value, depth: nat, rest: string)
    requires IsJson(v) && v.Obj? && v.entries != []
    ensures ObjectBody(v, depth) + rest == "\n" + Indent(depth + 1) + MembersText(v, 0, depth, rest)
    ensures var t := MembersText(v, 0, depth, rest); t != [] && t[0] == '\"'
  {
    var e := v.entries[0];
    assert !e.val.Undefined?;
    assert HasMember(v.entries);
    var a := "\n" + Indent(depth + 1);
    var q := Quote(e.key);
    var r := Render(e.val, depth + 1);
    var more := RenderMembers(v, 1, depth + 1, false);
    var rm := RenderMembers(v, 0, depth + 1, true);
    assert rm == q + ": " + (r + more);
    assert ObjectBody(v, depth) == a + rm + "\n" + Indent(depth) + "}";
    assert ObjectBody(v, depth) + rest == a + (q + ": " + (r + more)) + "\n" + Indent(depth) + ['}'] + rest;
    Regroup(a, q, r, more, Indent(depth), '}', rest);
    assert MemberValueText(v, 0, depth, rest) == r + (more + "\n" + Indent(depth) + "}" + rest);
    assert MembersText(v, 0, depth, rest) == q + ": " + (r + (more + "\n" + Indent(depth) + "}" + rest));
    assert q[0] == '\"';
  }

  /** The one re-association of `+` the shapes above need. */
  lemma Regroup(a: string, q: string, r: string, more: string, ind: string, c: char, rest: string)
    ensures a + (q + ": " + (r + more)) + "\n" + ind + [c] + rest
      == a + (q + ": " + (r + (more + "\n" + ind + [c] + rest)))
  {
  }

  lemma MembersAfterLast(v: Value, i: nat, depth: nat, rest: string)
    requires v.Obj? && i + 1 == |v.entries|
    ensures MembersAfterText(v, i, depth, rest) == "\n" + Indent(depth) + "}" + rest
  {
    assert RenderMembers(v, i + 1, depth + 1, false) == "";
  }

  lemma MembersAfterMore(v: Value, i: nat, depth: nat, rest: string)
    requires IsJson(v) && v.Obj? && i + 1 < |v.entries|
    ensures MembersAfterText(v, i, depth, rest) == ",\n" + Indent(depth + 1) + MembersText(v, i + 1, depth, rest)
    ensures MembersText(v, i + 1, depth, rest) != [] && MembersText(v, i + 1, depth, rest)[0] == '\"'
  {
    var f := v.entries[i + 1];
    assert !f.val.Undefined?;
    var a := ",\n" + Indent(depth + 1);
    var q := Quote(f.key);
    var r := Render(f.val, depth + 1);
    var more := RenderMembers(v, i + 2, depth + 1, false);
    var rm := RenderMembers(v, i + 1, depth + 1, false);
    assert rm == a + (q + ": " + (r + more));
    assert MembersAfterText(v, i, depth, rest) == rm + "\n" + Indent(depth) + "}" + rest;
    assert MembersAfterText(v, i, depth, rest) == a + (q + ": " + (r + more)) + "\n" + Indent(depth) + ['}'] + rest;
    Regroup(a, q, r, more, Indent(depth), '}', rest);
    assert MembersAfterText(v, i + 1, depth, rest) == more + "\n" + Indent(depth) + "}" + rest;
    assert MemberValueText(v, i + 1, depth, rest) == r + (more + "\n" + Indent(depth) + "}" + rest);
    assert MembersText(v, i + 1, depth, rest) == q + ": " + (r + (more + "\n" + Indent(depth) + "}" + rest));
    assert q[0] == '\"';
  }
  // The round trip, by induction on the value.

  lemma {:induction false} ValueRoundTrip(v: Value, depth: nat, rest: string)
    requires IsJson(v) && Follows(rest)
    ensures ParseValue(Render(v, depth) + rest) == Success((v, rest))
    decreases v, 2
  {
    NoSkip(Render(v, depth) + rest);
    AtRoundTrip(v, depth, rest);
  }

  lemma {:induction false} AtRoundTrip(v: Value, depth: nat, rest: string)
    requires IsJson(v) && Follows(rest)
    ensures ParseValueAt(Render(v, depth) + rest) == Success((v, rest))
    decreases v, 1
  {
    match v
    case Null => AtLiteral("null", v, rest);
    case Bool(b) => if b { AtLiteral("true", v, rest); } else { AtLiteral("false", v, rest); }
    case Num(n) => AtNumber(n, rest);
    case Str(x) => AtString(x, rest);
    case Arr(_) =>
      var body := ArrayBody(v, depth) + rest;
      OpenBracket('[', ArrayBody(v, depth), rest);
      AtArray("[" + body);
      ArrayRoundTrip(v, depth, rest);
    case Obj(_) =>
      var body := ObjectBody(v, depth) + rest;
      OpenBracket('{', ObjectBody(v, depth), rest);
      AtObject("{" + body);
      ObjectRoundTrip(v, depth, rest);
  }

  lemma OpenBracket(c: char, body: string, rest: string)
    ensures [c] + body + rest == [c] + (body + rest)
    ensures ([c] + (body + rest))[1..] == body + rest
  {
  }

  lemma {:induction false} ArrayRoundTrip(v: Value, depth: nat, rest: string)
    requires IsJson(v) && v.Arr? && Follows(rest)
    ensures ParseArray(ArrayBody(v, depth) + rest) == Success((v, rest))
    decreases v, 0, |v.items| + 1
  {
    if v.items == [] {
      assert ArrayBody(v, depth) + rest == "]" + rest;
      ArrayEmpty(rest);
    } else {
      ArrayBodyShape(v, depth, rest);
      ArrayOpen(depth + 1, ItemsText(v, 0, depth, rest));
      ItemsRoundTrip(v, 0, depth, rest);
      assert v.items[..0] == [];
    }
  }

  lemma {:induction false} ObjectRoundTrip(v: Value, depth: nat, rest: string)
    requires IsJson(v) && v.Obj? && Follows(rest)
    ensures ParseObject(ObjectBody(v, depth) + rest) == Success((v, rest))
    decreases v, 0, |v.entries| + 1
  {
    if v.entries == [] {
      assert !HasMember(v.entries);
      assert ObjectBody(v, depth) + rest == "}" + rest;
      ObjectEmpty(rest);
    } else {
      ObjectBodyShape(v, depth, rest);
      ObjectOpen(depth + 1, MembersText(v, 0, depth, rest));
      MembersRoundTrip(v, 0, depth, rest);
      assert v.entries[..0] == [];
    }
  }

  /** Items `i..` as the item parser meets them, with `i` items already read. */
  lemma {:induction false} ItemsRoundTrip(v: Value, i: nat, depth: nat, rest: string)
    requires IsJson(v) && v.Arr? && i < |v.items| && Follows(rest)
    ensures ParseItems(ItemsText(v, i, depth, rest), v.items[..i]) == Success((v, rest))
    decreases v, 0, |v.items| - i, 1
  {
    if i + 1 == |v.items| {
      LastItemRoundTrip(v, i, depth, rest);
    } else {
      NextItemRoundTrip(v, i, depth, rest);
    }
  }

  lemma {:induction false} LastItemRoundTrip(v: Value, i: nat, depth: nat, rest: string)
    requires IsJson(v) && v.Arr? && i + 1 == |v.items| && Follows(rest)
    ensures ParseItems(ItemsText(v, i, depth, rest), v.items[..i]) == Success((v, rest))
    decreases v, 0, |v.items| - i, 0
  {
    var items := v.items;
    assert IsJson(items[i]);
    ItemsAfterLast(v, i, depth, rest);
    ValueRoundTrip(items[i], depth + 1, ItemsAfterText(v, i, depth, rest));
    ItemsLast(ItemsText(v, i, depth, rest), items[..i], items[i], depth, rest);
    assert items[..i] + [items[i]] == items;
  }

  lemma {:induction false} NextItemRoundTrip(v: Value, i: nat, depth: nat, rest: string)
    requires IsJson(v) && v.Arr? && i + 1 < |v.items| && Follows(rest)
    ensures ParseItems(ItemsText(v, i, depth, rest), v.items[..i]) == Success((v, rest))
    decreases v, 0, |v.items| - i, 0
  {
    var items := v.items;
    assert IsJson(items[i]);
    ItemsAfterMore(v, i, depth, rest);
    ValueRoundTrip(items[i], depth + 1, ItemsAfterText(v, i, depth, rest));
    ItemsNext(ItemsText(v, i, depth, rest), items[..i], items[i], depth + 1, ItemsText(v, i + 1, depth, rest));
    assert items[..i] + [items[i]] == items[..i + 1];
    ItemsRoundTrip(v, i + 1, depth, rest);
  }

  lemma FreshKey(es: seq<Entry>, i: nat)
    requires i < |es| && forall a, b :: 0 <= a < b < |es| ==> es[a].key != es[b].key
    ensures SetEntry(es[..i], es[i].key, es[i].val) == es[..i + 1]
  {
    assert FindKey(es[..i], es[i].key).None?;
    assert es[..i] + [Entry(es[i].key, es[i].val)] == es[..i + 1];
  }

  /** Members `i..` as the member parser meets them, with `i` members already read. */
  lemma {:induction false} MembersRoundTrip(v: Value, i: nat, depth: nat, rest: string)
    requires IsJson(v) && v.Obj? && i < |v.entries| && Follows(rest)
    ensures ParseMembersAt(MembersText(v, i, depth, rest), v.entries[..i]) == Success((v, rest))
    decreases v, 0, |v.entries| - i, 2
  {
    MemberValueRoundTrip(v, i, depth, rest);
    MemberStep(v, i, depth, rest);
    if i + 1 == |v.entries| {
      LastMemberRoundTrip(v, i, depth, rest);
    } else {
      NextMemberRoundTrip(v, i, depth, rest);
    }
  }

  lemma LastMemberRoundTrip(v: Value, i: nat, depth: nat, rest: string)
    requires v.Obj? && i + 1 == |v.entries|
    ensures MembersAfter(v.entries[..i + 1], MembersAfterText(v, i, depth, rest)) == Success((v, rest))
  {
    MembersAfterLast(v, i, depth, rest);
    MembersLast(v.entries[..i + 1], depth, rest);
    assert v.entries[..i + 1] == v.entries;
  }

  lemma {:induction false} NextMemberRoundTrip(v: Value, i: nat, depth: nat, rest: string)
    requires IsJson(v) && v.Obj? && i + 1 < |v.entries| && Follows(rest)
    ensures MembersAfter(v.entries[..i + 1], MembersAfterText(v, i, depth, rest)) == Success((v, rest))
    decreases v, 0, |v.entries| - i, 1
  {
    MembersAfterMore(v, i, depth, rest);
    MembersNext(v.entries[..i + 1], depth + 1, MembersText(v, i + 1, depth, rest));
    MembersRoundTrip(v, i + 1, depth, rest);
  }

  lemma {:induction false} MemberValueRoundTrip(v: Value, i: nat, depth: nat, rest: string)
    requires IsJson(v) && v.Obj? && i < |v.entries| && Follows(rest)
    ensures ParseValue(MemberValueText(v, i, depth, rest)) == Success((v.entries[i].val, MembersAfterText(v, i, depth, rest)))
    decreases v, 0, |v.entries| - i, 1
  {
    var e := v.entries[i];
    assert IsJson(e.val);
    if i + 1 == |v.entries| {
      MembersAfterLast(v, i, depth, rest);
    } else {
      MembersAfterMore(v, i, depth, rest);
    }
    ValueRoundTrip(e.val, depth + 1, MembersAfterText(v, i, depth, rest));
  }

  /** Member `i`'s key and value read, it lands in place `i`. */
  lemma MemberStep(v: Value, i: nat, depth: nat, rest: string)
    requires IsJson(v) && v.Obj? && i < |v.entries|
    requires ParseValue(MemberValueText(v, i, depth, rest)) == Success((v.entries[i].val, MembersAfterText(v, i, depth, rest)))
    ensures ParseMembersAt(MembersText(v, i, depth, rest), v.entries[..i])
      == MembersAfter(v.entries[..i + 1], MembersAfterText(v, i, depth, rest))
  {
    var e := v.entries[i];
    FreshKey(v.entries, i);
    MemberHead(e.key, MemberValueText(v, i, depth, rest), v.entries[..i]);
  }

  /** `JSON.parse(JSON.stringify(v, undefined, 2))` gives `v` back for every JSON value. */
  lemma StringifyParseRoundTrip(v: Value)
    requires IsJson(v)
    ensures Stringify(v).Some? && Parse(Stringify(v).value) == Success(v)
  {
    ValueRoundTrip(v, 0, []);
    assert Render(v, 0) + [] == Render(v, 0);
  }
}
