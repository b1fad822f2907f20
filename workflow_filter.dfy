/**
 * The small jq-like filter the workflow runner applies to state data
 * (class `JqFilter` of PanelWorkflowRunner.ts): a tokenizer that
 * recognises `.name`, `..`, `.`, `|=` and `|`, and `run`, which keeps the
 * keys of the data that the identifier tokens name, consuming one token per
 * kept key.
 */
module WorkflowFilter {
  import opened Wrappers
  import opened JsonValue
  import opened JsNumber

  datatype Token =
    | IdentifierIndex(value: string)
    | DotDot
    | Dot
    | PipeEquals
    | Pipe

  /** Reading `tokens[0].value` when no token is left throws a TypeError. */
  datatype FilterError = TokensExhausted

  predicate IsAlpha(c: char) { ('a' <= c <= 'z') || ('A' <= c <= 'Z') }

  predicate IsDigit(c: char) { '0' <= c <= '9' }

  /** `isAlpha(str[i])` is false past the end of the string (`undefined`). */
  predicate AlphaAt(s: string, i: nat) { i < |s| && IsAlpha(s[i]) }

  predicate CharAt(s: string, i: nat, c: char) { i < |s| && s[i] == c }

  /** First index at or after `j` that does not hold a letter or digit. */
  function IdentEnd(s: string, j: nat): (k: nat)
    requires j <= |s|
    ensures j <= k <= |s|
    ensures forall m :: j <= m < k ==> IsAlpha(s[m]) || IsDigit(s[m])
    ensures k < |s| ==> !IsAlpha(s[k]) && !IsDigit(s[k])
    decreases |s| - j
  {
    if j < |s| && (IsAlpha(s[j]) || IsDigit(s[j])) then IdentEnd(s, j + 1) else j
  }

  /** The tokens `tokenizer(str, i)` returns. */
  function TokenizeFrom(s: string, i: nat): seq<Token>
    decreases |s| - i
  {
    if i >= |s| then []
    else if s[i] == '.' then
      if AlphaAt(s, i + 1) then
        var k := IdentEnd(s, i + 1);
        [IdentifierIndex(s[i + 1..k])] + TokenizeFrom(s, k)
      else if CharAt(s, i + 1, '.') then [DotDot] + TokenizeFrom(s, i + 2)
      else [Dot] + TokenizeFrom(s, i + 1)
    else if s[i] == '|' then
      if CharAt(s, i + 1, '=') then [PipeEquals] + TokenizeFrom(s, i + 2)
      else [Pipe] + TokenizeFrom(s, i + 1)
    else TokenizeFrom(s, i + 1)
  }

  function Tokenize(s: string): seq<Token> { TokenizeFrom(s, 0) }

  /** Spaces and every character other than `.` and `|` produce no token. */
  lemma TokenizeSkips(s: string, i: nat)
    requires i < |s| && s[i] != '.' && s[i] != '|'
    ensures TokenizeFrom(s, i) == TokenizeFrom(s, i + 1)
  {
  }

  /** `.` then a letter: one identifier token holding the longest letter/digit run. */
  lemma TokenizeIdentifier(s: string, i: nat)
    requires i < |s| && s[i] == '.' && AlphaAt(s, i + 1)
    ensures TokenizeFrom(s, i) ==
      [IdentifierIndex(s[i + 1..IdentEnd(s, i + 1)])] + TokenizeFrom(s, IdentEnd(s, i + 1))
  {
  }

  lemma TokenizeDots(s: string, i: nat)
    requires i < |s| && s[i] == '.' && !AlphaAt(s, i + 1)
    ensures CharAt(s, i + 1, '.') ==> TokenizeFrom(s, i) == [DotDot] + TokenizeFrom(s, i + 2)
    ensures !CharAt(s, i + 1, '.') ==> TokenizeFrom(s, i) == [Dot] + TokenizeFrom(s, i + 1)
  {
  }

  lemma TokenizePipes(s: string, i: nat)
    requires i < |s| && s[i] == '|'
    ensures CharAt(s, i + 1, '=') ==> TokenizeFrom(s, i) == [PipeEquals] + TokenizeFrom(s, i + 2)
    ensures !CharAt(s, i + 1, '=') ==> TokenizeFrom(s, i) == [Pipe] + TokenizeFrom(s, i + 1)
  {
  }

  /** An identifier token names a key: a letter followed by letters and digits. */
  predicate IdentifierName(w: string)
  {
    |w| > 0 && IsAlpha(w[0]) && forall m :: 0 <= m < |w| ==> IsAlpha(w[m]) || IsDigit(w[m])
  }

  // ---------------------------------------------------------------------
  // `run` = lodash `pickBy(data, key => tokens[0].value === key && shift)`
  // ---------------------------------------------------------------------

  /** Does the first remaining token name `key`? */
  predicate Matches(tokens: seq<Token>, key: string)
    requires tokens != []
  {
    tokens[0] == IdentifierIndex(key)
  }

  /**
   * `pickBy` over `es` with the shifting predicate: the kept entries and the
   * tokens left, or the TypeError raised at the first key visited with no
   * token left.
   */
  function Pick(tokens: seq<Token>, es: seq<Entry>): Result<(seq<Entry>, seq<Token>), FilterError>
  {
    if es == [] then Success(([], tokens))
    else if tokens == [] then Failure(TokensExhausted)
    else if Matches(tokens, es[0].key) then
      match Pick(tokens[1..], es[1..])
      case Failure(e) => Failure(e)
      case Success(p) => Success(([es[0]] + p.0, p.1))
    else Pick(tokens, es[1..])
  }

  /** `kept` followed by the outcome of the rest of a `Pick`. */
  function Prefixed(kept: seq<Entry>, r: Result<(seq<Entry>, seq<Token>), FilterError>): Result<(seq<Entry>, seq<Token>), FilterError>
  {
    match r
    case Failure(e) => Failure(e)
    case Success(p) => Success((kept + p.0, p.1))
  }

  /** What `run(data)` returns and the tokens left behind. */
  function FilterRun(tokens: seq<Token>, data: Value): Result<(Value, seq<Token>), FilterError>
  {
    match Pick(tokens, OwnEntries(data))
    case Failure(e) => Failure(e)
    case Success(p) => Success((Obj(p.0), p.1))
  }

  /** `new JqFilter(filter).run(data)`. */
  function Filter(filter: string, data: Value): Result<Value, FilterError>
  {
    match FilterRun(Tokenize(filter), data)
    case Failure(e) => Failure(e)
    case Success(p) => Success(p.0)
  }

  class JqFilter {
    var tokens: seq<Token>

    constructor(filter: string)
      ensures tokens == Tokenize(filter)
    {
      new;
      tokens := Tokenizer(filter, 0, "");
    }

    /** The index loop of `tokenizer`; `parenDepth` is unused, as in the original. */
    method Tokenizer(str: string, startAt: nat, parenDepth: string) returns (ret: seq<Token>)
      ensures ret == TokenizeFrom(str, startAt)
    {
      ret := [];
      var i := startAt;
      while i < |str|
        invariant ret + TokenizeFrom(str, i) == TokenizeFrom(str, startAt)
        decreases |str| - i
      {
        var c := str[i];
        if c == ' ' {
          TokenizeSkips(str, i);
          i := i + 1;
          continue;
        } else if c == '.' {
          if AlphaAt(str, i + 1) {
            TokenizeIdentifier(str, i);
            var tok, end := ReadIdentifier(str, i + 1);
            Shift(ret, IdentifierIndex(tok), TokenizeFrom(str, end));
            ret := ret + [IdentifierIndex(tok)];
            i := end;
          } else if CharAt(str, i + 1, '.') {
            TokenizeDots(str, i);
            Shift(ret, DotDot, TokenizeFrom(str, i + 2));
            ret := ret + [DotDot];
            i := i + 2;
          } else {
            TokenizeDots(str, i);
            Shift(ret, Dot, TokenizeFrom(str, i + 1));
            ret := ret + [Dot];
            i := i + 1;
          }
        } else if c == '|' {
          TokenizePipes(str, i);
          if CharAt(str, i + 1, '=') {
            Shift(ret, PipeEquals, TokenizeFrom(str, i + 2));
            ret := ret + [PipeEquals];
            i := i + 2;
          } else {
            Shift(ret, Pipe, TokenizeFrom(str, i + 1));
            ret := ret + [Pipe];
            i := i + 1;
          }
        } else {
          TokenizeSkips(str, i);
          i := i + 1;
        }
      }
    }

    static lemma Shift(before: seq<Token>, t: Token, rest: seq<Token>)
      ensures before + [t] + rest == before + ([t] + rest)
    {
    }

    /** The inner loop of `tokenizer` after `.`: letters and digits from `start` on. */
    static method ReadIdentifier(str: string, start: nat) returns (tok: string, i: nat)
      requires start <= |str|
      ensures i == IdentEnd(str, start) && tok == str[start..i]
    {
      i := start;
      tok := "";
      while i < |str| && (IsAlpha(str[i]) || IsDigit(str[i]))
        invariant start <= i <= |str|
        invariant tok == str[start..i]
        invariant IdentEnd(str, start) == IdentEnd(str, i)
        decreases |str| - i
      {
        tok := tok + [str[i]];
        i := i + 1;
      }
    }

    /**
     * `run`: visits the keys in order; a key equal to the first token's
     * value is kept and that token shifted off; reading a token when none
     * is left fails.
     */
    method Run(data: Value) returns (r: Result<Value, FilterError>)
      modifies this
      ensures FilterRun(old(tokens), data).Success? ==>
        r == Success(FilterRun(old(tokens), data).value.0) && tokens == FilterRun(old(tokens), data).value.1
      ensures FilterRun(old(tokens), data).Failure? ==> r == Failure(TokensExhausted) && tokens == []
    {
      var visited := OwnEntries(data);
      var kept: seq<Entry> := [];
      var i := 0;
      assert visited[0..] == visited;
      assert Prefixed([], Pick(tokens, visited)) == Pick(tokens, visited) by {
        match Pick(tokens, visited)
        case Failure(_) =>
        case Success(p) => assert [] + p.0 == p.0;
      }
      while i < |visited|
        invariant 0 <= i <= |visited|
        invariant Pick(old(tokens), visited) == Prefixed(kept, Pick(tokens, visited[i..]))
        decreases |visited| - i
      {
        if tokens == [] {
          assert visited[i..] != [];
          return Failure(TokensExhausted);
        }
        assert visited[i..][1..] == visited[i + 1..];
        if tokens[0] == IdentifierIndex(visited[i].key) {
          ghost var rest := Pick(tokens[1..], visited[i + 1..]);
          assert Prefixed(kept, Pick(tokens, visited[i..])) == Prefixed(kept + [visited[i]], rest) by {
            match rest
            case Failure(_) =>
            case Success(p) => assert kept + ([visited[i]] + p.0) == (kept + [visited[i]]) + p.0;
          }
          tokens := tokens[1..];
          kept := kept + [visited[i]];
        }
        i := i + 1;
      }
      assert visited[i..] == [];
      assert kept + [] == kept;
      r := Success(Obj(kept));
    }
  }

  // ---------------------------------------------------------------------
  // Properties
  // ---------------------------------------------------------------------

  /** Every identifier token holds a letter followed by letters and digits. */
  lemma {:induction false} IdentifierTokensAreNames(s: string, i: nat)
    ensures forall t :: t in TokenizeFrom(s, i) && t.IdentifierIndex? ==> IdentifierName(t.value)
    decreases |s| - i
  {
    if i < |s| {
      if s[i] == '.' {
        if AlphaAt(s, i + 1) {
          var k := IdentEnd(s, i + 1);
          IdentifierTokensAreNames(s, k);
          var w := s[i + 1..k];
          assert w[0] == s[i + 1];
          assert forall m :: 0 <= m < |w| ==> w[m] == s[i + 1 + m];
        } else if CharAt(s, i + 1, '.') {
          IdentifierTokensAreNames(s, i + 2);
        } else {
          IdentifierTokensAreNames(s, i + 1);
        }
      } else if s[i] == '|' {
        if CharAt(s, i + 1, '=') {
          IdentifierTokensAreNames(s, i + 2);
        } else {
          IdentifierTokensAreNames(s, i + 1);
        }
      } else {
        IdentifierTokensAreNames(s, i + 1);
      }
    }
  }

  function NamedTokens(keys: seq<string>): (ts: seq<Token>)
    ensures |ts| == |keys|
    ensures forall m :: 0 <= m < |keys| ==> ts[m] == IdentifierIndex(keys[m])
  {
    if keys == [] then [] else [IdentifierIndex(keys[0])] + NamedTokens(keys[1..])
  }

  /**
   * `run` keeps, in order, some of the visited entries; their keys are
   * exactly the identifier tokens consumed, one token per kept key, and the
   * tokens left are the ones not consumed.
   */
  lemma {:induction false} PickConsumesKeptKeys(tokens: seq<Token>, es: seq<Entry>)
    requires Pick(tokens, es).Success?
    ensures tokens == NamedTokens(KeysOf(Pick(tokens, es).value.0)) + Pick(tokens, es).value.1
    ensures forall e :: e in Pick(tokens, es).value.0 ==> e in es
  {
    if es != [] {
      if Matches(tokens, es[0].key) {
        PickConsumesKeptKeys(tokens[1..], es[1..]);
        var p := Pick(tokens[1..], es[1..]).value;
        var kept := [es[0]] + p.0;
        assert kept[1..] == p.0;
        assert KeysOf(kept) == [es[0].key] + KeysOf(p.0);
      } else {
        PickConsumesKeptKeys(tokens, es[1..]);
      }
    }
  }

  predicate ExhaustedBy(tokens: seq<Token>, es: seq<Entry>, j: nat)
    requires j <= |es|
  {
    Pick(tokens, es[..j]).Success? && Pick(tokens, es[..j]).value.1 == []
  }

  /**
   * `run` throws exactly when the tokens run out before the last key is
   * visited: some key `es[j]` is reached after the keys before it have
   * consumed every token.
   */
  lemma {:induction false} PickFailsIffExhausted(tokens: seq<Token>, es: seq<Entry>)
    ensures Pick(tokens, es).Failure? <==> exists j :: 0 <= j < |es| && ExhaustedBy(tokens, es, j)
  {
    if es == [] {
    } else if tokens == [] {
      assert es[..0] == [];
      assert ExhaustedBy(tokens, es, 0);
    } else {
      var rest := es[1..];
      var t' := if Matches(tokens, es[0].key) then tokens[1..] else tokens;
      PickFailsIffExhausted(t', rest);
      assert Pick(tokens, es).Failure? <==> Pick(t', rest).Failure?;
      if Pick(tokens, es).Failure? {
        var j' :| 0 <= j' < |rest| && ExhaustedBy(t', rest, j');
        PickThroughHead(tokens, es, j' + 1);
        assert ExhaustedBy(tokens, es, j' + 1);
      } else {
        forall j | 0 <= j < |es|
          ensures !ExhaustedBy(tokens, es, j)
        {
          if j == 0 {
            assert es[..0] == [];
          } else {
            PickThroughHead(tokens, es, j);
          }
        }
      }
    }
  }

  /** Unfolds `Pick` over a non-empty prefix `es[..j]` by its first key. */
  lemma PickThroughHead(tokens: seq<Token>, es: seq<Entry>, j: nat)
    requires tokens != [] && 0 < j <= |es|
    ensures ExhaustedBy(tokens, es, j) <==>
      ExhaustedBy(if Matches(tokens, es[0].key) then tokens[1..] else tokens, es[1..], j - 1)
  {
    assert es[..j][0] == es[0];
    assert es[..j][1..] == es[1..][..j - 1];
  }

  /** A filter whose first token is not an identifier keeps nothing and never throws. */
  lemma {:induction false} NonIdentifierFirstKeepsNothing(tokens: seq<Token>, es: seq<Entry>)
    requires tokens != [] && !tokens[0].IdentifierIndex?
    ensures Pick(tokens, es) == Success(([], tokens))
  {
    if es != [] {
      NonIdentifierFirstKeepsNothing(tokens, es[1..]);
    }
  }

  /** `undefined`, `null`, booleans and numbers filter to `{}` whatever the filter. */
  lemma FilterOfScalar(filter: string, data: Value)
    requires data.Undefined? || data.Null? || data.Bool? || data.Num?
    ensures Filter(filter, data) == Success(Obj([]))
  {
  }

  /** `.a` over `{a: 1, b: 2}`: the only token is used up at `a`, so visiting `b` throws. */
  lemma FilterThrowsAfterLastToken()
    ensures Filter(".a", Obj([Entry("a", Num(1)), Entry("b", Num(2))])) == Failure(TokensExhausted)
  {
    assert Tokenize(".a") == [IdentifierIndex("a")] by {
      TokenizeIdentifier(".a", 0);
      assert IdentEnd(".a", 1) == 2;
      assert ".a"[1..2] == "a";
    }
  }

  /** `.a` over `{b: 2, a: 1}`: `b` is dropped, `a` kept with the last token. */
  lemma FilterKeepsNamedKey()
    ensures Filter(".a", Obj([Entry("b", Num(2)), Entry("a", Num(1))])) == Success(Obj([Entry("a", Num(1))]))
  {
    assert Tokenize(".a") == [IdentifierIndex("a")] by {
      TokenizeIdentifier(".a", 0);
      assert IdentEnd(".a", 1) == 2;
      assert ".a"[1..2] == "a";
    }
    var ts := [IdentifierIndex("a")];
    var es := [Entry("b", Num(2)), Entry("a", Num(1))];
    assert !Matches(ts, "b");
    assert es[1..] == [Entry("a", Num(1))];
    assert [Entry("a", Num(1))][1..] == [];
    assert Pick(ts, es) == Pick(ts, [Entry("a", Num(1))]);
    assert ts[1..] == [];
    assert [Entry("a", Num(1))] + [] == [Entry("a", Num(1))];
    assert Pick(ts, [Entry("a", Num(1))]) == Success(([Entry("a", Num(1))], []));
  }
}
