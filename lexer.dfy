/** The tokenizer (src/frontend/lexer.ts): turns source text into a token
    list ending in one EOF token. `Lex` is the reference definition, rule by
    rule on the first character; `Tokenize` is the character-queue loop the
    source runs, proved equal to it. String bodies are kept as the raw text
    between the quotes (escape decoding is not modelled). */
module Lexer {
  import opened Utils

  datatype TokenType =
    // literal types
    | Number | Identifier | Null | Boolean | StringLiteral
    // keyword
    | Function
    // delimiters
    | OpenParen | CloseParen | OpenBrace | CloseBrace | OpenBracket | CloseBracket
    | OpenDoubleAngle | CloseDoubleAngle
    // symbols
    | Comma | Colon | Equal | Dot | Plus | Minus | Star | Slash | Percent | Pipe
    | Quote | Dollar | Ampersand | Octothorp | Exclamation | Omega
    // long symbols
    | Increment | Decrement
    | EOF

  datatype Token = Token(tokenType: TokenType, value: string) {
    /** `isType(...types)`: the token has one of the given types. */
    predicate IsType(types: seq<TokenType>) {
      tokenType in types
    }
  }

  const EOF_TOKEN: Token := Token(EOF, "EOF")

  predicate IsNamic(c: char) {
    'a' <= c <= 'z' || 'A' <= c <= 'Z' || c == '_'
  }

  predicate IsNumeric(c: char) {
    '0' <= c <= '9'
  }

  predicate IsSkip(c: char) {
    c == ' ' || c == '\n' || c == '\r' || c == '\t'
  }

  /** The single-character table. Its `Omega` key is two characters long as
      stored in the source file, so no single character reaches it. */
  function CharToken(c: char): Option<TokenType> {
    match c
    case '(' => Some(OpenParen)
    case ')' => Some(CloseParen)
    case '{' => Some(OpenBrace)
    case '}' => Some(CloseBrace)
    case '[' => Some(OpenBracket)
    case ']' => Some(CloseBracket)
    case ':' => Some(Colon)
    case ';' => Some(Null)
    case '.' => Some(Dot)
    case '=' => Some(Equal)
    case ',' => Some(Comma)
    case '|' => Some(Pipe)
    case '\'' => Some(Quote)
    case '$' => Some(Dollar)
    case '&' => Some(Ampersand)
    case '#' => Some(Octothorp)
    case '+' => Some(Plus)
    case '-' => Some(Minus)
    case '*' => Some(Star)
    case '/' => Some(Slash)
    case '%' => Some(Percent)
    case '!' => Some(Exclamation)
    case _ => None
  }

  /** No character of a run, of a skip or of a string quote is in the
      single-character table. */
  lemma CharTableDisjoint(c: char)
    requires IsNumeric(c) || IsNamic(c) || IsSkip(c) || c == '"'
    ensures CharToken(c).None?
  {
  }

  /** The multi-character table in the order it is tried: sorted by length,
      shortest first, ties in declaration order. */
  const MULTI_TOKENS: seq<(string, TokenType)> :=
    [("fn", Function), ("<<", OpenDoubleAngle), (">>", CloseDoubleAngle), ("++", Increment),
     ("--", Decrement), ("null", Null), ("true", Boolean), ("false", Boolean)]

  lemma MultiTokensShortestFirst()
    ensures forall i, j :: 0 <= i < j < |MULTI_TOKENS| ==> |MULTI_TOKENS[i].0| <= |MULTI_TOKENS[j].0|
  {
  }

  /** The first table entry, from entry `j` on, that `s` starts with. */
  function KeywordFrom(s: string, j: nat): (r: Option<nat>)
    requires j <= |MULTI_TOKENS|
    decreases |MULTI_TOKENS| - j
    ensures r.Some? ==> j <= r.value < |MULTI_TOKENS| && MULTI_TOKENS[r.value].0 <= s
  {
    if j == |MULTI_TOKENS| then None
    else if MULTI_TOKENS[j].0 <= s then Some(j)
    else KeywordFrom(s, j + 1)
  }

  /** The multi-character entry `s` starts with, if any: the first in table
      order. */
  function Keyword(s: string): (r: Option<nat>)
    ensures r.Some? ==> r.value < |MULTI_TOKENS| && MULTI_TOKENS[r.value].0 <= s
    ensures r.Some? ==> 2 <= |MULTI_TOKENS[r.value].0| <= |s|
  {
    KeywordFrom(s, 0)
  }

  /** No table entry is matched exactly when the text starts with none. */
  lemma KeywordNone(s: string)
    ensures Keyword(s).None? <==> forall k :: 0 <= k < |MULTI_TOKENS| ==> !(MULTI_TOKENS[k].0 <= s)
  {
    KeywordFromNone(s, 0);
  }

  lemma {:induction false} KeywordFromFirst(s: string, j: nat, i: nat)
    requires i <= j < |MULTI_TOKENS| && MULTI_TOKENS[j].0 <= s
    requires forall k :: i <= k < j ==> !(MULTI_TOKENS[k].0 <= s)
    ensures KeywordFrom(s, i) == Some(j)
    decreases j - i
  {
    if i < j {
      KeywordFromFirst(s, j, i + 1);
    }
  }

  lemma {:induction false} KeywordFromNone(s: string, j: nat)
    requires j <= |MULTI_TOKENS|
    ensures KeywordFrom(s, j).None? <==> forall k :: j <= k < |MULTI_TOKENS| ==> !(MULTI_TOKENS[k].0 <= s)
    decreases |MULTI_TOKENS| - j
  {
    if j < |MULTI_TOKENS| {
      KeywordFromNone(s, j + 1);
    }
  }

  /** The length of the run of digits (`number`) or of `[a-zA-Z_]` that `s`
      starts with. */
  function Run(s: string, number: bool): (n: nat)
    ensures n <= |s|
    ensures forall i :: 0 <= i < n ==> InClass(s[i], number)
    ensures n < |s| ==> !InClass(s[n], number)
  {
    if s != [] && InClass(s[0], number) then 1 + Run(s[1..], number) else 0
  }

  predicate InClass(c: char, number: bool) {
    if number then IsNumeric(c) else IsNamic(c)
  }

  /** The body of a string literal whose opening quote has been consumed:
      the text up to the closing quote and how many characters that took,
      closing quote included; None when the input ends first. */
  function StringBody(s: string): (r: Option<(string, nat)>)
    ensures r.Some? ==> 1 <= r.value.1 <= |s|
  {
    if s == [] then None
    else if s[0] == '"' then Some(([], 1))
    else if s[0] == '\\' && |s| == 1 then None
    else
      var (text, k) := BodyStep(s);
      Extend(text, k, StringBody(s[k..]))
  }

  /** One step of a string body: a backslash keeps the character after it,
      and a line break (CR LF, a lone CR or a lone LF) becomes the two
      characters `\n`. */
  function BodyStep(s: string): (r: (string, nat))
    requires s != [] && !(s[0] == '\\' && |s| == 1)
    ensures 1 <= r.1 <= |s|
  {
    if s[0] == '\\' then ([s[0], s[1]], 2)
    else if s[0] == '\r' && |s| > 1 && s[1] == '\n' then ("\\n", 2)
    else if s[0] == '\r' || s[0] == '\n' then ("\\n", 1)
    else ([s[0]], 1)
  }

  /** `StringBody` as the loop at src/frontend/lexer.ts:153-160 is written:
      after a CR or an LF it drops the next character, whatever it is, and
      fails when there is none. */
  function StringBodyAsWritten(s: string): (r: Option<(string, nat)>)
    ensures r.Some? ==> 1 <= r.value.1 <= |s|
  {
    if s == [] then None
    else if s[0] == '"' then Some(([], 1))
    else if s[0] in "\\\r\n" && |s| == 1 then None
    else if s[0] == '\\' then Extend([s[0], s[1]], 2, StringBodyAsWritten(s[2..]))
    else if s[0] == '\r' || s[0] == '\n' then Extend("\\n", 2, StringBodyAsWritten(s[2..]))
    else Extend([s[0]], 1, StringBodyAsWritten(s[1..]))
  }

  function Extend(text: string, n: nat, r: Option<(string, nat)>): Option<(string, nat)> {
    match r
    case None => None
    case Some((body, m)) => Some((text + body, n + m))
  }

  lemma ExtendEmpty(r: Option<(string, nat)>)
    ensures Extend([], 0, r) == r
  {
    if r.Some? {
      assert [] + r.value.0 == r.value.0;
    }
  }

  lemma ExtendTwice(a: string, n: nat, b: string, m: nat, r: Option<(string, nat)>)
    ensures Extend(a, n, Extend(b, m, r)) == Extend(a + b, n + m, r)
  {
    if r.Some? {
      assert a + (b + r.value.0) == (a + b) + r.value.0;
    }
  }

  /** A literal without backslashes ends at its first quote: the body scan
      succeeds exactly when there is one, and consumes the text up to it. */
  lemma BodyUnfold(s: string)
    requires s != [] && s[0] != '"' && !(s[0] == '\\' && |s| == 1)
    ensures StringBody(s) == Extend(BodyStep(s).0, BodyStep(s).1, StringBody(s[BodyStep(s).1..]))
  {
  }

  lemma {:induction false} StringBodyCloses(s: string)
    requires '\\' !in s
    ensures StringBody(s).Some? <==> '"' in s
    ensures StringBody(s).Some? ==>
              var n := StringBody(s).value.1; s[n - 1] == '"' && '"' !in s[..n - 1]
  {
    if s != [] && s[0] != '"' {
      var k := BodyStep(s).1;
      var t := s[k..];
      assert '"' !in s[..k];
      assert s == s[..k] + t;
      assert '\\' !in t;
      StringBodyCloses(t);
      BodyUnfold(s);
      if StringBody(s).Some? {
        var m := StringBody(t).value.1;
        assert s[..k + m - 1] == s[..k] + t[..m - 1];
      }
    }
  }

  /** As written, an LF just before the closing quote swallows the quote:
      the literal `"a` LF `"` never closes, where the corrected scan reads
      the body `a\n`. */
  lemma LineBreakSwallowsQuote()
    ensures '\\' !in "a\n\"" && '"' in "a\n\""
    ensures StringBodyAsWritten("a\n\"") == None
    ensures StringBody("a\n\"") == Some(("a\\n", 3))
  {
    assert "a\n\""[1..] == "\n\"";
    assert "\n\""[2..] == [];
    assert StringBodyAsWritten("\n\"") == None;
    assert "\n\""[1..] == "\"";
    assert StringBody("\"") == Some(([], 1));
    assert "\\n" + [] == "\\n";
    assert StringBody("\n\"") == Some(("\\n", 2));
    assert "a" + "\\n" == "a\\n";
  }

  // ---------------------------------------------------------------------
  // The token list

  /** Prepends a token to a successful token list. */
  function Cons(t: Token, r: Result<seq<Token>>): Result<seq<Token>> {
    match r
    case Ok(ts) => Ok([t] + ts)
    case Err(e) => Err(e)
  }

  /** The token at the start of `s` and its length in characters: a
      multi-character entry first, then a single-character one, then a
      string literal, a digit run or a `[a-zA-Z_]` run; anything else is an
      unknown character. */
  function NextToken(s: string): (r: Result<(Token, nat)>)
    requires s != [] && !IsSkip(s[0])
    ensures r.Ok? ==> 1 <= r.value.1 <= |s| && r.value.0.tokenType != EOF
  {
    var kw := Keyword(s);
    if kw.Some? then
      Ok((Token(MULTI_TOKENS[kw.value].1, MULTI_TOKENS[kw.value].0), |MULTI_TOKENS[kw.value].0|))
    else if CharToken(s[0]).Some? then
      Ok((Token(CharToken(s[0]).value, [s[0]]), 1))
    else if s[0] == '"' then
      match StringBody(s[1..])
      case None => Err(SyntaxError)
      case Some((body, n)) => Ok((Token(StringLiteral, body), 1 + n))
    else if IsNumeric(s[0]) || IsNamic(s[0]) then
      var number := IsNumeric(s[0]);
      var n := Run(s, number);
      Ok((Token(if number then Number else Identifier, s[..n]), n))
    else
      Err(UnknownCharacter)
  }

  /** The tokens of `s`: whitespace is skipped, every other position starts
      a token, and EOF closes the list. */
  function Lex(s: string): (r: Result<seq<Token>>)
    decreases |s|
  {
    if s == [] then Ok([EOF_TOKEN])
    else if IsSkip(s[0]) then Lex(s[1..])
    else
      match NextToken(s)
      case Err(e) => Err(e)
      case Ok((t, n)) => Cons(t, Lex(s[n..]))
  }

  /** A token list ends with the one EOF token, and EOF appears nowhere
      else. */
  lemma {:induction false} LexEndsWithEof(s: string)
    requires Lex(s).Ok?
    ensures var ts := Lex(s).value;
              ts != [] && ts[|ts| - 1] == EOF_TOKEN &&
              forall i :: 0 <= i < |ts| - 1 ==> ts[i].tokenType != EOF
    decreases |s|
  {
    if s != [] {
      if IsSkip(s[0]) {
        LexSkip(s);
        LexEndsWithEof(s[1..]);
      } else {
        var n := NextToken(s).value.1;
        LexStep(s);
        LexEndsWithEof(s[n..]);
      }
    }
  }

  lemma LexSkip(s: string)
    requires s != [] && IsSkip(s[0])
    ensures Lex(s) == Lex(s[1..])
  {
  }

  lemma LexStep(s: string)
    requires s != [] && !IsSkip(s[0])
    ensures NextToken(s).Ok? ==> Lex(s) == Cons(NextToken(s).value.0, Lex(s[NextToken(s).value.1..]))
    ensures NextToken(s).Err? ==> Lex(s) == Err(NextToken(s).error)
  {
  }

  /** Whitespace before the text changes nothing. */
  lemma {:induction false} SkipsProduceNothing(w: string, s: string)
    requires forall i :: 0 <= i < |w| ==> IsSkip(w[i])
    ensures Lex(w + s) == Lex(s)
  {
    if w == [] {
      assert w + s == s;
    } else {
      var ws := w + s;
      assert ws[0] == w[0];
      assert IsSkip(ws[0]);
      LexSkip(ws);
      assert ws[1..] == w[1..] + s;
      SkipsProduceNothing(w[1..], s);
      assert Lex(ws) == Lex(ws[1..]);
    }
  }

  /** Entries of the table differ in their first two characters. */
  lemma PrefixesDistinct()
    ensures forall j :: 0 <= j < |MULTI_TOKENS| ==> |MULTI_TOKENS[j].0| >= 2
    ensures forall j, k :: 0 <= j < k < |MULTI_TOKENS| ==>
              MULTI_TOKENS[j].0[0] != MULTI_TOKENS[k].0[0] || MULTI_TOKENS[j].0[1] != MULTI_TOKENS[k].0[1]
  {
  }

  /** The characters table entries start with. */
  lemma KeywordFirstChars()
    ensures forall k :: 0 <= k < |MULTI_TOKENS| ==> MULTI_TOKENS[k].0 != [] && MULTI_TOKENS[k].0[0] in "f<>+-nt"
  {
  }

  /** No entry of the table is a prefix of another, so at most one matches. */
  lemma KeywordUnique(s: string, j: nat)
    requires j < |MULTI_TOKENS| && MULTI_TOKENS[j].0 <= s
    ensures Keyword(s) == Some(j)
  {
    PrefixesDistinct();
    forall k | 0 <= k < |MULTI_TOKENS| && k != j ensures !(MULTI_TOKENS[k].0 <= s) {
    }
    KeywordFromFirst(s, j, 0);
  }

  /** Every multi-character entry is one token wherever the text starts with
      it, ahead of the single characters it is made of and even inside a
      longer word (`fnord` starts with `fn`). */
  lemma KeywordWins(s: string, j: nat)
    requires j < |MULTI_TOKENS| && MULTI_TOKENS[j].0 <= s
    ensures Lex(s) == Cons(Token(MULTI_TOKENS[j].1, MULTI_TOKENS[j].0), Lex(s[|MULTI_TOKENS[j].0|..]))
  {
    assert s[0] == MULTI_TOKENS[j].0[0];
    KeywordUnique(s, j);
  }

  /** `++` is one Increment token, not two Plus tokens. */
  lemma IncrementIsOneToken(s: string)
    ensures Lex("++" + s) == Cons(Token(Increment, "++"), Lex(s))
  {
    assert MULTI_TOKENS[3].0 <= "++" + s;
    KeywordWins("++" + s, 3);
    assert ("++" + s)[2..] == s;
  }

  lemma {:induction false} RunIs(s: string, number: bool, n: nat)
    requires n <= |s| && (forall i :: 0 <= i < n ==> InClass(s[i], number))
    requires n == |s| || !InClass(s[n], number)
    ensures Run(s, number) == n
  {
    if n > 0 {
      RunIs(s[1..], number, n - 1);
    }
  }

  /** A maximal run of digits is one Number token holding that text. */
  lemma NumberRun(s: string, n: nat)
    requires 0 < n <= |s| && (forall i :: 0 <= i < n ==> IsNumeric(s[i]))
    requires n == |s| || !IsNumeric(s[n])
    ensures Lex(s) == Cons(Token(Number, s[..n]), Lex(s[n..]))
  {
    KeywordFirstChars();
    KeywordNone(s);
    RunIs(s, true, n);
    RunToken(s, n);
    LexStep(s);
  }

  /** A maximal run of `[a-zA-Z_]` that does not start with a table entry is
      one Identifier token holding that text; a digit ends it. */
  lemma IdentifierRun(s: string, n: nat)
    requires 0 < n <= |s| && (forall i :: 0 <= i < n ==> IsNamic(s[i]))
    requires n == |s| || !IsNamic(s[n])
    requires forall k :: 0 <= k < |MULTI_TOKENS| ==> !(MULTI_TOKENS[k].0 <= s)
    ensures Lex(s) == Cons(Token(Identifier, s[..n]), Lex(s[n..]))
  {
    KeywordNone(s);
    RunIs(s, false, n);
    RunToken(s, n);
    LexStep(s);
  }

  /** The token a string literal makes. */
  lemma StringToken(s: string)
    requires s != [] && s[0] == '"'
    ensures !IsSkip(s[0])
    ensures NextToken(s) == match StringBody(s[1..])
                            case None => Err(SyntaxError)
                            case Some((body, n)) => Ok((Token(StringLiteral, body), 1 + n))
  {
    KeywordFirstChars();
    KeywordNone(s);
    CharTableDisjoint(s[0]);
  }

  /** The token a digit or letter run makes, once no table entry matches. */
  lemma RunToken(s: string, n: nat)
    requires s != [] && (IsNumeric(s[0]) || IsNamic(s[0])) && Keyword(s).None?
    requires Run(s, IsNumeric(s[0])) == n
    ensures !IsSkip(s[0])
    ensures NextToken(s) == Ok((Token(if IsNumeric(s[0]) then Number else Identifier, s[..n]), n))
  {
    CharTableDisjoint(s[0]);
  }

  /** A character no rule accepts is an error. */
  lemma UnknownCharacterFails(c: char, s: string)
    requires !IsSkip(c) && CharToken(c).None? && c != '"' && !IsNumeric(c) && !IsNamic(c)
    requires forall k :: 0 <= k < |MULTI_TOKENS| ==> !(MULTI_TOKENS[k].0 <= [c] + s)
    ensures Lex([c] + s) == Err(UnknownCharacter)
  {
  }

  /** A string literal that never closes is a syntax error. */
  lemma UnterminatedString(s: string)
    requires '"' !in s
    ensures Lex(['"'] + s) == Err(SyntaxError)
  {
    var q := ['"'] + s;
    NoQuoteNoBody(s);
    assert q[1..] == s;
    KeywordFirstChars();
    KeywordNone(q);
    CharTableDisjoint(q[0]);
    assert NextToken(q) == Err(SyntaxError);
  }

  lemma {:induction false} NoQuoteNoBody(s: string)
    requires '"' !in s
    ensures StringBody(s).None?
  {
    if s != [] && !(s[0] == '\\' && |s| == 1) {
      var k := BodyStep(s).1;
      assert '"' !in s[k..] by {
        forall i | 0 <= i < |s[k..]| ensures s[k..][i] != '"' {
          assert s[k..][i] == s[k + i];
        }
      }
      NoQuoteNoBody(s[k..]);
    }
  }

  // ---------------------------------------------------------------------
  // The tokenizer loop

  /** `tokenize(source)`: consumes the characters front to back; what
      is left of the source lexes to the rest of the answer. */
  method Tokenize(source: string) returns (r: Result<seq<Token>>)
    ensures r == Lex(source)
  {
    var tokens: seq<Token> := [];
    var pos := 0;
    assert source[pos..] == source;
    PrefixedEmpty(Lex(source));
    while pos < |source|
      invariant 0 <= pos <= |source|
      invariant Lex(source) == Prefixed(tokens, Lex(source[pos..]))
      decreases |source| - pos
    {
      if IsSkip(source[pos]) {
        LexSkip(source[pos..]);
        assert source[pos..][1..] == source[pos + 1..];
        pos := pos + 1;
      } else {
        LexStep(source[pos..]);
        var next := ReadToken(source, pos);
        if next.Err? {
          return Err(next.error);
        }
        var (t, n) := next.value;
        assert source[pos..][n..] == source[pos + n..];
        PrefixedCons(tokens, t, Lex(source[pos + n..]));
        tokens := tokens + [t];
        pos := pos + n;
      }
    }
    r := Ok(tokens + [EOF_TOKEN]);
  }

  /** Prepends `ts` to a successful token list. */
  function Prefixed(ts: seq<Token>, r: Result<seq<Token>>): Result<seq<Token>> {
    match r
    case Ok(us) => Ok(ts + us)
    case Err(e) => Err(e)
  }

  lemma PrefixedEmpty(r: Result<seq<Token>>)
    ensures Prefixed([], r) == r
  {
    if r.Ok? {
      assert [] + r.value == r.value;
    }
  }

  lemma PrefixedCons(ts: seq<Token>, t: Token, r: Result<seq<Token>>)
    ensures Prefixed(ts + [t], r) == Prefixed(ts, Cons(t, r))
  {
    if r.Ok? {
      assert (ts + [t]) + r.value == ts + ([t] + r.value);
    }
  }

  /** One token, read from position `pos`. */
  method ReadToken(source: string, pos: nat) returns (r: Result<(Token, nat)>)
    requires pos < |source| && !IsSkip(source[pos])
    ensures r == NextToken(source[pos..])
  {
    var c := source[pos];
    var kw := MatchKeyword(source[pos..]);
    if kw.Some? {
      var (text, t) := MULTI_TOKENS[kw.value];
      r := Ok((Token(t, text), |text|));
    } else if CharToken(c).Some? {
      r := Ok((Token(CharToken(c).value, [c]), 1));
    } else {
      r := ReadLiteral(source, pos);
    }
  }

  /** A token at `pos` that is in neither table: a string literal, a digit
      run or a `[a-zA-Z_]` run. */
  method ReadLiteral(source: string, pos: nat) returns (r: Result<(Token, nat)>)
    requires pos < |source| && !IsSkip(source[pos])
    requires Keyword(source[pos..]).None? && CharToken(source[pos]).None?
    ensures r == NextToken(source[pos..])
  {
    var c := source[pos];
    var isNumber := IsNumeric(c);
    var isString := c == '"';
    if !isNumber && !IsNamic(c) && !isString {
      r := Err(UnknownCharacter);
    } else if isString {
      assert source[pos..][1..] == source[pos + 1..];
      StringToken(source[pos..]);
      var body := ScanString(source, pos + 1);
      if body.None? {
        r := Err(SyntaxError);
      } else {
        r := Ok((Token(StringLiteral, body.value.0), 1 + body.value.1));
      }
    } else {
      var end := ScanRun(source, pos, isNumber);
      assert source[pos..][..end - pos] == source[pos..end];
      RunToken(source[pos..], end - pos);
      r := Ok((Token(if isNumber then Number else Identifier, source[pos..end]), end - pos));
    }
  }

  /** The lookup of the table entry the remaining text starts with. */
  method MatchKeyword(rest: string) returns (k: Option<nat>)
    ensures k == Keyword(rest)
  {
    k := None;
    for j := 0 to |MULTI_TOKENS|
      invariant KeywordFrom(rest, 0) == KeywordFrom(rest, j)
    {
      var (text, _) := MULTI_TOKENS[j];
      if |text| <= |rest| && rest[..|text|] == text {
        k := Some(j);
        return;
      }
    }
  }

  /** The body of the string literal whose text starts at `start`, one
      character at a time. */
  method ScanString(source: string, start: nat) returns (r: Option<(string, nat)>)
    requires start <= |source|
    ensures r == StringBody(source[start..])
  {
    var acc := "";
    var pos := start;
    ExtendEmpty(StringBody(source[start..]));
    while pos < |source| && source[pos] != '"'
      invariant start <= pos <= |source|
      invariant StringBody(source[start..]) == Extend(acc, pos - start, StringBody(source[pos..]))
      decreases |source| - pos
    {
      if source[pos] == '\\' && pos + 1 == |source| {
        // a trailing backslash takes the end of the input with it
        return None;
      }
      var text, next := ScanStep(source, pos);
      assert source[pos..][next - pos..] == source[next..];
      ExtendTwice(acc, pos - start, text, next - pos, StringBody(source[next..]));
      pos := next;
      acc := acc + text;
    }
    if pos == |source| {
      r := None;
    } else {
      assert source[pos..][1..] == source[pos + 1..];
      r := Some((acc, pos - start + 1));
      assert StringBody(source[pos..]) == Some(([], 1));
      assert acc + [] == acc;
    }
  }

  /** One step of a string body at `pos`: the character, a backslash with
      the character after it, or a line break. */
  method ScanStep(source: string, pos: nat) returns (text: string, next: nat)
    requires pos < |source| && !(source[pos] == '\\' && pos + 1 == |source|)
    ensures pos < next <= |source| && (text, next - pos) == BodyStep(source[pos..])
  {
    ghost var rest := source[pos..];
    var c := source[pos];
    next := pos + 1;
    text := [c];
    if c == '\\' {
      text := [c, source[next]];
      next := next + 1;
    } else if c == '\n' || c == '\r' {
      if c == '\r' && next < |source| && source[next] == '\n' {
        next := next + 1;
      }
      text := "\\n";
    }
    assert rest[0] == c && (|rest| > 1 ==> rest[1] == source[pos + 1]);
  }

  /** The end of the run of digits (`number`) or of `[a-zA-Z_]` starting at
      `start`. */
  method ScanRun(source: string, start: nat, number: bool) returns (end: nat)
    requires start <= |source|
    ensures start <= end <= |source| && end - start == Run(source[start..], number)
  {
    end := start;
    while end < |source| && InClass(source[end], number)
      invariant start <= end <= |source|
      invariant Run(source[start..], number) == end - start + Run(source[end..], number)
      decreases |source| - end
    {
      assert source[end..][1..] == source[end + 1..];
      end := end + 1;
    }
  }
}
