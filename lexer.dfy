/** The lexer of src/lexer.rs: one left-to-right scan with a cursor `at` over
    the characters of the source, pushing tokens onto a growing vector.

    `Scan(source, at)` is the specification: the tokens the scan produces from
    position `at` onward, or the error that aborts it. `Lex` is the scan loop
    itself, proved to compute `Scan(source, 0)`. */
module Lexer {
  import opened Wrappers
  import opened Decimal

  datatype Token =
    | Identifier(name: string)
    | Constant(value: Int32)
    | OpenParenthesis
    | CloseParenthesis
    | OpenBrace
    | CloseBrace
    | Semicolon
    | Void
    | Return
    | Int

  /** Each way the scan aborts. */
  datatype LexError =
    | UnknownCharacter(c: char, at: nat)   // no rule for `c` at position `at`
    | IdentifierStartsWithDigit(at: nat)   // the digit run at `at` runs into a letter
    | LookaheadOutOfBounds(index: nat)     // a digit run ends the input: `source[index]` is read past the end
    | ConstantOutOfRange(at: nat)          // the digit run at `at` does not fit an `i32`

  // Character classes, as Rust's `char` methods answer them on ASCII.

  predicate IsAscii(s: string) {
    forall k :: 0 <= k < |s| ==> s[k] as int < 128
  }

  /** `char::is_whitespace`: space, and tab through carriage return. */
  predicate IsWhitespace(c: char) {
    c == ' ' || '\t' <= c <= '\r'
  }

  /** `char::is_alphabetic`. */
  predicate IsAlphabetic(c: char) {
    'a' <= c <= 'z' || 'A' <= c <= 'Z'
  }

  /** The first character of an identifier or keyword. */
  predicate IsWordStart(c: char) {
    c == '_' || IsAlphabetic(c)
  }

  /** `is_alphanumeric() || == '_'`: the characters an identifier run continues with. */
  predicate IsWordChar(c: char) {
    IsAlphabetic(c) || IsDigit(c) || c == '_'
  }

  /** The text an `Identifier` token may carry. */
  predicate IsIdentifierText(s: string) {
    |s| > 0 && IsWordStart(s[0]) && forall k :: 0 <= k < |s| ==> IsWordChar(s[k])
  }

  /** The end of the maximal run of word characters starting at `from`. */
  function WordEnd(source: string, from: nat): (end: nat)
    requires from <= |source|
    ensures from <= end <= |source|
    ensures forall k :: from <= k < end ==> IsWordChar(source[k])
    ensures end == |source| || !IsWordChar(source[end])
    decreases |source| - from
  {
    if from < |source| && IsWordChar(source[from]) then WordEnd(source, from + 1) else from
  }

  /** The end of the maximal run of digits starting at `from`. */
  function DigitEnd(source: string, from: nat): (end: nat)
    requires from <= |source|
    ensures from <= end <= |source|
    ensures forall k :: from <= k < end ==> IsDigit(source[k])
    ensures end == |source| || !IsDigit(source[end])
    decreases |source| - from
  {
    if from < |source| && IsDigit(source[from]) then DigitEnd(source, from + 1) else from
  }

  /** The keyword a word spells, or an identifier carrying the word. */
  function KeywordOrIdentifier(word: string): (t: Token)
    ensures t == Int <==> word == "int"
    ensures t == Void <==> word == "void"
    ensures t == Return <==> word == "return"
    ensures t.Identifier? <==> word !in {"int", "void", "return"}
    ensures t.Identifier? ==> t.name == word
  {
    match word
    case "int" => Int
    case "void" => Void
    case "return" => Return
    case _ => Identifier(word)
  }

  /** The token of a one-character punctuation mark. */
  function Punctuation(c: char): (t: Option<Token>)
    ensures t.Some? <==> c in {'(', ')', '{', '}', ';'}
  {
    match c
    case '(' => Some(OpenParenthesis)
    case ')' => Some(CloseParenthesis)
    case '{' => Some(OpenBrace)
    case '}' => Some(CloseBrace)
    case ';' => Some(Semicolon)
    case _ => None
  }

  /** The digit run starting at `at`, or the error its inner loop aborts with:
      the character after the run is read unguarded, so a run that ends the
      input aborts, and so does a run followed by a letter. */
  function DigitRun(source: string, at: nat): (r: Result<string, LexError>)
    requires at < |source| && IsDigit(source[at])
  {
    var end := DigitEnd(source, at);
    if end == |source| then Err(LookaheadOutOfBounds(end))
    else if IsAlphabetic(source[end]) then Err(IdentifierStartsWithDigit(at))
    else Ok(source[at..end])
  }

  /** Puts `prefix` in front of the tokens of a successful scan. */
  function Prepend(prefix: seq<Token>, rest: Result<seq<Token>, LexError>): (r: Result<seq<Token>, LexError>)
  {
    match rest
    case Ok(tokens) => Ok(prefix + tokens)
    case Err(e) => Err(e)
  }

  lemma PrependAssociative(first: seq<Token>, second: seq<Token>, rest: Result<seq<Token>, LexError>)
    ensures Prepend(first, Prepend(second, rest)) == Prepend(first + second, rest)
  {
    if rest.Ok? {
      assert first + (second + rest.value) == (first + second) + rest.value;
    }
  }

  /** What one step of the scan does at a position: skips a character, or
      pushes one token; either way it says where the next step starts. */
  datatype Lexeme = Skip(next: nat) | Push(token: Token, next: nat)

  /** The position an error reports. */
  function ErrorPosition(e: LexError): nat {
    match e
    case UnknownCharacter(_, at) => at
    case IdentifierStartsWithDigit(at) => at
    case LookaheadOutOfBounds(index) => index
    case ConstantOutOfRange(at) => at
  }

  /** One iteration of the scan loop at `at`: it moves the cursor forward,
      or reports an error at the cursor, or the read past the end. */
  function Step(source: string, at: nat): (r: Result<Lexeme, LexError>)
    requires at < |source|
    ensures r.Ok? ==> at < r.value.next <= |source|
    ensures r.Err? ==> ErrorPosition(r.error) == at || r.error == LookaheadOutOfBounds(|source|)
  {
    var c := source[at];
    if IsWhitespace(c) then Ok(Skip(at + 1))
    else if IsWordStart(c) then
      var end := WordEnd(source, at);
      Ok(Push(KeywordOrIdentifier(source[at..end]), end))
    else if IsDigit(c) then
      match DigitRun(source, at)
      case Err(e) => Err(e)
      case Ok(run) =>
        if DecimalValue(run) > I32_MAX then Err(ConstantOutOfRange(at))
        else Ok(Push(Constant(DecimalValue(run)), at + |run|))
    else
      match Punctuation(c)
      case Some(t) => Ok(Push(t, at + 1))
      case None => Err(UnknownCharacter(c, at))
  }

  /** The tokens of `source[at..]`, or the error the scan aborts with. Every
      step moves the cursor forward and pushes at most one token, so a scan
      never yields more tokens than it reads characters. */
  function Scan(source: string, at: nat): (r: Result<seq<Token>, LexError>)
    requires at <= |source|
    ensures r.Ok? ==> |r.value| <= |source| - at
    decreases |source| - at
  {
    if at == |source| then Ok([])
    else
      match Step(source, at)
      case Err(e) => Err(e)
      case Ok(Skip(next)) => Scan(source, next)
      case Ok(Push(t, next)) => Prepend([t], Scan(source, next))
  }

  /** The identifier sub-loop: collects the word characters from `at` on. */
  method ScanWord(source: string, at: nat) returns (s: string)
    requires at < |source| && IsWordStart(source[at])
    ensures s == source[at..WordEnd(source, at)]
    ensures IsIdentifierText(s)
  {
    s := "";
    var i := 0;
    while at + i < |source| && (IsAlphabetic(source[at + i]) || IsDigit(source[at + i]) || source[at + i] == '_')
      invariant at + i <= |source|
      invariant s == source[at..at + i]
      invariant forall k :: at <= k < at + i ==> IsWordChar(source[k])
    {
      s := s + [source[at + i]];
      i := i + 1;
    }
  }

  /** The constant sub-loop: collects the digits from `at` on, checking after
      each one that the next character is not a letter. */
  method ScanDigits(source: string, at: nat) returns (r: Result<string, LexError>)
    requires at < |source| && IsDigit(source[at])
    ensures r == DigitRun(source, at)
    ensures r.Ok? ==> |r.value| > 0 && IsDigits(r.value)
  {
    var s := "";
    var i := 0;
    while at + i < |source| && IsDigit(source[at + i])
      invariant at + i <= |source|
      invariant s == source[at..at + i]
      invariant forall k :: at <= k < at + i ==> IsDigit(source[k])
      invariant i > 0 ==> at + i < |source| && !IsAlphabetic(source[at + i])
    {
      s := s + [source[at + i]];
      i := i + 1;
      if at + i == |source| {
        return Err(LookaheadOutOfBounds(at + i));
      }
      if IsAlphabetic(source[at + i]) {
        return Err(IdentifierStartsWithDigit(at));
      }
    }
    r := Ok(s);
  }

  /** The body of the scan loop at `at`: skips a whitespace character, or
      reads one token (a keyword or identifier, a constant, a punctuation
      character) and says where the next token starts, or reports the error
      the loop panics with. */
  method LexToken(source: string, at: nat) returns (step: Result<Lexeme, LexError>)
    requires IsAscii(source) && at < |source|
    ensures step == Step(source, at)
  {
    var c := source[at];
    if IsWhitespace(c) {
      return Ok(Skip(at + 1));
    }
    if IsWordStart(c) {
      var word := ScanWord(source, at);
      match word
      case "int" =>
        step := Ok(Push(Int, at + 3));
      case "void" =>
        step := Ok(Push(Void, at + 4));
      case "return" =>
        step := Ok(Push(Return, at + 6));
      case _ =>
        step := Ok(Push(Identifier(word), at + |word|));
    } else if IsDigit(c) {
      var run := ScanDigits(source, at);
      if run.Err? {
        return Err(run.error);
      }
      var constant := DecimalValue(run.value);
      if constant > I32_MAX {
        return Err(ConstantOutOfRange(at));
      }
      step := Ok(Push(Constant(constant), at + |run.value|));
    } else if c == '(' {
      step := Ok(Push(OpenParenthesis, at + 1));
    } else if c == ')' {
      step := Ok(Push(CloseParenthesis, at + 1));
    } else if c == '{' {
      step := Ok(Push(OpenBrace, at + 1));
    } else if c == '}' {
      step := Ok(Push(CloseBrace, at + 1));
    } else if c == ';' {
      step := Ok(Push(Semicolon, at + 1));
    } else {
      step := Err(UnknownCharacter(c, at));
    }
  }

  /** `lex`: the scan loop, which collects the tokens of `source` in order. */
  method Lex(source: string) returns (r: Result<seq<Token>, LexError>)
    requires IsAscii(source)
    ensures r == Scan(source, 0)
  {
    var at := 0;
    var tokens: seq<Token> := [];
    assert Prepend(tokens, Scan(source, 0)) == Scan(source, 0) by {
      var all := Scan(source, 0);
      if all.Ok? {
        assert tokens + all.value == all.value;
      }
    }
    while at < |source|
      invariant at <= |source|
      invariant Scan(source, 0) == Prepend(tokens, Scan(source, at))
      decreases |source| - at
    {
      var step := LexToken(source, at);
      match step
      case Err(e) =>
        return Err(e);
      case Ok(Skip(next)) =>
        at := next;
      case Ok(Push(t, next)) =>
        PrependAssociative(tokens, [t], Scan(source, next));
        tokens := tokens + [t];
        at := next;
    }
    assert tokens + [] == tokens;
    r := Ok(tokens);
  }

}
