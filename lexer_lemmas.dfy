/** Properties of the scan specified by `Lexer.Scan`. */
module LexerLemmas {
  import opened Wrappers
  import opened Decimal
  import opened Lexer

  /** Identifiers carry identifier text, constants are never negative. */
  predicate WellFormedTokens(tokens: seq<Token>) {
    forall k :: 0 <= k < |tokens| ==>
      (tokens[k].Identifier? ==> IsIdentifierText(tokens[k].name)) &&
      (tokens[k].Constant? ==> 0 <= tokens[k].value)
  }

  /** A failed scan from `at` reports a position between `at` and the end
      of the source. */
  lemma {:induction false} ScanErrorPosition(source: string, at: nat)
    requires at <= |source|
    ensures Scan(source, at).Err? ==> at <= ErrorPosition(Scan(source, at).error) <= |source|
    decreases |source| - at
  {
    if at < |source| && Step(source, at).Ok? {
      ScanErrorPosition(source, Step(source, at).value.next);
    }
  }

  /** A pushed identifier is a non-empty run that starts with a letter or `_`
      and continues with letters, digits and `_`; a pushed constant is at least
      zero, as there is no `-` token. */
  lemma StepTokenWellFormed(source: string, at: nat)
    requires at < |source| && Step(source, at).Ok? && Step(source, at).value.Push?
    ensures WellFormedTokens([Step(source, at).value.token])
  {
    var c := source[at];
    if IsWordStart(c) {
      assert IsIdentifierText(source[at..WordEnd(source, at)]);
    }
  }

  /** Every token of a successful scan is well formed. */
  lemma {:induction false} ScanTokensWellFormed(source: string, at: nat)
    requires at <= |source|
    ensures Scan(source, at).Ok? ==> WellFormedTokens(Scan(source, at).value)
    decreases |source| - at
  {
    if at < |source| && Step(source, at).Ok? {
      ScanTokensWellFormed(source, Step(source, at).value.next);
      if Step(source, at).value.Push? {
        StepTokenWellFormed(source, at);
      }
    }
  }

  /** What one step does, by the character under the cursor: whitespace is
      skipped; a punctuation mark becomes its token; a character no rule
      accepts aborts the scan. */
  lemma StepCases(source: string, at: nat)
    requires at < |source|
    ensures Step(source, at).Ok? && Step(source, at).value.Skip? <==> IsWhitespace(source[at])
    ensures IsWhitespace(source[at]) ==> Step(source, at) == Ok(Skip(at + 1))
    ensures Punctuation(source[at]).Some? ==> Step(source, at) == Ok(Push(Punctuation(source[at]).value, at + 1))
    ensures Step(source, at) == Err(UnknownCharacter(source[at], at))
        <==> !IsWhitespace(source[at]) && !IsWordStart(source[at]) && !IsDigit(source[at]) && Punctuation(source[at]).None?
  {
    var c := source[at];
    if !IsWhitespace(c) && !IsWordStart(c) && !IsDigit(c) {
      match Punctuation(c)
      case Some(t) =>
      case None =>
    }
  }

  /** A digit run becomes the constant it spells exactly when it is followed
      by a character other than a letter and fits an `i32`. */
  lemma StepDigitCases(source: string, at: nat)
    requires at < |source| && IsDigit(source[at])
    ensures Step(source, at).Ok? <==> DigitEnd(source, at) < |source| && !IsAlphabetic(source[DigitEnd(source, at)])
                                      && DecimalValue(source[at..DigitEnd(source, at)]) <= I32_MAX
    ensures Step(source, at).Ok? ==>
      Step(source, at) == Ok(Push(Constant(DecimalValue(source[at..DigitEnd(source, at)])), DigitEnd(source, at)))
  {
    var end := DigitEnd(source, at);
    if end < |source| && !IsAlphabetic(source[end]) {
      assert DigitRun(source, at) == Ok(source[at..end]);
      assert at + |source[at..end]| == end;
    }
  }

  /** The end of a maximal run of word characters is the one `WordEnd` finds. */
  lemma WordEndUnique(source: string, from: nat, end: nat)
    requires from <= end <= |source|
    requires forall k :: from <= k < end ==> IsWordChar(source[k])
    requires end == |source| || !IsWordChar(source[end])
    ensures WordEnd(source, from) == end
  {
  }

  /** The end of a maximal digit run is the one `DigitEnd` finds. */
  lemma DigitEndUnique(source: string, from: nat, end: nat)
    requires from <= end <= |source|
    requires forall k :: from <= k < end ==> IsDigit(source[k])
    requires end == |source| || !IsDigit(source[end])
    ensures DigitEnd(source, from) == end
  {
  }

  /** A lexeme whose next position is moved `offset` characters on. */
  function ShiftLexeme(lexeme: Lexeme, offset: nat): Lexeme {
    match lexeme
    case Skip(next) => Skip(next + offset)
    case Push(t, next) => Push(t, next + offset)
  }

  /** A step that succeeds within `a` does the same when whitespace and more
      text follow `a`. */
  lemma StepPrefix(a: string, rest: string, i: nat)
    requires i < |a| && |rest| > 0 && IsWhitespace(rest[0])
    requires Step(a, i).Ok?
    ensures Step(a + rest, i) == Step(a, i)
  {
    var s := a + rest;
    var c := a[i];
    assert s[i] == c;
    if IsWordStart(c) {
      var end := WordEnd(a, i);
      WordEndUnique(s, i, end);
      assert s[i..end] == a[i..end];
    } else if IsDigit(c) {
      var end := DigitEnd(a, i);
      DigitEndUnique(s, i, end);
      assert s[i..end] == a[i..end];
    }
  }

  lemma WordEndSuffix(p: string, b: string, j: nat)
    requires j < |b|
    ensures WordEnd(p + b, |p| + j) == |p| + WordEnd(b, j)
    ensures (p + b)[|p| + j..|p| + WordEnd(b, j)] == b[j..WordEnd(b, j)]
  {
    var end := WordEnd(b, j);
    WordEndUnique(p + b, |p| + j, |p| + end);
  }

  lemma DigitRunSuffix(p: string, b: string, j: nat)
    requires j < |b| && IsDigit(b[j])
    ensures (p + b)[|p| + j] == b[j]
    ensures DigitRun(p + b, |p| + j).Ok? <==> DigitRun(b, j).Ok?
    ensures DigitRun(b, j).Ok? ==> DigitRun(p + b, |p| + j).value == DigitRun(b, j).value
  {
    var s := p + b;
    var end := DigitEnd(b, j);
    DigitEndUnique(s, |p| + j, |p| + end);
    assert s[|p| + j..|p| + end] == b[j..end];
    if end < |b| {
      assert s[|p| + end] == b[end];
    }
  }

  /** A step does not depend on the text before its position. */
  lemma StepSuffix(p: string, b: string, j: nat)
    requires j < |b|
    ensures Step(p + b, |p| + j).Ok? <==> Step(b, j).Ok?
    ensures Step(b, j).Ok? ==> Step(p + b, |p| + j).value == ShiftLexeme(Step(b, j).value, |p|)
  {
    var c := b[j];
    assert (p + b)[|p| + j] == c;
    if IsWordStart(c) {
      WordEndSuffix(p, b, j);
    } else if IsDigit(c) {
      DigitRunSuffix(p, b, j);
    }
  }

  /** Scanning `a` followed by whitespace and more text yields the tokens of
      `a` first, then whatever the scan yields after `a`. */
  lemma {:induction false} ScanPrefix(a: string, rest: string, i: nat)
    requires i <= |a| && |rest| > 0 && IsWhitespace(rest[0])
    requires Scan(a, i).Ok?
    ensures Scan(a + rest, i) == Prepend(Scan(a, i).value, Scan(a + rest, |a|))
    decreases |a| - i
  {
    var s := a + rest;
    if i == |a| {
      var after := Scan(s, |a|);
      if after.Ok? {
        assert [] + after.value == after.value;
      }
    } else {
      StepPrefix(a, rest, i);
      var lexeme := Step(a, i).value;
      ScanPrefix(a, rest, lexeme.next);
      if lexeme.Push? {
        PrependAssociative([lexeme.token], Scan(a, lexeme.next).value, Scan(s, |a|));
      }
    }
  }

  /** What the scan yields from a position does not depend on the text before
      it (only the positions that errors carry are counted from the start). */
  lemma {:induction false} ScanSuffix(p: string, b: string, j: nat)
    requires j <= |b|
    ensures Scan(p + b, |p| + j).Ok? <==> Scan(b, j).Ok?
    ensures Scan(b, j).Ok? ==> Scan(p + b, |p| + j) == Scan(b, j)
    decreases |b| - j
  {
    if j < |b| {
      StepSuffix(p, b, j);
      if Step(b, j).Ok? {
        ScanSuffix(p, b, Step(b, j).value.next);
      }
    }
  }

  /** A word at the front, ended by a character that cannot continue it, is
      one token: its keyword, or an identifier carrying it. */
  lemma ScanWordThen(word: string, rest: string, tokens: seq<Token>)
    requires IsIdentifierText(word) && |rest| > 0 && !IsWordChar(rest[0])
    requires Scan(rest, 0) == Ok(tokens)
    ensures Scan(word + rest, 0) == Ok([KeywordOrIdentifier(word)] + tokens)
  {
    var s := word + rest;
    assert forall k :: 0 <= k < |word| ==> s[k] == word[k];
    assert s[|word|] == rest[0];
    WordEndUnique(s, 0, |word|);
    assert s[0..|word|] == word;
    ScanSuffix(word, rest, 0);
  }

  /** A digit run at the front, ended by a character that is neither a digit
      nor a letter, is one constant when it fits an `i32`. */
  lemma ScanDigitsThen(digits: string, rest: string, tokens: seq<Token>)
    requires |digits| > 0 && IsDigits(digits) && DecimalValue(digits) <= I32_MAX
    requires |rest| > 0 && !IsDigit(rest[0]) && !IsAlphabetic(rest[0])
    requires Scan(rest, 0) == Ok(tokens)
    ensures Scan(digits + rest, 0) == Ok([Constant(DecimalValue(digits))] + tokens)
  {
    var s := digits + rest;
    assert forall k :: 0 <= k < |digits| ==> s[k] == digits[k];
    assert s[|digits|] == rest[0];
    DigitEndUnique(s, 0, |digits|);
    assert s[0..|digits|] == digits;
    assert DigitRun(s, 0) == Ok(digits);
    ScanSuffix(digits, rest, 0);
  }

  /** A punctuation mark at the front is its token. */
  lemma ScanMarkThen(c: char, rest: string, tokens: seq<Token>)
    requires Punctuation(c).Some? && Scan(rest, 0) == Ok(tokens)
    ensures Scan([c] + rest, 0) == Ok([Punctuation(c).value] + tokens)
  {
    var s := [c] + rest;
    assert s[0] == c;
    ScanSuffix([c], rest, 0);
  }

  /** A space at the front is skipped. */
  lemma ScanSpaceThen(rest: string, tokens: seq<Token>)
    requires Scan(rest, 0) == Ok(tokens)
    ensures Scan(" " + rest, 0) == Ok(tokens)
  {
    var s := " " + rest;
    assert s[0] == ' ';
    ScanSuffix(" ", rest, 0);
  }

  /** After `a`, the whitespace character is skipped and the scan goes on
      as it would on `b` alone. */
  lemma SkipSeparator(a: string, w: char, b: string)
    requires IsWhitespace(w)
    ensures Scan(a + [w] + b, |a|).Ok? <==> Scan(b, 0).Ok?
    ensures Scan(b, 0).Ok? ==> Scan(a + [w] + b, |a|) == Scan(b, 0)
  {
    var s := a + [w] + b;
    assert s[|a|] == w;
    assert Scan(s, |a|) == Scan(s, |a| + 1);
    assert s == (a + [w]) + b;
    ScanSuffix(a + [w], b, 0);
  }

  /** Whitespace separates tokens: the tokens of `a`, a whitespace character and
      `b` are those of `a` followed by those of `b`, in order, with nothing merged
      across the separator. */
  lemma WhitespaceSeparatesTokens(a: string, w: char, b: string)
    requires IsWhitespace(w) && Scan(a, 0).Ok?
    ensures Scan(a + [w] + b, 0).Ok? <==> Scan(b, 0).Ok?
    ensures Scan(b, 0).Ok? ==> Scan(a + [w] + b, 0) == Ok(Scan(a, 0).value + Scan(b, 0).value)
  {
    var s := a + [w] + b;
    assert s == a + ([w] + b);
    ScanPrefix(a, [w] + b, 0);
    SkipSeparator(a, w, b);
  }
}

/** Small inputs and what the scan makes of them. */
module LexerExamples {
  import opened Wrappers
  import Decimal
  import opened Lexer
  import opened LexerLemmas

  /** A digit run directly followed by a letter is not an identifier. */
  lemma DigitThenLetterRejected()
    ensures Scan("1foo", 0) == Err(IdentifierStartsWithDigit(0))
  {
  }

  /** The character after a digit run is read unguarded, so a run that ends
      the input aborts the scan. */
  lemma DigitRunEndingInputRejected()
    ensures Scan("return 2", 0) == Err(LookaheadOutOfBounds(8))
  {
  }

  /** A keyword is recognised only as a whole maximal run. */
  lemma KeywordPrefixIsIdentifier()
    ensures Scan("intx", 0) == Ok([Identifier("intx")])
  {
    WordEndUnique("intx", 0, 4);
    assert "intx"[0..4] == "intx";
    assert [Identifier("intx")] + [] == [Identifier("intx")];
  }

  /** The largest `i32` is accepted. */
  lemma LargestConstantAccepted()
    ensures Scan("2147483647;", 0) == Ok([Constant(2147483647), Semicolon])
  {
    var s := "2147483647;";
    DigitEndUnique(s, 0, 10);
    assert s[0..10] == "2147483647";
    DecimalExamples();
    assert s[10] == ';' && Step(s, 10) == Ok(Push(Semicolon, 11));
    assert [Semicolon] + [] == [Semicolon];
    assert Scan(s, 10) == Ok([Semicolon]);
    assert Step(s, 0) == Ok(Push(Constant(2147483647), 10));
    assert Scan(s, 0) == Prepend([Constant(2147483647)], Scan(s, 10));
    assert [Constant(2147483647)] + [Semicolon] == [Constant(2147483647), Semicolon];
  }

  /** One more than the largest `i32` is rejected. */
  lemma ConstantOverflowRejected()
    ensures Scan("2147483648;", 0) == Err(ConstantOutOfRange(0))
  {
    var s := "2147483648;";
    DigitEndUnique(s, 0, 10);
    assert s[0..10] == "2147483648";
    DecimalExamples();
  }

  /** The decimal value of the first nine digits of the largest `i32`. */
  lemma DecimalPrefix()
    ensures Decimal.DecimalValue("214748364") == 214748364
  {
    assert Decimal.DecimalValue("2") == 2;
    assert "21"[..1] == "2";
    assert Decimal.DecimalValue("21") == 21;
    assert "214"[..2] == "21";
    assert Decimal.DecimalValue("214") == 214;
    assert "2147"[..3] == "214";
    assert Decimal.DecimalValue("2147") == 2147;
    assert "21474"[..4] == "2147";
    assert Decimal.DecimalValue("21474") == 21474;
    assert "214748"[..5] == "21474";
    assert Decimal.DecimalValue("214748") == 214748;
    assert "2147483"[..6] == "214748";
    assert Decimal.DecimalValue("2147483") == 2147483;
    assert "21474836"[..7] == "2147483";
    assert Decimal.DecimalValue("21474836") == 21474836;
    assert "214748364"[..8] == "21474836";
  }

  /** The decimal values of the two texts around the largest `i32`. */
  lemma DecimalExamples()
    ensures Decimal.DecimalValue("2147483647") == 2147483647
    ensures Decimal.DecimalValue("2147483648") == 2147483648
  {
    DecimalPrefix();
    assert "2147483647"[..9] == "214748364";
    assert "2147483648"[..9] == "214748364";
  }
}
