/** The four stages run one after another: lex, parse, lower, emit. The
    driver of the repository stops after lexing; this module states what the
    stages give when they are composed. */
module Pipeline {
  import opened Wrappers
  import opened Decimal
  import opened Lexer
  import opened LexerLemmas
  import opened Parser
  import opened Syntax
  import opened Assembly
  import opened Emission

  /** The stage that aborted, with its error. */
  datatype CompileError = LexFailure(lexError: LexError) | ParseFailure(parseError: ParseError)

  /** The assembly text of `int <name>(void) { return <value>; }`: the
      `.globl` and label lines, a `movl` of the constant into `%eax`, a
      `ret`, and the trailer. */
  function ExpectedText(name: string, value: Int32): string {
    Header(name) + MovLine(value) + "   ret\n" + Trailer
  }

  /** The line that loads `value` into `%eax`. */
  function MovLine(value: Int32): string {
    "   movl $" + IntToDecimal(value) + ", %eax\n"
  }

  /** One instruction is written as its line. */
  lemma OneInstructionText(first: AssemblyASTInstruction)
    ensures InstructionsText([first]) == EmitInstruction(first)
  {
    assert [first][..0] == [];
  }

  /** Two instructions are written as their two lines, in order. */
  lemma TwoInstructionsText(first: AssemblyASTInstruction, second: AssemblyASTInstruction)
    ensures InstructionsText([first, second]) == EmitInstruction(first) + EmitInstruction(second)
  {
    var instructions := [first, second];
    assert instructions[..1] == [first];
    OneInstructionText(first);
  }

  /** The two lowered instructions are written as a `movl` line and a `ret` line. */
  lemma ReturnInstructionsText(value: Int32)
    ensures InstructionsText([Mov(Imm(value), Register), Ret]) == MovLine(value) + "   ret\n"
  {
    TwoInstructionsText(Mov(Imm(value), Register), Ret);
    var digits := IntToDecimal(value);
    assert EmitOperand(Imm(value)) == "$" + digits;
    assert "   movl " + ("$" + digits) + ", " + "%eax" + "\n" == "   movl $" + digits + ", %eax\n";
  }

  /** Lowering and then emitting the only tree a parse builds gives the text
      of one `movl` of the constant into `%eax`, a `ret`, and the trailer. */
  lemma LowerThenEmit(name: string, value: Int32)
    ensures IsProgramNode(ProgramNode(name, value))
    ensures ProgramText(GenerateAssembly(FromNode(ProgramNode(name, value)))) == ExpectedText(name, value)
  {
    ParsedProgramTranslates(name, value);
    var program := GenerateAssembly(FromNode(ProgramNode(name, value)));
    assert program == Assembly.Program(AssemblyASTFunction(name, [Mov(Imm(value), Register), Ret]));
    assert ProgramText(program) == Header(name) + InstructionsText([Mov(Imm(value), Register), Ret]) + Trailer;
    ReturnInstructionsText(value);
    var header, mov := Header(name), MovLine(value);
    assert header + (mov + "   ret\n") + Trailer == header + mov + "   ret\n" + Trailer;
  }

  /** The source text `int <name>(void){return <digits>;}`. */
  function FunctionSource(name: string, digits: string): string {
    "int " + name + "(void){return " + digits + ";}"
  }

  /** A name and a digit run that make `FunctionSource` one function: the name
      is an identifier that is not a keyword, the digits fit an `i32`. */
  predicate IsFunctionSource(name: string, digits: string) {
    IsIdentifierText(name) && name !in {"int", "void", "return"}
    && |digits| > 0 && IsDigits(digits) && DecimalValue(digits) <= I32_MAX
  }

  /** Text made of ASCII pieces is ASCII. */
  lemma AsciiAppend(a: string, b: string)
    requires IsAscii(a) && IsAscii(b)
    ensures IsAscii(a + b)
  {
    assert forall k :: |a| <= k < |a + b| ==> (a + b)[k] == b[k - |a|];
  }

  /** The source of a function is ASCII: identifier characters, digits and
      the fixed pieces around them. */
  lemma FunctionSourceIsAscii(name: string, digits: string)
    requires IsFunctionSource(name, digits)
    ensures IsAscii(FunctionSource(name, digits))
  {
    assert forall k :: 0 <= k < |name| ==> IsWordChar(name[k]);
    var head, middle, tail := "int ", "(void){return ", ";}";
    assert IsAscii(head) && IsAscii(middle) && IsAscii(tail);
    AsciiAppend(head, name);
    AsciiAppend(head + name, middle);
    AsciiAppend(head + name + middle, digits);
    AsciiAppend(head + name + middle + digits, tail);
  }

  /** The three keywords are word texts, each read as its own keyword. */
  lemma KeywordTexts()
    ensures IsIdentifierText("int") && KeywordOrIdentifier("int") == Int
    ensures IsIdentifierText("void") && KeywordOrIdentifier("void") == Void
    ensures IsIdentifierText("return") && KeywordOrIdentifier("return") == Token.Return
  {
    assert "int"[0] == 'i' && "void"[0] == 'v' && "return"[0] == 'r';
  }

  /** The statement's tokens and the closing brace, one token at a time. */
  lemma StatementTokensJoin(value: Int32)
    ensures [Token.Return] + ([Token.Constant(value)] + [Semicolon, CloseBrace]) == StatementTokens(value) + [CloseBrace]
  {
  }

  /** The function's tokens, one token at a time in front of the statement's. */
  lemma FunctionTokensJoin(name: string, value: Int32)
    ensures [Int] + ([Identifier(name)] + ([OpenParenthesis] + ([Void] + ([CloseParenthesis] + ([OpenBrace]
            + (StatementTokens(value) + [CloseBrace]))))))
         == FunctionTokens(name, value)
  {
  }

  /** The source, one piece at a time from the front. */
  lemma FunctionSourceSplit(name: string, digits: string)
    ensures FunctionSource(name, digits)
         == "int" + (" " + (name + (['('] + ("void" + ([')'] + (['{'] + ("return" + (" " + (digits + ";}")))))))))
  {
  }

  /** `;}` yields the semicolon and the closing brace. */
  lemma ScanClosingSource()
    ensures Scan(";}", 0) == Ok([Semicolon, CloseBrace])
  {
    ScanMarkThen('}', "", []);
    assert ['}'] + "" == "}" && [CloseBrace] + [] == [CloseBrace];
    ScanMarkThen(';', "}", [CloseBrace]);
    assert [';'] + "}" == ";}" && [Semicolon] + [CloseBrace] == [Semicolon, CloseBrace];
  }

  /** `return <digits>;}` yields the statement's tokens and the closing brace. */
  lemma ScanStatementSource(digits: string)
    requires |digits| > 0 && IsDigits(digits) && DecimalValue(digits) <= I32_MAX
    ensures Scan("return" + (" " + (digits + ";}")), 0) == Ok(StatementTokens(DecimalValue(digits)) + [CloseBrace])
  {
    var value: Int32 := DecimalValue(digits);
    var closing := [Semicolon, CloseBrace];
    ScanClosingSource();
    ScanDigitsThen(digits, ";}", closing);
    var spaced := " " + (digits + ";}");
    ScanSpaceThen(digits + ";}", [Token.Constant(value)] + closing);
    assert spaced[0] == ' ';
    KeywordTexts();
    ScanWordThen("return", spaced, [Token.Constant(value)] + closing);
    StatementTokensJoin(value);
  }

  /** Lexing the source of a function gives exactly the ten tokens the parser
      accepts, carrying its name and the value of its digits. */
  lemma ScanFunctionSource(name: string, digits: string)
    requires IsFunctionSource(name, digits)
    ensures Scan(FunctionSource(name, digits), 0) == Ok(FunctionTokens(name, DecimalValue(digits)))
  {
    var statement := "return" + (" " + (digits + ";}"));
    var tokens := StatementTokens(DecimalValue(digits)) + [CloseBrace];
    ScanStatementSource(digits);
    KeywordTexts();
    var afterClose := ['{'] + statement;
    ScanMarkThen('{', statement, tokens);
    var afterVoid := [')'] + afterClose;
    ScanMarkThen(')', afterClose, [OpenBrace] + tokens);
    assert afterVoid[0] == ')';
    ScanWordThen("void", afterVoid, [CloseParenthesis] + ([OpenBrace] + tokens));
    var afterName := ['('] + ("void" + afterVoid);
    var named := [Void] + ([CloseParenthesis] + ([OpenBrace] + tokens));
    ScanMarkThen('(', "void" + afterVoid, named);
    assert afterName[0] == '(';
    ScanWordThen(name, afterName, [OpenParenthesis] + named);
    var spaced := " " + (name + afterName);
    ScanSpaceThen(name + afterName, [Identifier(name)] + ([OpenParenthesis] + named));
    assert spaced[0] == ' ';
    ScanWordThen("int", spaced, [Identifier(name)] + ([OpenParenthesis] + named));
    FunctionTokensJoin(name, DecimalValue(digits));
    FunctionSourceSplit(name, digits);
  }

  /** The text of a function is four lines and the trailer, as an identifier
      holds no newline. */
  lemma ExpectedTextLines(name: string, value: Int32)
    requires IsIdentifierText(name)
    ensures NewlineCount(ExpectedText(name, value)) == 4
  {
    assert forall k :: 0 <= k < |name| ==> IsWordChar(name[k]);
    assert '\n' !in name;
    LowerThenEmit(name, value);
    ProgramTextNewlines(GenerateAssembly(FromNode(ProgramNode(name, value))));
  }

  /** The function a source lexes to has a text of four lines and the
      trailer, as the lexer's identifiers hold no newline. */
  lemma LexedTextLines(source: string, name: string, value: Int32)
    requires Scan(source, 0) == Ok(FunctionTokens(name, value))
    ensures NewlineCount(ExpectedText(name, value)) == 4
  {
    ScanTokensWellFormed(source, 0);
    assert FunctionTokens(name, value)[1] == Identifier(name);
    ExpectedTextLines(name, value);
  }

  /** Lexes, parses, lowers and emits `source`, stopping at the first stage
      that fails. */
  method Compile(source: string) returns (r: Result<string, CompileError>)
    requires IsAscii(source)
    ensures Scan(source, 0).Err? ==> r == Err(LexFailure(Scan(source, 0).error))
    ensures (r.Err? && r.error.ParseFailure?)
        <==> Scan(source, 0).Ok? && !(|Scan(source, 0).value| == 10 && FunctionAt(Scan(source, 0).value, 0))
    ensures forall name, value :: Scan(source, 0) == Ok(FunctionTokens(name, value)) ==> r == Ok(ExpectedText(name, value))
    ensures r.Ok? ==> exists name, value :: Scan(source, 0) == Ok(FunctionTokens(name, value)) && r.value == ExpectedText(name, value)
    ensures r.Ok? ==> NewlineCount(r.value) == 4
  {
    var lexed := Lex(source);
    if lexed.Err? {
      return Err(LexFailure(lexed.error));
    }
    var tokens := lexed.value;
    var parsed := Parse(tokens);
    if parsed.Err? {
      return Err(ParseFailure(parsed.error));
    }
    var name, value := tokens[1].name, tokens[7].value;
    LowerThenEmit(name, value);
    LexedTextLines(source, name, value);
    var root := FromNode(parsed.value);
    var assembly := GenerateAssembly(root);
    var text := EmitCode(assembly);
    r := Ok(text);
    assert Scan(source, 0) == Ok(FunctionTokens(name, value)) && r.value == ExpectedText(name, value);
  }

  /** `int main(void){return 2;}` is the source of a function. */
  lemma MainSource()
    ensures IsFunctionSource("main", "2") && FunctionSource("main", "2") == "int main(void){return 2;}"
  {
    assert "main"[0] == 'm';
    assert DecimalValue("2") == 2;
  }

  /** Compiling the source of a function gives the text of that function. */
  method CompileFunctionSource(name: string, digits: string) returns (r: Result<string, CompileError>)
    requires IsFunctionSource(name, digits)
    ensures r == Ok(ExpectedText(name, DecimalValue(digits)))
  {
    ScanFunctionSource(name, digits);
    FunctionSourceIsAscii(name, digits);
    r := Compile(FunctionSource(name, digits));
  }

  /** Compiling `int main(void){return 2;}` gives its five lines of text. */
  method CompileMainReturningTwo() returns (r: Result<string, CompileError>)
    ensures r == Ok("  .globl main\nmain:\n" + "   movl $2, %eax\n" + "   ret\n" + ".section .note.GNU-stack,\"\",@progbits")
  {
    MainSource();
    MainReturningTwo();
    r := CompileFunctionSource("main", "2");
  }

  /** The text for `int main(void) { return 2; }`. */
  lemma MainReturningTwo()
    ensures ExpectedText("main", 2)
         == "  .globl main\nmain:\n" + "   movl $2, %eax\n" + "   ret\n" + ".section .note.GNU-stack,\"\",@progbits"
  {
    assert IntToDecimal(2) == "2";
    assert MovLine(2) == "   movl $2, %eax\n";
    assert Header("main") == "  .globl main\nmain:\n";
  }
}
