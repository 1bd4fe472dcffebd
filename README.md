# lcc in Dafny

A model of the four stages of lcc, a toy compiler from a tiny subset of C to
x86-64 assembly in AT&T syntax. The program it accepts is one function
`int <name>(void) { return <constant>; }`.

- **Lexer** (`lexer.dfy`, `lexer_lemmas.dfy`). The scan walks the characters
  of the source with a cursor, skips whitespace and pushes tokens: keywords
  and identifiers, decimal constants that must fit an `i32`, and five
  punctuation marks. `Lexer.Scan` is the specification, one `Lexer.Step` at a
  time. `Lexer.Lex` is the scan loop and is proved to compute `Scan`. Its
  body is `LexToken`, proved equal to `Step`. The inner loops `ScanWord` and
  `ScanDigits` are proved to collect the maximal run that `Step` reads
  (`source[at..WordEnd]`, `DigitRun`). The panics of the Rust code become the
  `LexError` values.
- **Parser** (`parser.dfy`). This is recursive descent over the token vector
  with one shared cursor. It is the class `Parser.Parser`, with a field `at`
  and one method per grammar rule. Each rule is proved to succeed exactly on
  its token pattern (`StatementAt`, `FunctionAt`), to advance the cursor by
  the pattern's width, and to build the tree that carries the pattern's name
  and constant. On failure it reports the first slot of the grammar that
  does not fit (`FirstMismatch`). The panics of the Rust code, including
  reading `tokens[at]` past the end, become `ParseError` values.
- **Syntax** (`syntax.dfy`). The lowering reads one type per rule
  (`ASTRootNode`, `ASTFunction`, `ASTStatement`, `ASTExpression`), while the
  parser builds the single enum `ASTNode`. `FromNode` and `ToNode` translate
  between the two, losing nothing either way.
- **Assembly** (`assembly.dfy`). The lowering turns `return c` into
  `movl $c, %eax` and then `ret`. It is proved to return `c` through the
  register and to be injective.
- **Emission** (`emission.dfy`). This renders the assembly tree as text: a
  `.globl` line, a label, one indented line per instruction, and the
  non-executable-stack trailer. The loop in `EmitFunction` is proved against
  `FunctionText`. Every instruction line reads back as its instruction, and
  every immediate reads back as its value (`decimal.dfy` holds the decimal
  text of integers). When the function's name holds no newline, the text has
  exactly `2 + |instructions|` newlines. No identifier the lexer yields holds
  one, so a compiled program is always four lines and the trailer
  (`ExpectedTextLines`, and the newline clause of `Compile`).
- **Pipeline** (`pipeline.dfy`). `Compile` chains the four stages. It is
  proved to produce exactly the expected text of the one accepted program.
  Otherwise it reports the stage that fails. The source text
  `int <name>(void){return <digits>;}` is proved to lex to that program's ten
  tokens, for every name that is not a keyword and every digit run that fits
  an `i32` (`ScanFunctionSource`). Its compiled text follows from that
  (`CompileFunctionSource`), and `int main(void){return 2;}` is one instance.

Quirks of the code that the model keeps:

- After each digit of a constant, the character after it is read without a
  bounds check. A digit run that ends the input is therefore an error, just
  as a digit run followed by a letter is.
- The scan has no `-` token, so constants are never negative.
- A keyword is recognised only as a whole maximal word, so `intx` is an
  identifier.

## Model

| member | source | states |
|---|---|---|
| Lexer.ScanWord | src/lexer.rs:33-45 | collects the maximal run of letters, digits and `_` from the cursor; the result is identifier text |
| Lexer.ScanDigits | src/lexer.rs:67-83 | collects the maximal digit run; aborts when the character after a digit is past the end or is a letter; else the run is non-empty digits |
| Lexer.LexToken | src/lexer.rs:22-112 | one iteration of the scan loop: skip whitespace, or push a keyword, identifier, constant or punctuation token and advance past it, or abort with the error of the branch taken; equals `Step` |
| Lexer.Lex | src/lexer.rs:16-116 | the scan loop returns exactly the tokens of the specification `Scan(source, 0)`, in order, or the error that aborts it |
| Lexer.Step | src/lexer.rs:22-112 | one iteration of the scan loop moves the cursor forward without passing the end, or aborts with an error at the cursor, or with the read past the end |
| Lexer.Scan | src/lexer.rs:21-113 | the tokens from the cursor to the end, or the first error; a scan never yields more tokens than the characters it reads |
| LexerLemmas.StepCases | src/lexer.rs:24-112 | per character: whitespace is skipped (and only whitespace); punctuation pushes its token; any other character that starts no token aborts with `UnknownCharacter` exactly then |
| LexerLemmas.StepDigitCases | src/lexer.rs:65-88 | a digit run succeeds iff it is followed by a character that is not a letter and fits an `i32`; it then pushes its decimal value and moves past the run |
| LexerLemmas.ScanErrorPosition | src/lexer.rs:21-113 | a failed scan reports a position between the cursor and the end of the source |
| LexerLemmas.StepTokenWellFormed | src/lexer.rs:30-88 | a pushed identifier is identifier text; a pushed constant is at least zero |
| LexerLemmas.ScanTokensWellFormed | src/lexer.rs:16-116 | every token of a successful scan is well formed |
| LexerLemmas.WordEndUnique | src/lexer.rs:37-42 | the end of a maximal word run is unique |
| LexerLemmas.DigitEndUnique | src/lexer.rs:71-80 | the end of a maximal digit run is unique |
| LexerLemmas.StepPrefix | src/lexer.rs:21-113 | a step inside a text does the same when whitespace and more text follow |
| LexerLemmas.StepSuffix | src/lexer.rs:21-113 | a step does not depend on the text before the cursor |
| LexerLemmas.ScanPrefix | src/lexer.rs:21-113 | scanning a text, then whitespace, then more text yields the first text's tokens first |
| LexerLemmas.ScanSuffix | src/lexer.rs:21-113 | what the scan yields from a position does not depend on the text before it |
| LexerLemmas.SkipSeparator | src/lexer.rs:24-27 | after a whitespace character the scan goes on exactly as on the text after it |
| LexerLemmas.WhitespaceSeparatesTokens | src/lexer.rs:24-27 | the tokens of `a`, whitespace and `b` are those of `a` followed by those of `b`, and the scan succeeds iff `b`'s does |
| LexerLemmas.ScanWordThen | src/lexer.rs:30-63 | a word at the front, ended by a character that cannot continue it, is one keyword or identifier token before the rest's tokens |
| LexerLemmas.ScanDigitsThen | src/lexer.rs:65-88 | a digit run at the front that fits an `i32`, ended by a character that is neither digit nor letter, is one constant token before the rest's tokens |
| LexerLemmas.ScanMarkThen | src/lexer.rs:89-108 | a punctuation mark at the front is its token before the rest's tokens |
| LexerLemmas.ScanSpaceThen | src/lexer.rs:24-27 | a space at the front adds no token |
| LexerExamples.DigitThenLetterRejected | src/lexer.rs:75-79 | `1foo` is rejected as an identifier that starts with a digit |
| LexerExamples.DigitRunEndingInputRejected | src/lexer.rs:71-77 | `return 2` aborts, because the character after the final digit is read past the end |
| LexerExamples.KeywordPrefixIsIdentifier | src/lexer.rs:46-62 | `intx` is one identifier, not `int` then `x` |
| LexerExamples.DecimalPrefix | src/lexer.rs:85 | the first nine digits of the largest `i32` read as their value |
| LexerExamples.LargestConstantAccepted | src/lexer.rs:85-87 | `2147483647;` lexes to that constant and a semicolon |
| LexerExamples.ConstantOverflowRejected | src/lexer.rs:85 | `2147483648;` is rejected as out of `i32` range |
| Lexer.KeywordOrIdentifier | src/lexer.rs:46-62 | `int`, `void` and `return` are keywords, each exactly for its word; every other word is an identifier carrying the word |
| Lexer.Punctuation | src/lexer.rs:89-108 | exactly the five characters `(){};` have a token |
| Parser.Parser.constructor | src/parser.rs:11-12 | a parser over the tokens with its cursor at 0 |
| Parser.Parser.Expect | src/parser.rs:74-82 | passes iff the token at the cursor is the expected one, then advances by one; else the cursor stays and the error names the expected and the actual token, or running out of tokens |
| Parser.Parser.ParseIdentifier | src/parser.rs:46-53 | succeeds iff the cursor is on an identifier, returning its name and advancing by one; else an error naming the token found |
| Parser.Parser.ParseExpression | src/parser.rs:65-72 | succeeds iff the cursor is on a constant, returning its value and advancing by one; else an error naming the token found |
| Parser.Parser.ParseStatement | src/parser.rs:55-63 | succeeds iff `return <constant> ;` is at the cursor, advancing by 3 and building the statement of that constant; else reports the first slot that does not fit |
| Parser.Parser.ParseFunction | src/parser.rs:27-44 | succeeds iff the ten tokens of a function are at the cursor, advancing by 10 and building the function of that name and constant; else reports the first slot that does not fit |
| Parser.Parser.ParseProgram | src/parser.rs:17-25 | succeeds iff a function ends exactly at the last token; a function followed by more tokens is an extra-tokens error; otherwise the first mismatching slot |
| Parser.Parse | src/parser.rs:11-15 | succeeds exactly on the ten tokens `int name ( void ) { return c ; }` and builds the program tree of that name and constant; every other input fails with the error described |
| Parser.StatementErrorIsFirstMismatch | src/parser.rs:55-63 | the statement rule stops at the first of its three slots that does not fit |
| Parser.FunctionErrorIsFirstMismatch | src/parser.rs:27-44 | the function rule stops at the first of its ten slots that does not fit |
| Parser.FunctionRuleIsFunctionAt | src/parser.rs:27-44 | no slot mismatches iff a function starts at the position |
| Parser.MissingOpenBraceReported | src/parser.rs:36 | a function without `{` is reported at the `{` slot, with the token found there |
| Syntax.FromNode | src/assembly.rs:29-49 | the lowering's input tree keeps the name and the constant of the parser's tree |
| Syntax.ToNode | src/parser.rs:4-9 | every syntactic program is a parser tree of program shape |
| Syntax.NodeRoundTrip | src/parser.rs:4-9 | translating between the two trees and back is the identity, both ways |
| Syntax.ParsedProgramTranslates | src/parser.rs:24 | every tree the parser builds has the shape the lowering reads |
| Assembly.GenerateInstructions | src/assembly.rs:43-62 | two instructions that end in `ret` and return the statement's constant through the register |
| Assembly.GenerateFunction | src/assembly.rs:35-41 | keeps the name; the body returns the function's constant through the register |
| Assembly.GenerateAssembly | src/assembly.rs:29-33 | the program's function keeps its name and returns its constant through the register |
| Assembly.GenerateAssemblyInjective | src/assembly.rs:29-62 | distinct programs lower to distinct assembly |
| Assembly.TwoInstructionReturnIsUnique | src/assembly.rs:52-57 | the only two instructions that return `c` through the register are the move of `c` and `ret` |
| Decimal.NatToDecimal | src/emission.rs:40 | the decimal text of a natural is canonical, and starts with `0` only for zero |
| Decimal.IntToDecimal | src/emission.rs:40 | the decimal text of an integer starts with `-` iff it is negative; the rest is canonical |
| Decimal.DecimalValueOfNatToDecimal | src/emission.rs:40 | the text of `n` reads back as `n` |
| Decimal.NatToDecimalOfDecimalValue | src/emission.rs:40 | a canonical text is the text of its own value |
| Decimal.IntToDecimalRoundTrip | src/emission.rs:40 | the decimal text of any integer parses back to it |
| Emission.EmitInstruction | src/emission.rs:28-35 | an instruction's line is indented by three spaces, holds more than the indent, and ends in a newline |
| Emission.EmitOperand | src/emission.rs:37-42 | an operand's text is more than one character, with no newline and no comma |
| Emission.EmitFunction | src/emission.rs:17-26 | the loop yields the header, then each instruction's line in order |
| Emission.EmitCode | src/emission.rs:5-15 | the function's text, then the trailer |
| Emission.OperandRoundTrip | src/emission.rs:37-42 | an operand's text reads back as the operand |
| Emission.InstructionRoundTrip | src/emission.rs:28-35 | an instruction's line reads back as the instruction |
| Emission.ImmediateText | src/emission.rs:40 | `Imm(c)` is `$`, a `-` when negative, and the canonical digits of its magnitude |
| Emission.InstructionIsOneLine | src/emission.rs:28-35 | each instruction is exactly one line |
| Emission.HeaderIsTwoLines | src/emission.rs:20 | the header is two lines when the name holds no newline |
| Emission.InstructionsTextNewlines | src/emission.rs:21-23 | the instruction lines hold one newline per instruction |
| Emission.ProgramTextShape | src/emission.rs:5-26 | the text is the `.globl` line, the label line, the instruction lines, then the trailer |
| Emission.ProgramTextNewlines | src/emission.rs:5-26 | the text holds two newlines for the header, one per instruction, and none after the trailer |
| Emission.TrailerHasNoNewline | src/emission.rs:10 | the trailer ends the text without a newline |
| Pipeline.LowerThenEmit | src/assembly.rs:29-62 | lowering and emitting the parser's tree of `name` and `c` gives the header, `movl $c, %eax`, `ret` and the trailer |
| Pipeline.Compile | src/main.rs:18-49 | a lexing error is reported as such; a parse error exactly when the tokens are not one function; for `int name(void) { return c; }` the output is that function's text, and every output is the text of such a function, four lines and the trailer |
| Pipeline.FunctionSourceIsAscii | src/lexer.rs:16-17 | the source text of a function is ASCII, so the lexer accepts it as input |
| Pipeline.ScanStatementSource | src/lexer.rs:21-113 | `return <digits>;}` lexes to the statement's three tokens and the closing brace |
| Pipeline.ScanFunctionSource | src/lexer.rs:16-116 | `int <name>(void){return <digits>;}` lexes to exactly the ten tokens of the function of that name and the digits' value, for every non-keyword name and every digit run that fits an `i32` |
| Pipeline.ExpectedTextLines | src/emission.rs:5-26 | the text of a function named by an identifier is four lines and the trailer |
| Pipeline.LexedTextLines | src/lexer.rs:30-63 | the function a source lexes to has a text of four lines and the trailer, as lexed identifiers hold no newline |
| Pipeline.CompileFunctionSource | src/main.rs:18-49 | compiling the source text of a function yields that function's text |
| Pipeline.MainSource | src/lexer.rs:16-116 | `int main(void){return 2;}` is the source text of the function `main` returning `2` |
| Pipeline.CompileMainReturningTwo | src/main.rs:18-49 | compiling `int main(void){return 2;}` yields the five lines written out |
| Pipeline.MainReturningTwo | src/emission.rs:5-42 | the text for `int main(void) { return 2; }` written out |

## Left out

- Lexer.Lex: requires an ASCII source. Rust classifies Unicode letters, digits and whitespace, and advances the cursor by the byte length of an identifier, which skips characters after a non-ASCII one. Unicode classification is outside this model.
- Lexer.Lex, Parser.Parse: a panic ends the Rust program. Here it is an error value, and its message text is not modelled.
- Lexer.LexToken: the body of the scan loop is split out as its own method, so the loop's proof is about one step at a time. The Rust code has it inline.
- Pipeline.Compile: the driver in src/main.rs only lexes and dumps the tokens. `Compile` states what the four stages give when chained, as the driver's `--lex`, `--parse` and `--codegen` flags describe. The driver's argument handling, the `gcc -E` preprocessing call and the file I/O are not modelled.
- Assembly: the two pushes onto a fresh vector in `generate_instructions` are modelled as a two-element sequence. The `Box` indirections and moves of ownership are not modelled.
- Syntax: the tree types that src/assembly.rs imports from the parser module are not declared in src/parser.rs as shown. Their shape is taken from their use in src/assembly.rs.
- What the assembler or the processor does with the emitted text is not modelled; the emission text is the end of the model.
