/** The recursive-descent parser of src/parser.rs. Every rule reads the token
    vector and advances one shared cursor, so the parser is a class whose
    `at` field is that cursor and whose methods are the rules. The tree it
    builds is the `ASTNode` enum of src/parser.rs. */
module Parser {
  import opened Wrappers
  import opened Decimal
  import opened Lexer

  datatype ASTNode =
    | Program(func: ASTNode)
    | Function(name: string, body: ASTNode)
    | Statement(expr: ASTNode)         // `return <expr>;`
    | Expression(value: Int32)         // a constant

  /** Each way a parse aborts. */
  datatype ParseError =
    | Mismatch(expected: Token, got: Token)   // `expect` saw another token
    | ExpectedIdentifier(got: Token)
    | ExpectedExpression(got: Token)
    | OutOfTokens(at: nat)                    // `tokens[at]` read past the end
    | ExtraTokens(at: nat)                    // tokens remain after the program

  /** The only tree a parse can build. */
  function ProgramNode(name: string, value: Int32): ASTNode {
    Program(Function(name, Statement(Expression(value))))
  }

  /** The three tokens of `return <value>;`. */
  function StatementTokens(value: Int32): seq<Token> {
    [Return, Constant(value), Semicolon]
  }

  /** The ten tokens of `int <name>(void) { return <value>; }`. */
  function FunctionTokens(name: string, value: Int32): seq<Token> {
    [Int, Identifier(name), OpenParenthesis, Void, CloseParenthesis, OpenBrace]
    + StatementTokens(value) + [CloseBrace]
  }

  /** A statement starts at `i`. */
  predicate StatementAt(tokens: seq<Token>, i: nat) {
    i + 3 <= |tokens| && tokens[i] == Return && tokens[i + 1].Constant? && tokens[i + 2] == Semicolon
  }

  /** A function starts at `i`. */
  predicate FunctionAt(tokens: seq<Token>, i: nat) {
    i + 10 <= |tokens| && tokens[i] == Int && tokens[i + 1].Identifier?
    && tokens[i + 2] == OpenParenthesis && tokens[i + 3] == Void && tokens[i + 4] == CloseParenthesis
    && tokens[i + 5] == OpenBrace && StatementAt(tokens, i + 6) && tokens[i + 9] == CloseBrace
  }

  /** One position of the grammar: a fixed token, or any identifier or constant. */
  datatype Slot = Exactly(token: Token) | AnyIdentifier | AnyConstant

  /** The two rules with a fixed sequence of slots. */
  datatype Rule = StatementRule | FunctionRule

  function Width(rule: Rule): nat {
    match rule
    case StatementRule => 3
    case FunctionRule => 10
  }

  /** Slot `k` of a rule: `return <constant> ;` and
      `int <identifier> ( void ) { return <constant> ; }`. */
  function SlotOf(rule: Rule, k: nat): Slot
    requires k < Width(rule)
  {
    match rule
    case StatementRule =>
      if k == 0 then Exactly(Return) else if k == 1 then AnyConstant else Exactly(Semicolon)
    case FunctionRule =>
      if k == 0 then Exactly(Int)
      else if k == 1 then AnyIdentifier
      else if k == 2 then Exactly(OpenParenthesis)
      else if k == 3 then Exactly(Void)
      else if k == 4 then Exactly(CloseParenthesis)
      else if k == 5 then Exactly(OpenBrace)
      else if k == 6 then Exactly(Return)
      else if k == 7 then AnyConstant
      else if k == 8 then Exactly(Semicolon)
      else Exactly(CloseBrace)
  }

  predicate Fits(tokens: seq<Token>, i: nat, slot: Slot) {
    i < |tokens| &&
    match slot
    case Exactly(t) => tokens[i] == t
    case AnyIdentifier => tokens[i].Identifier?
    case AnyConstant => tokens[i].Constant?
  }

  /** The error a rule reports when the token at `i` does not fit `slot`. */
  function SlotError(tokens: seq<Token>, i: nat, slot: Slot): ParseError {
    if i >= |tokens| then OutOfTokens(i)
    else match slot
      case Exactly(t) => Mismatch(t, tokens[i])
      case AnyIdentifier => ExpectedIdentifier(tokens[i])
      case AnyConstant => ExpectedExpression(tokens[i])
  }

  /** The error at the first slot of `rule`, from slot `k` on, that the
      token beside it does not fit (slot `j` is read at `tokens[i + j]`), if
      there is one. */
  function FirstMismatch(tokens: seq<Token>, i: nat, rule: Rule, k: nat): Option<ParseError>
    requires k <= Width(rule)
    decreases Width(rule) - k
  {
    if k == Width(rule) then None
    else if !Fits(tokens, i + k, SlotOf(rule, k)) then Some(SlotError(tokens, i + k, SlotOf(rule, k)))
    else FirstMismatch(tokens, i, rule, k + 1)
  }

  /** The error `parse_statement` stops at, slot by slot, if any. */
  function StatementError(tokens: seq<Token>, i: nat): Option<ParseError> {
    if !Fits(tokens, i, Exactly(Return)) then Some(SlotError(tokens, i, Exactly(Return)))
    else if !Fits(tokens, i + 1, AnyConstant) then Some(SlotError(tokens, i + 1, AnyConstant))
    else if !Fits(tokens, i + 2, Exactly(Semicolon)) then Some(SlotError(tokens, i + 2, Exactly(Semicolon)))
    else None
  }

  /** The error `parse_function` stops at, slot by slot, if any. */
  function FunctionError(tokens: seq<Token>, i: nat): Option<ParseError> {
    if !Fits(tokens, i, Exactly(Int)) then Some(SlotError(tokens, i, Exactly(Int)))
    else if !Fits(tokens, i + 1, AnyIdentifier) then Some(SlotError(tokens, i + 1, AnyIdentifier))
    else if !Fits(tokens, i + 2, Exactly(OpenParenthesis)) then Some(SlotError(tokens, i + 2, Exactly(OpenParenthesis)))
    else if !Fits(tokens, i + 3, Exactly(Void)) then Some(SlotError(tokens, i + 3, Exactly(Void)))
    else if !Fits(tokens, i + 4, Exactly(CloseParenthesis)) then Some(SlotError(tokens, i + 4, Exactly(CloseParenthesis)))
    else if !Fits(tokens, i + 5, Exactly(OpenBrace)) then Some(SlotError(tokens, i + 5, Exactly(OpenBrace)))
    else if StatementError(tokens, i + 6).Some? then StatementError(tokens, i + 6)
    else if !Fits(tokens, i + 9, Exactly(CloseBrace)) then Some(SlotError(tokens, i + 9, Exactly(CloseBrace)))
    else None
  }

  /** The statement rule's error is the first of its slots that does not fit. */
  lemma StatementErrorIsFirstMismatch(tokens: seq<Token>, i: nat)
    ensures StatementError(tokens, i) == FirstMismatch(tokens, i, StatementRule, 0)
  {
    assert FirstMismatch(tokens, i, StatementRule, 3) == None;
    assert FirstMismatch(tokens, i, StatementRule, 2)
        == if !Fits(tokens, i + 2, Exactly(Semicolon)) then Some(SlotError(tokens, i + 2, Exactly(Semicolon))) else None;
    assert FirstMismatch(tokens, i, StatementRule, 1)
        == if !Fits(tokens, i + 1, AnyConstant) then Some(SlotError(tokens, i + 1, AnyConstant))
           else FirstMismatch(tokens, i, StatementRule, 2);
  }

  /** The function rule's error is the first of its slots that does not fit;
      the statement's three slots are slots 6 to 8. */
  lemma FunctionErrorIsFirstMismatch(tokens: seq<Token>, i: nat)
    ensures FunctionError(tokens, i) == FirstMismatch(tokens, i, FunctionRule, 0)
  {
    StatementErrorIsFirstMismatch(tokens, i + 6);
    assert FirstMismatch(tokens, i + 6, StatementRule, 3) == None;
    assert FirstMismatch(tokens, i, FunctionRule, 10) == None;
    assert FirstMismatch(tokens, i, FunctionRule, 9)
        == if !Fits(tokens, i + 9, Exactly(CloseBrace)) then Some(SlotError(tokens, i + 9, Exactly(CloseBrace))) else None;
    assert FirstMismatch(tokens, i, FunctionRule, 8)
        == if !Fits(tokens, i + 8, Exactly(Semicolon)) then Some(SlotError(tokens, i + 8, Exactly(Semicolon)))
           else FirstMismatch(tokens, i, FunctionRule, 9);
    assert FirstMismatch(tokens, i, FunctionRule, 7)
        == if !Fits(tokens, i + 7, AnyConstant) then Some(SlotError(tokens, i + 7, AnyConstant))
           else FirstMismatch(tokens, i, FunctionRule, 8);
    assert FirstMismatch(tokens, i, FunctionRule, 6)
        == if StatementError(tokens, i + 6).Some? then StatementError(tokens, i + 6)
           else FirstMismatch(tokens, i, FunctionRule, 9);
  }

  class Parser {
    const tokens: seq<Token>
    var at: nat

    constructor (tokens: seq<Token>)
      ensures this.tokens == tokens && at == 0
    {
      this.tokens := tokens;
      at := 0;
    }

    /** `expect`: the token at the cursor must be `token`; it is consumed. */
    method Expect(token: Token) returns (r: Outcome<ParseError>)
      modifies this
      ensures r.Pass? <==> old(at) < |tokens| && tokens[old(at)] == token
      ensures r.Pass? ==> at == old(at) + 1
      ensures r.Fail? ==> at == old(at) && r.error == SlotError(tokens, old(at), Exactly(token))
    {
      if at >= |tokens| {
        return Fail(OutOfTokens(at));
      }
      if token != tokens[at] {
        return Fail(Mismatch(token, tokens[at]));
      }
      at := at + 1;
      r := Pass;
    }

    /** `parse_identifier`: the name of the identifier at the cursor. */
    method ParseIdentifier() returns (r: Result<string, ParseError>)
      modifies this
      ensures r.Ok? <==> old(at) < |tokens| && tokens[old(at)].Identifier?
      ensures r.Ok? ==> r.value == tokens[old(at)].name && at == old(at) + 1
      ensures r.Err? ==> at == old(at)
      ensures r.Err? ==> r.error == SlotError(tokens, old(at), AnyIdentifier)
    {
      if at >= |tokens| {
        return Err(OutOfTokens(at));
      }
      if tokens[at].Identifier? {
        var s := tokens[at].name;
        at := at + 1;
        return Ok(s);
      }
      r := Err(ExpectedIdentifier(tokens[at]));
    }

    /** `parse_expression`: the value of the constant at the cursor. */
    method ParseExpression() returns (r: Result<Int32, ParseError>)
      modifies this
      ensures r.Ok? <==> old(at) < |tokens| && tokens[old(at)].Constant?
      ensures r.Ok? ==> r.value == tokens[old(at)].value && at == old(at) + 1
      ensures r.Err? ==> at == old(at)
      ensures r.Err? ==> r.error == SlotError(tokens, old(at), AnyConstant)
    {
      if at >= |tokens| {
        return Err(OutOfTokens(at));
      }
      if tokens[at].Constant? {
        var c := tokens[at].value;
        at := at + 1;
        return Ok(c);
      }
      r := Err(ExpectedExpression(tokens[at]));
    }

    /** `parse_statement`: `return <constant> ;`. */
    method ParseStatement() returns (r: Result<ASTNode, ParseError>)
      modifies this
      ensures r.Ok? <==> StatementAt(tokens, old(at))
      ensures r.Ok? ==> at == old(at) + 3 && r.value == Statement(Expression(tokens[old(at) + 1].value))
      ensures r.Err? ==> StatementError(tokens, old(at)) == Some(r.error)
    {
      var expr: Int32;
      :- Expect(Return);
      expr :- ParseExpression();
      :- Expect(Semicolon);
      r := Ok(Statement(Expression(expr)));
    }

    /** `parse_function`: `int <identifier> ( void ) { <statement> }`. */
    method ParseFunction() returns (r: Result<ASTNode, ParseError>)
      modifies this
      ensures r.Ok? <==> FunctionAt(tokens, old(at))
      ensures r.Ok? ==> at == old(at) + 10
      ensures r.Ok? ==> r.value == Function(tokens[old(at) + 1].name, Statement(Expression(tokens[old(at) + 7].value)))
      ensures r.Err? ==> FunctionError(tokens, old(at)) == Some(r.error)
    {
      var identifier: string;
      :- Expect(Int);
      identifier :- ParseIdentifier();
      :- Expect(OpenParenthesis);
      :- Expect(Void);
      :- Expect(CloseParenthesis);
      :- Expect(OpenBrace);
      var statement :- ParseStatement();
      :- Expect(CloseBrace);
      r := Ok(Function(identifier, statement));
    }

    /** `parse_program`: a function, and then no more tokens. */
    method ParseProgram() returns (r: Result<ASTNode, ParseError>)
      modifies this
      ensures r.Ok? <==> FunctionAt(tokens, old(at)) && old(at) + 10 == |tokens|
      ensures r.Ok? ==> r.value == ProgramNode(tokens[old(at) + 1].name, tokens[old(at) + 7].value)
      ensures r.Ok? ==> at == |tokens|
      ensures FunctionAt(tokens, old(at)) && old(at) + 10 < |tokens| ==> r == Err(ExtraTokens(old(at) + 10))
      ensures !FunctionAt(tokens, old(at)) ==> r.Err? && FirstMismatch(tokens, old(at), FunctionRule, 0) == Some(r.error)
    {
      FunctionErrorIsFirstMismatch(tokens, at);
      var func :- ParseFunction();
      if at < |tokens| {
        return Err(ExtraTokens(at));
      }
      r := Ok(Program(func));
    }
  }

  /** `parse`: a fresh cursor at the first token, then the program rule. The
      parse succeeds exactly on the ten tokens of one function, and builds the
      tree that carries that function's name and constant. */
  method Parse(tokens: seq<Token>) returns (r: Result<ASTNode, ParseError>)
    ensures r.Ok? <==> |tokens| == 10 && FunctionAt(tokens, 0)
    ensures r.Ok? ==> tokens == FunctionTokens(tokens[1].name, tokens[7].value)
    ensures r.Ok? ==> r.value == ProgramNode(tokens[1].name, tokens[7].value)
    ensures forall name, value :: tokens == FunctionTokens(name, value) ==> r == Ok(ProgramNode(name, value))
    ensures FunctionAt(tokens, 0) && 10 < |tokens| ==> r == Err(ExtraTokens(10))
    ensures !FunctionAt(tokens, 0) ==> r.Err? && FirstMismatch(tokens, 0, FunctionRule, 0) == Some(r.error)
  {
    var parser := new Parser(tokens);
    r := parser.ParseProgram();
  }

  /** The tokens fit every slot of the function exactly when a function starts
      there: the slot table and `FunctionAt` describe one grammar. */
  lemma FunctionRuleIsFunctionAt(tokens: seq<Token>, i: nat)
    ensures FirstMismatch(tokens, i, FunctionRule, 0).None? <==> FunctionAt(tokens, i)
  {
    FunctionErrorIsFirstMismatch(tokens, i);
  }

  /** A missing `{` is reported where the `{` was expected. */
  lemma MissingOpenBraceReported()
    ensures FirstMismatch([Int, Identifier("main"), OpenParenthesis, Void, CloseParenthesis,
                           Return, Constant(2), Semicolon, CloseBrace], 0, FunctionRule, 0)
         == Some(Mismatch(OpenBrace, Return))
  {
    var tokens := [Int, Identifier("main"), OpenParenthesis, Void, CloseParenthesis, Return, Constant(2), Semicolon, CloseBrace];
    assert FirstMismatch(tokens, 0, FunctionRule, 5) == Some(Mismatch(OpenBrace, Return));
    assert FirstMismatch(tokens, 0, FunctionRule, 4) == FirstMismatch(tokens, 0, FunctionRule, 5);
    assert FirstMismatch(tokens, 0, FunctionRule, 3) == FirstMismatch(tokens, 0, FunctionRule, 4);
    assert FirstMismatch(tokens, 0, FunctionRule, 2) == FirstMismatch(tokens, 0, FunctionRule, 3);
    assert FirstMismatch(tokens, 0, FunctionRule, 1) == FirstMismatch(tokens, 0, FunctionRule, 2);
    assert FirstMismatch(tokens, 0, FunctionRule, 0) == FirstMismatch(tokens, 0, FunctionRule, 1);
  }
}
