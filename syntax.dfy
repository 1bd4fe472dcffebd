/** The syntactic tree that src/assembly.rs lowers: one type per grammar rule
    (`ASTRootNode`, `ASTFunction`, `ASTStatement`, `ASTExpression`, as used at
    src/assembly.rs:1, 29-50). src/parser.rs as it stands builds the single
    `ASTNode` enum instead; `FromNode` and `ToNode` translate between the two. */
module Syntax {
  import opened Decimal
  import Parser

  datatype ASTRootNode = Program(func: ASTFunction)
  datatype ASTFunction = ASTFunction(name: string, body: ASTStatement)
  datatype ASTStatement = Return(expr: ASTExpression)
  datatype ASTExpression = Constant(value: Int32)

  /** An `ASTNode` of the shape the parser builds: a program holding a function
      whose body is a statement holding an expression. */
  predicate IsProgramNode(node: Parser.ASTNode) {
    node.Program? && node.func.Function? && node.func.body.Statement? && node.func.body.expr.Expression?
  }

  function FromNode(node: Parser.ASTNode): (root: ASTRootNode)
    requires IsProgramNode(node)
    ensures root.func.name == node.func.name
    ensures root.func.body.expr.value == node.func.body.expr.value
  {
    Program(ASTFunction(node.func.name, Return(Constant(node.func.body.expr.value))))
  }

  function ToNode(root: ASTRootNode): (node: Parser.ASTNode)
    ensures IsProgramNode(node)
  {
    Parser.Program(Parser.Function(root.func.name, Parser.Statement(Parser.Expression(root.func.body.expr.value))))
  }

  /** The two trees carry the same information: translating there and back is
      the identity, both ways. */
  lemma NodeRoundTrip(node: Parser.ASTNode, root: ASTRootNode)
    ensures IsProgramNode(node) ==> ToNode(FromNode(node)) == node
    ensures FromNode(ToNode(root)) == root
  {
  }

  /** Every tree the parser builds has the shape the lowering expects. */
  lemma ParsedProgramTranslates(name: string, value: Int32)
    ensures IsProgramNode(Parser.ProgramNode(name, value))
    ensures FromNode(Parser.ProgramNode(name, value)) == Program(ASTFunction(name, Return(Constant(value))))
  {
  }
}
