/** The lowering of src/assembly.rs: a total map from the syntactic tree to an
    assembly tree of instructions over a register and immediates. */
module Assembly {
  import opened Wrappers
  import opened Decimal
  import Syntax

  datatype AssemblyASTOperand = Register | Imm(value: Int32)

  datatype AssemblyASTInstruction = Mov(src: AssemblyASTOperand, dst: AssemblyASTOperand) | Ret

  datatype AssemblyASTFunction = AssemblyASTFunction(name: string, instructions: seq<AssemblyASTInstruction>)

  datatype AssemblyASTRootNode = Program(func: AssemblyASTFunction)

  /** The calling convention the lowering fixes: the instructions end with an
      explicit `Ret`, and every `Mov` loads an immediate into the register. */
  predicate ReturnsThroughRegister(instructions: seq<AssemblyASTInstruction>) {
    |instructions| > 0 && instructions[|instructions| - 1] == Ret &&
    forall k :: 0 <= k < |instructions| && instructions[k].Mov? ==>
      instructions[k].src.Imm? && instructions[k].dst == Register
  }

  /** What the register holds when the first `Ret` is reached, starting from
      `held`; `None` when no `Ret` is reached or the register is still unset. */
  function ReturnedValue(instructions: seq<AssemblyASTInstruction>, held: Option<Int32>): Option<Int32>
  {
    if instructions == [] then None
    else match instructions[0]
      case Ret => held
      case Mov(src, dst) =>
        var next := if dst == Register && src.Imm? then Some(src.value) else held;
        ReturnedValue(instructions[1..], next)
  }

  /** `generate_instructions`: `return <constant>` becomes a move of the
      constant into the register, then a return. */
  function GenerateInstructions(statement: Syntax.ASTStatement): (instructions: seq<AssemblyASTInstruction>)
    ensures |instructions| == 2
    ensures ReturnsThroughRegister(instructions)
    ensures ReturnedValue(instructions, None) == Some(statement.expr.value)
  {
    match statement
    case Return(expr) =>
      var src := match expr case Constant(c) => c;
      [Mov(Imm(src), Register), Ret]
  }

  /** `generate_function`: the name is copied, the body lowered. */
  function GenerateFunction(f: Syntax.ASTFunction): (r: AssemblyASTFunction)
    ensures r.name == f.name
    ensures ReturnsThroughRegister(r.instructions)
    ensures ReturnedValue(r.instructions, None) == Some(f.body.expr.value)
  {
    AssemblyASTFunction(f.name, GenerateInstructions(f.body))
  }

  /** `generate_assembly`: total, one assembly program per syntactic program. */
  function GenerateAssembly(ast: Syntax.ASTRootNode): (r: AssemblyASTRootNode)
    ensures r.func.name == ast.func.name
    ensures ReturnsThroughRegister(r.func.instructions)
    ensures ReturnedValue(r.func.instructions, None) == Some(ast.func.body.expr.value)
  {
    match ast
    case Program(f) => Program(GenerateFunction(f))
  }

  /** Lowering loses nothing: distinct programs lower to distinct programs. */
  lemma GenerateAssemblyInjective(a: Syntax.ASTRootNode, b: Syntax.ASTRootNode)
    requires GenerateAssembly(a) == GenerateAssembly(b)
    ensures a == b
  {
    assert Some(a.func.body.expr.value) == ReturnedValue(GenerateAssembly(a).func.instructions, None);
  }

  /** Two instructions that return through the register the value `c` can only
      be the move of `c` into the register followed by `Ret`, so the contract
      of `GenerateInstructions` fixes its result. */
  lemma TwoInstructionReturnIsUnique(instructions: seq<AssemblyASTInstruction>, c: Int32)
    requires |instructions| == 2 && ReturnsThroughRegister(instructions)
    requires ReturnedValue(instructions, None) == Some(c)
    ensures instructions == [Mov(Imm(c), Register), Ret]
  {
    assert instructions[1..] == [Ret];
  }
}
