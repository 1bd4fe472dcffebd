/** The emitter of src/emission.rs: renders the assembly tree as GNU
    assembler text in AT&T syntax, then the non-executable-stack trailer. */
module Emission {
  import opened Wrappers
  import opened Decimal
  import opened Assembly

  /** Marks the stack as not executable; the last line, with no newline. */
  const Trailer := ".section .note.GNU-stack,\"\",@progbits"

  /** How many lines a text ends: its number of newline characters. */
  function NewlineCount(s: string): nat {
    multiset(s)['\n']
  }

  /** `emit_operand`. */
  function EmitOperand(op: AssemblyASTOperand): (s: string)
    ensures |s| > 1 && '\n' !in s && ',' !in s
  {
    match op
    case Register => "%eax"
    case Imm(c) => "$" + IntToDecimal(c)
  }

  /** `emit_instruction`: one line, indented by three spaces. */
  function EmitInstruction(instruction: AssemblyASTInstruction): (s: string)
    ensures |s| > 4 && s[..3] == "   " && s[3] != ' ' && s[|s| - 1] == '\n'
  {
    match instruction
    case Mov(src, dst) => "   movl " + EmitOperand(src) + ", " + EmitOperand(dst) + "\n"
    case Ret => "   ret\n"
  }

  /** The first two lines of a function: the global declaration and the label. */
  function Header(name: string): string {
    "  .globl " + name + "\n" + name + ":\n"
  }

  /** The lines of the instructions, in order. */
  function InstructionsText(instructions: seq<AssemblyASTInstruction>): string {
    if instructions == [] then ""
    else InstructionsText(instructions[..|instructions| - 1]) + EmitInstruction(instructions[|instructions| - 1])
  }

  function FunctionText(f: AssemblyASTFunction): string {
    Header(f.name) + InstructionsText(f.instructions)
  }

  function ProgramText(program: AssemblyASTRootNode): string {
    FunctionText(program.func) + Trailer
  }

  lemma InstructionsTextExtend(instructions: seq<AssemblyASTInstruction>, k: nat)
    requires k < |instructions|
    ensures InstructionsText(instructions[..k + 1]) == InstructionsText(instructions[..k]) + EmitInstruction(instructions[k])
  {
    var prefix := instructions[..k + 1];
    assert prefix[..|prefix| - 1] == instructions[..k];
  }

  /** Appending the next instruction's line after a fixed prefix. */
  lemma AppendLine(prefix: string, instructions: seq<AssemblyASTInstruction>, k: nat)
    requires k < |instructions|
    ensures prefix + InstructionsText(instructions[..k + 1])
         == prefix + InstructionsText(instructions[..k]) + EmitInstruction(instructions[k])
  {
    InstructionsTextExtend(instructions, k);
  }

  /** `emit_function`: the header, then each instruction appended in a loop. */
  method EmitFunction(f: AssemblyASTFunction) returns (text: string)
    ensures text == FunctionText(f)
  {
    text := "";
    text := text + Header(f.name);
    for k := 0 to |f.instructions|
      invariant text == Header(f.name) + InstructionsText(f.instructions[..k])
    {
      AppendLine(Header(f.name), f.instructions, k);
      text := text + EmitInstruction(f.instructions[k]);
    }
    assert f.instructions[..|f.instructions|] == f.instructions;
  }

  /** `emit_code`: the function's text, then the trailer. */
  method EmitCode(assembly: AssemblyASTRootNode) returns (program: string)
    ensures program == ProgramText(assembly)
  {
    program := "";
    match assembly {
      case Program(f) =>
        var functionText := EmitFunction(f);
        program := program + functionText;
        program := program + Trailer;
    }
  }

  // The inverse reading of an operand and of an instruction line.

  function ParseOperand(s: string): Option<AssemblyASTOperand> {
    if s == "%eax" then Some(Register)
    else if |s| > 0 && s[0] == '$' then
      match ParseDecimal(s[1..])
      case Some(v) => if I32_MIN <= v <= I32_MAX then Some(Imm(v)) else None
      case None => None
    else None
  }

  /** The index of the first `,` in `s`, or `|s|`. */
  function CommaIndex(s: string): (k: nat)
    ensures k <= |s| && (k < |s| ==> s[k] == ',') && forall j :: 0 <= j < k ==> s[j] != ','
  {
    if s == [] then 0 else if s[0] == ',' then 0 else 1 + CommaIndex(s[1..])
  }

  function ParseInstruction(line: string): Option<AssemblyASTInstruction> {
    if line == "   ret\n" then Some(Ret)
    else if |line| > 9 && line[..8] == "   movl " && line[|line| - 1] == '\n' then
      var operands := line[8..|line| - 1];
      var k := CommaIndex(operands);
      if k + 2 <= |operands| && operands[k..k + 2] == ", " then
        match (ParseOperand(operands[..k]), ParseOperand(operands[k + 2..]))
        case (Some(src), Some(dst)) => Some(Mov(src, dst))
        case _ => None
      else None
    else None
  }

  /** An operand's text reads back as that operand: `%eax` as the register,
      `$` and the signed decimal text of `c` as `Imm(c)`. */
  lemma OperandRoundTrip(op: AssemblyASTOperand)
    ensures ParseOperand(EmitOperand(op)) == Some(op)
  {
    if op.Imm? {
      var s := EmitOperand(op);
      assert s[1..] == IntToDecimal(op.value);
      IntToDecimalRoundTrip(op.value);
    }
  }

  /** The pieces of a `movl` line that its reader looks at. */
  lemma MovLinePieces(src: string, dst: string)
    requires |src| > 0
    ensures var line := "   movl " + src + ", " + dst + "\n";
      |line| > 9 && line != "   ret\n" && line[..8] == "   movl " && line[|line| - 1] == '\n'
      && line[8..|line| - 1] == src + (", " + dst)
  {
    var line := "   movl " + src + ", " + dst + "\n";
    assert line[3] == 'm';
    assert "   ret\n"[3] == 'r';
    assert line[..8] == "   movl ";
    assert line[8..|line| - 1] == src + (", " + dst);
  }

  /** A `movl` line over two operand texts reads back as the move between
      the operands those texts read as. */
  lemma MovLineRoundTrip(src: string, dst: string, a: AssemblyASTOperand, b: AssemblyASTOperand)
    requires ',' !in src && |src| > 0
    requires ParseOperand(src) == Some(a) && ParseOperand(dst) == Some(b)
    ensures ParseInstruction("   movl " + src + ", " + dst + "\n") == Some(Mov(a, b))
  {
    MovLinePieces(src, dst);
    var operands := src + (", " + dst);
    CommaIndexOfJoin(src, ", " + dst);
    assert operands[..|src|] == src;
    assert operands[|src|..|src| + 2] == ", ";
    assert operands[|src| + 2..] == dst;
  }

  /** An instruction's line reads back as that instruction. */
  lemma InstructionRoundTrip(instruction: AssemblyASTInstruction)
    ensures ParseInstruction(EmitInstruction(instruction)) == Some(instruction)
  {
    match instruction
    case Ret =>
    case Mov(src, dst) =>
      OperandRoundTrip(src);
      OperandRoundTrip(dst);
      MovLineRoundTrip(EmitOperand(src), EmitOperand(dst), src, dst);
  }

  lemma CommaIndexOfJoin(a: string, b: string)
    requires ',' !in a && |b| > 0 && b[0] == ','
    ensures CommaIndex(a + b) == |a|
  {
    assert (a + b)[|a|] == ',';
    assert forall j :: 0 <= j < |a| ==> (a + b)[j] == a[j];
  }

  /** The immediate of a constant written in canonical decimal is `$` and that
      very text: `Imm(0)` is `$0`, `Imm(-5)` is `$-5`. */
  lemma ImmediateText(c: Int32, digits: string)
    requires IsCanonical(digits) && DecimalValue(digits) == if c < 0 then -(c as int) else c as int
    ensures EmitOperand(Imm(c)) == "$" + (if c < 0 then "-" else "") + digits
  {
    NatToDecimalOfDecimalValue(digits);
  }

  /** A text without a newline character counts none. */
  lemma NoNewlineCount(s: string)
    requires '\n' !in s
    ensures NewlineCount(s) == 0
  {
    assert '\n' !in multiset(s);
  }

  /** Counting newlines adds up over concatenation. */
  lemma NewlineCountAppend(a: string, b: string)
    ensures NewlineCount(a + b) == NewlineCount(a) + NewlineCount(b)
  {
    assert multiset(a + b) == multiset(a) + multiset(b);
  }

  /** A text without a newline, then a newline, is one line. */
  lemma LineIsOneLine(s: string)
    requires '\n' !in s
    ensures NewlineCount(s + "\n") == 1
  {
    NoNewlineCount(s);
    NewlineCountAppend(s, "\n");
  }

  /** Each instruction is written as exactly one line. */
  lemma InstructionIsOneLine(instruction: AssemblyASTInstruction)
    ensures NewlineCount(EmitInstruction(instruction)) == 1
  {
    match instruction
    case Ret =>
      LineIsOneLine("   ret");
      assert "   ret\n" == "   ret" + "\n";
    case Mov(src, dst) =>
      var text := "   movl " + EmitOperand(src) + ", " + EmitOperand(dst);
      assert '\n' !in text;
      LineIsOneLine(text);
  }

  /** The header is two lines when the name holds no newline. */
  lemma HeaderIsTwoLines(name: string)
    requires '\n' !in name
    ensures NewlineCount(Header(name)) == 2
  {
    var first, second := "  .globl " + name, name + ":";
    assert '\n' !in first && '\n' !in second;
    LineIsOneLine(first);
    LineIsOneLine(second);
    assert Header(name) == (first + "\n") + (second + "\n");
    NewlineCountAppend(first + "\n", second + "\n");
  }

  /** Every instruction is one line. */
  lemma {:induction false} InstructionsTextNewlines(instructions: seq<AssemblyASTInstruction>)
    ensures NewlineCount(InstructionsText(instructions)) == |instructions|
    decreases |instructions|
  {
    if instructions != [] {
      var front, last := instructions[..|instructions| - 1], instructions[|instructions| - 1];
      InstructionsTextNewlines(front);
      InstructionIsOneLine(last);
      NewlineCountAppend(InstructionsText(front), EmitInstruction(last));
    }
  }

  /** The emitted program: the header lines, the instruction lines in order,
      then the trailer with no newline after it. */
  lemma ProgramTextShape(program: AssemblyASTRootNode)
    ensures ProgramText(program)
         == ("  .globl " + program.func.name + "\n") + (program.func.name + ":\n")
            + InstructionsText(program.func.instructions) + Trailer
  {
  }

  /** One newline per line before the trailer: two for the header, one per
      instruction, none after the trailer. */
  lemma ProgramTextNewlines(program: AssemblyASTRootNode)
    requires '\n' !in program.func.name
    ensures NewlineCount(ProgramText(program)) == 2 + |program.func.instructions|
  {
    var header, body := Header(program.func.name), InstructionsText(program.func.instructions);
    HeaderIsTwoLines(program.func.name);
    InstructionsTextNewlines(program.func.instructions);
    TrailerHasNoNewline();
    NewlineCountAppend(header, body);
    assert NewlineCount(header + body) == 2 + |program.func.instructions|;
    NewlineCountAppend(header + body, Trailer);
    assert ProgramText(program) == header + body + Trailer;
  }

  /** The trailer ends the text without a newline. */
  lemma TrailerHasNoNewline()
    ensures NewlineCount(Trailer) == 0
  {
    NoNewlineCount(Trailer);
  }
}
