/** The assembler: translates program text into a 256-slot program, stopping at
    the first error. */
module Parser {
  import opened Names
  import opened Wrappers
  import opened Text

  /** Assembler errors. `line` and `col` are positions carried as 8-bit numbers;
      `token` is the offending text. */
  datatype ParserError =
    | UnknownKeyWord(line: u8, col: u8, token: string)
    | InvalidArgument(line: u8, col: u8, token: string)
    | LengthError(count: nat)
    | InstructionLengthError(expected: u8, actual: nat)

  /* ---------------------------------------------------------------- registers */

  /** The assembly spelling of each register. */
  function RegisterName(r: Register): string {
    match r
    case A => "a"
    case B => "b"
    case Rip => "rip"
    case Res => "result"
  }

  predicate IsRegisterName(s: string) {
    exists r :: RegisterName(r) == s
  }

  /** Accepts exactly the four register spellings (case-sensitive); anything else is
      an `InvalidArgument` at the given position carrying the token. */
  function ParseRegister(line: u8, col: u8, s: string): (r: Result<Register, ParserError>)
    ensures r.Ok? <==> IsRegisterName(s)
    ensures r.Ok? ==> RegisterName(r.value) == s
    ensures r.Err? ==> r.error == InvalidArgument(line, col, s)
  {
    match s
    case "a" => assert RegisterName(A) == s; Ok(A)
    case "b" => assert RegisterName(B) == s; Ok(B)
    case "rip" => assert RegisterName(Rip) == s; Ok(Rip)
    case "result" => assert RegisterName(Res) == s; Ok(Res)
    case _ => Err(InvalidArgument(line, col, s))
  }

  /* ---------------------------------------------------------------- numbers */

  predicate IsDigit(c: char) {
    '0' <= c <= '9'
  }

  predicate AllDigits(s: string) {
    forall k :: 0 <= k < |s| ==> IsDigit(s[k])
  }

  function DigitValue(c: char): nat
    requires IsDigit(c)
  {
    c as int - '0' as int
  }

  /** The value of the decimal digits `s` appended to the value `acc`, in unbounded
      arithmetic. */
  function DecimalValue(acc: nat, s: string): nat
    requires AllDigits(s)
    decreases |s|
  {
    if |s| == 0 then acc else DecimalValue(acc * 10 + DigitValue(s[0]), s[1..])
  }

  /** `s` without one optional leading `+`. */
  function Unsigned(s: string): string {
    if |s| > 0 && s[0] == '+' then s[1..] else s
  }

  /** The text an unsigned 8-bit integer parses from: an optional `+`, then one or
      more ASCII digits whose value is at most 255. */
  predicate IsU8Literal(s: string) {
    var d := Unsigned(s);
    |d| > 0 && AllDigits(d) && DecimalValue(0, d) <= 255
  }

  /** Appending digits never decreases the value. */
  lemma {:induction false} DecimalValueAtLeast(acc: nat, s: string)
    requires AllDigits(s)
    ensures DecimalValue(acc, s) >= acc
    decreases |s|
  {
    if |s| > 0 {
      DecimalValueAtLeast(acc * 10 + DigitValue(s[0]), s[1..]);
    }
  }

  /** The digit loop of the integer parser: multiply by ten and add the digit, failing
      on a non-digit or as soon as the value leaves the 8-bit range. */
  function AccumulateU8(acc: u8, digits: string): (r: Option<u8>)
    ensures r.Some? <==> AllDigits(digits) && DecimalValue(acc as nat, digits) <= 255
    ensures r.Some? ==> r.value as nat == DecimalValue(acc as nat, digits)
    decreases |digits|
  {
    if |digits| == 0 then Some(acc)
    else if !IsDigit(digits[0]) then None
    else
      var v := acc as int * 10 + DigitValue(digits[0]);
      if v > 255 then
        (if AllDigits(digits[1..]) then DecimalValueAtLeast(v, digits[1..]); None else None)
      else
        AccumulateU8(v as u8, digits[1..])
  }

  /** Unsigned 8-bit integer parsing: succeeds exactly on `IsU8Literal` text, with
      its decimal value. */
  function ParseU8(s: string): (r: Option<u8>)
    ensures r.Some? <==> IsU8Literal(s)
    ensures r.Some? ==> r.value as nat == DecimalValue(0, Unsigned(s))
  {
    var digits := Unsigned(s);
    if |digits| == 0 then None else AccumulateU8(0, digits)
  }

  /** A numeric operand: an 8-bit literal, otherwise an `InvalidArgument` carrying the token. */
  function ParseNumber(line: u8, col: u8, s: string): (r: Result<u8, ParserError>)
    ensures r.Ok? <==> IsU8Literal(s)
    ensures r.Ok? ==> r.value as nat == DecimalValue(0, Unsigned(s))
    ensures r.Err? ==> r.error == InvalidArgument(line, col, s)
  {
    match ParseU8(s)
    case Some(v) => Ok(v)
    case None => Err(InvalidArgument(line, col, s))
  }

  /** Whether the token `t` is a spelling of the number `v`. */
  predicate Spells(t: string, v: u8) {
    IsU8Literal(t) && DecimalValue(0, Unsigned(t)) == v as nat
  }

  /* ---------------------------------------------------------------- instructions */

  /** The opcode mnemonic of each instruction. */
  function Mnemonic(ins: Instruction): string {
    match ins
    case Nop => "nop"
    case Move(_, _) => "mov"
    case Cpy(_, _) => "cpy"
    case Sub(_, _) => "sub"
    case Add(_, _) => "add"
    case LoadFromAddress(_, _) => "lfa"
    case LoadToAddress(_, _) => "lta"
    case JumpLessThan(_) => "jlt"
    case JumpGreaterThan(_) => "jgt"
    case JumpEqual(_) => "jeq"
    case Jump(_) => "jmp"
    case Dump(_) => "dump"
    case DumpMem(_) => "dm"
  }

  /** Mnemonics of the instructions written with two operands (three tokens). */
  const ThreeTokenOps: set<string> := {"mov", "cpy", "sub", "add", "lfa", "lta"}

  /** Mnemonics of the instructions written with one operand (two tokens). */
  const TwoTokenOps: set<string> := {"jlt", "jgt", "jeq", "jmp", "dump", "dm"}

  /** Mnemonics taking two register operands (columns 1 and 2). */
  const RegisterPairOps: set<string> := {"cpy", "sub", "add", "lfa", "lta"}

  /** Mnemonics taking one jump target (column 1). */
  const TargetOps: set<string> := {"jlt", "jgt", "jeq", "jmp"}

  /** Mnemonics taking one register operand (column 1). */
  const RegisterOps: set<string> := {"dump", "dm"}

  /** Every mnemonic the assembler knows. */
  const Mnemonics: set<string> := {"nop"} + ThreeTokenOps + TwoTokenOps

  /** Whether the tokens of a line are a correct assembly of `ins`: the mnemonic, then
      each operand in its position (for `lta` the address register comes second).
      `nop` may be followed by anything. */
  predicate Denotes(cols: seq<string>, ins: Instruction) {
    && |cols| >= 1
    && cols[0] == Mnemonic(ins)
    && match ins
       case Nop => true
       case Move(r, v) => |cols| == 3 && cols[1] == RegisterName(r) && Spells(cols[2], v)
       case Cpy(d, s) => |cols| == 3 && cols[1] == RegisterName(d) && cols[2] == RegisterName(s)
       case Sub(x, y) => |cols| == 3 && cols[1] == RegisterName(x) && cols[2] == RegisterName(y)
       case Add(x, y) => |cols| == 3 && cols[1] == RegisterName(x) && cols[2] == RegisterName(y)
       case LoadFromAddress(d, addr) =>
         |cols| == 3 && cols[1] == RegisterName(d) && cols[2] == RegisterName(addr)
       case LoadToAddress(addr, s) =>
         |cols| == 3 && cols[1] == RegisterName(s) && cols[2] == RegisterName(addr)
       case JumpLessThan(t) => |cols| == 2 && Spells(cols[1], t)
       case JumpGreaterThan(t) => |cols| == 2 && Spells(cols[1], t)
       case JumpEqual(t) => |cols| == 2 && Spells(cols[1], t)
       case Jump(t) => |cols| == 2 && Spells(cols[1], t)
       case Dump(r) => |cols| == 2 && cols[1] == RegisterName(r)
       case DumpMem(r) => |cols| == 2 && cols[1] == RegisterName(r)
  }

  /** `mov <reg> <u8>`: exactly three tokens, checked before any operand; the register
      is reported at column 2 and the number at column 3. */
  function ParseMove(line: u8, cols: seq<string>): (r: Result<Instruction, ParserError>)
    ensures |cols| != 3 ==> r == Err(InstructionLengthError(3, |cols|))
    ensures r.Ok? ==> |cols| == 3 && r.value.Move?
                      && RegisterName(r.value.dst) == cols[1] && Spells(cols[2], r.value.value)
    ensures |cols| == 3 && !IsRegisterName(cols[1]) ==> r == Err(InvalidArgument(line, 2, cols[1]))
    ensures |cols| == 3 && IsRegisterName(cols[1]) && !IsU8Literal(cols[2]) ==>
              r == Err(InvalidArgument(line, 3, cols[2]))
    ensures |cols| == 3 && IsRegisterName(cols[1]) && IsU8Literal(cols[2]) ==> r.Ok?
  {
    if |cols| == 3 then
      match ParseRegister(line, 2, cols[1])
      case Err(e) => Err(e)
      case Ok(reg) =>
        match ParseNumber(line, 3, cols[2])
        case Err(e) => Err(e)
        case Ok(n) => Ok(Move(reg, n))
    else
      Err(InstructionLengthError(3, |cols|))
  }

  /** The two register operands of `cpy`, `sub`, `add`, `lfa` and `lta`: exactly three
      tokens, checked before any operand; the operands are reported at columns 1 and 2,
      the first one first. */
  function ParseRegPair(line: u8, cols: seq<string>): (r: Result<(Register, Register), ParserError>)
    ensures |cols| != 3 ==> r == Err(InstructionLengthError(3, |cols|))
    ensures r.Ok? ==> |cols| == 3 && RegisterName(r.value.0) == cols[1] && RegisterName(r.value.1) == cols[2]
    ensures |cols| == 3 && !IsRegisterName(cols[1]) ==> r == Err(InvalidArgument(line, 1, cols[1]))
    ensures |cols| == 3 && IsRegisterName(cols[1]) && !IsRegisterName(cols[2]) ==>
              r == Err(InvalidArgument(line, 2, cols[2]))
    ensures |cols| == 3 && IsRegisterName(cols[1]) && IsRegisterName(cols[2]) ==> r.Ok?
  {
    if |cols| == 3 then
      match ParseRegister(line, 1, cols[1])
      case Err(e) => Err(e)
      case Ok(r1) =>
        match ParseRegister(line, 2, cols[2])
        case Err(e) => Err(e)
        case Ok(r2) => Ok((r1, r2))
    else
      Err(InstructionLengthError(3, |cols|))
  }

  /** The address operand of `jlt`, `jgt`, `jeq` and `jmp`: exactly two tokens, but the
      length error still reports 3 as the expected count; the number is at column 1. */
  function ParseTarget(line: u8, cols: seq<string>): (r: Result<u8, ParserError>)
    ensures |cols| != 2 ==> r == Err(InstructionLengthError(3, |cols|))
    ensures r.Ok? ==> |cols| == 2 && Spells(cols[1], r.value)
    ensures |cols| == 2 && !IsU8Literal(cols[1]) ==> r == Err(InvalidArgument(line, 1, cols[1]))
    ensures |cols| == 2 && IsU8Literal(cols[1]) ==> r.Ok?
  {
    if |cols| == 2 then ParseNumber(line, 1, cols[1])
    else Err(InstructionLengthError(3, |cols|))
  }

  /** The register operand of `dump` and `dm`: exactly two tokens, but the length error
      still reports 3 as the expected count; the register is at column 1. */
  function ParseRegOperand(line: u8, cols: seq<string>): (r: Result<Register, ParserError>)
    ensures |cols| != 2 ==> r == Err(InstructionLengthError(3, |cols|))
    ensures r.Ok? ==> |cols| == 2 && RegisterName(r.value) == cols[1]
    ensures |cols| == 2 && !IsRegisterName(cols[1]) ==> r == Err(InvalidArgument(line, 1, cols[1]))
    ensures |cols| == 2 && IsRegisterName(cols[1]) ==> r.Ok?
  {
    if |cols| == 2 then ParseRegister(line, 1, cols[1])
    else Err(InstructionLengthError(3, |cols|))
  }

  /** The positional operand errors of a known mnemonic with the right token count:
      the first operand that does not parse is reported as `InvalidArgument` with its
      column and its token. `mov` numbers its operands 2 and 3, the register pairs
      1 and 2, the one-operand forms 1. */
  predicate ReportsOperandErrors(line: u8, cols: seq<string>, r: Result<Instruction, ParserError>)
    requires |cols| >= 1
  {
    && (cols[0] == "mov" && |cols| == 3 ==>
          && (!IsRegisterName(cols[1]) ==> r == Err(InvalidArgument(line, 2, cols[1])))
          && (IsRegisterName(cols[1]) && !IsU8Literal(cols[2]) ==> r == Err(InvalidArgument(line, 3, cols[2]))))
    && (cols[0] in RegisterPairOps && |cols| == 3 ==>
          && (!IsRegisterName(cols[1]) ==> r == Err(InvalidArgument(line, 1, cols[1])))
          && (IsRegisterName(cols[1]) && !IsRegisterName(cols[2]) ==> r == Err(InvalidArgument(line, 2, cols[2]))))
    && (cols[0] in TargetOps && |cols| == 2 && !IsU8Literal(cols[1]) ==>
          r == Err(InvalidArgument(line, 1, cols[1])))
    && (cols[0] in RegisterOps && |cols| == 2 && !IsRegisterName(cols[1]) ==>
          r == Err(InvalidArgument(line, 1, cols[1])))
  }

  /** The instructions written with two operands, dispatched on the mnemonic. */
  function ParseBinary(line: u8, cols: seq<string>): (r: Result<Instruction, ParserError>)
    requires |cols| >= 1 && cols[0] in ThreeTokenOps
    ensures |cols| != 3 ==> r == Err(InstructionLengthError(3, |cols|))
    ensures r.Ok? ==> Denotes(cols, r.value)
    ensures ReportsOperandErrors(line, cols, r)
    ensures r.Err? ==> r.error.InvalidArgument? || r.error.InstructionLengthError?
    ensures r.Err? && r.error.InvalidArgument? ==> r.error.line == line
  {
    match cols[0]
    case "mov" => ParseMove(line, cols)
    case "cpy" =>
      (match ParseRegPair(line, cols) case Ok(p) => Ok(Cpy(p.0, p.1)) case Err(e) => Err(e))
    case "sub" =>
      (match ParseRegPair(line, cols) case Ok(p) => Ok(Sub(p.0, p.1)) case Err(e) => Err(e))
    case "add" =>
      (match ParseRegPair(line, cols) case Ok(p) => Ok(Add(p.0, p.1)) case Err(e) => Err(e))
    case "lfa" =>
      (match ParseRegPair(line, cols) case Ok(p) => Ok(LoadFromAddress(p.0, p.1)) case Err(e) => Err(e))
    case _ =>
      assert cols[0] == "lta";
      (match ParseRegPair(line, cols) case Ok(p) => Ok(LoadToAddress(p.1, p.0)) case Err(e) => Err(e))
  }

  /** The instructions written with one operand, dispatched on the mnemonic. */
  function ParseUnary(line: u8, cols: seq<string>): (r: Result<Instruction, ParserError>)
    requires |cols| >= 1 && cols[0] in TwoTokenOps
    ensures |cols| != 2 ==> r == Err(InstructionLengthError(3, |cols|))
    ensures r.Ok? ==> Denotes(cols, r.value)
    ensures ReportsOperandErrors(line, cols, r)
    ensures r.Err? ==> r.error.InvalidArgument? || r.error.InstructionLengthError?
    ensures r.Err? && r.error.InvalidArgument? ==> r.error.line == line
  {
    match cols[0]
    case "jlt" =>
      (match ParseTarget(line, cols) case Ok(t) => Ok(JumpLessThan(t)) case Err(e) => Err(e))
    case "jgt" =>
      (match ParseTarget(line, cols) case Ok(t) => Ok(JumpGreaterThan(t)) case Err(e) => Err(e))
    case "jeq" =>
      (match ParseTarget(line, cols) case Ok(t) => Ok(JumpEqual(t)) case Err(e) => Err(e))
    case "jmp" =>
      (match ParseTarget(line, cols) case Ok(t) => Ok(Jump(t)) case Err(e) => Err(e))
    case "dump" =>
      (match ParseRegOperand(line, cols) case Ok(r) => Ok(Dump(r)) case Err(e) => Err(e))
    case _ =>
      assert cols[0] == "dm";
      (match ParseRegOperand(line, cols) case Ok(r) => Ok(DumpMem(r)) case Err(e) => Err(e))
  }

  /** Decodes the tokens of one line, dispatching on the first token. An unknown first
      token is an `UnknownKeyWord` at column 0; a known one with the wrong token count
      is an `InstructionLengthError` whatever its operands; `nop` takes any tokens
      after it. Whatever is accepted is a correct assembly of the result. */
  function ParseInstruction(line: u8, cols: seq<string>): (r: Result<Instruction, ParserError>)
    requires |cols| >= 1
    ensures cols[0] !in Mnemonics ==> r == Err(UnknownKeyWord(line, 0, cols[0]))
    ensures cols[0] == "nop" ==> r == Ok(Nop)
    ensures cols[0] in ThreeTokenOps && |cols| != 3 ==> r == Err(InstructionLengthError(3, |cols|))
    ensures cols[0] in TwoTokenOps && |cols| != 2 ==> r == Err(InstructionLengthError(3, |cols|))
    ensures r.Ok? ==> Denotes(cols, r.value)
    ensures ReportsOperandErrors(line, cols, r)
    ensures r.Err? && r.error.UnknownKeyWord? ==> cols[0] !in Mnemonics
    ensures r.Err? ==> !r.error.LengthError?
    ensures r.Err? && (r.error.UnknownKeyWord? || r.error.InvalidArgument?) ==> r.error.line == line
  {
    if cols[0] == "nop" then Ok(Nop)
    else if cols[0] in ThreeTokenOps then ParseBinary(line, cols)
    else if cols[0] in TwoTokenOps then ParseUnary(line, cols)
    else Err(UnknownKeyWord(line, 0, cols[0]))
  }

  /* ---------------------------------------------------------------- lines and programs */

  /** A line whose trimmed text starts with `#`. */
  predicate IsComment(raw: string) {
    var l := Trim(raw);
    |l| > 0 && l[0] == '#'
  }

  /** The decoding of one source line. */
  type SlotResult = Result<Option<Instruction>, ParserError>

  /** One source line at index `i`: `None` for a comment, otherwise the instruction
      decoded from the trimmed line split at single spaces. A blank line is not
      skipped: its only token is empty, an unknown keyword. */
  function ParseSlot(i: nat, raw: string): (r: SlotResult)
    requires i < 256
    ensures IsComment(raw) ==> r == Ok(None)
    ensures !IsComment(raw) && r.Ok? ==> r.value.Some? && Denotes(Split(Trim(raw), ' '), r.value.value)
    ensures Trim(raw) == [] ==> r == Err(UnknownKeyWord(i as u8, 0, ""))
    ensures r.Err? ==> !r.error.LengthError?
    ensures r.Err? && (r.error.UnknownKeyWord? || r.error.InvalidArgument?) ==> r.error.line as int == i
  {
    var l := Trim(raw);
    if |l| > 0 && l[0] == '#' then Ok(None)
    else
      match ParseInstruction(i as u8, Split(l, ' '))
      case Ok(ins) => Ok(Some(ins))
      case Err(e) => Err(e)
  }

  /** A non-comment line fails exactly when decoding its tokens fails, and with the
      same error; in particular an unknown first token is an `UnknownKeyWord` at
      column 0 carrying that token. */
  lemma SlotFailures(i: nat, raw: string)
    requires i < 256
    ensures var cols := Split(Trim(raw), ' ');
            !IsComment(raw) && cols[0] !in Mnemonics ==> ParseSlot(i, raw) == Err(UnknownKeyWord(i as u8, 0, cols[0]))
    ensures !IsComment(raw) ==> (ParseSlot(i, raw).Err? <==> ParseInstruction(i as u8, Split(Trim(raw), ' ')).Err?)
    ensures ParseSlot(i, raw).Err? ==> ParseSlot(i, raw).error == ParseInstruction(i as u8, Split(Trim(raw), ' ')).error
  {
  }

  /** The instruction a slot receives from a line's parse: the decoded instruction, or
      for a comment what the slot held before. */
  function SlotOf(res: SlotResult, before: Instruction): Instruction {
    if res.Ok? && res.value.Some? then res.value.value else before
  }

  /** The source lines: the whole text trimmed, then split at every newline. */
  function Lines(text: string): (lines: seq<string>)
    ensures |lines| >= 1
  {
    Split(Trim(text), '\n')
  }

  /** The decoding of every line, each at its own index. Decoding is pure, so decoding
      all lines up front and then scanning for the first error behaves like decoding
      them one at a time and stopping at the first error. */
  function DecodeLines(lines: seq<string>): (slots: seq<SlotResult>)
    requires |lines| <= 256
    ensures |slots| == |lines|
    ensures forall k :: 0 <= k < |lines| ==> slots[k] == ParseSlot(k, lines[k])
  {
    seq(|lines|, k requires 0 <= k < |lines| => ParseSlot(k, lines[k]))
  }

  /** Fills `prog` from the decoded lines `i..`, top-down, stopping at the first error:
      it succeeds exactly when every line from `i` on decoded, and otherwise fails with
      the error of the first line that did not. */
  function Fill(slots: seq<SlotResult>, i: nat, prog: Program): (r: Result<Program, ParserError>)
    requires i <= |slots| <= 256
    ensures r.Ok? <==> forall k :: i <= k < |slots| ==> slots[k].Ok?
    ensures r.Err? ==>
              exists k :: i <= k < |slots| && slots[k] == Err(r.error)
                && forall j :: i <= j < k ==> slots[j].Ok?
    decreases |slots| - i
  {
    if i == |slots| then Ok(prog)
    else
      match slots[i]
      case Err(e) => Err(e)
      case Ok(None) => Fill(slots, i + 1, prog)
      case Ok(Some(ins)) => Fill(slots, i + 1, prog[i := ins])
  }

  /** When `Fill` succeeds, each line from `i` on has filled its own slot and every
      other slot keeps what `prog` held. */
  lemma {:induction false} FillSpec(slots: seq<SlotResult>, i: nat, prog: Program)
    requires i <= |slots| <= 256
    ensures Fill(slots, i, prog).Ok? ==> forall k :: 0 <= k < 256 ==>
              Fill(slots, i, prog).value[k] == if i <= k < |slots| then SlotOf(slots[k], prog[k]) else prog[k]
    decreases |slots| - i
  {
    if i < |slots| && slots[i].Ok? {
      var next := if slots[i].value.Some? then prog[i := slots[i].value.value] else prog;
      FillSpec(slots, i + 1, next);
      assert Fill(slots, i, prog) == Fill(slots, i + 1, next);
      assert next[i] == SlotOf(slots[i], prog[i]);
    }
  }

  /** The all-`Nop` program every assembly starts from. */
  function Nops(): (p: Program)
    ensures forall k :: 0 <= k < 256 ==> p[k] == Nop
  {
    seq(256, _ => Nop)
  }

  /** Assembles a program. More than 256 lines is a `LengthError` with the line count;
      otherwise slot `i` holds the decoding of line `i` (`Nop` for comments and for
      every slot past the last line), and on failure the error is that of the first
      line that fails. */
  function ParseProgram(text: string): (r: Result<Program, ParserError>)
    ensures r.Err? && r.error.LengthError? <==> |Lines(text)| > 256
    ensures |Lines(text)| > 256 ==> r == Err(LengthError(|Lines(text)|))
    ensures r.Ok? <==> |Lines(text)| <= 256 && forall k :: 0 <= k < |Lines(text)| ==> ParseSlot(k, Lines(text)[k]).Ok?
    ensures r.Ok? ==> forall k :: 0 <= k < 256 ==>
              r.value[k] == if k < |Lines(text)| then SlotOf(ParseSlot(k, Lines(text)[k]), Nop) else Nop
    ensures r.Err? && |Lines(text)| <= 256 ==>
              exists k :: 0 <= k < |Lines(text)| && ParseSlot(k, Lines(text)[k]) == Err(r.error)
                && forall j :: 0 <= j < k ==> ParseSlot(j, Lines(text)[j]).Ok?
  {
    if |Lines(text)| > 256 then Err(LengthError(|Lines(text)|))
    else
      LinesDecoded(Lines(text));
      LinesFilled(Lines(text));
      FirstErrorIsALine(Lines(text));
      Fill(DecodeLines(Lines(text)), 0, Nops())
  }

  /** The assembly of `lines` succeeds exactly when every line decodes. */
  lemma LinesDecoded(lines: seq<string>)
    requires |lines| <= 256
    ensures Fill(DecodeLines(lines), 0, Nops()).Ok? <==>
              forall k :: 0 <= k < |lines| ==> ParseSlot(k, lines[k]).Ok?
  {
    var slots := DecodeLines(lines);
    assert (forall k :: 0 <= k < |slots| ==> slots[k].Ok?) <==>
           (forall k :: 0 <= k < |lines| ==> ParseSlot(k, lines[k]).Ok?);
  }

  /** A successful assembly of `lines` puts each line's instruction in its slot and
      `Nop` everywhere else. */
  lemma LinesFilled(lines: seq<string>)
    requires |lines| <= 256
    ensures var r := Fill(DecodeLines(lines), 0, Nops());
            r.Ok? ==> forall k :: 0 <= k < 256 ==>
              r.value[k] == if k < |lines| then SlotOf(ParseSlot(k, lines[k]), Nop) else Nop
  {
    FillSpec(DecodeLines(lines), 0, Nops());
  }

  /** A failed assembly of `lines` carries the error of the first line that fails. */
  lemma FirstErrorIsALine(lines: seq<string>)
    requires |lines| <= 256
    ensures var r := Fill(DecodeLines(lines), 0, Nops());
            r.Err? ==>
              exists k :: 0 <= k < |lines| && ParseSlot(k, lines[k]) == Err(r.error)
                && forall j :: 0 <= j < k ==> ParseSlot(j, lines[j]).Ok?
  {
    var slots := DecodeLines(lines);
    var r := Fill(slots, 0, Nops());
    if r.Err? {
      var k :| 0 <= k < |slots| && slots[k] == Err(r.error) && forall j :: 0 <= j < k ==> slots[j].Ok?;
      assert ParseSlot(k, lines[k]) == Err(r.error);
      forall j | 0 <= j < k
        ensures ParseSlot(j, lines[j]).Ok?
      {
        assert slots[j].Ok?;
      }
    }
  }
}
