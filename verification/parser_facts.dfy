/** Properties of the assembler: operand parsers against their printers, decoding of
    lines against the `Denotes` relation, and assembly of a printed program. */
module ParserFacts {
  import opened Names
  import opened Wrappers
  import opened Text
  import opened Parser

  /* ---------------------------------------------------------------- registers */

  /** Different registers have different spellings. */
  lemma RegisterNameInjective(r1: Register, r2: Register)
    requires RegisterName(r1) == RegisterName(r2)
    ensures r1 == r2
  {
  }

  /** The register spellings are exactly "a", "b", "rip" and "result". */
  lemma RegisterNamesExactly(s: string)
    ensures IsRegisterName(s) <==> s == "a" || s == "b" || s == "rip" || s == "result"
  {
    if s == "a" { assert RegisterName(A) == s; }
    if s == "b" { assert RegisterName(B) == s; }
    if s == "rip" { assert RegisterName(Rip) == s; }
    if s == "result" { assert RegisterName(Res) == s; }
  }

  /** Parsing the spelling of a register gives that register back. */
  lemma RegisterRoundTrip(line: u8, col: u8, r: Register)
    ensures ParseRegister(line, col, RegisterName(r)) == Ok(r)
  {
    var res := ParseRegister(line, col, RegisterName(r));
    assert IsRegisterName(RegisterName(r));
    RegisterNameInjective(res.value, r);
  }

  /* ---------------------------------------------------------------- numbers */

  function DigitChar(d: int): (c: char)
    requires 0 <= d < 10
    ensures IsDigit(c) && DigitValue(c) == d
  {
    ('0' as int + d) as char
  }

  /** The shortest decimal spelling of an 8-bit number. */
  function Decimal(v: u8): (s: string)
    ensures 1 <= |s| <= 3 && AllDigits(s)
  {
    var n := v as int;
    if n < 10 then [DigitChar(n)]
    else if n < 100 then [DigitChar(n / 10), DigitChar(n % 10)]
    else [DigitChar(n / 10 / 10), DigitChar(n / 10 % 10), DigitChar(n % 10)]
  }

  /** Reading one more leading digit. */
  lemma DecimalValueCons(acc: nat, c: char, t: string)
    requires IsDigit(c) && AllDigits(t)
    ensures DecimalValue(acc, [c] + t) == DecimalValue(acc * 10 + DigitValue(c), t)
  {
    assert ([c] + t)[1..] == t;
  }

  /** Reading one more trailing digit. */
  lemma {:induction false} DecimalValueSnoc(acc: nat, t: string, c: char)
    requires AllDigits(t) && IsDigit(c)
    ensures DecimalValue(acc, t + [c]) == DecimalValue(acc, t) * 10 + DigitValue(c)
    decreases |t|
  {
    if |t| == 0 {
      DecimalValueCons(acc, c, []);
      assert t + [c] == [c] + [];
    } else {
      assert t + [c] == [t[0]] + (t[1..] + [c]);
      DecimalValueCons(acc, t[0], t[1..] + [c]);
      DecimalValueSnoc(acc * 10 + DigitValue(t[0]), t[1..], c);
      assert t == [t[0]] + t[1..];
      DecimalValueCons(acc, t[0], t[1..]);
    }
  }

  lemma DecimalValueOne(d: int)
    requires 0 <= d < 10
    ensures DecimalValue(0, [DigitChar(d)]) == d
  {
    DecimalValueCons(0, DigitChar(d), []);
  }

  lemma DecimalValueTwo(d1: int, d0: int)
    requires 0 <= d1 < 10 && 0 <= d0 < 10
    ensures DecimalValue(0, [DigitChar(d1), DigitChar(d0)]) == d1 * 10 + d0
  {
    assert [DigitChar(d1), DigitChar(d0)] == [DigitChar(d1)] + [DigitChar(d0)];
    DecimalValueCons(0, DigitChar(d1), [DigitChar(d0)]);
    DecimalValueCons(d1, DigitChar(d0), []);
  }

  lemma DecimalValueThree(d2: int, d1: int, d0: int)
    requires 0 <= d2 < 10 && 0 <= d1 < 10 && 0 <= d0 < 10
    ensures DecimalValue(0, [DigitChar(d2), DigitChar(d1), DigitChar(d0)]) == d2 * 100 + d1 * 10 + d0
  {
    assert [DigitChar(d2), DigitChar(d1), DigitChar(d0)] == [DigitChar(d2)] + [DigitChar(d1), DigitChar(d0)];
    assert [DigitChar(d1), DigitChar(d0)] == [DigitChar(d1)] + [DigitChar(d0)];
    DecimalValueCons(0, DigitChar(d2), [DigitChar(d1), DigitChar(d0)]);
    DecimalValueCons(d2, DigitChar(d1), [DigitChar(d0)]);
    DecimalValueCons(d2 * 10 + d1, DigitChar(d0), []);
  }

  /** The decimal spelling of a number has that number as its value. */
  lemma DecimalValueOfDecimal(v: u8)
    ensures DecimalValue(0, Decimal(v)) == v as nat
  {
    var n := v as int;
    var q := n / 10;
    assert n == q * 10 + n % 10;
    if n < 10 {
      DecimalValueOne(n);
    } else if n < 100 {
      DecimalValueTwo(q, n % 10);
    } else {
      assert q == q / 10 * 10 + q % 10;
      DecimalValueThree(q / 10, q % 10, n % 10);
    }
  }

  /** Parsing the decimal spelling of a number gives that number back. */
  lemma DecimalRoundTrip(v: u8)
    ensures Spells(Decimal(v), v)
    ensures ParseU8(Decimal(v)) == Some(v)
  {
    assert Unsigned(Decimal(v)) == Decimal(v);
    DecimalValueOfDecimal(v);
  }

  /** A token spells at most one number. */
  lemma SpellsUnique(t: string, v: u8, w: u8)
    requires Spells(t, v) && Spells(t, w)
    ensures v == w
  {
  }

  /** The integer parser accepts a leading `+` and leading zeros, up to 255. */
  lemma NumberAccepts()
    ensures ParseU8("0") == Some(0)
    ensures ParseU8("255") == Some(255)
    ensures ParseU8("+7") == Some(7)
    ensures ParseU8("007") == Some(7)
  {
    DecimalValueOne(0);
    assert "0" == [DigitChar(0)];
    DecimalValueThree(2, 5, 5);
    assert "255" == [DigitChar(2), DigitChar(5), DigitChar(5)];
    DecimalValueOne(7);
    assert Unsigned("+7") == "7" == [DigitChar(7)];
    DecimalValueThree(0, 0, 7);
    assert "007" == [DigitChar(0), DigitChar(0), DigitChar(7)];
  }

  /** The integer parser rejects values above 255, a minus sign, a sign alone, the
      empty string and trailing non-digits. */
  lemma NumberRejects()
    ensures ParseU8("256") == None
    ensures ParseU8("1000") == None
    ensures ParseU8("-1") == None
    ensures ParseU8("+") == None
    ensures ParseU8("") == None
    ensures ParseU8("1a") == None
  {
    DecimalValueThree(2, 5, 6);
    assert "256" == [DigitChar(2), DigitChar(5), DigitChar(6)];
    DecimalValueThree(1, 0, 0);
    assert "1000" == [DigitChar(1), DigitChar(0), DigitChar(0)] + "0";
    assert "100" == [DigitChar(1), DigitChar(0), DigitChar(0)];
    assert "1000"[3..] == "0";
    assert "1000" == "100" + "0";
    DecimalValueSnoc(0, "100", '0');
    assert !IsDigit("-1"[0]);
    assert !IsDigit("1a"[1]);
  }

  /* ---------------------------------------------------------------- instructions */

  /** The tokens of the canonical assembly of an instruction. */
  function Tokens(ins: Instruction): seq<string> {
    match ins
    case Nop => ["nop"]
    case Move(r, v) => ["mov", RegisterName(r), Decimal(v)]
    case Cpy(d, s) => ["cpy", RegisterName(d), RegisterName(s)]
    case Sub(x, y) => ["sub", RegisterName(x), RegisterName(y)]
    case Add(x, y) => ["add", RegisterName(x), RegisterName(y)]
    case LoadFromAddress(d, addr) => ["lfa", RegisterName(d), RegisterName(addr)]
    case LoadToAddress(addr, s) => ["lta", RegisterName(s), RegisterName(addr)]
    case JumpLessThan(t) => ["jlt", Decimal(t)]
    case JumpGreaterThan(t) => ["jgt", Decimal(t)]
    case JumpEqual(t) => ["jeq", Decimal(t)]
    case Jump(t) => ["jmp", Decimal(t)]
    case Dump(r) => ["dump", RegisterName(r)]
    case DumpMem(r) => ["dm", RegisterName(r)]
  }

  /** The canonical assembly of an instruction denotes it. */
  lemma TokensDenote(ins: Instruction)
    ensures Denotes(Tokens(ins), ins)
  {
    match ins
    case Move(_, v) => DecimalRoundTrip(v);
    case JumpLessThan(t) => DecimalRoundTrip(t);
    case JumpGreaterThan(t) => DecimalRoundTrip(t);
    case JumpEqual(t) => DecimalRoundTrip(t);
    case Jump(t) => DecimalRoundTrip(t);
    case _ =>
  }

  /** Completeness of decoding: tokens that denote an instruction decode to exactly
      that instruction. Together with the soundness in `ParseInstruction`'s contract,
      decoding succeeds exactly on tokens that denote something. */
  lemma ParseInstructionComplete(line: u8, cols: seq<string>, ins: Instruction)
    requires Denotes(cols, ins)
    ensures ParseInstruction(line, cols) == Ok(ins)
  {
    if ins.Nop? {
    } else if cols[0] in ThreeTokenOps {
      ParseBinaryComplete(line, cols, ins);
    } else {
      ParseUnaryComplete(line, cols, ins);
    }
  }

  /** Completeness for the three-token instructions. */
  lemma ParseBinaryComplete(line: u8, cols: seq<string>, ins: Instruction)
    requires Denotes(cols, ins) && cols[0] in ThreeTokenOps
    ensures ParseBinary(line, cols) == Ok(ins)
  {
    var r := ParseBinary(line, cols);
    match ins
    case Move(x, v) =>
      assert IsRegisterName(cols[1]) by { assert RegisterName(x) == cols[1]; }
      RegisterNameInjective(r.value.dst, x);
      SpellsUnique(cols[2], r.value.value, v);
    case Cpy(x, y) =>
      assert RegisterName(x) == cols[1] && RegisterName(y) == cols[2];
      RegisterNameInjective(r.value.dst, x);
      RegisterNameInjective(r.value.src, y);
    case Sub(x, y) =>
      assert RegisterName(x) == cols[1] && RegisterName(y) == cols[2];
      RegisterNameInjective(r.value.lhs, x);
      RegisterNameInjective(r.value.rhs, y);
    case Add(x, y) =>
      assert RegisterName(x) == cols[1] && RegisterName(y) == cols[2];
      RegisterNameInjective(r.value.lhs, x);
      RegisterNameInjective(r.value.rhs, y);
    case LoadFromAddress(x, y) =>
      assert RegisterName(x) == cols[1] && RegisterName(y) == cols[2];
      RegisterNameInjective(r.value.dst, x);
      RegisterNameInjective(r.value.addr, y);
    case LoadToAddress(y, x) =>
      assert RegisterName(x) == cols[1] && RegisterName(y) == cols[2];
      RegisterNameInjective(r.value.src, x);
      RegisterNameInjective(r.value.addr, y);
  }

  /** Completeness for the two-token instructions. */
  lemma ParseUnaryComplete(line: u8, cols: seq<string>, ins: Instruction)
    requires Denotes(cols, ins) && cols[0] in TwoTokenOps
    ensures ParseUnary(line, cols) == Ok(ins)
  {
    var r := ParseUnary(line, cols);
    match ins
    case JumpLessThan(t) => SpellsUnique(cols[1], r.value.target, t);
    case JumpGreaterThan(t) => SpellsUnique(cols[1], r.value.target, t);
    case JumpEqual(t) => SpellsUnique(cols[1], r.value.target, t);
    case Jump(t) => SpellsUnique(cols[1], r.value.target, t);
    case Dump(x) =>
      assert RegisterName(x) == cols[1];
      RegisterNameInjective(r.value.reg, x);
    case DumpMem(x) =>
      assert RegisterName(x) == cols[1];
      RegisterNameInjective(r.value.addr, x);
  }

  /** Tokens denote at most one instruction. */
  lemma DenotesUnique(cols: seq<string>, i1: Instruction, i2: Instruction)
    requires Denotes(cols, i1) && Denotes(cols, i2)
    ensures i1 == i2
  {
    ParseInstructionComplete(0, cols, i1);
    ParseInstructionComplete(0, cols, i2);
  }

  /** Decoding succeeds exactly on the tokens that denote an instruction. */
  lemma DecodesExactlyDenoted(line: u8, cols: seq<string>)
    requires |cols| >= 1
    ensures ParseInstruction(line, cols).Ok? <==> exists ins :: Denotes(cols, ins)
  {
    if ins :| Denotes(cols, ins) {
      ParseInstructionComplete(line, cols, ins);
    }
  }

  /** Decoding the canonical assembly of an instruction gives it back. */
  lemma InstructionRoundTrip(line: u8, ins: Instruction)
    ensures ParseInstruction(line, Tokens(ins)) == Ok(ins)
  {
    TokensDenote(ins);
    ParseInstructionComplete(line, Tokens(ins), ins);
  }

  /** `lta x y` stores into the address held in `y`; `lfa x y` loads from the address
      held in `y`. In both the address register is the second operand. */
  lemma AddressIsSecondOperand(line: u8, x: Register, y: Register)
    ensures ParseInstruction(line, ["lta", RegisterName(x), RegisterName(y)]) == Ok(LoadToAddress(y, x))
    ensures ParseInstruction(line, ["lfa", RegisterName(x), RegisterName(y)]) == Ok(LoadFromAddress(x, y))
  {
    ParseInstructionComplete(line, ["lta", RegisterName(x), RegisterName(y)], LoadToAddress(y, x));
    ParseInstructionComplete(line, ["lfa", RegisterName(x), RegisterName(y)], LoadFromAddress(x, y));
  }

  /* ---------------------------------------------------------------- lines */

  predicate NoWhitespace(t: string) {
    forall k :: 0 <= k < |t| ==> !IsWhitespace(t[k])
  }

  lemma NoWhitespaceAvoids(t: string, c: char)
    requires NoWhitespace(t) && IsWhitespace(c)
    ensures c !in t
  {
  }

  /** A token that survives splitting at spaces: non-empty and free of whitespace. */
  predicate CleanToken(t: string) {
    |t| > 0 && NoWhitespace(t)
  }

  lemma RegisterNameClean(r: Register)
    ensures CleanToken(RegisterName(r))
  {
    match r
    case A =>
    case B =>
    case Rip => assert forall k :: 0 <= k < 3 ==> RegisterName(r)[k] in "rip";
    case Res => assert forall k :: 0 <= k < 6 ==> RegisterName(r)[k] in "result";
  }

  lemma DecimalClean(v: u8)
    ensures CleanToken(Decimal(v))
  {
  }

  lemma MnemonicClean(ins: Instruction)
    ensures CleanToken(Mnemonic(ins)) && Mnemonic(ins)[0] != '#'
  {
  }

  /** Every canonical token is non-empty and free of whitespace, and the first one
      does not start a comment. */
  lemma TokensClean(ins: Instruction)
    ensures |Tokens(ins)| >= 1
    ensures forall k :: 0 <= k < |Tokens(ins)| ==> CleanToken(Tokens(ins)[k])
    ensures Tokens(ins)[0][0] != '#'
  {
    MnemonicClean(ins);
    match ins
    case Nop =>
    case Move(r, v) => RegisterNameClean(r); DecimalClean(v);
    case Cpy(d, x) => RegisterNameClean(d); RegisterNameClean(x);
    case Sub(x, y) => RegisterNameClean(x); RegisterNameClean(y);
    case Add(x, y) => RegisterNameClean(x); RegisterNameClean(y);
    case LoadFromAddress(d, x) => RegisterNameClean(d); RegisterNameClean(x);
    case LoadToAddress(x, d) => RegisterNameClean(d); RegisterNameClean(x);
    case JumpLessThan(t) => DecimalClean(t);
    case JumpGreaterThan(t) => DecimalClean(t);
    case JumpEqual(t) => DecimalClean(t);
    case Jump(t) => DecimalClean(t);
    case Dump(r) => RegisterNameClean(r);
    case DumpMem(r) => RegisterNameClean(r);
  }

  /** The canonical source line of an instruction: its tokens joined by single spaces. */
  function Line(ins: Instruction): string {
    Join(Tokens(ins), ' ')
  }

  /** A line with no newline that neither starts nor ends with whitespace. */
  predicate CleanLine(l: string) {
    '\n' !in l && |l| > 0 && !IsWhitespace(l[0]) && !IsWhitespace(l[|l| - 1])
  }

  /** A canonical line contains no newline and neither starts nor ends with whitespace. */
  lemma LineClean(ins: Instruction)
    ensures CleanLine(Line(ins))
    ensures Line(ins)[0] != '#'
  {
    var ts := Tokens(ins);
    TokensClean(ins);
    forall k | 0 <= k < |ts| ensures '\n' !in ts[k] {
      NoWhitespaceAvoids(ts[k], '\n');
    }
    JoinAvoids(ts, ' ', '\n');
    JoinEnds(ts, ' ');
  }

  /** Parsing the canonical line of an instruction, at any line index, gives it back. */
  lemma LineRoundTrip(i: nat, ins: Instruction)
    requires i < 256
    ensures ParseSlot(i, Line(ins)) == Ok(Some(ins))
  {
    var ts := Tokens(ins);
    LineClean(ins);
    TrimUnpadded(Line(ins));
    TokensClean(ins);
    forall k | 0 <= k < |ts| ensures ' ' !in ts[k] {
      NoWhitespaceAvoids(ts[k], ' ');
    }
    SplitJoin(ts, ' ');
    InstructionRoundTrip(i as u8, ins);
  }

  /* ---------------------------------------------------------------- programs */

  /** Lines that survive the outer trim and the newline split unchanged. */
  predicate CleanLines(lines: seq<string>) {
    && |lines| >= 1
    && (forall k :: 0 <= k < |lines| ==> '\n' !in lines[k] && |lines[k]| > 0)
    && !IsWhitespace(lines[0][0])
    && !IsWhitespace(lines[|lines| - 1][|lines[|lines| - 1]| - 1])
  }

  /** Text made of clean lines joined by newlines splits back into those lines. */
  lemma LinesOfJoin(lines: seq<string>)
    requires CleanLines(lines)
    ensures Lines(Join(lines, '\n')) == lines
  {
    JoinEnds(lines, '\n');
    TrimUnpadded(Join(lines, '\n'));
    SplitJoin(lines, '\n');
  }

  /** The canonical lines of a sequence of instructions, one per instruction. */
  function Listing(ins: seq<Instruction>): (lines: seq<string>)
    ensures |lines| == |ins|
    ensures forall k :: 0 <= k < |ins| ==> lines[k] == Line(ins[k])
  {
    seq(|ins|, k requires 0 <= k < |ins| => Line(ins[k]))
  }

  /** The canonical source text of a non-empty sequence of instructions: their
      canonical lines joined by newlines. */
  function Source(ins: seq<Instruction>): string
    requires |ins| >= 1
  {
    Join(Listing(ins), '\n')
  }

  /** The program a sequence of at most 256 instructions fills: the instructions
      first, `Nop` in every remaining slot. */
  function Padded(ins: seq<Instruction>): (prog: Program)
    requires |ins| <= 256
    ensures forall k :: 0 <= k < 256 ==> prog[k] == if k < |ins| then ins[k] else Nop
  {
    ins + seq(256 - |ins|, _ => Nop)
  }

  /** Canonical lines are clean: they survive the outer trim and the newline split. */
  lemma ListingClean(ins: seq<Instruction>)
    requires |ins| >= 1
    ensures CleanLines(Listing(ins))
  {
    var lines := Listing(ins);
    forall k | 0 <= k < |ins| ensures CleanLine(lines[k]) {
      LineClean(ins[k]);
    }
    assert CleanLine(lines[0]);
    assert CleanLine(lines[|lines| - 1]);
  }

  /** The canonical source text splits back into the canonical lines. */
  lemma SourceLines(ins: seq<Instruction>)
    requires |ins| >= 1
    ensures Lines(Source(ins)) == Listing(ins)
  {
    ListingClean(ins);
    LinesOfJoin(Listing(ins));
  }

  /** Text whose lines, at most 256, each decode to an instruction assembles to
      those instructions followed by `Nop`s. */
  lemma EveryLineDecodes(text: string, ins: seq<Instruction>)
    requires |Lines(text)| == |ins| <= 256
    requires forall k :: 0 <= k < |ins| ==> ParseSlot(k, Lines(text)[k]) == Ok(Some(ins[k]))
    ensures ParseProgram(text) == Ok(Padded(ins))
  {
    var lines := Lines(text);
    forall k | 0 <= k < 256
      ensures Padded(ins)[k] == if k < |lines| then SlotOf(ParseSlot(k, lines[k]), Nop) else Nop
    {
    }
    AllLinesAccepted(text, Padded(ins));
  }

  /** Text whose lines, at most 256, all decode assembles to the program that holds
      each decoded instruction in its line's slot and `Nop` everywhere else. */
  lemma AllLinesAccepted(text: string, prog: Program)
    requires |Lines(text)| <= 256
    requires forall k :: 0 <= k < |Lines(text)| ==> ParseSlot(k, Lines(text)[k]).Ok?
    requires forall k :: 0 <= k < 256 ==>
      prog[k] == if k < |Lines(text)| then SlotOf(ParseSlot(k, Lines(text)[k]), Nop) else Nop
    ensures ParseProgram(text) == Ok(prog)
  {
    var r := ParseProgram(text);
    assert r.Ok?;
    SamePrograms(r.value, prog);
  }

  /** Programs that agree in every slot are the same program. */
  lemma SamePrograms(x: Program, y: Program)
    requires forall k :: 0 <= k < 256 ==> x[k] == y[k]
    ensures x == y
  {
  }

  /** Lines are decoded top-down and the first line that fails decides the error. */
  lemma FirstErrorReported(text: string, k: nat, e: ParserError)
    requires k < |Lines(text)| <= 256
    requires forall j :: 0 <= j < k ==> ParseSlot(j, Lines(text)[j]).Ok?
    requires ParseSlot(k, Lines(text)[k]) == Err(e)
    ensures ParseProgram(text) == Err(e)
  {
    var lines := Lines(text);
    var r := ParseProgram(text);
    assert r.Err? by {
      assert !ParseSlot(k, lines[k]).Ok?;
    }
    assert r.error == e by {
      var k' :| 0 <= k' < |lines| && ParseSlot(k', lines[k']) == Err(r.error)
                && forall j :: 0 <= j < k' ==> ParseSlot(j, lines[j]).Ok?;
      assert k' == k;
    }
  }

  /** A line that is empty once trimmed is not skipped: when every earlier line
      decodes, the program is rejected with an empty unknown keyword at that line. */
  lemma BlankLineRejected(text: string, k: nat)
    requires k < |Lines(text)| <= 256
    requires Trim(Lines(text)[k]) == []
    requires forall j :: 0 <= j < k ==> ParseSlot(j, Lines(text)[j]).Ok?
    ensures ParseProgram(text) == Err(UnknownKeyWord(k as u8, 0, ""))
  {
    FirstErrorReported(text, k, UnknownKeyWord(k as u8, 0, ""));
  }

  /** Assembling the canonical source of at most 256 instructions gives them back,
      padded with `Nop`. */
  lemma SourceRoundTrip(ins: seq<Instruction>)
    requires 1 <= |ins| <= 256
    ensures ParseProgram(Source(ins)) == Ok(Padded(ins))
  {
    var lines := Listing(ins);
    SourceLines(ins);
    forall k | 0 <= k < |ins| ensures ParseSlot(k, lines[k]) == Ok(Some(ins[k])) {
      LineRoundTrip(k, ins[k]);
    }
    EveryLineDecodes(Source(ins), ins);
  }

  /** The canonical source of more than 256 instructions is rejected with its line count. */
  lemma SourceTooLong(ins: seq<Instruction>)
    requires |ins| > 256
    ensures ParseProgram(Source(ins)) == Err(LengthError(|ins|))
  {
    SourceLines(ins);
  }

  /** The canonical text of a whole program: the canonical line of every slot. */
  function Disassemble(prog: Program): string {
    Source(prog)
  }

  /** Assembling the canonical text of a program gives the program back. */
  lemma ProgramRoundTrip(prog: Program)
    ensures ParseProgram(Disassemble(prog)) == Ok(prog)
  {
    SourceRoundTrip(prog);
    assert Padded(prog) == prog;
  }
}
