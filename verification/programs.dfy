/** Whole programs, from source text through assembly to the end of a run. */
module Programs {
  import opened Names
  import opened Wrappers
  import opened Text
  import opened Parser
  import opened ParserFacts
  import opened Proc
  import opened ProcFacts

  /** The canonical source of instructions whose canonical lines are `lines`. */
  lemma SourceOf(ins: seq<Instruction>, lines: seq<string>)
    requires |ins| >= 1 && |lines| == |ins|
    requires forall k :: 0 <= k < |ins| ==> Line(ins[k]) == lines[k]
    ensures Source(ins) == Join(lines, '\n')
  {
    assert Listing(ins) == lines;
  }

  /* ---------------------------------------------------------------- adding */

  const AddText: string := Join(["mov a 2", "mov b 3", "add a b"], '\n')

  /** The three instructions of `AddText`. */
  function AddListing(): seq<Instruction> {
    [Move(A, 2), Move(B, 3), Add(A, B)]
  }

  lemma AddTextIsSource()
    ensures AddText == Source(AddListing())
  {
    assert Line(Move(A, 2)) == "mov a 2";
    assert Line(Move(B, 3)) == "mov b 3";
    assert Line(Add(A, B)) == "add a b";
    SourceOf(AddListing(), ["mov a 2", "mov b 3", "add a b"]);
  }

  /** `AddText` assembles to its listing, padded with `Nop`. */
  lemma AddAssembles()
    ensures ParseProgram(AddText) == Ok(Padded(AddListing()))
  {
    AddTextIsSource();
    SourceRoundTrip(AddListing());
  }

  /** A program holding `AddListing` in its first slots and `Nop` up to slot 254 (as
      `AddText` assembles to) halts with A = 2, B = 3, Result = 5 and `Rip` at 255,
      having printed nothing. */
  lemma AddExample(prog: Program)
    requires prog[0] == Move(A, 2) && prog[1] == Move(B, 3) && prog[2] == Add(A, B)
    requires forall i :: 3 <= i < 255 ==> prog[i] == Nop
    ensures var e := Run(New(prog), 255);
      && e.status == Halted
      && e.proc.a == 2 && e.proc.b == 3 && e.proc.result == 5 && e.proc.rip == 255
      && e.output == []
  {
    var p0 := New(prog);
    var p1 := p0.(a := 2, rip := 1);
    var p2 := p1.(b := 3, rip := 2);
    var p3 := p2.(result := 5, rip := 3);
    assert Step(p0) == Stepped(p1, []);
    assert Step(p1) == Stepped(p2, []);
    assert Fetch(p2) == Add(A, B);
    assert AddChecked(Advance(p2), A, B) == Ok(p3);
    assert Step(p2) == Stepped(p3, []);
    NopTailHalts(p3, 252);
    assert Run(p2, 253) == Run(p3, 252);
    assert Run(p1, 254) == Run(p2, 253);
    assert Run(p0, 255) == Run(p1, 254);
  }

  /** From text to final state: `AddText` assembles, and the assembled program run on
      a fresh processor with 255 steps of fuel halts with A = 2, B = 3, Result = 5
      and `Rip` at 255. */
  lemma AddParsedAndRun()
    ensures ParseProgram(AddText).Ok?
    ensures var e := Run(New(ParseProgram(AddText).value), 255);
      && e.status == Halted
      && e.proc.a == 2 && e.proc.b == 3 && e.proc.result == 5 && e.proc.rip == 255
  {
    AddAssembles();
    AddExample(Padded(AddListing()));
  }

  /* ---------------------------------------------------------------- underflow */

  const SubText: string := Join(["mov a 5", "mov b 10", "sub a b"], '\n')

  function SubListing(): seq<Instruction> {
    [Move(A, 5), Move(B, 10), Sub(A, B)]
  }

  lemma SubTextIsSource()
    ensures SubText == Source(SubListing())
  {
    assert Line(Move(A, 5)) == "mov a 5";
    assert Line(Move(B, 10)) == "mov b 10";
    assert Line(Sub(A, B)) == "sub a b";
    SourceOf(SubListing(), ["mov a 5", "mov b 10", "sub a b"]);
  }

  /** `SubText` assembles to its listing, padded with `Nop`. */
  lemma SubAssembles()
    ensures ParseProgram(SubText) == Ok(Padded(SubListing()))
  {
    SubTextIsSource();
    SourceRoundTrip(SubListing());
  }

  /** `sub a b` computes A − B, so 5 − 10 underflows: the run fails with
      `IntegerOverflow`, Result still 0 and `Rip` one past the failing slot. */
  lemma SubUnderflowExample(prog: Program, fuel: nat)
    requires prog[0] == Move(A, 5) && prog[1] == Move(B, 10) && prog[2] == Sub(A, B)
    requires fuel >= 3
    ensures var e := Run(New(prog), fuel);
      && e.status == Failed(IntegerOverflow)
      && e.proc.a == 5 && e.proc.b == 10 && e.proc.result == 0 && e.proc.rip == 3
      && e.output == []
  {
    var p0 := New(prog);
    var p1 := p0.(a := 5, rip := 1);
    var p2 := p1.(b := 10, rip := 2);
    assert Step(p0) == Stepped(p1, []);
    assert Step(p1) == Stepped(p2, []);
    assert Step(p2) == Faulted(IntegerOverflow, p2.(rip := 3));
    assert Run(p1, fuel - 1) == Run(p2, fuel - 2);
    assert Run(p0, fuel) == Run(p1, fuel - 1);
  }

  /* ---------------------------------------------------------------- memory */

  const MemoryText: string := Join(["mov a 200", "lta a a", "lfa b a"], '\n')

  /** `lta a a` stores A at the address held in A, so the listing reads back 200. */
  function MemoryListing(): seq<Instruction> {
    [Move(A, 200), LoadToAddress(A, A), LoadFromAddress(B, A)]
  }

  lemma MemoryTextIsSource()
    ensures MemoryText == Source(MemoryListing())
  {
    assert Line(Move(A, 200)) == "mov a 200";
    assert Line(LoadToAddress(A, A)) == "lta a a";
    assert Line(LoadFromAddress(B, A)) == "lfa b a";
    SourceOf(MemoryListing(), ["mov a 200", "lta a a", "lfa b a"]);
  }

  /** `MemoryText` assembles to its listing, padded with `Nop`. */
  lemma MemoryAssembles()
    ensures ParseProgram(MemoryText) == Ok(Padded(MemoryListing()))
  {
    MemoryTextIsSource();
    SourceRoundTrip(MemoryListing());
  }

  /** A program holding `MemoryListing` in its first slots and `Nop` up to slot 254
      stores 200 at address 200, loads it back into B and halts; no other cell changes. */
  lemma MemoryExample(prog: Program)
    requires prog[0] == Move(A, 200) && prog[1] == LoadToAddress(A, A) && prog[2] == LoadFromAddress(B, A)
    requires forall i :: 3 <= i < 255 ==> prog[i] == Nop
    ensures var e := Run(New(prog), 255);
      && e.status == Halted
      && e.proc.a == 200 && e.proc.b == 200 && e.proc.stack[200] == 200
      && (forall i :: 0 <= i < 256 && i != 200 ==> e.proc.stack[i] == 0)
  {
    var p0 := New(prog);
    var p1 := p0.(a := 200, rip := 1);
    var p2 := p1.(rip := 2, stack := p1.stack[200 := 200]);
    var p3 := p2.(b := 200, rip := 3);
    assert Step(p0) == Stepped(p1, []);
    assert Step(p1) == Stepped(p2, []);
    assert Step(p2) == Stepped(p3, []);
    NopTailHalts(p3, 252);
    assert Run(p2, 253) == Run(p3, 252);
    assert Run(p1, 254) == Run(p2, 253);
    assert Run(p0, 255) == Run(p1, 254);
  }

  /* ---------------------------------------------------------------- dumping */

  const DumpText: string := Join(["mov a 7", "dump a", "dump rip"], '\n')

  function DumpListing(): seq<Instruction> {
    [Move(A, 7), Dump(A), Dump(Rip)]
  }

  lemma DumpTextIsSource()
    ensures DumpText == Source(DumpListing())
  {
    assert Line(Move(A, 7)) == "mov a 7";
    assert Line(Dump(A)) == "dump a";
    assert Line(Dump(Rip)) == "dump rip";
    SourceOf(DumpListing(), ["mov a 7", "dump a", "dump rip"]);
  }

  /** `DumpText` assembles to its listing, padded with `Nop`. */
  lemma DumpAssembles()
    ensures ParseProgram(DumpText) == Ok(Padded(DumpListing()))
  {
    DumpTextIsSource();
    SourceRoundTrip(DumpListing());
  }

  /** A program holding `DumpListing` in its first slots and `Nop` up to slot 254 (as
      `DumpText` assembles to) prints 7 and then 3: `dump rip` in slot 2 sees `Rip`
      already advanced. */
  lemma DumpExample(prog: Program)
    requires prog[0] == Move(A, 7) && prog[1] == Dump(A) && prog[2] == Dump(Rip)
    requires forall i :: 3 <= i < 255 ==> prog[i] == Nop
    ensures var e := Run(New(prog), 255);
      e.status == Halted && e.output == [7, 3]
  {
    var p0 := New(prog);
    var p1 := p0.(a := 7, rip := 1);
    var p2 := p1.(rip := 2);
    var p3 := p2.(rip := 3);
    assert Step(p0) == Stepped(p1, []);
    assert Step(p1) == Stepped(p2, [7]);
    assert Step(p2) == Stepped(p3, [3]);
    NopTailHalts(p3, 252);
    RunStepped(p2, 253, p3, [3]);
    RunStepped(p1, 254, p2, [7]);
    RunStepped(p0, 255, p1, []);
  }

  /* ---------------------------------------------------------------- looping */

  const LoopText: string := Join(["mov a 1", "jmp 0"], '\n')

  function LoopListing(): seq<Instruction> {
    [Move(A, 1), Jump(0)]
  }

  lemma LoopTextIsSource()
    ensures LoopText == Source(LoopListing())
  {
    assert Line(Move(A, 1)) == "mov a 1";
    assert Line(Jump(0)) == "jmp 0";
    SourceOf(LoopListing(), ["mov a 1", "jmp 0"]);
  }

  /** A processor inside the two-slot loop never leaves it. */
  lemma {:induction false} InLoop(p: Processor, fuel: nat)
    requires p.instructions[0] == Move(A, 1) && p.instructions[1] == Jump(0)
    requires p.rip <= 1
    ensures Run(p, fuel).status == OutOfFuel
    decreases fuel
  {
    if fuel > 0 {
      var q := Step(p).next;
      assert q.rip <= 1 && q.instructions == p.instructions;
      InLoop(q, fuel - 1);
    }
  }

  /** `LoopText` assembles to its listing, padded with `Nop`. */
  lemma LoopAssembles()
    ensures ParseProgram(LoopText) == Ok(Padded(LoopListing()))
  {
    LoopTextIsSource();
    SourceRoundTrip(LoopListing());
  }

  /** `jmp 0` after `mov a 1` loops forever: every amount of fuel runs out. */
  lemma LoopExample(fuel: nat)
    ensures Run(New(Padded(LoopListing())), fuel).status == OutOfFuel
  {
    InLoop(New(Padded(LoopListing())), fuel);
  }

  /* ---------------------------------------------------------------- assembler errors */

  /** Empty source text is not an empty program: it is one blank line, an unknown,
      empty keyword. */
  lemma EmptyTextExample()
    ensures ParseProgram("") == Err(UnknownKeyWord(0, 0, ""))
  {
    assert Lines("") == [""];
    FirstErrorReported("", 0, UnknownKeyWord(0, 0, ""));
  }

  /** A one-line text made of the tokens `cols` joined by single spaces is its own
      only line, and the program fails exactly as decoding those tokens at line 0
      fails. */
  lemma OneLineFails(cols: seq<string>)
    requires |cols| >= 1
    requires forall k :: 0 <= k < |cols| ==> |cols[k]| > 0 && ' ' !in cols[k] && '\n' !in cols[k]
    requires !IsWhitespace(cols[0][0]) && cols[0][0] != '#'
    requires !IsWhitespace(cols[|cols| - 1][|cols[|cols| - 1]| - 1])
    ensures Lines(Join(cols, ' ')) == [Join(cols, ' ')]
    ensures ParseInstruction(0, cols).Err? ==> ParseProgram(Join(cols, ' ')) == Err(ParseInstruction(0, cols).error)
  {
    var l := Join(cols, ' ');
    JoinAvoids(cols, ' ', '\n');
    JoinEnds(cols, ' ');
    TrimUnpadded(l);
    SplitNoSeparator(l, '\n');
    assert Lines(l) == [l];
    SplitJoin(cols, ' ');
    assert Split(Trim(l), ' ') == cols;
    if ParseInstruction(0, cols).Err? {
      FirstErrorReported(l, 0, ParseInstruction(0, cols).error);
    }
  }

  /** `foo a b`: an unknown first token is reported at column 0 with the token. */
  lemma UnknownKeyWordExample()
    ensures ParseProgram(Join(["foo", "a", "b"], ' ')) == Err(UnknownKeyWord(0, 0, "foo"))
  {
    assert "foo" !in Mnemonics;
    OneLineFails(["foo", "a", "b"]);
  }

  /** `mov a`: too few tokens is a length error with the expected and actual counts. */
  lemma ShortMoveExample()
    ensures ParseProgram(Join(["mov", "a"], ' ')) == Err(InstructionLengthError(3, 2))
  {
    OneLineFails(["mov", "a"]);
  }

  /** `mov x 5`: a bad register in `mov` is reported at column 2 with the token. */
  lemma BadMoveRegisterExample()
    ensures ParseProgram(Join(["mov", "x", "5"], ' ')) == Err(InvalidArgument(0, 2, "x"))
  {
    RegisterNamesExactly("x");
    OneLineFails(["mov", "x", "5"]);
  }
}
