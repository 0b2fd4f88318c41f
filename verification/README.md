# compsim in Dafny

A functional model of compsim's core, with proofs. compsim is an 8-bit virtual machine plus the assembler that produces its programs.

- The **processor** has four 8-bit registers (`A`, `B`, `Result`, `Rip`), a 256-cell byte memory and a 256-slot program. Its execution loop runs while `Rip < 255`. Each iteration fetches the slot `Rip` points at, advances `Rip` by one, and then applies the instruction. `add` and `sub` are checked. Overflow or underflow stops the run with `IntegerOverflow`.
- The **assembler** turns program text into a program:
  - It trims the whole text, splits it at newlines and rejects more than 256 lines.
  - It trims each line, skips lines starting with `#`, splits at single spaces and dispatches on the first token.
  - It stops at the first error. Error positions are reported as 8-bit line and column numbers.

Modules:

| file | module | contents |
|---|---|---|
| `wrappers.dfy` | `Wrappers` | `Result` and `Option` |
| `names.dfy` | `Names` | `u8`, `Register`, the thirteen-variant `Instruction`, `Program` (exactly 256 slots) |
| `proc.dfy` | `Proc` | processor state, the per-opcode helpers, `Step` (one loop iteration), `Run` (the loop, bounded by fuel) |
| `proc_facts.dfy` | `ProcFacts` | per-opcode step lemmas and whole-run lemmas |
| `text.dfy` | `Text` | `Trim` (Unicode `White_Space`, as `str::trim`), `Split` (as `str::split`), `Join` and their laws |
| `parser.dfy` | `Parser` | `ParserError`, operand parsers, the instruction decoder, line handling, `ParseProgram` |
| `parser_facts.dfy` | `ParserFacts` | a canonical printer, and proofs that the decoder accepts everything the printer produces and gives the instruction back (`InstructionRoundTrip`), that it accepts exactly the token lists `Denotes` describes (`DecodesExactlyDenoted`), and that assembly inverts disassembly (`ProgramRoundTrip`) |
| `programs.dfy` | `Programs` | whole example programs, from text through assembly to the end of a run |

Every operation has a partner it is proved against:
- The operand parsers are proved against their printers (`RegisterName`, `Decimal`).
- The instruction decoder is proved against the relation `Denotes`, in both directions (soundness in its contract, completeness in `ParseInstructionComplete`).
- Assembly is proved against the canonical text of a program (`ProgramRoundTrip`).
- Each opcode's step is proved against the state it leaves, read after the default advance of `Rip`:
  - the jumps (`StepJump`), `add`/`sub` (`StepArithmetic`) and `lfa` (`StepLoadFrom`) keep the frame `SameExcept`, under which only one register may change;
  - `lta` (`StepStore`) changes one memory cell and no register;
  - `mov` (`StepMove`) and `cpy` (`StepCopy`) state their target register and every other register one by one;
  - `dump`/`dm` (`StepDump`) leave the advanced state unchanged.
- The loop is proved against the invariant that slot 255 is never executed.

Behaviour of the code that is easy to misread, modelled as the code does it:
- A blank interior line is not a no-op slot. Once trimmed it splits into the single token `""`, which is an unknown keyword (`UnknownKeyWord(i, 0, "")`). For the same reason, empty text is an error and not an all-`Nop` program. The guard for an empty token list (src/parser.rs:143-145) can never fire, because `Split` always returns at least one piece.
- `Sub(r1, r2)` computes `r1 − r2` (src/proc.rs:54), not "the first from the second" as the comment at src/names.rs:13 says.
- `lta x y` assembles to `LoadToAddress(y, x)` (src/parser.rs:72-76), so in the text the address register is the second operand.
- The length errors of `jlt`, `jgt`, `jeq`, `jmp`, `dump` and `dm` report 3 as the expected token count, although they require 2.
- `mov` reports its operands at columns 2 and 3. `cpy`, `sub`, `add`, `lfa` and `lta` report columns 1 and 2. `jlt`, `jgt`, `jeq`, `jmp`, `dump` and `dm` report their single operand at column 1.
- `nop` accepts any tokens after it.
- `Dump(Rip)` prints the already advanced `Rip`.

src/lib.rs holds a second copy of src/names.rs, src/parser.rs and src/proc.rs. That copy is the one the binary links. One model serves both copies, and the table cites the module files, except for the three rows of the `Add` example, which cite src/lib.rs.

## Model

| member | source | states |
|---|---|---|
| Proc.New | src/proc.rs:18-27 | a new processor has every register and every memory cell at 0 and holds the given program unchanged |
| ProcFacts.GetSeparates | src/proc.rs:28-35 | reading `A`, `B`, `Res` and `Rip` returns the fields `register_a`, `register_b`, `register_result` and `rip` respectively; so the four registers do not alias: two processors agree on every register read exactly when their four register fields agree |
| Proc.Set | src/proc.rs:36-44 | after writing `v` into `r`, reading `r` gives `v`; every other register, the memory and the program are unchanged |
| Proc.Mov | src/proc.rs:45-47 | `mov r v` makes `r` hold `v` and changes nothing else |
| Proc.CopyReg | src/proc.rs:48-50 | `cpy dst src` makes `dst` hold what `src` held and changes nothing else |
| Proc.SubChecked | src/proc.rs:51-60 | succeeds exactly when the second operand is at most the first; then `Result` holds first − second and nothing else changes; otherwise `IntegerOverflow` |
| Proc.AddChecked | src/proc.rs:61-70 | succeeds exactly when the sum is at most 255; then `Result` holds the sum and nothing else changes; otherwise `IntegerOverflow` |
| Proc.LoadFromAddr | src/proc.rs:71-73 | `r` receives the memory cell addressed by `addr`; nothing else changes |
| Proc.LoadToAddr | src/proc.rs:74-79 | the cell addressed by `addr` receives `r`'s value; no register and no other cell changes |
| Proc.JumpWhen | src/proc.rs:80-97 | `Rip` becomes the target exactly when the jump is taken, otherwise it is unchanged; no other register or memory cell changes |
| Proc.Apply | src/proc.rs:110-122 | applying an instruction fails exactly when it is an `add` or `sub` that overflows, and then with `IntegerOverflow`; it never changes the program; `Rip` changes only for instructions that may write it, memory only for `LoadToAddress`, `A` and `B` only when named as the destination of `mov`, `cpy` or `lfa`, `Result` only then or under `add`/`sub`; `add`/`sub` change only `Result`; `nop`, `dump` and `dm` change nothing |
| Proc.Printed | src/proc.rs:98-103 | `dump` prints one value, the register it names; `dm` prints one value, the memory cell its register addresses; every other instruction prints nothing |
| Proc.Advance | src/proc.rs:105-107 | the default advance only happens below 255, so it adds exactly one and never wraps |
| Proc.Step | src/proc.rs:104-125 | a step faults exactly when the fetched instruction overflows, and then stops in the advanced state; the program never changes; `Rip` advances by one unless the instruction may write it; only `LoadToAddress` changes memory; only `Dump` and `DumpMem` print |
| Proc.Run | src/proc.rs:104-125 | a run keeps the program; a normal halt has `Rip` at 255; running out of fuel leaves `Rip` below 255; a processor whose `Rip` is already 255 halts at once, unchanged |
| ProcFacts.StepJump | src/proc.rs:80-97 | the three conditional jumps compare A with B and set `Rip` to the target exactly when taken, else `Rip` is the fetched address + 1; `jmp` always jumps; nothing else changes and nothing is printed |
| ProcFacts.StepMove | src/proc.rs:106-118 | `Move(r, v)` leaves `v` in `r`; other registers and memory are unchanged; unless `r` is `Rip`, `Rip` advances by one |
| ProcFacts.StepCopy | src/proc.rs:106-119 | `Cpy(dst, src)` copies the second register into the first; reading `Rip` gives the address after the copy; other registers and memory are unchanged |
| ProcFacts.StepArithmetic | src/proc.rs:51-70 | `Add`/`Sub` read both operands after the advance (`Rip` reads as the next address) and step exactly when the checked sum or difference fits in 8 bits; then `Result` holds it, only `Result` differs from the advanced state and nothing is printed; on overflow the fault stops in the advanced state with `Result` unchanged |
| ProcFacts.StepLoadFrom | src/proc.rs:71-73 | `LoadFromAddress(dst, addr)` puts the memory cell addressed by `addr` (read after the advance) into `dst`; only `dst` differs from the advanced state; nothing is printed |
| ProcFacts.StepStore | src/proc.rs:74-79 | `LoadToAddress(addr, src)` writes `src` into the cell addressed by `addr`, both read after the advance; every other cell and every register keep their values; nothing is printed |
| ProcFacts.StepDump | src/proc.rs:98-103 | `Dump`/`DumpMem` print one value read after the advance and change no register or memory cell |
| ProcFacts.MemoryWriteSite | src/proc.rs:108-122 | a step that changes a memory cell executed `LoadToAddress`, and the cell is the one its address register holds |
| ProcFacts.StoreThenLoad | src/proc.rs:71-79 | `LoadToAddress(addr, src)` followed by `LoadFromAddress(dst, addr)`, in consecutive slots below 255 and through an address register other than `Rip`, loads the stored value into `dst` |
| ProcFacts.FaultStopsRun | src/proc.rs:116-117 | an overflowing step ends the run with `IntegerOverflow`, in the advanced state, with `Result` unchanged, `Rip` one past the failing slot and nothing printed |
| ProcFacts.RunMoreFuel | src/proc.rs:104-125 | once a run ends within some fuel, more fuel gives the same outcome |
| ProcFacts.NoRipWritesFinish | src/proc.rs:105-107 | if no instruction from `Rip` to slot 254 can write `Rip`, `255 − Rip` iterations suffice for the run to end |
| ProcFacts.NopTailHalts | src/proc.rs:105-109 | falling through `Nop` slots halts at `Rip` 255 with nothing else changed and nothing printed |
| ProcFacts.ApplyIgnoresProgram | src/proc.rs:108-122 | instructions never read the program: replacing it changes neither their effect nor what they print |
| ProcFacts.StepIgnoresSlot255 | src/proc.rs:105-106 | one step does not depend on what slot 255 holds |
| ProcFacts.Slot255Unreachable | src/proc.rs:105-106 | whatever slot 255 holds, a run ends the same way, in the same registers and memory, printing the same values |
| Text.Trim | src/parser.rs:133 | the trimmed text is the infix left after stripping Unicode whitespace at both ends; it neither starts nor ends with whitespace |
| Text.Split | src/parser.rs:142 | splitting gives at least one piece, no piece contains the separator, and joining the pieces gives the text back |
| Text.SplitJoin | src/parser.rs:133 | splitting undoes joining when no piece contains the separator |
| Text.TrimPadded | src/parser.rs:138 | trimming recovers a middle that neither starts nor ends with whitespace from any whitespace padding |
| Parser.ParseRegister | src/parser.rs:10-18 | accepts exactly the four register spellings and returns the register spelled; anything else is `InvalidArgument(line, col, token)` |
| Parser.AccumulateU8 | src/parser.rs:21 | the digit loop succeeds exactly on digits whose value stays within 8 bits, with that value |
| Parser.ParseU8 | src/parser.rs:21 | integer parsing succeeds exactly on an optional `+` followed by one or more digits worth at most 255, with that value |
| Parser.ParseNumber | src/parser.rs:20-25 | a number operand is accepted exactly when it is an 8-bit literal; otherwise `InvalidArgument(line, col, token)` |
| Parser.ParseMove | src/parser.rs:27-35 | `mov` needs exactly three tokens, checked before any operand; a bad register is reported at column 2, a bad number at column 3; success yields the register and value spelled |
| Parser.ParseRegPair | src/parser.rs:36-80 | `cpy`/`sub`/`add`/`lfa`/`lta` need exactly three tokens, checked first; bad operands are reported at columns 1 then 2; success yields the registers spelled |
| Parser.ParseTarget | src/parser.rs:81-114 | the jumps need exactly two tokens but report 3 as expected; a bad target is reported at column 1 |
| Parser.ParseRegOperand | src/parser.rs:115-129 | `dump`/`dm` need exactly two tokens but report 3 as expected; a bad register is reported at column 1 |
| Parser.ParseBinary | src/parser.rs:148-153 | a three-token mnemonic with the wrong count is a length error; `mov` reports a bad register at column 2 and then a bad number at column 3, the register pairs a bad first then second register at columns 1 and 2; every error is an operand or length error; operand errors carry the line, length errors only the expected and actual counts; whatever it accepts the tokens denote |
| Parser.ParseUnary | src/parser.rs:154-159 | a two-token mnemonic with the wrong count is a length error (expected 3); a bad jump target or a bad `dump`/`dm` register is reported at column 1; every error is an operand or length error; operand errors carry the line, length errors only the expected and actual counts; whatever it accepts the tokens denote |
| Parser.ParseInstruction | src/parser.rs:146-161 | the first token is unknown exactly when the result is `UnknownKeyWord`, which is then `UnknownKeyWord(line, 0, token)`; `nop` is accepted with any tokens after it; wrong counts are length errors; bad operands are reported at their positional columns; every accepted instruction is denoted by the tokens |
| Parser.ParseSlot | src/parser.rs:137-161 | a line that starts with `#` once trimmed is skipped; otherwise a decoded line denotes its instruction; a blank line is `UnknownKeyWord(i, 0, "")`; unknown-keyword and operand errors carry the line index, length errors only the counts |
| Parser.SlotFailures | src/parser.rs:138-160 | a line that is not a comment fails exactly when decoding its tokens fails, and with that error; an unknown first token is `UnknownKeyWord(i, 0, token)` |
| Parser.Lines | src/parser.rs:133 | the text always has at least one line |
| Parser.Fill | src/parser.rs:137-163 | the slot filling succeeds exactly when every line from `i` on decoded; otherwise the error is that of a failing line with every earlier line decoded |
| Parser.FillSpec | src/parser.rs:137-163 | a successful filling puts each line's instruction in its own slot (comments keep the slot) and keeps every other slot |
| Parser.LinesDecoded | src/parser.rs:137-163 | assembling at most 256 lines succeeds exactly when every line decodes at its own index |
| Parser.LinesFilled | src/parser.rs:137-163 | a successful assembly of at most 256 lines holds each line's instruction in its slot and `Nop` everywhere else |
| Parser.FirstErrorIsALine | src/parser.rs:137-161 | a failed assembly of at most 256 lines carries the error of its first failing line |
| Parser.ParseProgram | src/parser.rs:131-164 | `LengthError(n)` exactly when there are n > 256 lines; success exactly when every line decodes, and then slot i holds line i's instruction (`Nop` for comments and past the end); otherwise the error of the first failing line |
| ParserFacts.RegisterNameInjective | src/parser.rs:11-16 | different registers have different spellings |
| ParserFacts.RegisterNamesExactly | src/parser.rs:11-16 | the register spellings are exactly `a`, `b`, `rip` and `result` |
| ParserFacts.RegisterRoundTrip | src/parser.rs:10-18 | parsing a register's spelling gives the register back |
| ParserFacts.DecimalRoundTrip | src/parser.rs:20-25 | parsing the decimal spelling of an 8-bit number gives the number back |
| ParserFacts.SpellsUnique | src/parser.rs:20-25 | a token spells at most one number |
| ParserFacts.NumberAccepts | src/parser.rs:21 | `0`, `255`, `+7` and `007` parse as 0, 255, 7 and 7 |
| ParserFacts.NumberRejects | src/parser.rs:21-22 | `256`, `1000`, `-1`, `+`, the empty token and `1a` are rejected |
| ParserFacts.TokensDenote | src/parser.rs:146-161 | the canonical tokens of every instruction denote it |
| ParserFacts.ParseInstructionComplete | src/parser.rs:146-161 | tokens that denote an instruction decode to exactly that instruction |
| ParserFacts.ParseBinaryComplete | src/parser.rs:148-153 | three-token text that denotes an instruction decodes to it |
| ParserFacts.ParseUnaryComplete | src/parser.rs:154-159 | two-token text that denotes an instruction decodes to it |
| ParserFacts.DenotesUnique | src/parser.rs:146-161 | tokens denote at most one instruction |
| ParserFacts.DecodesExactlyDenoted | src/parser.rs:146-161 | decoding succeeds if and only if the tokens denote some instruction |
| ParserFacts.InstructionRoundTrip | src/parser.rs:146-161 | decoding the canonical tokens of an instruction gives it back |
| ParserFacts.AddressIsSecondOperand | src/parser.rs:63-80 | `lta x y` is `LoadToAddress(y, x)` and `lfa x y` is `LoadFromAddress(x, y)`: the address register is the second operand |
| ParserFacts.LineRoundTrip | src/parser.rs:138-161 | parsing the canonical line of an instruction, at any line index, gives it back |
| ParserFacts.LinesOfJoin | src/parser.rs:133 | text made of clean lines joined by newlines splits back into those lines |
| ParserFacts.SourceLines | src/parser.rs:133 | the canonical source text splits back into its canonical lines |
| ParserFacts.EveryLineDecodes | src/parser.rs:137-163 | text whose lines (at most 256) each decode assembles to those instructions followed by `Nop`s |
| ParserFacts.AllLinesAccepted | src/parser.rs:132-163 | text whose lines (at most 256) all decode assembles to each decoded instruction in its line's slot and `Nop` everywhere else |
| ParserFacts.FirstErrorReported | src/parser.rs:137-161 | when every earlier line decodes, the first failing line decides the error |
| ParserFacts.BlankLineRejected | src/parser.rs:142-146 | a blank line after lines that decode rejects the program with `UnknownKeyWord(k, 0, "")` |
| ParserFacts.SourceRoundTrip | src/parser.rs:131-164 | assembling the canonical source of 1 to 256 instructions gives them back, padded with `Nop` |
| ParserFacts.SourceTooLong | src/parser.rs:134-136 | the canonical source of more than 256 instructions is `LengthError` with its line count |
| ParserFacts.ProgramRoundTrip | src/parser.rs:131-164 | assembling the canonical text of any program gives the program back |
| Programs.AddAssembles | src/lib.rs:281-314 | `mov a 2` / `mov b 3` / `add a b` assembles to those three instructions followed by `Nop`s |
| Programs.AddExample | src/lib.rs:128-149 | that program halts with A = 2, B = 3, Result = 5, `Rip` = 255, having printed nothing |
| Programs.AddParsedAndRun | src/lib.rs:281-314 | the text `mov a 2` / `mov b 3` / `add a b` assembles, and a fresh processor running the result halts with A = 2, B = 3, Result = 5, `Rip` = 255 |
| Programs.SubAssembles | src/parser.rs:131-164 | `mov a 5` / `mov b 10` / `sub a b` assembles to those instructions followed by `Nop`s |
| Programs.SubUnderflowExample | src/proc.rs:51-60 | 5 − 10 underflows: the run fails with `IntegerOverflow`, `Result` still 0, `Rip` at 3 |
| Programs.MemoryAssembles | src/parser.rs:131-164 | `mov a 200` / `lta a a` / `lfa b a` assembles to those instructions followed by `Nop`s |
| Programs.MemoryExample | src/proc.rs:71-79 | that program stores 200 at address 200, loads it into B and halts; every other cell stays 0 |
| Programs.DumpAssembles | src/parser.rs:131-164 | `mov a 7` / `dump a` / `dump rip` assembles to those instructions followed by `Nop`s |
| Programs.DumpExample | src/proc.rs:98-107 | that program prints 7 and then 3, because `dump rip` sees the advanced `Rip` |
| Programs.LoopAssembles | src/parser.rs:131-164 | `mov a 1` / `jmp 0` assembles to those instructions followed by `Nop`s |
| Programs.InLoop | src/proc.rs:95-97 | a processor inside the two-slot loop never leaves it |
| Programs.LoopExample | src/proc.rs:104-125 | `jmp 0` after `mov a 1` runs out of every amount of fuel |
| Programs.EmptyTextExample | src/parser.rs:133-160 | empty text is rejected as `UnknownKeyWord(0, 0, "")` |
| Programs.OneLineFails | src/parser.rs:131-163 | text of one line of space-separated tokens has that line as its only line, and when the tokens fail to decode at line 0 the program fails with exactly that error |
| Programs.UnknownKeyWordExample | src/parser.rs:160 | `foo a b` is rejected as `UnknownKeyWord(0, 0, "foo")` |
| Programs.ShortMoveExample | src/parser.rs:27-35 | `mov a` is rejected as `InstructionLengthError(3, 2)` |
| Programs.BadMoveRegisterExample | src/parser.rs:27-35 | `mov x 5` is rejected as `InvalidArgument(0, 2, "x")`: the register of `mov` is column 2 |

## Left out

- src/main.rs is not modelled. It handles command-line arguments, reads the file, prints errors and prints the final memory, all of which is I/O.
- The `println!` of `dump`/`dm` is modelled as values appended to an output trace (`Exec.output`). Their text formatting is not modelled.
- Proc.Run: the Rust loop has no bound and may run forever (`jmp 0`). The model bounds it by `fuel` iterations and reports `OutOfFuel` when the bound is reached, so a program that loops forever is only shown to run out of every amount of fuel (`Programs.LoopExample`).
- `ParserError` borrows its token from the input (`&'a str`). The model carries it as a `string`. `LengthError` and `InstructionLengthError` counts are `usize` and are modelled as `nat`.
- The twelve per-opcode `parse_*` helpers share four shapes, and each shape is modelled once: `ParseMove`, `ParseRegPair` (`cpy`, `sub`, `add`, `lfa`, `lta`), `ParseTarget` (`jlt`, `jgt`, `jeq`, `jmp`) and `ParseRegOperand` (`dump`, `dm`). `ParseBinary` and `ParseUnary` build each instruction from its shape.
- `parse_program` decodes lines one at a time and stops at the first error. The model decodes every line up front (`DecodeLines`) and then scans for the first error (`Fill`). Decoding is pure, so the two give the same result, and `Fill` states the first-error behaviour.
- `str::trim` is modelled with the Unicode `White_Space` set written out. `u8::from_str` is modelled as an optional `+` followed by one or more ASCII digits worth at most 255. Other parts of Rust's integer parsing and string handling are not modelled.
- The `cols.len() == 0` guard is not a separate branch of the model, because it can never fire: `Text.Split` proves that splitting gives at least one piece.
