/** Properties of single steps and of whole runs of the processor. */
module ProcFacts {
  import opened Names
  import opened Wrappers
  import opened Proc

  /** Whether a jump instruction transfers control, comparing register A with register B. */
  predicate JumpTaken(p: Processor, ins: Instruction)
    requires IsJump(ins)
  {
    match ins
    case JumpLessThan(_) => p.a < p.b
    case JumpGreaterThan(_) => p.a > p.b
    case JumpEqual(_) => p.a == p.b
    case Jump(_) => true
  }

  /** Each register reads its own field, so the four registers are four separate
      storage places: two processors agree on every register read exactly when
      their four register fields agree. */
  lemma GetSeparates(p: Processor, q: Processor)
    ensures Get(p, A) == p.a && Get(p, B) == p.b && Get(p, Res) == p.result && Get(p, Rip) == p.rip
    ensures (forall r :: Get(p, r) == Get(q, r)) <==>
            p.a == q.a && p.b == q.b && p.result == q.result && p.rip == q.rip
  {
    if forall r :: Get(p, r) == Get(q, r) {
      assert Get(p, A) == Get(q, A) && Get(p, B) == Get(q, B);
      assert Get(p, Res) == Get(q, Res) && Get(p, Rip) == Get(q, Rip);
    }
  }

  /** A jump sets `Rip` to its target exactly when taken; otherwise `Rip` keeps the
      default advance. Nothing else changes and nothing is printed. */
  lemma StepJump(p: Processor)
    requires Running(p) && IsJump(Fetch(p))
    ensures Step(p).Stepped?
    ensures Step(p).next.rip as int ==
            if JumpTaken(p, Fetch(p)) then Fetch(p).target as int else p.rip as int + 1
    ensures SameExcept(p, Step(p).next, Rip)
    ensures Step(p).out == []
  {
  }

  /** `Move(r, v)` changes only `r` (besides the default advance); writing `Rip`
      overrides the advance. */
  lemma StepMove(p: Processor, r: Register, v: u8)
    requires Running(p) && Fetch(p) == Move(r, v)
    ensures Step(p).Stepped?
    ensures Get(Step(p).next, r) == v
    ensures r != Rip ==> Step(p).next.rip as int == p.rip as int + 1
    ensures forall o :: o != r && o != Rip ==> Get(Step(p).next, o) == Get(p, o)
    ensures Step(p).next.stack == p.stack
  {
  }

  /** `Cpy(dst, src)` copies the second register into the first. Reading `Rip` as
      the source yields the address after the copy instruction. */
  lemma StepCopy(p: Processor, dst: Register, src: Register)
    requires Running(p) && Fetch(p) == Cpy(dst, src)
    ensures Step(p).Stepped?
    ensures Get(Step(p).next, dst) as int == if src == Rip then p.rip as int + 1 else Get(p, src) as int
    ensures dst != Rip ==> Step(p).next.rip as int == p.rip as int + 1
    ensures forall o :: o != dst && o != Rip ==> Get(Step(p).next, o) == Get(p, o)
    ensures Step(p).next.stack == p.stack
  {
  }

  /** `Add` and `Sub` read their operands after the advance (so `Rip` reads as the
      next address). The step completes exactly when the checked result fits; the
      result goes to `Res`, never to an operand, and nothing else changes. On
      overflow the step faults in the advanced state, `Res` unchanged. */
  lemma StepArithmetic(p: Processor, r1: Register, r2: Register)
    requires Running(p) && (Fetch(p) == Add(r1, r2) || Fetch(p) == Sub(r1, r2))
    ensures Fetch(p).Add? ==>
      (Step(p).Stepped? <==> Get(Advance(p), r1) as int + Get(Advance(p), r2) as int <= 255)
    ensures Fetch(p).Sub? ==>
      (Step(p).Stepped? <==> Get(Advance(p), r2) <= Get(Advance(p), r1))
    ensures Step(p).Stepped? ==>
      && Get(Step(p).next, Res) as int ==
         (if Fetch(p).Add? then Get(Advance(p), r1) as int + Get(Advance(p), r2) as int
          else Get(Advance(p), r1) as int - Get(Advance(p), r2) as int)
      && SameExcept(Advance(p), Step(p).next, Res)
      && Step(p).out == []
    ensures Step(p).Faulted? ==>
      && Step(p).at == Advance(p)
      && Step(p).at.result == p.result
      && Step(p).err == IntegerOverflow
  {
  }

  /** `LoadFromAddress(dst, addr)` loads the cell addressed by `addr` (read after the
      advance) into `dst`; no other register after the advance and no cell changes. */
  lemma StepLoadFrom(p: Processor, dst: Register, addr: Register)
    requires Running(p) && Fetch(p) == LoadFromAddress(dst, addr)
    ensures Step(p).Stepped?
    ensures Get(Step(p).next, dst) == p.stack[Get(Advance(p), addr)]
    ensures SameExcept(Advance(p), Step(p).next, dst)
    ensures Step(p).out == []
  {
  }

  /** `LoadToAddress(addr, src)` writes `src` into the single cell addressed by `addr`,
      both read after the advance; every register keeps its advanced value. */
  lemma StepStore(p: Processor, addr: Register, src: Register)
    requires Running(p) && Fetch(p) == LoadToAddress(addr, src)
    ensures Step(p).Stepped?
    ensures Step(p).next.stack[Get(Advance(p), addr)] == Get(Advance(p), src)
    ensures forall i :: 0 <= i < 256 && i != Get(Advance(p), addr) as int ==>
              Step(p).next.stack[i] == p.stack[i]
    ensures forall r :: Get(Step(p).next, r) == Get(Advance(p), r)
    ensures Step(p).out == []
  {
  }

  /** `Dump` and `DumpMem` print one value and change no register or memory cell.
      The value is read after the advance, so `Dump(Rip)` prints the next address. */
  lemma StepDump(p: Processor)
    requires Running(p) && (Fetch(p).Dump? || Fetch(p).DumpMem?)
    ensures Step(p).Stepped?
    ensures Step(p).next == Advance(p)
    ensures Fetch(p).Dump? ==> Step(p).out == [Get(Advance(p), Fetch(p).reg)]
    ensures Fetch(p).DumpMem? ==> Step(p).out == [p.stack[Get(Advance(p), Fetch(p).addr)]]
  {
  }

  /** Memory is written only by `LoadToAddress`, and at the single cell whose address
      its address register holds. */
  lemma MemoryWriteSite(p: Processor, i: int)
    requires Running(p) && Step(p).Stepped?
    requires 0 <= i < 256 && Step(p).next.stack[i] != p.stack[i]
    ensures Fetch(p).LoadToAddress?
    ensures i == Get(Advance(p), Fetch(p).addr) as int
  {
  }

  /** Store then load through the same, unchanged address register gives back the
      stored value. */
  lemma StoreThenLoad(p: Processor, addr: Register, src: Register, dst: Register)
    requires p.rip < 254
    requires p.instructions[p.rip] == LoadToAddress(addr, src)
    requires p.instructions[p.rip + 1] == LoadFromAddress(dst, addr)
    requires addr != Rip
    ensures Step(p).Stepped? && Running(Step(p).next)
    ensures Step(Step(p).next).Stepped?
    ensures Get(Step(Step(p).next).next, dst) == Get(Advance(p), src)
  {
    var q := Step(p).next;
    assert Get(q, addr) == Get(p, addr);
    assert q.stack[Get(p, addr)] == Get(Advance(p), src);
    assert Fetch(q) == LoadFromAddress(dst, addr);
    assert Get(Advance(q), addr) == Get(p, addr);
  }

  /** When a step faults, the run stops right there: the state is the advanced one
      (`Res` unchanged, earlier effects kept) and nothing more executes. */
  lemma FaultStopsRun(p: Processor, fuel: nat)
    requires Running(p) && Step(p).Faulted? && fuel > 0
    ensures Run(p, fuel) == Exec(Failed(IntegerOverflow), Advance(p), [])
    ensures Run(p, fuel).proc.result == p.result
    ensures Run(p, fuel).proc.rip as int == p.rip as int + 1
  {
  }

  /** A completed step hands the rest of the run to the next state, ahead of whose
      output the step's own output comes. */
  lemma RunStepped(p: Processor, fuel: nat, q: Processor, out: seq<u8>)
    requires Running(p) && fuel > 0 && Step(p) == Stepped(q, out)
    ensures Run(p, fuel) == Run(q, fuel - 1).(output := out + Run(q, fuel - 1).output)
  {
  }

  /** Extra fuel does not change a run that already finished. */
  lemma {:induction false} RunMoreFuel(p: Processor, f: nat, g: nat)
    requires f <= g
    requires Run(p, f).status != OutOfFuel
    ensures Run(p, g) == Run(p, f)
    decreases f
  {
    if Running(p) && f > 0 {
      if Step(p).Faulted? {
        FaultStopsRun(p, f);
        FaultStopsRun(p, g);
      } else {
        var q, out := Step(p).next, Step(p).out;
        RunStepped(p, f, q, out);
        RunStepped(p, g, q, out);
        RunMoreFuel(q, f - 1, g - 1);
      }
    }
  }

  /** If no instruction still to be executed can write `Rip`, each step brings `Rip`
      one closer to 255, so `255 - Rip` iterations suffice to finish. */
  lemma {:induction false} NoRipWritesFinish(p: Processor, fuel: nat)
    requires forall i :: p.rip as int <= i < 255 ==> !WritesRip(p.instructions[i])
    requires fuel >= 255 - p.rip as int
    ensures Run(p, fuel).status != OutOfFuel
    decreases 255 - p.rip as int
  {
    if Running(p) {
      match Step(p)
      case Faulted(_, _) =>
      case Stepped(q, _) =>
        assert !WritesRip(Fetch(p));
        assert q.rip as int == p.rip as int + 1 && q.instructions == p.instructions;
        NoRipWritesFinish(q, fuel - 1);
        assert Run(p, fuel).status == Run(q, fuel - 1).status;
    }
  }

  /** Falling through `Nop` slots halts with only `Rip` changed, at 255, printing nothing. */
  lemma {:induction false} NopTailHalts(p: Processor, fuel: nat)
    requires forall i :: p.rip as int <= i < 255 ==> p.instructions[i] == Nop
    requires fuel >= 255 - p.rip as int
    ensures Run(p, fuel) == Exec(Halted, p.(rip := 255), [])
    decreases 255 - p.rip as int
  {
    if Running(p) {
      var q := Advance(p);
      assert Step(p) == Stepped(q, []);
      NopTailHalts(q, fuel - 1);
    }
  }

  /** Instructions read the program only through `Rip`: replacing the program
      changes nothing else about their effect. */
  lemma ApplyIgnoresProgram(q: Processor, prog: Program, ins: Instruction)
    ensures Apply(q.(instructions := prog), ins).Ok? == Apply(q, ins).Ok?
    ensures Apply(q, ins).Ok? ==>
      Apply(q.(instructions := prog), ins).value == Apply(q, ins).value.(instructions := prog)
    ensures Printed(q.(instructions := prog), ins) == Printed(q, ins)
  {
    var q' := q.(instructions := prog);
    assert forall r :: Get(q', r) == Get(q, r);
    match ins
    case Move(r, v) =>
      assert Set(q', r, v) == Set(q, r, v).(instructions := prog);
    case Cpy(r1, r2) =>
      assert Set(q', r1, Get(q, r2)) == Set(q, r1, Get(q, r2)).(instructions := prog);
    case LoadFromAddress(r, addr) =>
      var v := q.stack[Get(q, addr)];
      assert Set(q', r, v) == Set(q, r, v).(instructions := prog);
    case _ =>
  }

  /** A step never reads slot 255, so replacing what it holds changes nothing but the
      program carried along. */
  lemma StepIgnoresSlot255(p: Processor, x: Instruction)
    requires Running(p)
    ensures var p' := p.(instructions := p.instructions[255 := x]);
      && Step(p').Faulted? == Step(p).Faulted?
      && (Step(p).Faulted? ==> Step(p') == Step(p).(at := Step(p).at.(instructions := p'.instructions)))
      && (Step(p).Stepped? ==> Step(p') == Step(p).(next := Step(p).next.(instructions := p'.instructions)))
  {
    var prog := p.instructions[255 := x];
    var p' := p.(instructions := prog);
    assert Fetch(p') == Fetch(p);
    assert Advance(p') == Advance(p).(instructions := prog);
    ApplyIgnoresProgram(Advance(p), prog, Fetch(p));
  }

  /** Slot 255 is never executed: whatever it holds, a run ends the same way, in the
      same registers and memory, printing the same values. */
  lemma {:induction false} Slot255Unreachable(p: Processor, x: Instruction, fuel: nat)
    ensures var p' := p.(instructions := p.instructions[255 := x]);
      && Run(p', fuel).status == Run(p, fuel).status
      && Run(p', fuel).output == Run(p, fuel).output
      && Run(p', fuel).proc == Run(p, fuel).proc.(instructions := p'.instructions)
    decreases fuel
  {
    var prog := p.instructions[255 := x];
    var p' := p.(instructions := prog);
    if Running(p) && fuel > 0 {
      StepIgnoresSlot255(p, x);
      match Step(p)
      case Faulted(_, _) =>
      case Stepped(q, out) =>
        assert q.instructions[255 := x] == prog;
        Slot255Unreachable(q, x, fuel - 1);
    }
  }
}
