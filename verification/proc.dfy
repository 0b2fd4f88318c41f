/** The processor: machine state, the per-opcode helpers, one fetch-advance-execute
    step and a fuel-bounded run of the execution loop. */
module Proc {
  import opened Names
  import opened Wrappers

  /** The flat, byte-addressable memory: exactly one cell per 8-bit address. */
  type Memory = m: seq<u8> | |m| == 256 witness seq(256, _ => 0)

  /** The only fatal condition of execution: checked arithmetic failed. */
  datatype ExecutionError = IntegerOverflow

  /** Machine state. `stack` is the 256-cell memory, `instructions` the program. */
  datatype Processor = Processor(
    a: u8,
    b: u8,
    result: u8,
    rip: u8,
    stack: Memory,
    instructions: Program)

  /** A fresh processor: every register and memory cell zero, the program kept as given. */
  function New(program: Program): (p: Processor)
    ensures forall r :: Get(p, r) == 0
    ensures forall i :: 0 <= i < 256 ==> p.stack[i] == 0
    ensures p.instructions == program
  {
    Processor(0, 0, 0, 0, seq(256, _ => 0), program)
  }

  /** The value held in register `r`. */
  function Get(p: Processor, r: Register): u8 {
    match r
    case A => p.a
    case B => p.b
    case Res => p.result
    case Rip => p.rip
  }

  /** `q` differs from `p` at most in register `r`: every other register,
      the memory and the program are the same. */
  predicate SameExcept(p: Processor, q: Processor, r: Register) {
    && (forall o :: o != r ==> Get(q, o) == Get(p, o))
    && q.stack == p.stack
    && q.instructions == p.instructions
  }

  /** Writes `v` into register `r`. */
  function Set(p: Processor, r: Register, v: u8): (q: Processor)
    ensures Get(q, r) == v
    ensures SameExcept(p, q, r)
  {
    match r
    case A => p.(a := v)
    case B => p.(b := v)
    case Res => p.(result := v)
    case Rip => p.(rip := v)
  }

  /** `mov r v`: only `r` changes, and it now holds the literal. */
  function Mov(p: Processor, r: Register, v: u8): (q: Processor)
    ensures Get(q, r) == v
    ensures SameExcept(p, q, r)
  {
    Set(p, r, v)
  }

  /** `cpy dst src`: only `dst` changes, and it now holds what `src` held. */
  function CopyReg(p: Processor, dst: Register, src: Register): (q: Processor)
    ensures Get(q, dst) == Get(p, src)
    ensures SameExcept(p, q, dst)
  {
    Set(p, dst, Get(p, src))
  }

  /** `sub r1 r2`: `Res := r1 - r2` when that is not negative, otherwise an overflow
      error and no state change at all. */
  function SubChecked(p: Processor, r1: Register, r2: Register): (res: Result<Processor, ExecutionError>)
    ensures res.Ok? <==> Get(p, r2) <= Get(p, r1)
    ensures res.Ok? ==> Get(res.value, Res) as int == Get(p, r1) as int - Get(p, r2) as int
    ensures res.Ok? ==> SameExcept(p, res.value, Res)
  {
    var v1 := Get(p, r1) as int;
    var v2 := Get(p, r2) as int;
    if 0 <= v1 - v2 then Ok(p.(result := (v1 - v2) as u8)) else Err(IntegerOverflow)
  }

  /** `add r1 r2`: `Res := r1 + r2` when the sum fits in 8 bits, otherwise an
      overflow error and no state change at all. */
  function AddChecked(p: Processor, r1: Register, r2: Register): (res: Result<Processor, ExecutionError>)
    ensures res.Ok? <==> Get(p, r1) as int + Get(p, r2) as int <= 255
    ensures res.Ok? ==> Get(res.value, Res) as int == Get(p, r1) as int + Get(p, r2) as int
    ensures res.Ok? ==> SameExcept(p, res.value, Res)
  {
    var v1 := Get(p, r1) as int;
    var v2 := Get(p, r2) as int;
    if v1 + v2 <= 255 then Ok(p.(result := (v1 + v2) as u8)) else Err(IntegerOverflow)
  }

  /** `LoadFromAddress(r, addr)`: `r` receives the memory cell whose address is held
      in `addr`; nothing else changes. */
  function LoadFromAddr(p: Processor, r: Register, addr: Register): (q: Processor)
    ensures Get(q, r) == p.stack[Get(p, addr)]
    ensures SameExcept(p, q, r)
  {
    Set(p, r, p.stack[Get(p, addr)])
  }

  /** `LoadToAddress(addr, r)`: the memory cell whose address is held in `addr`
      receives `r`'s value; no register and no other cell changes. */
  function LoadToAddr(p: Processor, addr: Register, r: Register): (q: Processor)
    ensures forall o :: Get(q, o) == Get(p, o)
    ensures q.stack[Get(p, addr)] == Get(p, r)
    ensures forall i :: 0 <= i < 256 && i != Get(p, addr) as int ==> q.stack[i] == p.stack[i]
    ensures q.instructions == p.instructions
  {
    p.(stack := p.stack[Get(p, addr) := Get(p, r)])
  }

  /** A conditional jump: `Rip := target` exactly when `taken`, otherwise no change. */
  function JumpWhen(p: Processor, taken: bool, target: u8): (q: Processor)
    ensures q.rip == (if taken then target else p.rip)
    ensures SameExcept(p, q, Rip)
  {
    if taken then p.(rip := target) else p
  }

  /** The effect of one instruction on a processor whose `Rip` has already been
      advanced past it. Only checked arithmetic that leaves the 8-bit range fails;
      the program never changes, `Rip` changes only under an instruction that may
      write it, memory only under `LoadToAddress`, and `A`, `B` only when named as
      the destination; `Res` besides that only under `Add` and `Sub`. */
  function Apply(p: Processor, ins: Instruction): (r: Result<Processor, ExecutionError>)
    ensures r.Err? <==> Overflows(p, ins)
    ensures r.Err? ==> r.error == IntegerOverflow
    ensures r.Ok? ==> r.value.instructions == p.instructions
    ensures r.Ok? && !WritesRip(ins) ==> r.value.rip == p.rip
    ensures r.Ok? && !ins.LoadToAddress? ==> r.value.stack == p.stack
    ensures r.Ok? ==> forall o :: (o == A || o == B) && !NamesDestination(ins, o) ==> Get(r.value, o) == Get(p, o)
    ensures r.Ok? && !NamesDestination(ins, Res) && !ins.Add? && !ins.Sub? ==> r.value.result == p.result
    ensures r.Ok? && (ins.Add? || ins.Sub?) ==> SameExcept(p, r.value, Res)
    ensures r.Ok? && (ins.Nop? || ins.Dump? || ins.DumpMem?) ==> r.value == p
  {
    match ins
    case Nop => Ok(p)
    case Jump(t) => Ok(JumpWhen(p, true, t))
    case JumpEqual(t) => Ok(JumpWhen(p, p.a == p.b, t))
    case JumpGreaterThan(t) => Ok(JumpWhen(p, p.a > p.b, t))
    case JumpLessThan(t) => Ok(JumpWhen(p, p.a < p.b, t))
    case LoadToAddress(addr, r) => Ok(LoadToAddr(p, addr, r))
    case LoadFromAddress(r, addr) => Ok(LoadFromAddr(p, r, addr))
    case Add(r1, r2) => AddChecked(p, r1, r2)
    case Sub(r1, r2) => SubChecked(p, r1, r2)
    case Move(r, v) => Ok(Mov(p, r, v))
    case Cpy(r1, r2) => Ok(CopyReg(p, r1, r2))
    case Dump(_) => Ok(p)
    case DumpMem(_) => Ok(p)
  }

  /** What an instruction prints on the observation channel, read from the
      processor it runs on; only `Dump` and `DumpMem` print. */
  function Printed(p: Processor, ins: Instruction): (out: seq<u8>)
    ensures |out| == if ins.Dump? || ins.DumpMem? then 1 else 0
    ensures ins.Dump? ==> out[0] == Get(p, ins.reg)
    ensures ins.DumpMem? ==> out[0] == p.stack[Get(p, ins.addr)]
  {
    match ins
    case Dump(r) => [Get(p, r)]
    case DumpMem(r) => [p.stack[Get(p, r)]]
    case _ => []
  }

  /** Checked arithmetic that cannot complete on `p`: a sum above 255 or a
      difference below 0. Every other instruction is total. */
  predicate Overflows(p: Processor, ins: Instruction) {
    match ins
    case Add(r1, r2) => Get(p, r1) as int + Get(p, r2) as int > 255
    case Sub(r1, r2) => Get(p, r1) < Get(p, r2)
    case _ => false
  }

  /** Instructions that name `reg` as the register they write: `mov`, `cpy` and
      `lfa` with `reg` as their first operand. */
  predicate NamesDestination(ins: Instruction, reg: Register) {
    (ins.Move? || ins.Cpy? || ins.LoadFromAddress?) && ins.dst == reg
  }

  /** The four jumps, conditional or not. */
  predicate IsJump(ins: Instruction) {
    ins.JumpLessThan? || ins.JumpGreaterThan? || ins.JumpEqual? || ins.Jump?
  }

  /** Instructions that may write `Rip` and so override the default advance. */
  predicate WritesRip(ins: Instruction) {
    NamesDestination(ins, Rip) || IsJump(ins)
  }

  /** The execution loop keeps going only while `Rip` is below 255. */
  predicate Running(p: Processor) {
    p.rip < 255
  }

  /** The instruction in the slot `Rip` points at. */
  function Fetch(p: Processor): Instruction
    requires Running(p)
  {
    p.instructions[p.rip]
  }

  /** The default advance. It is only taken while running, so it never wraps. */
  function Advance(p: Processor): (q: Processor)
    requires Running(p)
    ensures q.rip as int == p.rip as int + 1
    ensures SameExcept(p, q, Rip)
  {
    p.(rip := p.rip + 1)
  }

  /** The outcome of one step: the next state and what it printed, or the
      error and the state execution stopped in. */
  datatype StepResult =
    | Stepped(next: Processor, out: seq<u8>)
    | Faulted(err: ExecutionError, at: Processor)

  /** One iteration of the execution loop: fetch, advance `Rip` by one, then apply
      the instruction (which sees the advanced `Rip`). */
  function Step(p: Processor): (s: StepResult)
    requires Running(p)
    ensures s.Faulted? <==> Overflows(Advance(p), Fetch(p))
    ensures s.Faulted? ==> s.at == Advance(p)
    ensures s.Stepped? ==> s.next.instructions == p.instructions
    ensures s.Stepped? && !WritesRip(Fetch(p)) ==> s.next.rip as int == p.rip as int + 1
    ensures s.Stepped? && !Fetch(p).LoadToAddress? ==> s.next.stack == p.stack
    ensures s.Stepped? && !Fetch(p).Dump? && !Fetch(p).DumpMem? ==> s.out == []
  {
    var ins := Fetch(p);
    var q := Advance(p);
    match Apply(q, ins)
    case Ok(q') => Stepped(q', Printed(q, ins))
    case Err(e) => Faulted(e, q)
  }

  /** How a run ended. */
  datatype Status = Halted | Failed(err: ExecutionError) | OutOfFuel

  /** A run: how it ended, the final state, and everything printed, in order. */
  datatype Exec = Exec(status: Status, proc: Processor, output: seq<u8>)

  /** The execution loop, bounded by `fuel` iterations because a program may
      loop forever. It halts normally exactly when `Rip` reaches 255. */
  function Run(p: Processor, fuel: nat): (e: Exec)
    ensures e.proc.instructions == p.instructions
    ensures e.status == Halted ==> e.proc.rip == 255
    ensures e.status == OutOfFuel ==> Running(e.proc)
    ensures !Running(p) ==> e.status == Halted && e.proc == p
    decreases fuel
  {
    if !Running(p) then Exec(Halted, p, [])
    else if fuel == 0 then Exec(OutOfFuel, p, [])
    else match Step(p)
      case Faulted(err, q) => Exec(Failed(err), q, [])
      case Stepped(q, out) =>
        var rest := Run(q, fuel - 1);
        rest.(output := out + rest.output)
  }
}
