/** The closed instruction vocabulary shared by the processor and the assembler. */
module Names {

  /** An 8-bit unsigned machine word: register contents, memory cells,
      memory addresses and instruction addresses all live in this domain. */
  newtype u8 = x: int | 0 <= x < 256

  /** The four registers. `Res` receives the outcome of `Add` and `Sub`;
      `Rip` is the address of the next instruction to fetch. */
  datatype Register = A | B | Res | Rip

  /** The thirteen instructions. The operand order is the order of the
      constructor arguments, which is not always the order in assembly text
      (see `Parser.ParseBinary` for `lta`). */
  datatype Instruction =
    | Move(dst: Register, value: u8)                 // dst := value
    | Cpy(dst: Register, src: Register)              // dst := src
    | Sub(lhs: Register, rhs: Register)              // Res := lhs - rhs, checked
    | Add(lhs: Register, rhs: Register)              // Res := lhs + rhs, checked
    | LoadFromAddress(dst: Register, addr: Register) // dst := memory[addr]
    | LoadToAddress(addr: Register, src: Register)   // memory[addr] := src
    | JumpLessThan(target: u8)                       // if A < B then Rip := target
    | JumpGreaterThan(target: u8)                    // if A > B then Rip := target
    | JumpEqual(target: u8)                          // if A == B then Rip := target
    | Jump(target: u8)                               // Rip := target
    | Dump(reg: Register)                            // print reg
    | DumpMem(addr: Register)                        // print memory[addr]
    | Nop

  /** A program: exactly one instruction slot per 8-bit address, which is also the
      address jumps and `Rip` refer to. */
  type Program = s: seq<Instruction> | |s| == 256 witness seq(256, _ => Nop)
}
