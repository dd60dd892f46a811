/** Instruction fields shared by the THUMB handlers. */
module ThumbFields {
  /** The low register (r0-r7) named by the three bits of `instr` starting at bit `at`. */
  function LowRegister(instr: bv32, at: nat): (r: nat)
    requires at <= 8
    ensures r < 8
  {
    ((instr >> at) & 7) as nat
  }
}
