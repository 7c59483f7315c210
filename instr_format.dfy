/**
 * The parts of the Duck Machine instruction set that the CPU relies on:
 * operation codes, condition flags, decoded instructions, and Python's
 * bitwise `&`, which the CPU uses for its predication test.
 *
 * The bit layout of an instruction word and the rendering of flags and
 * instructions as text are not part of this model; the CPU only ever sees
 * a decoded `Instruction`, produced by a decoder that it is given.
 */
module InstrFormat {

  /** The closed set of operations of the Duck Machine. */
  datatype OpCode = HALT | LOAD | STORE | ADD | SUB | MUL | DIV

  /**
   * The integer `.value` of each operation code. Only the fact that these
   * numbers are non-negative matters to the CPU (see `BitAndNonNegative`).
   */
  function OpValue(op: OpCode): (v: nat)
    ensures v < 7
  {
    match op
    case HALT => 0
    case LOAD => 1
    case STORE => 2
    case ADD => 3
    case SUB => 4
    case MUL => 5
    case DIV => 6
  }

  /** A condition flag: a set of the four bits M, Z, P and V, as its integer value. */
  type CondFlag = m: int | 0 <= m < 16

  const M: CondFlag := 1
  const Z: CondFlag := 2
  const P: CondFlag := 4
  const V: CondFlag := 8
  const NEVER: CondFlag := 0
  const ALWAYS: CondFlag := 15

  /** A register number: r0 is the zero register, r15 the program counter. */
  type RegIndex = i: int | 0 <= i < 16

  /** A decoded instruction. */
  datatype Instruction = Instruction(
    op: OpCode,
    cond: CondFlag,
    regSrc1: RegIndex,
    regSrc2: RegIndex,
    regTarget: RegIndex,
    offset: int)

  /** A decoder from instruction words to instructions. */
  type Decoder = int -> Instruction

  function Abs(x: int): nat {
    if x < 0 then -x else x
  }

  /**
   * Python's `a & b` on unbounded integers, negative ones being read as
   * infinite two's complement. Dafny's `/` and `%` by 2 round towards
   * minus infinity, which is an arithmetic shift right by one bit.
   */
  function BitAnd(a: int, b: int): int
    decreases Abs(a) + Abs(b)
  {
    if a == 0 || b == 0 then 0
    else if a == -1 then b
    else if b == -1 then a
    else 2 * BitAnd(a / 2, b / 2) + (if a % 2 == 1 && b % 2 == 1 then 1 else 0)
  }

  /** The bitwise and of a non-negative number with anything is between 0 and that number. */
  lemma {:induction false} BitAndNonNegative(a: int, b: int)
    requires a >= 0
    ensures 0 <= BitAnd(a, b) <= a
    decreases Abs(a) + Abs(b)
  {
    if a == 0 || b == 0 || b == -1 {
    } else {
      BitAndNonNegative(a / 2, b / 2);
    }
  }

  /** The overlap tests of the flag algebra: P overlaps M|P, Z does not, nothing overlaps NEVER. */
  lemma FlagOverlapExamples(f: CondFlag)
    ensures BitAnd(P, M + P) == P
    ensures BitAnd(Z, M + P) == 0
    ensures BitAnd(M + V, M) == M && BitAnd(M + V, V) == V && BitAnd(M + V, Z) == 0
    ensures BitAnd(f, NEVER) == 0
  {
  }
}
