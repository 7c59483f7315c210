/**
 * The arithmetic logic unit of the Duck Machine: a stateless function from
 * an operation code and two operands to a result and a condition flag.
 * Integers are unbounded, as in the original: overflow is not modelled.
 */
module Alu {
  import opened InstrFormat

  datatype Option<T> = None | Some(value: T)

  /** What the ALU returns: the result and the flag that describes it. */
  datatype AluResult = AluResult(result: int, flag: CondFlag)

  /**
   * Python's floor division `x // y`, which rounds towards minus infinity.
   * Dafny's `/` is Euclidean (the remainder is never negative), which agrees
   * with floor division for a positive divisor but not for a negative one.
   */
  function FloorDiv(x: int, y: int): (q: int)
    requires y != 0
    ensures y > 0 ==> y * q <= x < y * q + y
    ensures y < 0 ==> y * q + y < x <= y * q
  {
    var e := x / y;
    if y < 0 && x % y != 0 then
      assert y * (e - 1) == y * e - y;
      e - 1
    else
      e
  }

  /**
   * The table of operations: the result of `op` on `x` and `y`, or `None`
   * when the operation raises (division by zero).
   */
  function Operation(op: OpCode, x: int, y: int): Option<int> {
    match op
    case ADD => Some(x + y)
    case SUB => Some(x - y)
    case MUL => Some(x * y)
    case DIV => if y == 0 then None else Some(FloorDiv(x, y))
    // memory accesses: the ALU computes the address
    case LOAD => Some(x + y)
    case STORE => Some(x + y)
    case HALT => Some(0)
  }

  /** The flag that describes the sign of a result. */
  function SignFlag(v: int): CondFlag {
    if v == 0 then Z else if v < 0 then M else P
  }

  /**
   * The ALU. It never fails: a fault inside an operation is reported as the
   * result 0 with flag V, and only division by zero faults. Any other result
   * carries the flag Z, M or P of its sign.
   */
  function Exec(op: OpCode, in1: int, in2: int): (r: AluResult)
    ensures r.flag == V <==> op == DIV && in2 == 0
    ensures r.flag == V ==> r.result == 0
    ensures r.flag in {Z, M, P, V}
    ensures r.flag != V ==> (r.flag == Z <==> r.result == 0)
    ensures r.flag != V ==> (r.flag == M <==> r.result < 0)
    ensures r.flag != V ==> (r.flag == P <==> r.result > 0)
  {
    match Operation(op, in1, in2)
    case None => AluResult(0, V)
    case Some(result) => AluResult(result, SignFlag(result))
  }

  /** Each operation's result, when it does not fault. */
  lemma ExecResults(op: OpCode, in1: int, in2: int)
    ensures op == ADD ==> Exec(op, in1, in2).result == in1 + in2
    ensures op == SUB ==> Exec(op, in1, in2).result == in1 - in2
    ensures op == MUL ==> Exec(op, in1, in2).result == in1 * in2
    ensures op == LOAD || op == STORE ==> Exec(op, in1, in2).result == in1 + in2
    ensures op == HALT ==> Exec(op, in1, in2) == AluResult(0, Z)
  {
  }

  /**
   * Division rounds towards minus infinity: the result is the one integer q
   * with q <= in1 / in2 < q + 1, read as rational numbers.
   */
  lemma ExecDivIsFloor(in1: int, in2: int, q: int)
    requires in2 != 0
    requires in2 > 0 ==> in2 * q <= in1 < in2 * q + in2
    requires in2 < 0 ==> in2 * q + in2 < in1 <= in2 * q
    ensures Exec(DIV, in1, in2) == AluResult(q, SignFlag(q))
  {
    var r := FloorDiv(in1, in2);
    if in2 > 0 {
      FloorUnique(in2, in1, q, r);
    } else {
      assert (-in2) * q == -(in2 * q) && (-in2) * r == -(in2 * r);
      FloorUnique(-in2, -in1, q, r);
    }
  }

  /** For a positive y, at most one q has y * q <= x < y * q + y. */
  lemma FloorUnique(y: int, x: int, q: int, r: int)
    requires y > 0
    requires y * q <= x < y * q + y
    requires y * r <= x < y * r + y
    ensures q == r
  {
    MulStrict(y, q, r);
    MulStrict(y, r, q);
  }

  /** Multiplying by a positive y keeps distinct integers at least y apart. */
  lemma MulStrict(y: int, a: int, b: int)
    requires y > 0
    ensures a > b ==> y * a >= y * b + y
  {
    if a > b {
      MulAtLeast(y, a - b);
      assert y * a == y * b + y * (a - b);
    }
  }

  /** A positive multiple of k is at least k. */
  lemma {:induction false} MulAtLeast(k: nat, n: int)
    requires n >= 1
    ensures k * n >= k
    decreases n
  {
    if n > 1 {
      MulAtLeast(k, n - 1);
      assert k * n == k * (n - 1) + k;
    }
  }

  /** The results the ALU is expected to give on sample operands. */
  lemma ExecExamples()
    ensures Exec(ADD, 5, 3) == AluResult(8, P)
    ensures Exec(ADD, -5, 3) == AluResult(-2, M)
    ensures Exec(ADD, -10, 10) == AluResult(0, Z)
    ensures Exec(ADD, 0x7fff_ffff, 1).flag == P
    ensures Exec(ADD, -0x8000_0000, -1).flag == M
    ensures Exec(SUB, 3, 5) == AluResult(-2, M)
    ensures Exec(MUL, -3, 5) == AluResult(-15, M)
    ensures Exec(MUL, 0, 22) == AluResult(0, Z)
    ensures Exec(DIV, 5, 3) == AluResult(1, P)
    ensures Exec(DIV, 12, -3) == AluResult(-4, M)
    ensures Exec(DIV, 3, 4) == AluResult(0, Z)
    ensures Exec(DIV, 12, 0) == AluResult(0, V)
    ensures Exec(LOAD, 12, 13) == AluResult(25, P)
    ensures Exec(STORE, 27, 13) == AluResult(40, P)
    ensures Exec(HALT, 99, 98) == AluResult(0, Z)
  {
  }
}
