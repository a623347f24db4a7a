/**
 * The stack machine of src/vm.cpp (state in include/vm.h): `interpret` scans the chunk
 * with `ip` from 0 while `ip < pos`, over a 256-slot value stack indexed by `sp`, which
 * starts at -1. Values are `double`s in the source; here they are an abstract type `V`
 * whose operations are a parameter, so the model says which operation is applied to
 * which slots, not what the floating-point result is.
 */
module Vm {
  import opened Base
  import opened Bytecode

  const MAX_STACK: nat := 0x100

  /** The operations on stack values the VM applies: the `double` arithmetic of C. */
  datatype Arith<!V> = Arith(
    decode: Bytes8 -> V,
    add: (V, V) -> V,
    sub: (V, V) -> V,
    mul: (V, V) -> V,
    div: (V, V) -> V,
    pow: (V, V) -> V,
    neg: V -> V,
    isZero: V -> bool,
    zero: V,
    one: V)

  /** A line `interpret` prints: a returned value, or the bounds of a range. */
  datatype Line<V> = Value(v: V) | Range(lo: V, hi: V)

  /**
   * How `interpret` ends: INTERPRET_OK, INTERPRET_RUNTIME_ERROR, a `Logger::fatal` abort
   * with its message, or an access outside the stack or the chunk, which the source
   * does not guard against (undefined behaviour).
   */
  datatype Result = Ok | RuntimeError | Fatal(msg: string) | Undefined

  /** The VM's state: the stack slots, `sp`, and the lines printed so far. */
  datatype Machine<V> = Machine(stack: seq<V>, sp: int, out: seq<Line<V>>)

  ghost predicate Fits<V>(m: Machine<V>)
  {
    |m.stack| == MAX_STACK && -1 <= m.sp < MAX_STACK
  }

  /** What one instruction does: go on at the next `ip`, or stop with a result. */
  datatype Step<V> = Next(ip: nat, m: Machine<V>) | Stop(r: Result, m: Machine<V>)

  /** `!x` of C on a value, as a value: 1 for zero, 0 otherwise. */
  function Not<V>(a: Arith<V>, x: V): V
  {
    if a.isZero(x) then a.one else a.zero
  }

  /** `x && y` of C on values. */
  function And<V>(a: Arith<V>, x: V, y: V): V
  {
    if !a.isZero(x) && !a.isZero(y) then a.one else a.zero
  }

  /** `x || y` of C on values. */
  function Or<V>(a: Arith<V>, x: V, y: V): V
  {
    if !a.isZero(x) || !a.isZero(y) then a.one else a.zero
  }

  /** The operation a binary opcode applies to `stack[sp-1]` and `stack[sp]`. */
  function BinaryOp<V>(a: Arith<V>, op: OpCode, x: V, y: V): V
    requires op in {ADD, SUB, MUL, DIV, POW, L_AND, L_OR}
  {
    match op
    case ADD => a.add(x, y)
    case SUB => a.sub(x, y)
    case MUL => a.mul(x, y)
    case DIV => a.div(x, y)
    case POW => a.pow(x, y)
    case L_AND => And(a, x, y)
    case L_OR => Or(a, x, y)
  }

  /** One pass of the `switch` at `ip`. */
  function StepAt<V>(a: Arith<V>, code: seq<byte>, ip: nat, m: Machine<V>): (s: Step<V>)
    requires |code| == MAX_INSTRUCTIONS && ip < |code| && Fits(m)
    ensures s.Next? ==> s.ip > ip && Fits(s.m)
  {
    var stack, sp := m.stack, m.sp;
    match Decode(code[ip])
    case None => Stop(Fatal("Unknown opcode\n"), m)
    case Some(op) =>
      match op
      case FX_ENTRY => Next(ip + 1, m)
      case FX_EXIT => Next(ip + 1, m)
      case MOVE =>
        if ip + 10 > |code| || sp + 1 >= MAX_STACK then Stop(Undefined, m)
        else Next(ip + 10, m.(stack := stack[sp + 1 := a.decode(code[ip + 2..ip + 10])], sp := sp + 1))
      case RETURN =>
        if sp < 0 then Stop(Undefined, m)
        else Stop(Ok, m.(sp := sp - 1, out := m.out + [Value(stack[sp])]))
      case B_AND => Stop(Fatal("& can only be applied to integers"), m)
      case B_NOT => Stop(Fatal("~ can only be applied to integers"), m)
      case NEGATE =>
        if sp < 0 then Stop(Undefined, m) else Next(ip + 1, m.(stack := stack[sp := a.neg(stack[sp])]))
      case NOT =>
        if sp < 0 then Stop(Undefined, m) else Next(ip + 1, m.(stack := stack[sp := Not(a, stack[sp])]))
      case RANGE_EXCL => RangeStep(a, ip, m)
      case RANGE_L_IN => RangeStep(a, ip, m)
      case RANGE_R_IN => RangeStep(a, ip, m)
      case RANGE_INCL => RangeStep(a, ip, m)
      case B_OR => Stop(Fatal("Unknown opcode\n"), m)
      case B_XOR => Stop(Fatal("Unknown opcode\n"), m)
      case LOAD => Stop(Fatal("Unknown opcode\n"), m)
      case STORE => Stop(Fatal("Unknown opcode\n"), m)
      case _ =>
        if sp < 1 then Stop(Undefined, m)
        else Next(ip + 1, m.(stack := stack[sp - 1 := BinaryOp(a, op, stack[sp - 1], stack[sp])], sp := sp - 1))
  }

  /** The RANGE_* instructions: print both bounds, pop one, and zero the new top. */
  function RangeStep<V>(a: Arith<V>, ip: nat, m: Machine<V>): (s: Step<V>)
    requires Fits(m)
    ensures s.Next? ==> s.ip == ip + 1 && Fits(s.m)
  {
    if m.sp < 1 then Stop(Undefined, m)
    else
      Next(ip + 1, Machine(m.stack[m.sp - 1 := a.zero], m.sp - 1,
                           m.out + [Range(m.stack[m.sp - 1], m.stack[m.sp])]))
  }

  /** The `for` loop of `interpret` from `ip` on. */
  function Exec<V>(a: Arith<V>, code: seq<byte>, pos: nat, ip: nat, m: Machine<V>): (r: (Result, Machine<V>))
    requires |code| == MAX_INSTRUCTIONS && pos <= |code| && Fits(m)
    decreases pos - ip
  {
    if ip >= pos then (RuntimeError, m)
    else
      match StepAt(a, code, ip, m)
      case Next(ip', m') => Exec(a, code, pos, ip', m')
      case Stop(r, m') => (r, m')
  }

  /** How deep the stack ends up after a straight run of code, and how deep it gets. */
  datatype Effect = Effect(depth: int, peak: int)

  /** The binary opcodes: each pops two values and pushes one. */
  predicate IsBinary(op: OpCode)
  {
    op in {ADD, SUB, MUL, DIV, POW, L_AND, L_OR, B_AND, B_OR, B_XOR}
  }

  /** The unary opcodes: each rewrites the top value. */
  predicate IsUnary(op: OpCode)
  {
    op in {NEGATE, NOT, B_NOT}
  }

  /** The opcodes the VM aborts on although the code generator emits them. */
  predicate IntegerOnly(op: OpCode)
  {
    op in {B_AND, B_OR, B_XOR, B_NOT}
  }

  function Max(a: int, b: int): int { if a < b then b else a }

  /**
   * The stack effect of `code` run from a stack of `d` values: MOVE (ten bytes) pushes,
   * a binary opcode pops one, a unary opcode is neutral. Nothing when the code holds
   * anything else, ends inside a MOVE, or pops more than the stack holds. With `vm` set,
   * the opcodes the VM aborts on count as anything else.
   */
  function Walk(code: seq<byte>, d: int, vm: bool): (r: Option<Effect>)
    ensures r.Some? ==> r.value.peak >= d && r.value.peak >= r.value.depth
    decreases |code|
  {
    if code == [] then Some(Effect(d, d))
    else
      match Decode(code[0])
      case None => None
      case Some(op) =>
        if vm && IntegerOnly(op) then None
        else if op == MOVE then
          if |code| < 10 then None else Raise(d + 1, Walk(code[10..], d + 1, vm))
        else if IsBinary(op) then
          if d < 2 then None else Raise(d, Walk(code[1..], d - 1, vm))
        else if IsUnary(op) then
          if d < 1 then None else Raise(d, Walk(code[1..], d, vm))
        else None
  }

  function Raise(p: int, w: Option<Effect>): (r: Option<Effect>)
    ensures r.Some? <==> w.Some?
    ensures r.Some? ==> r.value.depth == w.value.depth && r.value.peak == Max(p, w.value.peak)
  {
    if w.None? then None else Some(Effect(w.value.depth, Max(p, w.value.peak)))
  }

  /** Walking two pieces of code one after the other walks their concatenation. */
  lemma {:induction false} WalkAppend(c1: seq<byte>, c2: seq<byte>, d: int, vm: bool)
    requires Walk(c1, d, vm).Some?
    ensures var e1 := Walk(c1, d, vm).value;
      Walk(c1 + c2, d, vm) == Raise(e1.peak, Walk(c2, e1.depth, vm))
    decreases |c1|
  {
    if c1 == [] {
      assert c1 + c2 == c2;
    } else {
      var op := Decode(c1[0]).value;
      assert (c1 + c2)[0] == c1[0];
      if op == MOVE {
        assert (c1 + c2)[10..] == c1[10..] + c2;
        WalkAppend(c1[10..], c2, d + 1, vm);
      } else if IsBinary(op) {
        assert (c1 + c2)[1..] == c1[1..] + c2;
        WalkAppend(c1[1..], c2, d - 1, vm);
      } else {
        assert (c1 + c2)[1..] == c1[1..] + c2;
        WalkAppend(c1[1..], c2, d, vm);
      }
    }
  }

  /** Only a MOVE pushes, and it takes ten bytes: the stack grows by at most a tenth of the code. */
  lemma {:induction false} WalkPeak(code: seq<byte>, d: int, vm: bool)
    requires Walk(code, d, vm).Some?
    ensures Walk(code, d, vm).value.peak <= d + |code| / 10
    decreases |code|
  {
    if code != [] {
      var op := Decode(code[0]).value;
      if op == MOVE {
        WalkPeak(code[10..], d + 1, vm);
      } else if IsBinary(op) {
        WalkPeak(code[1..], d - 1, vm);
      } else {
        WalkPeak(code[1..], d, vm);
      }
    }
  }

  /** A walk that succeeds without growing the stack past its 256 slots. */
  predicate WalksWithin(code: seq<byte>, d: int)
  {
    Walk(code, d, true).Some? && Walk(code, d, true).value.peak <= MAX_STACK
  }

  /** One instruction of code that walks within the stack goes on, and so does the rest. */
  lemma StepOnWalk<V>(a: Arith<V>, code: seq<byte>, ip: nat, end: nat, m: Machine<V>)
    requires |code| == MAX_INSTRUCTIONS && ip < end <= |code| && Fits(m)
    requires WalksWithin(code[ip..end], m.sp + 1)
    ensures StepAt(a, code, ip, m).Next?
    ensures var s := StepAt(a, code, ip, m);
      s.ip <= end && s.m.out == m.out && WalksWithin(code[s.ip..end], s.m.sp + 1) &&
      Walk(code[s.ip..end], s.m.sp + 1, true).value.depth == Walk(code[ip..end], m.sp + 1, true).value.depth
  {
    var seg := code[ip..end];
    assert seg[0] == code[ip];
    var op := Decode(code[ip]).value;
    if op == MOVE {
      assert seg[10..] == code[ip + 10..end];
    } else {
      assert seg[1..] == code[ip + 1..end];
    }
  }

  /** The run from `ip` reaches `end` with `sp` at `depth - 1` and nothing printed. */
  ghost predicate Reaches<V(!new)>(a: Arith<V>, code: seq<byte>, pos: nat, ip: nat, end: nat, m: Machine<V>, depth: int)
    requires |code| == MAX_INSTRUCTIONS && pos <= |code| && Fits(m)
  {
    exists m': Machine<V> :: Fits(m') && m'.sp == depth - 1 && m'.out == m.out && Exec(a, code, pos, ip, m) == Exec(a, code, pos, end, m')
  }

  /**
   * Running code whose walk succeeds within the 256 slots reaches the end of that code
   * without stopping, with `sp` at the walked depth and nothing printed.
   */
  lemma {:induction false} ExecSegment<V(!new)>(a: Arith<V>, code: seq<byte>, pos: nat, ip: nat, end: nat, m: Machine<V>)
    requires |code| == MAX_INSTRUCTIONS && ip <= end <= pos <= |code| && Fits(m)
    requires WalksWithin(code[ip..end], m.sp + 1)
    ensures Reaches(a, code, pos, ip, end, m, Walk(code[ip..end], m.sp + 1, true).value.depth)
    decreases end - ip
  {
    if ip == end {
      assert Exec(a, code, pos, ip, m) == Exec(a, code, pos, end, m);
    } else {
      StepOnWalk(a, code, ip, end, m);
      var s := StepAt(a, code, ip, m);
      ExecSegment(a, code, pos, s.ip, end, s.m);
      var m' :| Fits(m') && m'.sp == Walk(code[ip..end], m.sp + 1, true).value.depth - 1 && m'.out == s.m.out &&
        Exec(a, code, pos, s.ip, s.m) == Exec(a, code, pos, end, m');
      assert Exec(a, code, pos, ip, m) == Exec(a, code, pos, s.ip, s.m);
    }
  }

  /**
   * Code that leaves at least one value on the stack, followed by RETURN inside the
   * first `pos` bytes, runs to INTERPRET_OK, printing one value and popping it.
   */
  lemma RunsToReturn<V(!new)>(a: Arith<V>, code: seq<byte>, pos: nat, end: nat, m: Machine<V>)
    requires |code| == MAX_INSTRUCTIONS && end < pos <= |code| && Fits(m)
    requires code[end] == OpByte(RETURN)
    requires WalksWithin(code[..end], m.sp + 1)
    requires Walk(code[..end], m.sp + 1, true).value.depth >= 1
    ensures Exec(a, code, pos, 0, m).0 == Ok
    ensures Exec(a, code, pos, 0, m).1.sp == Walk(code[..end], m.sp + 1, true).value.depth - 2
    ensures |Exec(a, code, pos, 0, m).1.out| == |m.out| + 1
  {
    assert code[0..end] == code[..end];
    ExecSegment(a, code, pos, 0, end, m);
  }

  /** Code that never reaches a RETURN before `pos` ends in INTERPRET_RUNTIME_ERROR. */
  lemma FallsOffTheEnd<V(!new)>(a: Arith<V>, code: seq<byte>, pos: nat, m: Machine<V>)
    requires |code| == MAX_INSTRUCTIONS && pos <= |code| && Fits(m)
    requires WalksWithin(code[..pos], m.sp + 1)
    ensures Exec(a, code, pos, 0, m).0 == RuntimeError
  {
    assert code[0..pos] == code[..pos];
    ExecSegment(a, code, pos, 0, pos, m);
  }

  class VM<V> {
    const arith: Arith<V>
    /** `double stack[MAX_STACK]`. */
    const stack: array<V>
    var sp: int
    /** What `printf` has printed. */
    var out: seq<Line<V>>

    ghost predicate Valid()
      reads this
    {
      stack.Length == MAX_STACK && -1 <= sp < MAX_STACK
    }

    ghost function State(): (m: Machine<V>)
      reads this, stack
      requires Valid()
      ensures Fits(m)
    {
      Machine(stack[..], sp, out)
    }

    /** `VM()`: a zeroed stack and `sp == -1`. */
    constructor (arith: Arith<V>)
      ensures Valid() && fresh(stack) && this.arith == arith
      ensures State() == Machine(seq(MAX_STACK, _ => arith.zero), -1, [])
    {
      this.arith := arith;
      stack := new V[MAX_STACK](_ => arith.zero);
      sp := -1;
      out := [];
    }

    /** `interpret`: runs the chunk's first `pos` bytes as `Exec` describes. */
    method Interpret(chunk: Chunk) returns (r: Result)
      requires Valid() && chunk.Valid()
      modifies this, stack
      ensures Valid()
      ensures (r, State()) == Exec(arith, old(chunk.code[..]), old(chunk.pos), 0, old(State()))
    {
      var code := chunk.code[..];
      var ip := 0;
      while ip < chunk.pos
        invariant Valid() && 0 <= ip
        invariant Exec(arith, code, chunk.pos, ip, State()) == Exec(arith, code, chunk.pos, 0, old(State()))
        decreases chunk.pos - ip
      {
        var stop;
        ip, stop, r := Execute(code, ip);
        if stop {
          return r;
        }
      }
      return RuntimeError;
    }

    /**
     * One pass through the `switch`, with the `ip++` of the loop header: the next `ip`,
     * or the result the loop returns with.
     */
    method Execute(code: seq<byte>, ip: nat) returns (next: nat, stop: bool, r: Result)
      requires Valid() && |code| == MAX_INSTRUCTIONS && ip < |code|
      modifies this, stack
      ensures Valid()
      ensures stop ==> StepAt(arith, code, ip, old(State())) == Stop(r, State())
      ensures !stop ==> StepAt(arith, code, ip, old(State())) == Next(next, State())
    {
      next, stop, r := ip + 1, false, Ok;
      match Decode(code[ip]) {
        case None =>
          stop, r := true, Fatal("Unknown opcode\n");
        case Some(op) =>
          match op {
            case FX_ENTRY =>
            case FX_EXIT =>
            case MOVE =>
              if ip + 10 > |code| || sp + 1 >= MAX_STACK {
                stop, r := true, Undefined;
              } else {
                sp := sp + 1;
                stack[sp] := arith.decode(code[ip + 2..ip + 10]);
                next := ip + 10;
              }
            case RETURN =>
              if sp < 0 {
                stop, r := true, Undefined;
              } else {
                out := out + [Value(stack[sp])];
                sp := sp - 1;
                stop, r := true, Ok;
              }
            case B_AND =>
              stop, r := true, Fatal("& can only be applied to integers");
            case B_NOT =>
              stop, r := true, Fatal("~ can only be applied to integers");
            case NEGATE =>
              if sp < 0 {
                stop, r := true, Undefined;
              } else {
                stack[sp] := arith.neg(stack[sp]);
              }
            case NOT =>
              if sp < 0 {
                stop, r := true, Undefined;
              } else {
                stack[sp] := Not(arith, stack[sp]);
              }
            case B_OR =>
              stop, r := true, Fatal("Unknown opcode\n");
            case B_XOR =>
              stop, r := true, Fatal("Unknown opcode\n");
            case LOAD =>
              stop, r := true, Fatal("Unknown opcode\n");
            case STORE =>
              stop, r := true, Fatal("Unknown opcode\n");
            case RANGE_EXCL =>
              stop, r := RangeOp(ip);
            case RANGE_L_IN =>
              stop, r := RangeOp(ip);
            case RANGE_R_IN =>
              stop, r := RangeOp(ip);
            case RANGE_INCL =>
              stop, r := RangeOp(ip);
            case _ =>
              if sp < 1 {
                stop, r := true, Undefined;
              } else {
                stack[sp - 1] := BinaryOp(arith, op, stack[sp - 1], stack[sp]);
                sp := sp - 1;
              }
          }
      }
    }

    /** The RANGE_* case: print the two bounds, then `stack[--sp] = 0`. */
    method RangeOp(ip: nat) returns (stop: bool, r: Result)
      requires Valid()
      modifies this, stack
      ensures Valid()
      ensures stop ==> r == Undefined && RangeStep(arith, ip, old(State())) == Stop(r, State())
      ensures !stop ==> RangeStep(arith, ip, old(State())) == Next(ip + 1, State())
    {
      stop, r := false, Ok;
      if sp < 1 {
        return true, Undefined;
      }
      out := out + [Range(stack[sp - 1], stack[sp])];
      sp := sp - 1;
      stack[sp] := arith.zero;
    }
  }
}
