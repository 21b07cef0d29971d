/**
 * The bytecode stack machine: a fixed-capacity operand stack and a
 * fetch/dispatch loop over an instruction stream with a constant pool.
 *
 * `Stack`, `Step` and `Exec` give the machine's meaning as values; the class
 * `VM` is the machine itself, an array and a stack pointer updated in place,
 * and each of its methods is proved against those functions.
 */
module Vm {
  import opened Wrappers
  import opened Ints
  import opened Objects
  import Code

  const StackSize: nat := 2048

  /** The errors that the machine reports through Go's `error` results. */
  datatype VmError = StackOverflow | StackEmpty

  /** The Go runtime panics that `Run` can reach, kept apart from reported errors. */
  datatype Panic =
    | OperandOutOfRange(ip: nat)     // fewer than two operand bytes after OpConstant
    | ConstantOutOfRange(index: nat) // constant-pool index past the end of the pool
    | NotAnInteger                   // the `*object.Integer` assertion of OpAdd fails

  /** How a run ends: stream exhausted, an error returned, or a panic. */
  datatype RunResult = Done | Failed(error: VmError) | Panicked(panic: Panic)

  /** The compiler's output, the sole input of a machine. */
  datatype Bytecode = Bytecode(instructions: seq<byte>, constants: seq<Object>)

  /** The operand stack as a value: every slot, and `sp`, the next free slot. */
  datatype Stack = Stack(slots: seq<Object>, sp: nat) {

    ghost predicate Valid() {
      |slots| == StackSize && sp <= StackSize
    }

    /** The live part of the stack, bottom first; its last element is the top. */
    function Contents(): seq<Object>
      requires Valid()
    {
      slots[..sp]
    }

    /** `push`: store at `sp` and advance, or report an overflow and change nothing. */
    function Push(obj: Object): (r: Outcome<Stack, VmError>)
      requires Valid()
      ensures r.Err? <==> sp >= StackSize
      ensures r.Err? ==> r.error == StackOverflow
      ensures r.Ok? ==> r.value.Valid() && r.value.sp == sp + 1
      ensures r.Ok? ==> r.value.Contents() == Contents() + [obj]
      ensures r.Ok? ==> r.value.slots[sp] == obj
      ensures r.Ok? ==> forall i :: 0 <= i < StackSize && i != sp ==> r.value.slots[i] == slots[i]
    {
      if sp >= StackSize then Err(StackOverflow) else Ok(Stack(slots[sp := obj], sp + 1))
    }

    /** `pop`: take the top and step `sp` back, or report an empty stack. */
    function Pop(): (r: Outcome<(Stack, Object), VmError>)
      requires Valid()
      ensures r.Err? <==> sp == 0
      ensures r.Err? ==> r.error == StackEmpty
      ensures r.Ok? ==> r.value.0.Valid() && r.value.0.sp == sp - 1 && r.value.0.slots == slots
      ensures r.Ok? ==> Contents() == r.value.0.Contents() + [r.value.1]
    {
      if sp == 0 then Err(StackEmpty) else Ok((Stack(slots, sp - 1), slots[sp - 1]))
    }
  }

  /** A stack of `StackSize` empty slots, as the machine starts. */
  function EmptyStack(): (s: Stack)
    ensures s.Valid() && s.Contents() == []
  {
    Stack(seq(StackSize, _ => Null), 0)
  }

  /** Popping right after a successful push gives back the pushed value and the old stack. */
  lemma PopAfterPush(s: Stack, obj: Object)
    requires s.Valid() && s.sp < StackSize
    ensures s.Push(obj).Ok?
    ensures var t := s.Push(obj).value;
      t.Pop().Ok? && t.Pop().value.1 == obj && t.Pop().value.0.Contents() == s.Contents()
  {
  }

  /**
   * After a successful pop a push cannot overflow: the push whose error
   * vm.go:62 ignores, which follows two pops, always succeeds.
   */
  lemma PushAfterPop(s: Stack, obj: Object)
    requires s.Valid() && s.Pop().Ok?
    ensures s.Pop().value.0.Push(obj).Ok?
  {
  }

  /** What one pass of the dispatch loop leads to. */
  datatype StepResult = Next(ip: nat, stack: Stack) | Halt(stack: Stack, result: RunResult)

  /** OpConstant at `ip`: decode the operand, push that constant, move past the operand. */
  function StepConstant(code: seq<byte>, constants: seq<Object>, ip: nat, s: Stack): (r: StepResult)
    requires s.Valid() && ip < |code|
    ensures r.Next? <==>
      ip + 2 < |code| && Code.ReadUint16(code[ip + 1..]) < |constants| && s.sp < StackSize
    ensures r.Next? ==> r.ip == ip + 3 && r.stack.Valid()
    ensures r.Halt? ==> r.stack == s && !r.result.Done?
    ensures ip + 2 >= |code| ==> r == Halt(s, Panicked(OperandOutOfRange(ip)))
    ensures ip + 2 < |code| && Code.ReadUint16(code[ip + 1..]) >= |constants| ==>
      r == Halt(s, Panicked(ConstantOutOfRange(Code.ReadUint16(code[ip + 1..]))))
    ensures ip + 2 < |code| && Code.ReadUint16(code[ip + 1..]) < |constants| && s.sp >= StackSize ==>
      r == Halt(s, Failed(StackOverflow))
  {
    if ip + 2 >= |code| then Halt(s, Panicked(OperandOutOfRange(ip)))
    else
      var index := Code.ReadUint16(code[ip + 1..]);
      if index >= |constants| then Halt(s, Panicked(ConstantOutOfRange(index)))
      else match s.Push(constants[index])
        case Err(e) => Halt(s, Failed(e))
        case Ok(s') => Next(ip + 3, s')
  }

  /** OpAdd at `ip`: pop the right operand, then the left, and push their sum. */
  function StepAdd(ip: nat, s: Stack): (r: StepResult)
    requires s.Valid()
    ensures r.Next? <==> s.sp >= 2 && s.slots[s.sp - 1].Integer? && s.slots[s.sp - 2].Integer?
    ensures r.Next? ==> r.ip == ip + 1 && r.stack.Valid()
    ensures r.Halt? ==> r.stack.Valid() && !r.result.Done?
    ensures s.sp < 2 ==> r.Halt? && r.result == Failed(StackEmpty)
    ensures s.sp >= 2 && !(s.slots[s.sp - 1].Integer? && s.slots[s.sp - 2].Integer?) ==>
      r.Halt? && r.result == Panicked(NotAnInteger)
  {
    match s.Pop()
    case Err(e) => Halt(s, Failed(e))
    case Ok((s1, right)) =>
      match s1.Pop()
      case Err(e) => Halt(s1, Failed(e))
      case Ok((s2, left)) =>
        if !left.Integer? || !right.Integer? then Halt(s2, Panicked(NotAnInteger))
        else
          var sum := Integer(Wrap64(right.value as int + left.value as int));
          // vm.go discards this push's error and the loop goes on either way
          match s2.Push(sum)
          case Err(_) => Next(ip + 1, s2)
          case Ok(s3) => Next(ip + 1, s3)
  }

  /** One pass of the `Run` loop: the instruction at `ip`, and `ip` moved past it. */
  function Step(code: seq<byte>, constants: seq<Object>, ip: nat, s: Stack): (r: StepResult)
    requires s.Valid() && ip < |code|
    ensures r.Next? ==> ip < r.ip <= |code| && r.stack.Valid()
    ensures r.Halt? ==> r.stack.Valid() && !r.result.Done?
    ensures code[ip] != Code.OpConstant && code[ip] != Code.OpAdd ==> r == Next(ip + 1, s)
  {
    var op := code[ip];
    if op == Code.OpConstant then StepConstant(code, constants, ip, s)
    else if op == Code.OpAdd then StepAdd(ip, s)
    else Next(ip + 1, s)
  }

  /** `Run` from `ip` on: the final stack and how the run ended. */
  function Exec(code: seq<byte>, constants: seq<Object>, ip: nat, s: Stack): (r: (Stack, RunResult))
    requires s.Valid() && ip <= |code|
    ensures r.0.Valid()
    decreases |code| - ip
  {
    if ip == |code| then (s, Done)
    else match Step(code, constants, ip, s)
      case Next(ip', s') => Exec(code, constants, ip', s')
      case Halt(s', result) => (s', result)
  }

  /**
   * OpConstant decodes its 2-byte operand, pushes that constant and moves `ip`
   * 3 bytes on; a full stack aborts with the push error.
   */
  lemma ConstantStep(code: seq<byte>, constants: seq<Object>, ip: nat, s: Stack)
    requires s.Valid() && ip + 2 < |code| && code[ip] == Code.OpConstant
    requires Code.ReadUint16(code[ip + 1..]) < |constants|
    ensures var obj := constants[Code.ReadUint16(code[ip + 1..])];
      if s.sp < StackSize then
        Step(code, constants, ip, s) == Next(ip + 3, s.Push(obj).value) &&
        s.Push(obj).value.Contents() == s.Contents() + [obj]
      else
        Step(code, constants, ip, s) == Halt(s, Failed(StackOverflow))
  {
  }

  /**
   * OpAdd with fewer than two values fails with the pop error; with two
   * Integers on top it replaces them by their 64-bit sum, so `sp` drops by one.
   */
  lemma AddStep(code: seq<byte>, constants: seq<Object>, ip: nat, s: Stack)
    requires s.Valid() && ip < |code| && code[ip] == Code.OpAdd
    ensures s.sp < 2 ==>
      Step(code, constants, ip, s).Halt? &&
      Step(code, constants, ip, s).result == Failed(StackEmpty) &&
      Step(code, constants, ip, s).stack.sp == 0
    ensures s.sp >= 2 && s.slots[s.sp - 1].Integer? && s.slots[s.sp - 2].Integer? ==>
      var a, b := s.slots[s.sp - 2].value, s.slots[s.sp - 1].value;
      var r := Step(code, constants, ip, s);
      r.Next? && r.ip == ip + 1 && r.stack.sp == s.sp - 1 &&
      r.stack.Contents() == s.Contents()[..s.sp - 2] + [Integer(Wrap64(a as int + b as int))]
  {
    if s.sp >= 2 {
      PushAfterPop(s.Pop().value.0, Null);
      assert s.Contents()[..s.sp - 2] == s.slots[..s.sp - 2];
    }
  }

  /** A stream of opcodes with no `case` runs to its end and leaves the stack alone. */
  lemma {:induction false} SkipUnknown(code: seq<byte>, constants: seq<Object>, ip: nat, s: Stack)
    requires s.Valid() && ip <= |code|
    requires forall i :: ip <= i < |code| ==> code[i] != Code.OpConstant && code[i] != Code.OpAdd
    ensures Exec(code, constants, ip, s) == (s, Done)
    decreases |code| - ip
  {
    if ip < |code| {
      SkipUnknown(code, constants, ip + 1, s);
    }
  }

  /** The stream of `OpConstant` instructions that load the given pool indices in turn. */
  function ConstantProgram(indices: seq<nat>): (code: seq<byte>)
    requires forall k :: 0 <= k < |indices| ==> indices[k] < 0x1_0000
    ensures |code| == 3 * |indices|
  {
    if indices == [] then [] else Code.MakeConstant(indices[0]) + ConstantProgram(indices[1..])
  }

  /** The instruction at byte `3 * j` of a constant program loads `indices[j]`. */
  lemma {:induction false} ConstantProgramAt(indices: seq<nat>, j: nat)
    requires forall k :: 0 <= k < |indices| ==> indices[k] < 0x1_0000
    requires j < |indices|
    ensures 3 * j + 2 < |ConstantProgram(indices)|
    ensures ConstantProgram(indices)[3 * j] == Code.OpConstant
    ensures Code.ReadUint16(ConstantProgram(indices)[3 * j + 1..]) == indices[j]
  {
    var code := ConstantProgram(indices);
    var head := Code.MakeConstant(indices[0]);
    var tail := ConstantProgram(indices[1..]);
    assert code == head + tail;
    if j == 0 {
      assert code[1..][..2] == head[1..];
    } else {
      ConstantProgramAt(indices[1..], j - 1);
      assert code[3 * j] == tail[3 * (j - 1)];
      assert code[3 * j + 1..] == tail[3 * (j - 1) + 1..];
    }
  }

  /** The instruction at byte `3 * j` of `code` loads `indices[j]`. */
  ghost predicate LoadsAt(code: seq<byte>, indices: seq<nat>, j: nat)
    requires |code| == 3 * |indices| && j < |indices|
  {
    code[3 * j] == Code.OpConstant && Code.ReadUint16(code[3 * j + 1..]) == indices[j]
  }

  /** `code` is made of one `OpConstant` instruction per index, in order. */
  ghost predicate LoadsConstants(code: seq<byte>, indices: seq<nat>) {
    |code| == 3 * |indices| && forall j :: 0 <= j < |indices| ==> LoadsAt(code, indices, j)
  }

  lemma {:induction false} ConstantProgramLoads(indices: seq<nat>)
    requires forall k :: 0 <= k < |indices| ==> indices[k] < 0x1_0000
    ensures LoadsConstants(ConstantProgram(indices), indices)
  {
    var code := ConstantProgram(indices);
    forall j | 0 <= j < |indices|
      ensures LoadsAt(code, indices, j)
    {
      ConstantProgramAt(indices, j);
    }
  }

  /** The constants that a list of pool indices refers to, in order. */
  function Referenced(indices: seq<nat>, constants: seq<Object>): (objs: seq<Object>)
    requires forall k :: 0 <= k < |indices| ==> indices[k] < |constants|
    ensures |objs| == |indices|
    ensures forall k :: 0 <= k < |indices| ==> objs[k] == constants[indices[k]]
  {
    seq(|indices|, k requires 0 <= k < |indices| => constants[indices[k]])
  }

  /** The `j`-th instruction of a constant program pushes `constants[indices[j]]` or overflows. */
  lemma {:induction false} LoadStep(code: seq<byte>, indices: seq<nat>, constants: seq<Object>, j: nat, s: Stack)
    requires LoadsConstants(code, indices) && j < |indices| && indices[j] < |constants| && s.Valid()
    ensures var obj := constants[indices[j]];
      if s.sp < StackSize then
        s.Push(obj).Ok? && Step(code, constants, 3 * j, s) == Next(3 * j + 3, s.Push(obj).value)
      else
        Step(code, constants, 3 * j, s) == Halt(s, Failed(StackOverflow))
  {
    assert LoadsAt(code, indices, j);
    ConstantStep(code, constants, 3 * j, s);
  }

  /** At the end of the stream the run is over. */
  lemma {:induction false} ExecEnd(code: seq<byte>, constants: seq<Object>, s: Stack)
    requires s.Valid()
    ensures Exec(code, constants, |code|, s) == (s, Done)
  {
  }

  /** When a step stops the run, the run ends there. */
  lemma {:induction false} ExecHalt(code: seq<byte>, constants: seq<Object>, ip: nat, s: Stack)
    requires s.Valid() && ip < |code| && Step(code, constants, ip, s).Halt?
    ensures var r := Step(code, constants, ip, s);
      Exec(code, constants, ip, s) == (r.stack, r.result)
  {
  }

  /** When a step goes on, the rest of the run is the run from where it leads. */
  lemma {:induction false} ExecNext(code: seq<byte>, constants: seq<Object>, ip: nat, s: Stack)
    requires s.Valid() && ip < |code| && Step(code, constants, ip, s).Next?
    ensures var r := Step(code, constants, ip, s);
      Exec(code, constants, ip, s) == Exec(code, constants, r.ip, r.stack)
  {
  }

  /**
   * Running a constant program from its `j`-th instruction pushes the
   * remaining constants `objs[j..]` in order, or as many as fit and then fails
   * with a stack overflow.
   */
  lemma {:induction false} ExecConstantsFrom(code: seq<byte>, indices: seq<nat>, constants: seq<Object>,
                                             objs: seq<Object>, j: nat, s: Stack)
    requires LoadsConstants(code, indices) && |objs| == |indices|
    requires forall k :: 0 <= k < |indices| ==> indices[k] < |constants| && objs[k] == constants[indices[k]]
    requires j <= |indices| && s.Valid()
    ensures s.sp + (|objs| - j) <= StackSize ==>
      Exec(code, constants, 3 * j, s).1 == Done &&
      Exec(code, constants, 3 * j, s).0.Contents() == s.Contents() + objs[j..]
    ensures s.sp + (|objs| - j) > StackSize ==>
      Exec(code, constants, 3 * j, s).1 == Failed(StackOverflow) &&
      Exec(code, constants, 3 * j, s).0.Contents() == s.Contents() + objs[j..j + StackSize - s.sp]
    decreases |indices| - j
  {
    if j == |indices| {
      assert objs[j..] == [];
    } else if s.sp == StackSize {
      LoadStep(code, indices, constants, j, s);
      assert objs[j..j + StackSize - s.sp] == [];
    } else {
      LoadStep(code, indices, constants, j, s);
      var s' := s.Push(objs[j]).value;
      assert Step(code, constants, 3 * j, s) == Next(3 * (j + 1), s');
      ExecNext(code, constants, 3 * j, s);
      assert Exec(code, constants, 3 * j, s) == Exec(code, constants, 3 * (j + 1), s');
      ExecConstantsFrom(code, indices, constants, objs, j + 1, s');
      if s.sp + (|objs| - j) <= StackSize {
        ConsSuffix(s.Contents(), objs, j);
      } else {
        ConsSlice(s.Contents(), objs, j, j + StackSize - s.sp);
      }
    }
  }

  /** Pushing `objs[j]` and then `objs[j + 1..]` pushes `objs[j..]`. */
  lemma ConsSuffix(c: seq<Object>, objs: seq<Object>, j: nat)
    requires j < |objs|
    ensures (c + [objs[j]]) + objs[j + 1..] == c + objs[j..]
  {
    assert objs[j..] == [objs[j]] + objs[j + 1..];
  }

  /** Pushing `objs[j]` and then `objs[j + 1..n]` pushes `objs[j..n]`. */
  lemma ConsSlice(c: seq<Object>, objs: seq<Object>, j: nat, n: nat)
    requires j < n <= |objs|
    ensures (c + [objs[j]]) + objs[j + 1..n] == c + objs[j..n]
  {
    assert objs[j..n] == [objs[j]] + objs[j + 1..n];
  }

  /**
   * A stream of k `OpConstant` instructions run on an empty stack ends with
   * the k referenced constants on the stack, in order, when k <= StackSize,
   * and with a stack overflow otherwise.
   */
  lemma ExecConstants(indices: seq<nat>, constants: seq<Object>, s: Stack)
    requires forall k :: 0 <= k < |indices| ==> indices[k] < 0x1_0000 && indices[k] < |constants|
    requires s.Valid() && s.sp == 0
    ensures var r := Exec(ConstantProgram(indices), constants, 0, s);
      if |indices| <= StackSize then
        r.1 == Done && r.0.sp == |indices| && r.0.Contents() == Referenced(indices, constants)
      else
        r.1 == Failed(StackOverflow) && r.0.sp == StackSize &&
        r.0.Contents() == Referenced(indices, constants)[..StackSize]
  {
    var objs := Referenced(indices, constants);
    ConstantProgramLoads(indices);
    ExecConstantsFrom(ConstantProgram(indices), indices, constants, objs, 0, s);
    assert objs[0..] == objs;
  }

  /** The machine: its bytecode, the operand stack and the stack pointer. */
  class VM {
    const constants: seq<Object>
    const instructions: seq<byte>
    const stack: array<Object>
    var sp: int // the next free slot; the top of the stack is stack[sp - 1]

    ghost predicate Valid()
      reads this
    {
      stack.Length == StackSize && 0 <= sp <= StackSize
    }

    /** The machine's stack as a value. */
    ghost function State(): (s: Stack)
      reads this, stack
      requires Valid()
      ensures s.Valid()
    {
      Stack(stack[..], sp)
    }

    /** `New`: a machine for the bytecode with an empty stack of `StackSize` slots. */
    constructor (bytecode: Bytecode)
      ensures Valid() && fresh(stack)
      ensures instructions == bytecode.instructions && constants == bytecode.constants
      ensures State() == EmptyStack()
    {
      instructions := bytecode.instructions;
      constants := bytecode.constants;
      stack := new Object[StackSize](_ => Null);
      sp := 0;
    }

    /** The top of the stack, or `None` (Go's nil) when the stack is empty. */
    function StackTop(): (top: Option<Object>)
      reads this, stack
      requires Valid()
      ensures top.None? <==> State().Contents() == []
      ensures top.Some? ==> top.value == State().Contents()[|State().Contents()| - 1]
    {
      if sp == 0 then None else Some(stack[sp - 1])
    }

    /** `push`: store `obj` in slot `sp` and advance `sp`, or report an overflow. */
    method Push(obj: Object) returns (err: Option<VmError>)
      requires Valid()
      modifies this, stack
      ensures Valid()
      ensures old(sp) >= StackSize ==>
        err == Some(StackOverflow) && sp == old(sp) && stack[..] == old(stack[..])
      ensures old(sp) < StackSize ==>
        err == None && sp == old(sp) + 1 && stack[..] == old(stack[..])[old(sp) := obj]
      ensures match old(State()).Push(obj)
        case Ok(s) => err == None && State() == s
        case Err(e) => err == Some(e) && State() == old(State())
    {
      if sp >= StackSize {
        return Some(StackOverflow);
      }
      stack[sp] := obj;
      sp := sp + 1;
      return None;
    }

    /** `pop`: step `sp` back and return the slot it leaves, or report an empty stack. */
    method Pop() returns (r: Outcome<Object, VmError>)
      requires Valid()
      modifies this
      ensures Valid() && stack[..] == old(stack[..])
      ensures old(sp) == 0 ==> r == Err(StackEmpty) && sp == 0
      ensures old(sp) > 0 ==> r == Ok(old(stack[sp - 1])) && sp == old(sp) - 1
      ensures match old(State()).Pop()
        case Ok(p) => r == Ok(p.1) && State() == p.0
        case Err(e) => r == Err(e) && State() == old(State())
    {
      if sp == 0 {
        return Err(StackEmpty);
      }
      var o := stack[sp - 1];
      sp := sp - 1;
      return Ok(o);
    }

    /** The `OpConstant` case of `Run`'s switch, for the instruction at `ip`. */
    method LoadConstant(ip: nat) returns (stop: Option<RunResult>)
      requires Valid() && ip < |instructions|
      modifies this, stack
      ensures Valid()
      ensures var r := StepConstant(instructions, constants, ip, old(State()));
        State() == r.stack && (if r.Next? then stop == None else stop == Some(r.result))
    {
      if ip + 2 >= |instructions| {
        return Some(Panicked(OperandOutOfRange(ip)));
      }
      var constIndex := Code.ReadUint16(instructions[ip + 1..]);
      if constIndex >= |constants| {
        return Some(Panicked(ConstantOutOfRange(constIndex)));
      }
      var err := Push(constants[constIndex]);
      if err.Some? {
        return Some(Failed(err.value));
      }
      return None;
    }

    /** The `OpAdd` case of `Run`'s switch, for the instruction at `ip`. */
    method Add(ghost ip: nat) returns (stop: Option<RunResult>)
      requires Valid()
      modifies this, stack
      ensures Valid()
      ensures var r := StepAdd(ip, old(State()));
        State() == r.stack && (if r.Next? then stop == None else stop == Some(r.result))
    {
      var right := Pop();
      if right.Err? {
        return Some(Failed(right.error));
      }
      var left := Pop();
      if left.Err? {
        return Some(Failed(left.error));
      }
      if !left.value.Integer? || !right.value.Integer? {
        return Some(Panicked(NotAnInteger));
      }
      // vm.go:62 discards the error of this push; PushAfterPop shows there is none
      var ignored := Push(Integer(Wrap64(right.value.value as int + left.value.value as int)));
      return None;
    }

    /** The dispatch loop: the whole run from `ip == 0` is `Exec` on the starting stack. */
    method Run() returns (result: RunResult)
      requires Valid()
      modifies this, stack
      ensures Valid()
      ensures (State(), result) == Exec(instructions, constants, 0, old(State()))
    {
      var ip := 0;
      while ip < |instructions|
        invariant Valid() && 0 <= ip <= |instructions|
        invariant Exec(instructions, constants, ip, State()) == Exec(instructions, constants, 0, old(State()))
        decreases |instructions| - ip
      {
        ghost var ip0, s0 := ip, State();
        ghost var step := Step(instructions, constants, ip0, s0);
        var op := instructions[ip];
        var stop := None;
        if op == Code.OpConstant {
          assert step == StepConstant(instructions, constants, ip0, s0);
          stop := LoadConstant(ip);
          ip := ip + 2;
        } else if op == Code.OpAdd {
          assert step == StepAdd(ip0, s0);
          stop := Add(ip);
        } else {
          assert step == Next(ip0 + 1, s0);
        }
        assert State() == step.stack && (stop.None? <==> step.Next?);
        if stop.Some? {
          ExecHalt(instructions, constants, ip0, s0);
          assert Exec(instructions, constants, ip0, s0) == (State(), stop.value);
          return stop.value;
        }
        ip := ip + 1;
        assert step == Next(ip, State());
        ExecNext(instructions, constants, ip0, s0);
        assert Exec(instructions, constants, ip, State()) == Exec(instructions, constants, ip0, s0);
      }
      ExecEnd(instructions, constants, State());
      return Done;
    }
  }

  /**
   * A new machine over a constant program ends its run with the k referenced
   * constants on its stack, or with a stack overflow when k > StackSize.
   */
  method RunConstants(indices: seq<nat>, constants: seq<Object>) returns (vm: VM, result: RunResult)
    requires forall k :: 0 <= k < |indices| ==> indices[k] < 0x1_0000 && indices[k] < |constants|
    ensures vm.Valid()
    ensures |indices| <= StackSize ==>
      result == Done && vm.sp == |indices| && vm.stack[..vm.sp] == Referenced(indices, constants)
    ensures |indices| > StackSize ==>
      result == Failed(StackOverflow) && vm.sp == StackSize &&
      vm.stack[..] == Referenced(indices, constants)[..StackSize]
  {
    vm := new VM(Bytecode(ConstantProgram(indices), constants));
    result := vm.Run();
    ExecConstants(indices, constants, EmptyStack());
  }
}
