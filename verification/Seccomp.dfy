/** The syscall filters: classic BPF programs and the policy they implement. */
module Seccomp {
  import opened Bytes

  type u32 = x: int | 0 <= x < 0x1_0000_0000

  predicate AnyBit(a: u32, mask: u32) {
    (a as bv32) & (mask as bv32) != 0
  }

  /** `(op, jt, jf, k)`. */
  datatype Instruction = Instruction(op: nat, jt: nat, jf: nat, k: u32)

  const LOAD: nat := 0x20
  const JUMP_EQUAL: nat := 0x15
  const JUMP_AT_LEAST: nat := 0x35
  const JUMP_ANY_BIT: nat := 0x45
  const RETURN: nat := 0x06

  const X86_64: u32 := 0xC000003E
  const X32_BIT: u32 := 0x40000000
  const KILL: u32 := 0x80000000
  const EPERM: u32 := 0x50001
  const ENOSYS: u32 := 0x50026
  const ALLOW: u32 := 0x7FFF0000
  const CLONE: u32 := 56
  const UNSHARE: u32 := 272
  const CLONE3: u32 := 435
  const NAMESPACE_FLAGS: u32 := 0x7E020000
  const CLONE_NEWCGROUP: u32 := 0x02000000

  /** What the kernel shows a filter: the words at offsets 4, 0 and 16. */
  datatype Call = Call(arch: u32, nr: u32, flags: u32)

  function Word(call: Call, offset: u32): Option<u32> {
    if offset == 0 then Some(call.nr)
    else if offset == 4 then Some(call.arch)
    else if offset == 16 then Some(call.flags)
    else None
  }

  /** What one instruction does: go on `skip` instructions further with accumulator `a`,
      answer, or nothing the interpreter knows. */
  datatype Effect = Go(skip: nat, a: u32) | Answered(k: u32) | Unknown

  function Perform(i: Instruction, a: u32, call: Call): Effect {
    if i.op == LOAD then
      (match Word(call, i.k)
       case Some(w) => Go(0, w)
       case None => Unknown)
    else if i.op == JUMP_EQUAL then Go(if a == i.k then i.jt else i.jf, a)
    else if i.op == JUMP_AT_LEAST then Go(if a >= i.k then i.jt else i.jf, a)
    else if i.op == JUMP_ANY_BIT then Go(if AnyBit(a, i.k) then i.jt else i.jf, a)
    else if i.op == RETURN then Answered(i.k)
    else Unknown
  }

  /** Execute from `pc` with accumulator `a`. Jumps are unsigned, so they only go forward;
      None is a program that runs off its end or uses anything unknown. */
  function Execute(code: seq<Instruction>, pc: nat, a: u32, call: Call): Option<u32>
    decreases |code| - pc
  {
    if pc >= |code| then None
    else
      match Perform(code[pc], a, call)
      case Go(skip, b) => Execute(code, pc + 1 + skip, b, call)
      case Answered(k) => Some(k)
      case Unknown => None
  }

  function Header(): seq<Instruction> {
    [Instruction(LOAD, 0, 0, 4),
     Instruction(JUMP_EQUAL, 1, 0, X86_64),
     Instruction(RETURN, 0, 0, KILL),
     Instruction(LOAD, 0, 0, 0),
     Instruction(JUMP_AT_LEAST, 0, 1, X32_BIT),
     Instruction(RETURN, 0, 0, EPERM)]
  }

  /** Answer one system call with a fixed result. */
  function Answer(nr: u32, result: u32): seq<Instruction> {
    [Instruction(JUMP_EQUAL, 0, 1, nr), Instruction(RETURN, 0, 0, result)]
  }

  /** Let one system call through unless its flags have a forbidden bit. */
  function Check(nr: u32, bits: u32): seq<Instruction> {
    [Instruction(JUMP_EQUAL, 0, 4, nr),
     Instruction(LOAD, 0, 0, 16),
     Instruction(JUMP_ANY_BIT, 0, 1, bits),
     Instruction(RETURN, 0, 0, EPERM),
     Instruction(RETURN, 0, 0, ALLOW)]
  }

  function Denies(denied: seq<u32>): seq<Instruction> {
    if denied == [] then [] else Answer(denied[0], EPERM) + Denies(denied[1..])
  }

  function Checks(checked: seq<u32>, bits: u32): seq<Instruction> {
    if checked == [] then [] else Check(checked[0], bits) + Checks(checked[1..], bits)
  }

  /** A program of the shape both builders share. */
  function Program(denied: seq<u32>, checked: seq<u32>, bits: u32): seq<Instruction> {
    Header() + Denies(denied) + Answer(CLONE3, ENOSYS) + Checks(checked, bits) + [Instruction(RETURN, 0, 0, ALLOW)]
  }

  /** The policy, said plainly. */
  function Policy(denied: seq<u32>, checked: seq<u32>, bits: u32, call: Call): u32 {
    if call.arch != X86_64 then KILL
    else if call.nr >= X32_BIT then EPERM
    else if call.nr in denied then EPERM
    else if call.nr == CLONE3 then ENOSYS
    else if call.nr in checked && AnyBit(call.flags, bits) then EPERM
    else ALLOW
  }

  /** Instructions before the program counter do not matter. */
  lemma {:induction false} Relocate(before: seq<Instruction>, code: seq<Instruction>, pc: nat, a: u32, call: Call)
    ensures Execute(before + code, |before| + pc, a, call) == Execute(code, pc, a, call)
    decreases |code| - pc
  {
    hide Perform;
    if pc < |code| {
      assert (before + code)[|before| + pc] == code[pc];
      match Perform(code[pc], a, call)
      case Go(skip, b) => Relocate(before, code, pc + 1 + skip, b, call);
      case _ =>
    }
  }

  lemma AnswerStep(nr: u32, result: u32, rest: seq<Instruction>, a: u32, call: Call)
    ensures Execute(Answer(nr, result) + rest, 0, a, call) == if a == nr then Some(result) else Execute(rest, 0, a, call)
  {
    var code := Answer(nr, result) + rest;
    assert code[0] == Answer(nr, result)[0] && code[1] == Answer(nr, result)[1];
    assert Execute(code, 1, a, call) == Some(result);
    Relocate(Answer(nr, result), rest, 0, a, call);
  }

  lemma CheckStep(nr: u32, bits: u32, rest: seq<Instruction>, a: u32, call: Call)
    ensures Execute(Check(nr, bits) + rest, 0, a, call)
         == if a != nr then Execute(rest, 0, a, call) else Some(if AnyBit(call.flags, bits) then EPERM else ALLOW)
  {
    hide AnyBit;
    var block := Check(nr, bits);
    var code := block + rest;
    assert code[0] == block[0] && code[1] == block[1] && code[2] == block[2] && code[3] == block[3] && code[4] == block[4];
    assert Execute(code, 3, call.flags, call) == Some(EPERM);
    assert Execute(code, 4, call.flags, call) == Some(ALLOW);
    assert Execute(code, 2, call.flags, call) == Some(if AnyBit(call.flags, bits) then EPERM else ALLOW);
    assert Execute(code, 1, a, call) == Execute(code, 2, call.flags, call);
    Relocate(block, rest, 0, a, call);
  }

  lemma {:induction false} DeniesStep(denied: seq<u32>, rest: seq<Instruction>, a: u32, call: Call)
    ensures Execute(Denies(denied) + rest, 0, a, call) == if a in denied then Some(EPERM) else Execute(rest, 0, a, call)
  {
    if denied == [] {
      assert Denies(denied) + rest == rest;
    } else {
      assert Denies(denied) + rest == Answer(denied[0], EPERM) + (Denies(denied[1..]) + rest);
      AnswerStep(denied[0], EPERM, Denies(denied[1..]) + rest, a, call);
      DeniesStep(denied[1..], rest, a, call);
      assert denied == [denied[0]] + denied[1..];
    }
  }

  lemma {:induction false} ChecksStep(checked: seq<u32>, bits: u32, rest: seq<Instruction>, a: u32, call: Call)
    ensures Execute(Checks(checked, bits) + rest, 0, a, call)
         == if a in checked then Some(if AnyBit(call.flags, bits) then EPERM else ALLOW) else Execute(rest, 0, a, call)
  {
    hide Check, Execute;
    if checked == [] {
      assert Checks(checked, bits) + rest == rest;
    } else {
      assert Checks(checked, bits) + rest == Check(checked[0], bits) + (Checks(checked[1..], bits) + rest);
      CheckStep(checked[0], bits, Checks(checked[1..], bits) + rest, a, call);
      ChecksStep(checked[1..], bits, rest, a, call);
      assert checked == [checked[0]] + checked[1..];
    }
  }

  lemma HeaderStep(rest: seq<Instruction>, a: u32, call: Call)
    ensures Execute(Header() + rest, 0, a, call)
         == if call.arch != X86_64 then Some(KILL)
            else if call.nr >= X32_BIT then Some(EPERM)
            else Execute(rest, 0, call.nr, call)
  {
    var code := Header() + rest;
    assert forall i :: 0 <= i < 6 ==> code[i] == Header()[i];
    assert Execute(code, 2, call.arch, call) == Some(KILL);
    assert Execute(code, 5, call.nr, call) == Some(EPERM);
    assert Execute(code, 4, call.nr, call) == if call.nr >= X32_BIT then Some(EPERM) else Execute(code, 6, call.nr, call);
    assert Execute(code, 3, call.arch, call) == Execute(code, 4, call.nr, call);
    assert Execute(code, 1, call.arch, call) == if call.arch == X86_64 then Execute(code, 3, call.arch, call) else Some(KILL);
    Relocate(Header(), rest, 0, call.nr, call);
  }

  /** For every deny list, every list of checked calls and every system call, the program
      returns, and what it returns is the policy's answer. */
  lemma ProgramIsPolicy(denied: seq<u32>, checked: seq<u32>, bits: u32, call: Call)
    ensures Execute(Program(denied, checked, bits), 0, 0, call) == Some(Policy(denied, checked, bits, call))
  {
    hide Header, Answer, Checks, Denies, AnyBit, Perform;
    var last := [Instruction(RETURN, 0, 0, ALLOW)];
    var third := Checks(checked, bits) + last;
    var second := Answer(CLONE3, ENOSYS) + third;
    var first := Denies(denied) + second;
    assert Program(denied, checked, bits) == Header() + first;
    HeaderStep(first, 0, call);
    DeniesStep(denied, second, call.nr, call);
    AnswerStep(CLONE3, ENOSYS, third, call.nr, call);
    ChecksStep(checked, bits, last, call.nr, call);
    AllowStep(call);
  }

  lemma AllowStep(call: Call)
    ensures Execute([Instruction(RETURN, 0, 0, ALLOW)], 0, call.nr, call) == Some(ALLOW)
  {
  }

  const PAYLOAD_DENIED: seq<u32> := [165, 166, 155, 272, 308, 428, 429, 430, 431, 432, 442, 101, 304]

  /** The payload filter, built as the source builds it. */
  method Filter() returns (code: seq<Instruction>)
    ensures forall call ::
              Execute(code, 0, 0, call) == Some(Policy(PAYLOAD_DENIED, [CLONE], NAMESPACE_FLAGS, call))
  {
    hide Execute, Policy, Header, PAYLOAD_DENIED;
    code := Header();
    var numbers := PAYLOAD_DENIED;
    assert numbers[..0] == [] && Header() + Denies([]) == Header();
    hide Denies;
    for i := 0 to |numbers|
      invariant code == Header() + Denies(numbers[..i])
    {
      DeniesAppend(numbers[..i], numbers[i]);
      assert numbers[..i + 1] == numbers[..i] + [numbers[i]];
      code := code + [Instruction(JUMP_EQUAL, 0, 1, numbers[i]), Instruction(RETURN, 0, 0, EPERM)];
    }
    assert numbers[..|numbers|] == numbers;
    code := code + [Instruction(JUMP_EQUAL, 0, 1, 435),
                    Instruction(RETURN, 0, 0, 0x50026),
                    Instruction(JUMP_EQUAL, 0, 4, 56),
                    Instruction(LOAD, 0, 0, 16),
                    Instruction(JUMP_ANY_BIT, 0, 1, 0x7E020000),
                    Instruction(RETURN, 0, 0, 0x50001),
                    Instruction(RETURN, 0, 0, 0x7FFF0000),
                    Instruction(RETURN, 0, 0, 0x7FFF0000)];
    PayloadTail(Header() + Denies(PAYLOAD_DENIED));
    assert code == Program(PAYLOAD_DENIED, [CLONE], NAMESPACE_FLAGS);
    forall call ensures Execute(code, 0, 0, call) == Some(Policy(PAYLOAD_DENIED, [CLONE], NAMESPACE_FLAGS, call)) {
      ProgramIsPolicy(PAYLOAD_DENIED, [CLONE], NAMESPACE_FLAGS, call);
    }
  }

  lemma {:induction false} DeniesAppend(denied: seq<u32>, nr: u32)
    ensures Denies(denied + [nr]) == Denies(denied) + Answer(nr, EPERM)
  {
    if denied == [] {
      assert denied + [nr] == [nr] && [nr][1..] == [];
      assert Denies([nr]) == Answer(nr, EPERM) + Denies([]);
    } else {
      assert (denied + [nr])[1..] == denied[1..] + [nr];
      DeniesAppend(denied[1..], nr);
    }
  }

  /** The fixed end of the payload filter, spelled as the source spells it. */
  lemma PayloadTail(start: seq<Instruction>)
    ensures start + [Instruction(JUMP_EQUAL, 0, 1, 435),
                     Instruction(RETURN, 0, 0, 0x50026),
                     Instruction(JUMP_EQUAL, 0, 4, 56),
                     Instruction(LOAD, 0, 0, 16),
                     Instruction(JUMP_ANY_BIT, 0, 1, 0x7E020000),
                     Instruction(RETURN, 0, 0, 0x50001),
                     Instruction(RETURN, 0, 0, 0x7FFF0000),
                     Instruction(RETURN, 0, 0, 0x7FFF0000)]
         == start + Answer(CLONE3, ENOSYS) + Checks([CLONE], NAMESPACE_FLAGS) + [Instruction(RETURN, 0, 0, ALLOW)]
  {
    OneCheck(CLONE, NAMESPACE_FLAGS);
  }

  lemma OneCheck(nr: u32, bits: u32)
    ensures Checks([nr], bits) == Check(nr, bits)
  {
    assert [nr][1..] == [];
    assert Checks([nr], bits) == Check(nr, bits) + Checks([], bits);
  }

  /** The Docker engine's filter. */
  method DockerFilter() returns (code: seq<Instruction>)
    ensures forall call ::
              Execute(code, 0, 0, call) == Some(Policy([], [CLONE, UNSHARE], CLONE_NEWCGROUP, call))
  {
    hide Execute, Policy, Header;
    code := Header();
    code := code + [Instruction(JUMP_EQUAL, 0, 1, CLONE3), Instruction(RETURN, 0, 0, 0x50026)];
    var numbers := [CLONE, UNSHARE];
    ghost var start := Header() + Answer(CLONE3, ENOSYS);
    assert numbers[..0] == [] && start + Checks([], CLONE_NEWCGROUP) == start;
    for i := 0 to |numbers|
      invariant code == start + Checks(numbers[..i], CLONE_NEWCGROUP)
    {
      ChecksAppend(numbers[..i], numbers[i], CLONE_NEWCGROUP);
      assert numbers[..i + 1] == numbers[..i] + [numbers[i]];
      code := code + [Instruction(JUMP_EQUAL, 0, 4, numbers[i]),
                      Instruction(LOAD, 0, 0, 16),
                      Instruction(JUMP_ANY_BIT, 0, 1, CLONE_NEWCGROUP),
                      Instruction(RETURN, 0, 0, 0x50001),
                      Instruction(RETURN, 0, 0, 0x7FFF0000)];
    }
    assert numbers[..|numbers|] == numbers;
    code := code + [Instruction(RETURN, 0, 0, 0x7FFF0000)];
    assert Header() + Denies([]) == Header();
    assert code == Program([], [CLONE, UNSHARE], CLONE_NEWCGROUP);
    forall call ensures Execute(code, 0, 0, call) == Some(Policy([], [CLONE, UNSHARE], CLONE_NEWCGROUP, call)) {
      ProgramIsPolicy([], [CLONE, UNSHARE], CLONE_NEWCGROUP, call);
    }
  }

  lemma {:induction false} ChecksAppend(checked: seq<u32>, nr: u32, bits: u32)
    ensures Checks(checked + [nr], bits) == Checks(checked, bits) + Check(nr, bits)
  {
    hide Check;
    if checked == [] {
      assert checked + [nr] == [nr] && [nr][1..] == [];
      assert Checks([nr], bits) == Check(nr, bits) + Checks([], bits);
    } else {
      assert (checked + [nr])[1..] == checked[1..] + [nr];
      ChecksAppend(checked[1..], nr, bits);
      assert (checked + [nr])[0] == checked[0];
    }
  }
}
