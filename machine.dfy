/** The architectural state of the CHIP-8 machine as a value, and what each
    operation of `Emu` does to it. These functions are the specification the
    imperative `Emulator.Emu` is proved against. */
module Chip8 {
  import opened Words
  import opened Opcode
  import opened Display

  const RAM_SIZE: nat := 4096
  const NUM_REGS: nat := 16
  const STACK_SIZE: nat := 16
  const NUM_KEYS: nat := 16
  const START_ADDR: u16 := 0x200
  /** VF, the register the flag-setting instructions write. */
  const FLAG: Nibble := 0xF

  /** The sixteen 5-byte glyphs of the hexadecimal digits, loaded at address 0. */
  const FONTSET: seq<u8> := [
    0xF0, 0x90, 0x90, 0x90, 0xF0, // 0
    0x20, 0x60, 0x20, 0x20, 0x70, // 1
    0xF0, 0x10, 0xF0, 0x80, 0xF0, // 2
    0xF0, 0x10, 0xF0, 0x10, 0xF0, // 3
    0x90, 0x90, 0xF0, 0x10, 0x10, // 4
    0xF0, 0x80, 0xF0, 0x10, 0xF0, // 5
    0xF0, 0x80, 0xF0, 0x90, 0xF0, // 6
    0xF0, 0x10, 0x20, 0x40, 0x40, // 7
    0xF0, 0x90, 0xF0, 0x90, 0xF0, // 8
    0xF0, 0x90, 0xF0, 0x10, 0xF0, // 9
    0xF0, 0x90, 0xF0, 0x90, 0x90, // A
    0xE0, 0x90, 0xE0, 0x90, 0xE0, // B
    0xF0, 0x80, 0x80, 0x80, 0xF0, // C
    0xE0, 0x90, 0x90, 0x90, 0xE0, // D
    0xF0, 0x80, 0xF0, 0x80, 0xF0, // E
    0xF0, 0x80, 0xF0, 0x80, 0x80  // F
  ]

  type Ram = s: seq<u8> | |s| == RAM_SIZE witness seq(RAM_SIZE, _ => 0)
  type Regs = s: seq<u8> | |s| == NUM_REGS witness seq(NUM_REGS, _ => 0)
  type Stack = s: seq<u16> | |s| == STACK_SIZE witness seq(STACK_SIZE, _ => 0)
  type Keys = s: seq<bool> | |s| == NUM_KEYS witness seq(NUM_KEYS, _ => false)
  /** The stack pointer. The Rust `Emu` keeps it in a `u16`, but a push at 16
      faults, so no larger value is ever reached. */
  type Depth = x: int | 0 <= x <= STACK_SIZE

  /** The fields of the Rust `Emu` struct. */
  datatype State = State(
    pc: u16, ram: Ram, screen: Screen, v: Regs, i: u16,
    sp: Depth, stack: Stack, keys: Keys, dt: u8, st: u8)

  /** The conditions under which the Rust `Emu` panics: its `unimplemented!`
      arm, and the out-of-bounds indexing and `u16` overflow that `execute` does
      not guard against. `addr` is the first address the access misses. */
  datatype Fault =
    | UnknownOpcode(op: u16)
    | StackOverflow
    | StackUnderflow
    | PcOutOfRange(pc: u16)
    | PcOverflow
    | PcUnderflow
    | AddressOutOfRange(addr: int)
    | KeyOutOfRange(key: u8)

  datatype Result<T> = Ok(value: T) | Err(fault: Fault)

  datatype Popped = Popped(val: u16, next: State)
  datatype Fetched = Fetched(op: u16, next: State)

  function InitialRam(): Ram {
    seq(RAM_SIZE, a requires 0 <= a < RAM_SIZE => if a < |FONTSET| then FONTSET[a] else 0)
  }

  /** The state `Emu::default` builds (and `new` and `reset` reuse). */
  function Initial(): State {
    State(START_ADDR, InitialRam(), Blank(), seq(NUM_REGS, _ => 0), 0,
          0, seq(STACK_SIZE, _ => 0), seq(NUM_KEYS, _ => false), 0, 0)
  }

  /** `push`: store at the stack pointer, then advance it. */
  function Push(m: State, val: u16): Result<State> {
    if m.sp == STACK_SIZE then Err(StackOverflow)
    else Ok(m.(stack := m.stack[m.sp := val], sp := m.sp + 1))
  }

  /** `pop`: step the stack pointer back, then read there. */
  function Pop(m: State): Result<Popped> {
    if m.sp == 0 then Err(StackUnderflow)
    else Ok(Popped(m.stack[m.sp - 1], m.(sp := m.sp - 1)))
  }

  /** `fetch`: the big-endian word at the program counter, which moves past it. */
  function Fetch(m: State): Result<Fetched> {
    if m.pc + 1 >= RAM_SIZE then Err(PcOutOfRange(m.pc))
    else Ok(Fetched(m.ram[m.pc] as int * 0x100 + m.ram[m.pc + 1] as int, m.(pc := m.pc + 2)))
  }

  /** The conditional `pc += 2` of the skip instructions. */
  function SkipIf(m: State, cond: bool): Result<State> {
    if !cond then Ok(m)
    else if m.pc + 2 > 0xFFFF then Err(PcOverflow)
    else Ok(m.(pc := m.pc + 2))
  }

  /** V[x] := val. */
  function SetV(m: State, x: Nibble, val: u8): State {
    m.(v := m.v[x := val])
  }

  /** V[x] := val, then VF := flag (so the flag wins when x is F). */
  function SetVWithFlag(m: State, x: Nibble, val: u8, flag: u8): State {
    m.(v := m.v[x := val][FLAG := flag])
  }

  /** The `n` sprite rows at the index register. */
  function SpriteAt(m: State, n: Nibble): Sprite
    requires n == 0 || m.i + n <= RAM_SIZE
  {
    seq(n, r requires 0 <= r < n => m.ram[m.i + r])
  }

  /** The first address of `[i, i + len)` that lies outside RAM. */
  function FirstMiss(i: int): int { if i < RAM_SIZE then RAM_SIZE else i }

  /** The lowest pressed key at index `k` or above, as the key-wait scan finds it. */
  function FirstPressedFrom(keys: Keys, k: nat): (r: Option<Nibble>)
    requires k <= NUM_KEYS
    ensures r.Some? ==>
      k <= r.value && keys[r.value] && (forall j :: k <= j < r.value ==> !keys[j])
    ensures r.None? ==> forall j :: k <= j < NUM_KEYS ==> !keys[j]
    decreases NUM_KEYS - k
  {
    if k == NUM_KEYS then None
    else if keys[k] then Some(k)
    else FirstPressedFrom(keys, k + 1)
  }

  /** The lowest pressed key, if any. */
  function FirstPressed(keys: Keys): Option<Nibble> { FirstPressedFrom(keys, 0) }

  /** A key is the one FX0A takes exactly when it is pressed and no lower
      key is. */
  lemma FirstPressedIs(keys: Keys, k: Nibble)
    ensures FirstPressed(keys) == Some(k) <==> keys[k] && forall j :: 0 <= j < k ==> !keys[j]
  {
  }

  /** The decimal digits of a byte, hundreds first. */
  function Hundreds(val: u8): u8 { val / 100 }
  function Tens(val: u8): u8 { val / 10 % 10 }
  function Ones(val: u8): u8 { val % 10 }

  /** FX33's memory: the digits of `val` at `i`, `i + 1` and `i + 2`. */
  function BcdRam(ram: Ram, i: nat, val: u8): Ram
    requires i + 2 < RAM_SIZE
  {
    ram[i := Hundreds(val)][i + 1 := Tens(val)][i + 2 := Ones(val)]
  }

  /** FX55's memory: V0..=Vx copied to `i..=i + x`. */
  function DumpRam(ram: Ram, v: Regs, i: nat, x: Nibble): Ram
    requires i + x < RAM_SIZE
  {
    seq(RAM_SIZE, a requires 0 <= a < RAM_SIZE => if i <= a <= i + x then v[a - i] else ram[a])
  }

  /** FX65's registers: `i..=i + x` copied to V0..=Vx. */
  function LoadV(ram: Ram, v: Regs, i: nat, x: Nibble): Regs
    requires i + x < RAM_SIZE
  {
    seq(NUM_REGS, k requires 0 <= k < NUM_REGS => if k <= x then ram[i + k] else v[k])
  }

  /** The register-to-register instructions 8XYn. */
  predicate IsAlu(ins: Instr) {
    ins.Copy? || ins.Or? || ins.And? || ins.Xor? || ins.Add? || ins.Sub? ||
    ins.Shr? || ins.SubFrom? || ins.Shl?
  }

  /** 8XYn: V[x] from V[x] and V[y]; the arithmetic ones put the carry, the
      no-borrow bit or the shifted-out bit in VF. */
  function Alu(m: State, ins: Instr): State
    requires IsAlu(ins)
  {
    match ins
    case Copy(x, y) => SetV(m, x, m.v[y])
    case Or(x, y) => SetV(m, x, BitOr(m.v[x], m.v[y]))
    case And(x, y) => SetV(m, x, BitAnd(m.v[x], m.v[y]))
    case Xor(x, y) => SetV(m, x, BitXor(m.v[x], m.v[y]))
    case Add(x, y) =>
      var a, b := m.v[x], m.v[y];
      SetVWithFlag(m, x, WrapAdd(a, b), if a as int + b as int > 0xFF then 1 else 0)
    case Sub(x, y) =>
      var a, b := m.v[x], m.v[y];
      SetVWithFlag(m, x, WrapSub(a, b), if a < b then 0 else 1)
    case Shr(x, _) =>
      var a := m.v[x];
      SetVWithFlag(m, x, ShiftRight1(a), BitAnd(a, 1))
    case SubFrom(x, y) =>
      var a, b := m.v[x], m.v[y];
      SetVWithFlag(m, x, WrapSub(b, a), if b < a then 0 else 1)
    case Shl(x, _) =>
      var a := m.v[x];
      SetVWithFlag(m, x, ShiftLeft1(a), BitAnd(ShiftRight7(a), 1))
  }

  /** The instructions that load a register, the index register or a timer
      from an operand, another register or `rnd`. */
  predicate IsLoad(ins: Instr) {
    ins.Set? || ins.AddImm? || ins.SetIndex? || ins.Random? || ins.GetDelay? ||
    ins.SetDelay? || ins.SetSound? || ins.AddIndex? || ins.FontChar?
  }

  function Load(m: State, ins: Instr, rnd: u8): State
    requires IsLoad(ins)
  {
    match ins
    case Set(x, nn) => SetV(m, x, nn)
    case AddImm(x, nn) => SetV(m, x, WrapAdd(m.v[x], nn))
    case SetIndex(nnn) => m.(i := nnn)
    case Random(x, nn) => SetV(m, x, BitAnd(rnd, nn))
    case GetDelay(x) => SetV(m, x, m.dt)
    case SetDelay(x) => m.(dt := m.v[x])
    case SetSound(x) => m.(st := m.v[x])
    case AddIndex(x) => m.(i := (m.i + m.v[x]) % 0x1_0000)
    case FontChar(x) => m.(i := m.v[x] as int * 5)
  }

  /** `execute` for a decoded instruction, with the program counter already
      past it; `rnd` is the byte `rand::random` would have produced. */
  function Exec(m: State, ins: Instr, rnd: u8): Result<State> {
    match ins
    case Nop => Ok(m)
    case ClearScreen => Ok(m.(screen := Blank()))
    case Return =>
      (match Pop(m)
       case Err(f) => Err(f)
       case Ok(p) => Ok(p.next.(pc := p.val)))
    case Jump(nnn) => Ok(m.(pc := nnn))
    case Call(nnn) =>
      (match Push(m, m.pc)
       case Err(f) => Err(f)
       case Ok(m1) => Ok(m1.(pc := nnn)))
    case SkipIfEq(x, nn) => SkipIf(m, m.v[x] == nn)
    case SkipIfNe(x, nn) => SkipIf(m, m.v[x] != nn)
    case SkipIfRegEq(x, y) => SkipIf(m, m.v[x] == m.v[y])
    case Set(_, _) | AddImm(_, _) | SetIndex(_) | Random(_, _) | GetDelay(_) |
         SetDelay(_) | SetSound(_) | AddIndex(_) | FontChar(_) =>
      Ok(Load(m, ins, rnd))
    case Copy(_, _) | Or(_, _) | And(_, _) | Xor(_, _) | Add(_, _) | Sub(_, _) |
         Shr(_, _) | SubFrom(_, _) | Shl(_, _) =>
      Ok(Alu(m, ins))
    case SkipIfRegNe(x, y) => SkipIf(m, m.v[x] != m.v[y])
    case JumpV0(nnn) => Ok(m.(pc := m.v[0] + nnn))
    case Draw(x, y, n) =>
      if n > 0 && m.i + n > RAM_SIZE then Err(AddressOutOfRange(FirstMiss(m.i)))
      else
        var sprite, x0, y0 := SpriteAt(m, n), m.v[x], m.v[y];
        Ok(m.(screen := DrawScreen(m.screen, sprite, x0, y0),
              v := m.v[FLAG := if Collides(m.screen, sprite, x0, y0) then 1 else 0]))
    case SkipIfKey(x) =>
      if m.v[x] >= NUM_KEYS then Err(KeyOutOfRange(m.v[x]))
      else SkipIf(m, m.keys[m.v[x]])
    case SkipIfNotKey(x) =>
      if m.v[x] >= NUM_KEYS then Err(KeyOutOfRange(m.v[x]))
      else SkipIf(m, !m.keys[m.v[x]])
    case WaitKey(x) =>
      (match FirstPressed(m.keys)
       case Some(k) => Ok(SetV(m, x, k))
       case None => if m.pc < 2 then Err(PcUnderflow) else Ok(m.(pc := m.pc - 2)))
    case StoreBcd(x) =>
      if m.i + 2 >= RAM_SIZE then Err(AddressOutOfRange(FirstMiss(m.i)))
      else Ok(m.(ram := BcdRam(m.ram, m.i, m.v[x])))
    case StoreRegs(x) =>
      if m.i + x >= RAM_SIZE then Err(AddressOutOfRange(FirstMiss(m.i)))
      else Ok(m.(ram := DumpRam(m.ram, m.v, m.i, x)))
    case LoadRegs(x) =>
      if m.i + x >= RAM_SIZE then Err(AddressOutOfRange(FirstMiss(m.i)))
      else Ok(m.(v := LoadV(m.ram, m.v, m.i, x)))
  }

  /** `execute`: decode, then run the instruction. */
  function Execute(m: State, op: u16, rnd: u8): Result<State> {
    match Decode(op)
    case None => Err(UnknownOpcode(op))
    case Some(ins) => Exec(m, ins, rnd)
  }

  /** `tick`: fetch, then execute. */
  function Tick(m: State, rnd: u8): Result<State> {
    match Fetch(m)
    case Err(f) => Err(f)
    case Ok(f) => Execute(f.next, f.op, rnd)
  }

  /** The state a faulting tick leaves: a successful fetch has already moved
      the program counter. */
  function TickFaultState(m: State): State {
    match Fetch(m)
    case Err(_) => m
    case Ok(f) => f.next
  }

  /** `tick_timers`: each timer counts down towards zero. */
  function TickTimers(m: State): State {
    m.(dt := if m.dt > 0 then m.dt - 1 else m.dt,
       st := if m.st > 0 then m.st - 1 else m.st)
  }

  /** How an operation that updates the machine in place reports `res`: on
      success the machine is in `res`'s state; on a fault the fault is
      returned and the machine is in state `atFault`. */
  predicate Reports(res: Result<State>, fault: Option<Fault>, now: State, atFault: State) {
    match res
    case Ok(m) => fault == None && now == m
    case Err(f) => fault == Some(f) && now == atFault
  }
}
