/** What the operations of the CHIP-8 machine promise, stated about the
    functions of module `Chip8`: the baseline, fetch and the tick, the call
    stack, the flag-setting arithmetic, skips and the key wait, sprite
    drawing, the memory instructions and the timers. */
module Properties {
  import opened Words
  import opened Opcode
  import opened Display
  import opened Chip8

  /** `ins` sits at the program counter as two big-endian bytes. */
  predicate At(m: State, ins: Instr) {
    m.pc + 1 < RAM_SIZE &&
    m.ram[m.pc] == Encode(ins) / 0x100 && m.ram[m.pc + 1] == Encode(ins) % 0x100
  }

  // ---------------------------------------------------------------- baseline

  /** A new or reset machine: the font at address 0, the program counter at
      0x200, and every other part of the state zero or off. */
  lemma InitialBaseline()
    ensures var m := Initial();
      m.pc == 0x200 && m.i == 0 && m.sp == 0 && m.dt == 0 && m.st == 0 &&
      m.ram[..|FONTSET|] == FONTSET &&
      (forall a :: |FONTSET| <= a < RAM_SIZE ==> m.ram[a] == 0) &&
      (forall k :: 0 <= k < NUM_REGS ==> m.v[k] == 0) &&
      (forall k :: 0 <= k < STACK_SIZE ==> m.stack[k] == 0) &&
      (forall p :: 0 <= p < SCREEN_SIZE ==> !m.screen[p]) &&
      (forall k :: 0 <= k < NUM_KEYS ==> !m.keys[k])
  {
    var m := Initial();
    assert m.ram[..|FONTSET|] == FONTSET;
  }

  // ---------------------------------------------------------- fetch and tick

  /** `fetch` reads the big-endian word at the program counter and moves the
      counter exactly two bytes; it faults when the word runs past memory. */
  lemma FetchWord(m: State)
    ensures Fetch(m).Ok? <==> m.pc + 1 < RAM_SIZE
    ensures Fetch(m).Err? ==> Fetch(m).fault == PcOutOfRange(m.pc)
    ensures Fetch(m).Ok? ==>
      var f := Fetch(m).value;
      f.op / 0x100 == m.ram[m.pc] && f.op % 0x100 == m.ram[m.pc + 1] &&
      f.next == m.(pc := m.pc + 2)
  {
    if m.pc + 1 < RAM_SIZE {
      var f := Fetch(m).value;
      DivBy(f.op, 0x100, m.ram[m.pc], m.ram[m.pc + 1]);
    }
  }

  /** A tick runs the instruction at the program counter with the counter
      already past it; if that faults, the counter stays moved. */
  lemma TickRuns(m: State, ins: Instr, rnd: u8)
    requires At(m, ins)
    ensures Tick(m, rnd) == Exec(m.(pc := m.pc + 2), ins, rnd)
    ensures TickFaultState(m) == m.(pc := m.pc + 2)
  {
    var op := Encode(ins);
    DivBy(op, 0x100, op / 0x100, op % 0x100);
    assert Fetch(m).value.op == op;
    DecodeEncode(ins);
  }

  /** The words that reach the `unimplemented!` arm of `execute` fault, whatever
      the state: a 5XY_ or 9XY_ with a non-zero last nibble, an 8XY_ outside
      the nine ALU operations, a 0NNN other than 0000, 00E0 and 00EE, and an
      EX__ or FX__ with an unknown tail. */
  lemma UnknownOpcodes(m: State, rnd: u8)
    ensures Execute(m, 0x5121, rnd) == Err(UnknownOpcode(0x5121))
    ensures Execute(m, 0x9AB3, rnd) == Err(UnknownOpcode(0x9AB3))
    ensures Execute(m, 0x8128, rnd) == Err(UnknownOpcode(0x8128))
    ensures Execute(m, 0x00E1, rnd) == Err(UnknownOpcode(0x00E1))
    ensures Execute(m, 0x0123, rnd) == Err(UnknownOpcode(0x0123))
    ensures Execute(m, 0xE19F, rnd) == Err(UnknownOpcode(0xE19F))
    ensures Execute(m, 0xF0FF, rnd) == Err(UnknownOpcode(0xF0FF))
  {
  }

  // ------------------------------------------------------------ call stack

  /** `push` then `pop` gives the pushed value back and the old stack pointer. */
  lemma PushPop(m: State, val: u16)
    ensures Push(m, val).Ok? <==> m.sp < STACK_SIZE
    ensures Push(m, val).Err? ==> Push(m, val).fault == StackOverflow
    ensures m.sp < STACK_SIZE ==>
      Pop(Push(m, val).value) == Ok(Popped(val, m.(stack := m.stack[m.sp := val])))
  {
  }

  /** 2NNN saves the return address on the stack and jumps; a later 00EE, in
      any state whose stack still holds that entry at the same depth, jumps
      back and restores the stack pointer. */
  lemma CallReturn(m: State, nnn: Addr, rnd: u8)
    ensures Exec(m, Call(nnn), rnd).Ok? <==> m.sp < STACK_SIZE
    ensures m.sp < STACK_SIZE ==>
      var c := Exec(m, Call(nnn), rnd).value;
      c.pc == nnn && c.sp == m.sp + 1 && c.stack[m.sp] == m.pc &&
      c == m.(pc := nnn, sp := m.sp + 1, stack := m.stack[m.sp := m.pc])
    ensures forall s: State :: s.sp == m.sp + 1 && s.stack[m.sp] == m.pc ==>
      Exec(s, Return, rnd) == Ok(s.(pc := m.pc, sp := m.sp))
  {
  }

  /** At the tick level the saved return address is the one after the call. */
  lemma TickCall(m: State, nnn: Addr, rnd: u8)
    requires At(m, Call(nnn))
    ensures Tick(m, rnd).Ok? <==> m.sp < STACK_SIZE
    ensures m.sp < STACK_SIZE ==>
      var c := Tick(m, rnd).value;
      c.pc == nnn && c.sp == m.sp + 1 && c.stack[m.sp] == m.pc + 2
    ensures m.sp == STACK_SIZE ==> Tick(m, rnd) == Err(StackOverflow)
  {
    TickRuns(m, Call(nnn), rnd);
  }

  /** 00EE with an empty stack faults. */
  lemma ReturnUnderflow(m: State, rnd: u8)
    ensures Exec(m, Return, rnd).Err? <==> m.sp == 0
    ensures m.sp == 0 ==> Exec(m, Return, rnd) == Err(StackUnderflow)
  {
  }

  // ------------------------------------------------------------- arithmetic

  /** 8XY4: V[X] and VF together hold the exact sum (VF the carry); the flag
      is written last, so with X = F the flag is what remains. */
  lemma AddFlags(m: State, x: Nibble, y: Nibble, rnd: u8)
    ensures var a: int, b: int := m.v[x], m.v[y];
      var r := Exec(m, Add(x, y), rnd);
      r.Ok? && r.value == m.(v := r.value.v) &&
      r.value.v[FLAG] == (if a + b > 0xFF then 1 else 0) &&
      (x != FLAG ==> r.value.v[x] as int + 0x100 * (r.value.v[FLAG] as int) == a + b) &&
      (forall k :: 0 <= k < NUM_REGS && k != x && k != FLAG ==> r.value.v[k] == m.v[k])
  {
  }

  /** 8XY5: VF is the no-borrow bit (1 iff V[X] >= V[Y]) and V[X] the
      difference modulo 256. */
  lemma SubFlags(m: State, x: Nibble, y: Nibble, rnd: u8)
    ensures var a: int, b: int := m.v[x], m.v[y];
      var r := Exec(m, Sub(x, y), rnd);
      r.Ok? && r.value == m.(v := r.value.v) &&
      r.value.v[FLAG] == (if a >= b then 1 else 0) &&
      (x != FLAG ==> r.value.v[x] as int == a - b + 0x100 * (1 - r.value.v[FLAG] as int)) &&
      (forall k :: 0 <= k < NUM_REGS && k != x && k != FLAG ==> r.value.v[k] == m.v[k])
  {
  }

  /** 8XY7: as 8XY5 with the operands swapped, VF = 1 iff V[Y] >= V[X]. */
  lemma SubFromFlags(m: State, x: Nibble, y: Nibble, rnd: u8)
    ensures var a: int, b: int := m.v[x], m.v[y];
      var r := Exec(m, SubFrom(x, y), rnd);
      r.Ok? && r.value == m.(v := r.value.v) &&
      r.value.v[FLAG] == (if b >= a then 1 else 0) &&
      (x != FLAG ==> r.value.v[x] as int == b - a + 0x100 * (1 - r.value.v[FLAG] as int)) &&
      (forall k :: 0 <= k < NUM_REGS && k != x && k != FLAG ==> r.value.v[k] == m.v[k])
  {
  }

  /** 8XY6: V[X] halves and VF receives the bit shifted out, taken before
      the shift. */
  lemma ShiftRightFlags(m: State, x: Nibble, y: Nibble, rnd: u8)
    ensures var a: int := m.v[x];
      var r := Exec(m, Shr(x, y), rnd);
      r.Ok? && r.value == m.(v := r.value.v) &&
      r.value.v[FLAG] == a % 2 &&
      (x != FLAG ==> 2 * r.value.v[x] as int + r.value.v[FLAG] == a) &&
      (forall k :: 0 <= k < NUM_REGS && k != x && k != FLAG ==> r.value.v[k] == m.v[k])
  {
    LowBit(m.v[x]);
  }

  /** 8XYE: V[X] doubles modulo 256 and VF receives the top bit shifted out. */
  lemma ShiftLeftFlags(m: State, x: Nibble, y: Nibble, rnd: u8)
    ensures var a: int := m.v[x];
      var r := Exec(m, Shl(x, y), rnd);
      r.Ok? && r.value == m.(v := r.value.v) &&
      r.value.v[FLAG] == a / 0x80 &&
      (x != FLAG ==> r.value.v[x] as int + 0x100 * (r.value.v[FLAG] as int) == 2 * a) &&
      (forall k :: 0 <= k < NUM_REGS && k != x && k != FLAG ==> r.value.v[k] == m.v[k])
  {
    TopBit(m.v[x]);
  }

  /** 7XNN adds without touching VF, even on overflow. */
  lemma AddImmNoFlag(m: State, x: Nibble, nn: u8, rnd: u8)
    requires x != FLAG
    ensures var r := Exec(m, AddImm(x, nn), rnd);
      r.Ok? && r.value.v[FLAG] == m.v[FLAG] &&
      (r.value.v[x] - m.v[x] - nn) % 0x100 == 0
  {
  }

  // ------------------------------------------------------ skips and key wait

  predicate IsSkip(ins: Instr) {
    ins.SkipIfEq? || ins.SkipIfNe? || ins.SkipIfRegEq? || ins.SkipIfRegNe? ||
    ins.SkipIfKey? || ins.SkipIfNotKey?
  }

  /** EX9E and EXA1 index the keys with V[X]. */
  predicate KeyInRange(m: State, ins: Instr)
    requires IsSkip(ins)
  {
    (ins.SkipIfKey? || ins.SkipIfNotKey?) ==> m.v[ins.x] < NUM_KEYS
  }

  /** The condition under which each skip instruction skips. */
  predicate SkipTaken(m: State, ins: Instr)
    requires IsSkip(ins) && KeyInRange(m, ins)
  {
    match ins
    case SkipIfEq(x, nn) => m.v[x] == nn
    case SkipIfNe(x, nn) => m.v[x] != nn
    case SkipIfRegEq(x, y) => m.v[x] == m.v[y]
    case SkipIfRegNe(x, y) => m.v[x] != m.v[y]
    case SkipIfKey(x) => m.keys[m.v[x]]
    case SkipIfNotKey(x) => !m.keys[m.v[x]]
  }

  /** A tick of a skip instruction moves the program counter 4 bytes when the
      condition holds and 2 when it does not, and changes nothing else; a key
      skip with V[X] outside the keys faults. */
  lemma TickSkip(m: State, ins: Instr, rnd: u8)
    requires IsSkip(ins) && At(m, ins)
    ensures !KeyInRange(m, ins) ==> Tick(m, rnd) == Err(KeyOutOfRange(m.v[ins.x]))
    ensures KeyInRange(m, ins) ==>
      Tick(m, rnd) == Ok(m.(pc := m.pc + if SkipTaken(m, ins) then 4 else 2))
  {
    TickRuns(m, ins, rnd);
  }

  /** FX0A: with no key down a tick leaves the whole machine as it was, so the
      same instruction is fetched again; otherwise the lowest key down is put
      in V[X] and the program moves on. */
  lemma TickWaitKey(m: State, x: Nibble, rnd: u8)
    requires At(m, WaitKey(x))
    ensures (forall k :: 0 <= k < NUM_KEYS ==> !m.keys[k]) ==> Tick(m, rnd) == Ok(m)
    ensures forall k: Nibble :: m.keys[k] && (forall j :: 0 <= j < k ==> !m.keys[j]) ==>
      Tick(m, rnd) == Ok(m.(pc := m.pc + 2, v := m.v[x := k]))
  {
    TickRuns(m, WaitKey(x), rnd);
    forall k: Nibble | m.keys[k] && (forall j :: 0 <= j < k ==> !m.keys[j])
      ensures Tick(m, rnd) == Ok(m.(pc := m.pc + 2, v := m.v[x := k]))
    {
      FirstPressedIs(m.keys, k);
    }
  }

  // ----------------------------------------------------------------- drawing

  /** DXYN toggles exactly the cells ((V[X] + col) mod 64, (V[Y] + row) mod 32)
      whose bit `0x80 >> col` is set in the sprite byte at I + row, sets VF to
      1 exactly when it turned some set cell off, and changes nothing else;
      it faults when the sprite rows run past memory. */
  lemma DrawEffect(m: State, x: Nibble, y: Nibble, n: Nibble, rnd: u8)
    ensures Exec(m, Draw(x, y, n), rnd).Ok? <==> n == 0 || m.i + n <= RAM_SIZE
    ensures Exec(m, Draw(x, y, n), rnd).Err? ==>
      Exec(m, Draw(x, y, n), rnd).fault == AddressOutOfRange(FirstMiss(m.i))
    ensures var r := Exec(m, Draw(x, y, n), rnd);
      r.Ok? ==>
        (r.value == m.(screen := r.value.screen, v := m.v[FLAG := r.value.v[FLAG]]) &&
         (forall p :: 0 <= p < SCREEN_SIZE ==>
           r.value.screen[p] == (m.screen[p] !=
             exists row: nat, col: nat :: row < n && col < 8 && SpriteBit(m.ram[m.i + row], col) &&
                                          Cell(m.v[x], m.v[y], row, col) == p)) &&
         (r.value.v[FLAG] == 1 <==>
           exists p :: 0 <= p < SCREEN_SIZE && m.screen[p] && !r.value.screen[p]) &&
         r.value.v[FLAG] <= 1)
  {
    if n > 0 && m.i + n > RAM_SIZE {
      return;
    }
    var sprite, x0, y0 := SpriteAt(m, n), m.v[x], m.v[y];
    var after := DrawScreen(m.screen, sprite, x0, y0);
    forall p | 0 <= p < SCREEN_SIZE
      ensures after[p] == (m.screen[p] !=
          exists row: nat, col: nat :: row < n && col < 8 && SpriteBit(m.ram[m.i + row], col) &&
                                       Cell(x0, y0, row, col) == p)
    {
      DrawExactly(m.screen, sprite, x0, y0, p);
    }
    CollidesIffCleared(m.screen, sprite, x0, y0);
  }

  /** DXY0 draws nothing and clears VF. */
  lemma DrawNoRows(m: State, x: Nibble, y: Nibble, rnd: u8)
    ensures Exec(m, Draw(x, y, 0), rnd) == Ok(m.(v := m.v[FLAG := 0]))
  {
    DrawNothing(m.screen, m.v[x], m.v[y]);
  }

  /** Drawing the same sprite twice at the same place restores the screen.
      The second drawing reports a collision exactly when the first one lit
      some cell, since the second turns that cell off again. */
  lemma DrawTwiceRestores(m: State, x: Nibble, y: Nibble, n: Nibble, rnd: u8)
    requires x != FLAG && y != FLAG
    requires n == 0 || m.i + n <= RAM_SIZE
    ensures var once := Exec(m, Draw(x, y, n), rnd).value;
      var twice := Exec(once, Draw(x, y, n), rnd);
      twice.Ok? && twice.value.screen == m.screen &&
      (twice.value.v[FLAG] == 1 <==>
        exists p :: 0 <= p < SCREEN_SIZE && !m.screen[p] && once.screen[p])
  {
    var sprite, x0, y0 := SpriteAt(m, n), m.v[x], m.v[y];
    var once := Exec(m, Draw(x, y, n), rnd).value;
    assert SpriteAt(once, n) == sprite;
    DrawTwice(m.screen, sprite, x0, y0);
    CollidesIffCleared(once.screen, sprite, x0, y0);
  }

  // ------------------------------------------------------------------ memory

  /** FX33 writes the three decimal digits of V[X], hundreds first, at I,
      I + 1 and I + 2, and nothing else; it faults when they do not fit. */
  lemma StoreBcdDigits(m: State, x: Nibble, rnd: u8)
    ensures Exec(m, StoreBcd(x), rnd).Ok? <==> m.i + 2 < RAM_SIZE
    ensures m.i + 2 < RAM_SIZE ==>
      var r := Exec(m, StoreBcd(x), rnd).value;
      var h, t, o := r.ram[m.i], r.ram[m.i + 1], r.ram[m.i + 2];
      r == m.(ram := r.ram) &&
      h < 10 && t < 10 && o < 10 && 100 * h + 10 * t + o == m.v[x] &&
      (forall a :: 0 <= a < RAM_SIZE && !(m.i <= a < m.i + 3) ==> r.ram[a] == m.ram[a])
  {
  }

  /** FX33 on 234 writes 2, 3, 4. */
  lemma StoreBcdExample(m: State, x: Nibble, rnd: u8)
    requires m.v[x] == 234 && m.i + 2 < RAM_SIZE
    ensures var r := Exec(m, StoreBcd(x), rnd).value;
      r.ram[m.i] == 2 && r.ram[m.i + 1] == 3 && r.ram[m.i + 2] == 4
  {
  }

  /** FX55 copies V0..=VX to I..=I + X and leaves the rest of memory and the
      machine alone; it faults when the block does not fit. */
  lemma StoreRegsFootprint(m: State, x: Nibble, rnd: u8)
    ensures Exec(m, StoreRegs(x), rnd).Ok? <==> m.i + x < RAM_SIZE
    ensures m.i + x < RAM_SIZE ==>
      var r := Exec(m, StoreRegs(x), rnd).value;
      r == m.(ram := r.ram) && r.ram[m.i..m.i + x + 1] == m.v[..x + 1] &&
      (forall a :: 0 <= a < RAM_SIZE && !(m.i <= a <= m.i + x) ==> r.ram[a] == m.ram[a])
  {
    if m.i + x < RAM_SIZE {
      var r := Exec(m, StoreRegs(x), rnd).value;
      assert r.ram[m.i..m.i + x + 1] == m.v[..x + 1];
    }
  }

  /** FX65 copies I..=I + X to V0..=VX and changes nothing else. */
  lemma LoadRegsFootprint(m: State, x: Nibble, rnd: u8)
    ensures Exec(m, LoadRegs(x), rnd).Ok? <==> m.i + x < RAM_SIZE
    ensures m.i + x < RAM_SIZE ==>
      var r := Exec(m, LoadRegs(x), rnd).value;
      r == m.(v := r.v) && r.v[..x + 1] == m.ram[m.i..m.i + x + 1] &&
      r.v[x + 1..] == m.v[x + 1..]
  {
    if m.i + x < RAM_SIZE {
      var r := Exec(m, LoadRegs(x), rnd).value;
      assert r.v[..x + 1] == m.ram[m.i..m.i + x + 1];
      assert r.v[x + 1..] == m.v[x + 1..];
    }
  }

  /** FX55 then FX65 with the same I and X gives the registers back: the load
      changes nothing. */
  lemma StoreThenLoad(m: State, x: Nibble, rnd: u8)
    requires m.i + x < RAM_SIZE
    ensures var s := Exec(m, StoreRegs(x), rnd).value;
      Exec(s, LoadRegs(x), rnd) == Ok(s) && s.v == m.v
  {
    var s := Exec(m, StoreRegs(x), rnd).value;
    assert s.ram == DumpRam(m.ram, m.v, m.i, x);
    forall k | 0 <= k < NUM_REGS
      ensures LoadV(s.ram, s.v, s.i, x)[k] == s.v[k]
    {
    }
    assert LoadV(s.ram, s.v, s.i, x) == s.v;
  }

  /** FX65 then FX55 with the same I and X gives the memory back. */
  lemma LoadThenStore(m: State, x: Nibble, rnd: u8)
    requires m.i + x < RAM_SIZE
    ensures var l := Exec(m, LoadRegs(x), rnd).value;
      Exec(l, StoreRegs(x), rnd) == Ok(l) && l.ram == m.ram
  {
    var l := Exec(m, LoadRegs(x), rnd).value;
    assert DumpRam(l.ram, l.v, l.i, x) == l.ram;
  }

  // ------------------------------------------------------------------ timers

  /** `tick_timers` decrements each non-zero timer by one and leaves a zero
      timer, and everything else, alone. */
  lemma TimersCountDown(m: State)
    ensures var r := TickTimers(m);
      r == m.(dt := r.dt, st := r.st) &&
      r.dt == (if m.dt == 0 then 0 else m.dt - 1) &&
      r.st == (if m.st == 0 then 0 else m.st - 1)
  {
  }

  /** `tick_timers` called `n` times in a row. */
  function TickTimersN(m: State, n: nat): State
    decreases n
  {
    if n == 0 then m else TickTimersN(TickTimers(m), n - 1)
  }

  function Saturating(a: int): nat { if a < 0 then 0 else a }

  /** After `n` timer ticks each timer has gone down by `n`, stopping at zero,
      and nothing else has changed. */
  lemma {:induction false} TimersAfter(m: State, n: nat)
    decreases n
    ensures var r := TickTimersN(m, n);
      r == m.(dt := r.dt, st := r.st) &&
      r.dt == Saturating(m.dt - n) && r.st == Saturating(m.st - n)
  {
    if n > 0 {
      TimersAfter(TickTimers(m), n - 1);
    }
  }

  // --------------------------------------------------------------- scenarios

  /** `m` with `prog` at the start address, as a host loads a program. */
  function WithProgram(m: State, prog: seq<u8>): State
    requires START_ADDR + |prog| <= RAM_SIZE
  {
    m.(ram := m.ram[..START_ADDR] + prog + m.ram[START_ADDR + |prog|..])
  }

  /** 6XNN at the program counter: a tick sets V[X] and moves on. */
  lemma TickSet(m: State, x: Nibble, nn: u8, rnd: u8)
    requires At(m, Set(x, nn))
    ensures Tick(m, rnd) == Ok(m.(pc := m.pc + 2, v := m.v[x := nn]))
  {
    TickRuns(m, Set(x, nn), rnd);
  }

  /** 8XY4 at the program counter: a tick adds with carry and moves on. */
  lemma TickAdd(m: State, x: Nibble, y: Nibble, rnd: u8)
    requires At(m, Add(x, y))
    ensures var a: int, b: int := m.v[x], m.v[y];
      Tick(m, rnd) == Ok(m.(pc := m.pc + 2,
        v := m.v[x := (a + b) % 0x100][FLAG := if a + b > 0xFF then 1 else 0]))
  {
    TickRuns(m, Add(x, y), rnd);
  }

  /** 1200 at 0x200 jumps to itself: a tick leaves the machine as it was. */
  lemma SelfJumpScenario(rnd: u8)
    ensures var m0 := WithProgram(Initial(), [0x12, 0x00]);
      Tick(m0, rnd) == Ok(m0)
  {
    var m0 := WithProgram(Initial(), [0x12, 0x00]);
    assert m0.ram[0x200] == 0x12 && m0.ram[0x201] == 0x00;
    assert Encode(Jump(0x200)) == 0x1200;
    TickRuns(m0, Jump(0x200), rnd);
  }

  /** The first tick of the sample program 6005 6103 8014 at 0x200: V0 := 5. */
  lemma SampleStep1(m0: State, rnd: u8)
    requires m0.pc == 0x200 && m0.ram[0x200] == 0x60 && m0.ram[0x201] == 0x05
    ensures Tick(m0, rnd) == Ok(m0.(pc := 0x202, v := m0.v[0 := 5]))
  {
    assert Encode(Set(0, 5)) == 0x6005 by {
      assert HighHalf(5) == 0 && LowHalf(5) == 5;
    }
    TickSet(m0, 0, 5, rnd);
  }

  /** The second tick: V1 := 3. */
  lemma SampleStep2(m1: State, rnd: u8)
    requires m1.pc == 0x202 && m1.ram[0x202] == 0x61 && m1.ram[0x203] == 0x03
    ensures Tick(m1, rnd) == Ok(m1.(pc := 0x204, v := m1.v[1 := 3]))
  {
    assert Encode(Set(1, 3)) == 0x6103 by {
      assert HighHalf(3) == 0 && LowHalf(3) == 3;
    }
    TickSet(m1, 1, 3, rnd);
  }

  /** The third tick: V0 += V1, with the carry in VF. */
  lemma SampleStep3(m2: State, rnd: u8)
    requires m2.pc == 0x204 && m2.ram[0x204] == 0x80 && m2.ram[0x205] == 0x14
    requires m2.v[0] == 5 && m2.v[1] == 3
    ensures Tick(m2, rnd) == Ok(m2.(pc := 0x206, v := m2.v[0 := 8][FLAG := 0]))
  {
    assert Encode(Add(0, 1)) == 0x8014;
    TickAdd(m2, 0, 1, rnd);
  }

  /** The sample program 6005 6103 8014 loaded into a new machine: three ticks
      leave V0 = 8, V1 = 3 and VF = 0, with the program counter past the
      program. */
  lemma SampleProgram(rnd: u8)
    ensures var m0 := WithProgram(Initial(), [0x60, 0x05, 0x61, 0x03, 0x80, 0x14]);
      var m1 := m0.(pc := 0x202, v := m0.v[0 := 5]);
      var m2 := m1.(pc := 0x204, v := m1.v[1 := 3]);
      Tick(m0, rnd) == Ok(m1) && Tick(m1, rnd) == Ok(m2) &&
      Tick(m2, rnd).Ok? &&
      Tick(m2, rnd).value.v[0] == 8 && Tick(m2, rnd).value.v[1] == 3 &&
      Tick(m2, rnd).value.v[FLAG] == 0 && Tick(m2, rnd).value.pc == 0x206
  {
    var m0 := WithProgram(Initial(), [0x60, 0x05, 0x61, 0x03, 0x80, 0x14]);
    assert m0.ram[0x200] == 0x60 && m0.ram[0x201] == 0x05 && m0.ram[0x202] == 0x61;
    assert m0.ram[0x203] == 0x03 && m0.ram[0x204] == 0x80 && m0.ram[0x205] == 0x14;
    SampleStep1(m0, rnd);
    var m1 := m0.(pc := 0x202, v := m0.v[0 := 5]);
    SampleStep2(m1, rnd);
    var m2 := m1.(pc := 0x204, v := m1.v[1 := 3]);
    SampleStep3(m2, rnd);
  }
}
