/** The `Emu` struct: the CHIP-8 machine as an object whose fields and arrays
    are updated in place. Each method is proved to do to `Model()` what the
    functions of module `Chip8` say. */
module Emulator {
  import opened Words
  import opened Opcode
  import opened Display
  import opened Chip8

  class Emu {
    var pc: u16
    const ram: array<u8>
    const screen: array<bool>
    const v: array<u8>
    var i: u16
    var sp: Depth
    const stack: array<u16>
    const keys: array<bool>
    var dt: u8
    var st: u8

    ghost predicate Valid()
      reads this
    {
      ram.Length == RAM_SIZE && screen.Length == SCREEN_SIZE && v.Length == NUM_REGS &&
      stack.Length == STACK_SIZE && keys.Length == NUM_KEYS
    }

    /** The machine state the fields hold. */
    ghost function Model(): State
      reads this, ram, screen, v, stack, keys
      requires Valid()
    {
      State(pc, ram[..], screen[..], v[..], i, sp, stack[..], keys[..], dt, st)
    }

    /** `Emu::new`, that is `Emu::default`: everything zero except the font at
        address 0 and the program counter at 0x200. */
    constructor ()
      ensures Valid() && Model() == Initial()
      ensures fresh(ram) && fresh(screen) && fresh(v) && fresh(stack) && fresh(keys)
    {
      pc := START_ADDR;
      ram := new u8[RAM_SIZE](_ => 0);
      screen := new bool[SCREEN_SIZE](_ => false);
      v := new u8[NUM_REGS](_ => 0);
      i := 0;
      sp := 0;
      stack := new u16[STACK_SIZE](_ => 0);
      keys := new bool[NUM_KEYS](_ => false);
      dt := 0;
      st := 0;
      new;
      forall a | 0 <= a < |FONTSET| {
        ram[a] := FONTSET[a];
      }
      assert ram[..] == InitialRam();
    }

    /** Two machines built with `Emu::new` share no state: ticking one leaves
        the other at the baseline. */
    static method TickOneOfTwo(rnd: u8) returns (first: Emu, second: Emu, fault: Option<Fault>)
      ensures first.Valid() && second.Valid()
      ensures Reports(Chip8.Tick(Initial(), rnd), fault, first.Model(), TickFaultState(Initial()))
      ensures second.Model() == Initial()
    {
      first := new Emu();
      second := new Emu();
      fault := first.Tick(rnd);
    }

    /** `reset`: the same baseline, whatever the machine held before. */
    method Reset()
      requires Valid()
      modifies this, ram, screen, v, stack, keys
      ensures Valid() && Model() == Initial()
    {
      pc := START_ADDR;
      forall a | 0 <= a < RAM_SIZE {
        ram[a] := if a < |FONTSET| then FONTSET[a] else 0;
      }
      forall p | 0 <= p < SCREEN_SIZE {
        screen[p] := false;
      }
      forall k | 0 <= k < NUM_REGS {
        v[k] := 0;
      }
      i := 0;
      sp := 0;
      forall k | 0 <= k < STACK_SIZE {
        stack[k] := 0;
      }
      forall k | 0 <= k < NUM_KEYS {
        keys[k] := false;
      }
      dt := 0;
      st := 0;
      assert ram[..] == InitialRam();
    }

    /** `push`. */
    method Push(val: u16) returns (fault: Option<Fault>)
      requires Valid()
      modifies this, stack
      ensures Valid()
      ensures Reports(Chip8.Push(old(Model()), val), fault, Model(), old(Model()))
    {
      if sp == STACK_SIZE {
        return Some(StackOverflow);
      }
      stack[sp] := val;
      sp := sp + 1;
      fault := None;
    }

    /** `pop`. */
    method Pop() returns (r: Result<u16>)
      requires Valid()
      modifies this
      ensures Valid()
      ensures match Chip8.Pop(old(Model()))
        case Ok(p) => r == Ok(p.val) && Model() == p.next
        case Err(f) => r == Err(f) && Model() == old(Model())
    {
      if sp == 0 {
        return Err(StackUnderflow);
      }
      sp := sp - 1;
      r := Ok(stack[sp]);
    }

    /** `fetch`. */
    method Fetch() returns (r: Result<u16>)
      requires Valid()
      modifies this
      ensures Valid()
      ensures match Chip8.Fetch(old(Model()))
        case Ok(f) => r == Ok(f.op) && Model() == f.next
        case Err(f) => r == Err(f) && Model() == old(Model())
    {
      if pc + 1 >= RAM_SIZE {
        return Err(PcOutOfRange(pc));
      }
      var higher: int := ram[pc];
      var lower: int := ram[pc + 1];
      var op := higher * 0x100 + lower;
      pc := pc + 2;
      r := Ok(op);
    }

    /** `tick`: fetch, then execute. A fault in the execution leaves the
        program counter past the instruction, as the fetch left it. */
    method Tick(rnd: u8) returns (fault: Option<Fault>)
      requires Valid()
      modifies this, ram, screen, v, stack
      ensures Valid()
      ensures Reports(Chip8.Tick(old(Model()), rnd), fault, Model(), TickFaultState(old(Model())))
    {
      var r := Fetch();
      match r
      case Err(f) =>
        fault := Some(f);
      case Ok(op) =>
        fault := Execute(op, rnd);
    }

    /** `tick_timers`. */
    method TickTimers()
      requires Valid()
      modifies this
      ensures Valid() && Model() == Chip8.TickTimers(old(Model()))
    {
      if dt > 0 {
        dt := dt - 1;
      }
      if st > 0 {
        st := st - 1;
      }
    }

    /** `execute`: decode, then run the instruction. A fault changes nothing. */
    method Execute(op: u16, rnd: u8) returns (fault: Option<Fault>)
      requires Valid()
      modifies this, ram, screen, v, stack
      ensures Valid()
      ensures Reports(Chip8.Execute(old(Model()), op, rnd), fault, Model(), old(Model()))
    {
      match Decode(op)
      case None =>
        fault := Some(UnknownOpcode(op));
      case Some(ins) =>
        if ins.Draw? {
          fault := Draw(ins.x, ins.y, ins.n);
        } else if ins.WaitKey? {
          fault := WaitKey(ins.x);
        } else if ins.StoreBcd? {
          fault := StoreBcd(ins.x);
        } else if ins.StoreRegs? {
          fault := StoreRegs(ins.x);
        } else if ins.LoadRegs? {
          fault := LoadRegs(ins.x);
        } else if ins.Nop? || ins.ClearScreen? || ins.Return? || ins.Jump? || ins.Call? ||
                  ins.JumpV0? {
          fault := RunFlow(ins);
        } else if ins.SkipIfEq? || ins.SkipIfNe? || ins.SkipIfRegEq? || ins.SkipIfRegNe? ||
                  ins.SkipIfKey? || ins.SkipIfNotKey? {
          fault := RunSkip(ins);
        } else if IsAlu(ins) {
          RunArithmetic(ins);
          fault := None;
        } else {
          RunRegisters(ins, rnd);
          fault := None;
        }
    }

    /** `pc += 2` when `cond` holds. */
    method SkipIf(cond: bool) returns (fault: Option<Fault>)
      requires Valid()
      modifies this
      ensures Valid()
      ensures Reports(Chip8.SkipIf(old(Model()), cond), fault, Model(), old(Model()))
    {
      fault := None;
      if cond {
        if pc + 2 > 0xFFFF {
          return Some(PcOverflow);
        }
        pc := pc + 2;
      }
    }

    /** The instructions that move the program counter or clear the screen. */
    method RunFlow(ins: Instr) returns (fault: Option<Fault>)
      requires Valid()
      requires ins.Nop? || ins.ClearScreen? || ins.Return? || ins.Jump? || ins.Call? ||
               ins.JumpV0?
      modifies this, screen, stack
      ensures Valid()
      ensures Reports(Exec(old(Model()), ins, 0), fault, Model(), old(Model()))
    {
      fault := None;
      match ins
      case Nop =>
      case ClearScreen =>
        forall p | 0 <= p < SCREEN_SIZE {
          screen[p] := false;
        }
        assert screen[..] == Blank();
      case Return =>
        var r := Pop();
        match r {
          case Err(f) => fault := Some(f);
          case Ok(addr) => pc := addr;
        }
      case Jump(nnn) =>
        pc := nnn;
      case Call(nnn) =>
        fault := Push(pc);
        if fault == None {
          pc := nnn;
        }
      case JumpV0(nnn) =>
        pc := v[0] + nnn;
    }

    /** The conditional skips 3XNN, 4XNN, 5XY0, 9XY0, EX9E and EXA1. */
    method RunSkip(ins: Instr) returns (fault: Option<Fault>)
      requires Valid()
      requires ins.SkipIfEq? || ins.SkipIfNe? || ins.SkipIfRegEq? || ins.SkipIfRegNe? ||
               ins.SkipIfKey? || ins.SkipIfNotKey?
      modifies this
      ensures Valid()
      ensures Reports(Exec(old(Model()), ins, 0), fault, Model(), old(Model()))
    {
      match ins
      case SkipIfEq(x, nn) =>
        fault := SkipIf(v[x] == nn);
      case SkipIfNe(x, nn) =>
        fault := SkipIf(v[x] != nn);
      case SkipIfRegEq(x, y) =>
        fault := SkipIf(v[x] == v[y]);
      case SkipIfRegNe(x, y) =>
        fault := SkipIf(v[x] != v[y]);
      case SkipIfKey(x) =>
        if v[x] >= NUM_KEYS {
          return Some(KeyOutOfRange(v[x]));
        }
        fault := SkipIf(keys[v[x]]);
      case SkipIfNotKey(x) =>
        if v[x] >= NUM_KEYS {
          return Some(KeyOutOfRange(v[x]));
        }
        fault := SkipIf(!keys[v[x]]);
    }

    /** V[x] := val. */
    method WriteV(x: Nibble, val: u8)
      requires Valid()
      modifies v
      ensures Valid() && Model() == SetV(old(Model()), x, val)
    {
      v[x] := val;
    }

    /** V[x] := val, then VF := flag. */
    method WriteVWithFlag(x: Nibble, val: u8, flag: u8)
      requires Valid()
      modifies v
      ensures Valid() && Model() == SetVWithFlag(old(Model()), x, val, flag)
    {
      v[x] := val;
      v[FLAG] := flag;
    }

    /** The instructions that only write registers and timers; none faults. */
    method RunRegisters(ins: Instr, rnd: u8)
      requires Valid()
      requires IsLoad(ins)
      modifies this, v
      ensures Valid()
      ensures Model() == Load(old(Model()), ins, rnd)
    {
      match ins
      case Set(x, nn) =>
        WriteV(x, nn);
      case AddImm(x, nn) =>
        WriteV(x, WrapAdd(v[x], nn));
      case Random(x, nn) =>
        WriteV(x, BitAnd(rnd, nn));
      case GetDelay(x) =>
        WriteV(x, dt);
      case SetIndex(nnn) =>
        i := nnn;
      case SetDelay(x) =>
        dt := v[x];
      case SetSound(x) =>
        st := v[x];
      case AddIndex(x) =>
        i := (i + v[x]) % 0x1_0000;
      case FontChar(x) =>
        i := v[x] as int * 5;
    }

    /** The register-to-register instructions 8XYn. */
    method RunArithmetic(ins: Instr)
      requires Valid()
      requires IsAlu(ins)
      modifies v
      ensures Valid()
      ensures Model() == Alu(old(Model()), ins)
    {
      match ins
      case Copy(x, y) =>
        WriteV(x, v[y]);
      case Or(x, y) =>
        WriteV(x, BitOr(v[x], v[y]));
      case And(x, y) =>
        WriteV(x, BitAnd(v[x], v[y]));
      case Xor(x, y) =>
        WriteV(x, BitXor(v[x], v[y]));
      case Add(x, y) =>
        var a, b := v[x], v[y];
        WriteVWithFlag(x, WrapAdd(a, b), if a as int + b as int > 0xFF then 1 else 0);
      case Sub(x, y) =>
        var a, b := v[x], v[y];
        WriteVWithFlag(x, WrapSub(a, b), if a < b then 0 else 1);
      case Shr(x, _) =>
        WriteVWithFlag(x, ShiftRight1(v[x]), BitAnd(v[x], 1));
      case SubFrom(x, y) =>
        var a, b := v[x], v[y];
        WriteVWithFlag(x, WrapSub(b, a), if b < a then 0 else 1);
      case Shl(x, _) =>
        WriteVWithFlag(x, ShiftLeft1(v[x]), BitAnd(ShiftRight7(v[x]), 1));
    }

    /** FX33: the decimal digits of V[X] at I, I + 1 and I + 2. */
    method StoreBcd(x: Nibble) returns (fault: Option<Fault>)
      requires Valid()
      modifies ram
      ensures Valid()
      ensures Reports(Exec(old(Model()), Instr.StoreBcd(x), 0), fault, Model(), old(Model()))
    {
      if i + 2 >= RAM_SIZE {
        return Some(AddressOutOfRange(FirstMiss(i)));
      }
      var val := v[x];
      ram[i] := Hundreds(val);
      ram[i + 1] := Tens(val);
      ram[i + 2] := Ones(val);
      fault := None;
    }

    /** FX55: V0..=VX to memory at I. */
    method StoreRegs(x: Nibble) returns (fault: Option<Fault>)
      requires Valid()
      modifies ram
      ensures Valid()
      ensures Reports(Exec(old(Model()), Instr.StoreRegs(x), 0), fault, Model(), old(Model()))
    {
      if i + x >= RAM_SIZE {
        return Some(AddressOutOfRange(FirstMiss(i)));
      }
      for k := 0 to x + 1
        invariant forall a :: 0 <= a < RAM_SIZE ==>
          ram[a] == if i <= a < i + k then v[a - i] else old(ram[a])
      {
        ram[i + k] := v[k];
      }
      assert ram[..] == DumpRam(old(ram[..]), v[..], i, x);
      fault := None;
    }

    /** FX65: memory at I to V0..=VX. */
    method LoadRegs(x: Nibble) returns (fault: Option<Fault>)
      requires Valid()
      modifies v
      ensures Valid()
      ensures Reports(Exec(old(Model()), Instr.LoadRegs(x), 0), fault, Model(), old(Model()))
    {
      if i + x >= RAM_SIZE {
        return Some(AddressOutOfRange(FirstMiss(i)));
      }
      for k := 0 to x + 1
        invariant forall j :: 0 <= j < NUM_REGS ==>
          v[j] == if j < k then ram[i + j] else old(v[j])
      {
        v[k] := ram[i + k];
      }
      assert v[..] == LoadV(ram[..], old(v[..]), i, x);
      fault := None;
    }

    /** FX0A: scan the keys from 0 upwards; with none pressed, step the program
        counter back so that the instruction runs again. */
    method WaitKey(x: Nibble) returns (fault: Option<Fault>)
      requires Valid()
      modifies this, v
      ensures Valid()
      ensures Reports(Exec(old(Model()), Instr.WaitKey(x), 0), fault, Model(), old(Model()))
    {
      fault := None;
      var pressed := false;
      var k := 0;
      while k < NUM_KEYS
        invariant 0 <= k <= NUM_KEYS && !pressed
        invariant forall j :: 0 <= j < k ==> !keys[j]
        invariant v[..] == old(v[..])
      {
        if keys[k] {
          FirstPressedIs(keys[..], k);
          v[x] := k;
          pressed := true;
          break;
        }
        k := k + 1;
      }
      if !pressed {
        if pc < 2 {
          return Some(PcUnderflow);
        }
        pc := pc - 2;
      }
    }

    /** DXYN: XOR the N sprite rows at I onto the screen at (V[X], V[Y]),
        recording in VF whether a set cell was cleared. */
    method Draw(x: Nibble, y: Nibble, n: Nibble) returns (fault: Option<Fault>)
      requires Valid()
      modifies screen, v
      ensures Valid()
      ensures Reports(Exec(old(Model()), Instr.Draw(x, y, n), 0), fault, Model(), old(Model()))
    {
      if n > 0 && i + n > RAM_SIZE {
        return Some(AddressOutOfRange(FirstMiss(i)));
      }
      fault := None;
      var xCoord, yCoord := v[x], v[y];
      ghost var sprite := SpriteAt(Model(), n);
      ghost var before := screen[..];
      var flipped := false;
      for row := 0 to n
        invariant forall p :: 0 <= p < SCREEN_SIZE ==>
          screen[p] == (before[p] != Drawn(sprite, xCoord, yCoord, p, row * 8))
        invariant flipped == CollidedBefore(before, sprite, xCoord, yCoord, row * 8)
        invariant v[..] == old(v[..])
      {
        flipped := DrawRow(sprite, before, xCoord, yCoord, row, flipped);
      }
      DrawnAll(before, sprite, xCoord, yCoord);
      v[FLAG] := if flipped then 1 else 0;
      ghost var m := old(Model());
      assert screen[..] == DrawScreen(m.screen, sprite, xCoord, yCoord);
    }

    /** One sprite row of DXYN: its eight bits, left to right. */
    method DrawRow(ghost sprite: Sprite, ghost before: Screen, xCoord: u8, yCoord: u8,
                   row: nat, flipped: bool) returns (flipped': bool)
      requires Valid() && row < |sprite| && i + row < RAM_SIZE && sprite[row] == ram[i + row]
      requires forall p :: 0 <= p < SCREEN_SIZE ==>
        screen[p] == (before[p] != Drawn(sprite, xCoord, yCoord, p, row * 8))
      requires flipped == CollidedBefore(before, sprite, xCoord, yCoord, row * 8)
      modifies screen
      ensures forall p :: 0 <= p < SCREEN_SIZE ==>
        screen[p] == (before[p] != Drawn(sprite, xCoord, yCoord, p, row * 8 + 8))
      ensures flipped' == CollidedBefore(before, sprite, xCoord, yCoord, row * 8 + 8)
    {
      flipped' := flipped;
      var pixels := ram[i + row];
      for col := 0 to 8
        invariant forall p :: 0 <= p < SCREEN_SIZE ==>
          screen[p] == (before[p] != Drawn(sprite, xCoord, yCoord, p, row * 8 + col))
        invariant flipped' == CollidedBefore(before, sprite, xCoord, yCoord, row * 8 + col)
      {
        CollidedStep(before, sprite, xCoord, yCoord, row, col);
        forall p | 0 <= p < SCREEN_SIZE {
          DrawnStep(sprite, xCoord, yCoord, row, col, p);
        }
        if SpriteBit(pixels, col) {
          var cx := (xCoord + col) % SCREEN_WIDTH;
          var cy := (yCoord + row) % SCREEN_HEIGHT;
          var id := cx + SCREEN_WIDTH * cy;
          assert id == Cell(xCoord, yCoord, row, col);
          flipped' := flipped' || screen[id];
          screen[id] := !screen[id];
        }
      }
    }
  }
}
