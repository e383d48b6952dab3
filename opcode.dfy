/** Decoding of CHIP-8 instruction words: the nibble-tuple dispatch of
    `execute`, made into a datatype of instructions with its inverse. */
module Opcode {
  import opened Words

  datatype Option<T> = None | Some(value: T)

  /** One instruction per arm of the dispatch; the comment gives the pattern
      (X, Y: register nibbles, N: nibble, NN: byte, NNN: address). Operands
      the arm ignores (Y of the shifts) are kept so that decoding loses
      nothing. */
  datatype Instr =
    | Nop                                  // 0000
    | ClearScreen                          // 00E0
    | Return                               // 00EE
    | Jump(nnn: Addr)                      // 1NNN
    | Call(nnn: Addr)                      // 2NNN
    | SkipIfEq(x: Nibble, nn: u8)          // 3XNN
    | SkipIfNe(x: Nibble, nn: u8)          // 4XNN
    | SkipIfRegEq(x: Nibble, y: Nibble)    // 5XY0
    | Set(x: Nibble, nn: u8)               // 6XNN
    | AddImm(x: Nibble, nn: u8)            // 7XNN
    | Copy(x: Nibble, y: Nibble)           // 8XY0
    | Or(x: Nibble, y: Nibble)             // 8XY1
    | And(x: Nibble, y: Nibble)            // 8XY2
    | Xor(x: Nibble, y: Nibble)            // 8XY3
    | Add(x: Nibble, y: Nibble)            // 8XY4
    | Sub(x: Nibble, y: Nibble)            // 8XY5
    | Shr(x: Nibble, y: Nibble)            // 8XY6
    | SubFrom(x: Nibble, y: Nibble)        // 8XY7
    | Shl(x: Nibble, y: Nibble)            // 8XYE
    | SkipIfRegNe(x: Nibble, y: Nibble)    // 9XY0
    | SetIndex(nnn: Addr)                  // ANNN
    | JumpV0(nnn: Addr)                    // BNNN
    | Random(x: Nibble, nn: u8)            // CXNN
    | Draw(x: Nibble, y: Nibble, n: Nibble) // DXYN
    | SkipIfKey(x: Nibble)                 // EX9E
    | SkipIfNotKey(x: Nibble)              // EXA1
    | GetDelay(x: Nibble)                  // FX07
    | WaitKey(x: Nibble)                   // FX0A
    | SetDelay(x: Nibble)                  // FX15
    | SetSound(x: Nibble)                  // FX18
    | AddIndex(x: Nibble)                  // FX1E
    | FontChar(x: Nibble)                  // FX29
    | StoreBcd(x: Nibble)                  // FX33
    | StoreRegs(x: Nibble)                 // FX55
    | LoadRegs(x: Nibble)                  // FX65

  /** The instruction an instruction word denotes, or `None` for the words
      that reach the `unimplemented!` arm of `execute` in `chip8_core`. Arms are
      tried in the order `execute` lists them. */
  function Decode(op: u16): Option<Instr> {
    var x, y, n := Digit2(op), Digit3(op), Digit4(op);
    var nn, nnn := LowByte(op), LowAddr(op);
    match Digit1(op)
    case 0x0 =>
      if x == 0 && y == 0 && n == 0 then Some(Nop)
      else if x == 0 && y == 0xE && n == 0 then Some(ClearScreen)
      else if x == 0 && y == 0xE && n == 0xE then Some(Return)
      else None
    case 0x1 => Some(Jump(nnn))
    case 0x2 => Some(Call(nnn))
    case 0x3 => Some(SkipIfEq(x, nn))
    case 0x4 => Some(SkipIfNe(x, nn))
    case 0x5 => if n == 0 then Some(SkipIfRegEq(x, y)) else None
    case 0x6 => Some(Set(x, nn))
    case 0x7 => Some(AddImm(x, nn))
    case 0x8 =>
      if n == 0x0 then Some(Copy(x, y))
      else if n == 0x1 then Some(Or(x, y))
      else if n == 0x2 then Some(And(x, y))
      else if n == 0x3 then Some(Xor(x, y))
      else if n == 0x4 then Some(Add(x, y))
      else if n == 0x5 then Some(Sub(x, y))
      else if n == 0x6 then Some(Shr(x, y))
      else if n == 0x7 then Some(SubFrom(x, y))
      else if n == 0xE then Some(Shl(x, y))
      else None
    case 0x9 => if n == 0 then Some(SkipIfRegNe(x, y)) else None
    case 0xA => Some(SetIndex(nnn))
    case 0xB => Some(JumpV0(nnn))
    case 0xC => Some(Random(x, nn))
    case 0xD => Some(Draw(x, y, n))
    case 0xE =>
      if y == 0x9 && n == 0xE then Some(SkipIfKey(x))
      else if y == 0xA && n == 0x1 then Some(SkipIfNotKey(x))
      else None
    case 0xF =>
      if y == 0x0 && n == 0x7 then Some(GetDelay(x))
      else if y == 0x0 && n == 0xA then Some(WaitKey(x))
      else if y == 0x1 && n == 0x5 then Some(SetDelay(x))
      else if y == 0x1 && n == 0x8 then Some(SetSound(x))
      else if y == 0x1 && n == 0xE then Some(AddIndex(x))
      else if y == 0x2 && n == 0x9 then Some(FontChar(x))
      else if y == 0x3 && n == 0x3 then Some(StoreBcd(x))
      else if y == 0x5 && n == 0x5 then Some(StoreRegs(x))
      else if y == 0x6 && n == 0x5 then Some(LoadRegs(x))
      else None
  }

  /** The instruction word of an instruction: the inverse of `Decode`. */
  function Encode(ins: Instr): u16 {
    match ins
    case Nop => 0x0000
    case ClearScreen => 0x00E0
    case Return => 0x00EE
    case Jump(nnn) => 0x1000 + nnn
    case Call(nnn) => 0x2000 + nnn
    case SkipIfEq(x, nn) => Word(0x3, x, HighHalf(nn), LowHalf(nn))
    case SkipIfNe(x, nn) => Word(0x4, x, HighHalf(nn), LowHalf(nn))
    case SkipIfRegEq(x, y) => Word(0x5, x, y, 0x0)
    case Set(x, nn) => Word(0x6, x, HighHalf(nn), LowHalf(nn))
    case AddImm(x, nn) => Word(0x7, x, HighHalf(nn), LowHalf(nn))
    case Copy(x, y) => Word(0x8, x, y, 0x0)
    case Or(x, y) => Word(0x8, x, y, 0x1)
    case And(x, y) => Word(0x8, x, y, 0x2)
    case Xor(x, y) => Word(0x8, x, y, 0x3)
    case Add(x, y) => Word(0x8, x, y, 0x4)
    case Sub(x, y) => Word(0x8, x, y, 0x5)
    case Shr(x, y) => Word(0x8, x, y, 0x6)
    case SubFrom(x, y) => Word(0x8, x, y, 0x7)
    case Shl(x, y) => Word(0x8, x, y, 0xE)
    case SkipIfRegNe(x, y) => Word(0x9, x, y, 0x0)
    case SetIndex(nnn) => 0xA000 + nnn
    case JumpV0(nnn) => 0xB000 + nnn
    case Random(x, nn) => Word(0xC, x, HighHalf(nn), LowHalf(nn))
    case Draw(x, y, n) => Word(0xD, x, y, n)
    case SkipIfKey(x) => Word(0xE, x, 0x9, 0xE)
    case SkipIfNotKey(x) => Word(0xE, x, 0xA, 0x1)
    case GetDelay(x) => Word(0xF, x, 0x0, 0x7)
    case WaitKey(x) => Word(0xF, x, 0x0, 0xA)
    case SetDelay(x) => Word(0xF, x, 0x1, 0x5)
    case SetSound(x) => Word(0xF, x, 0x1, 0x8)
    case AddIndex(x) => Word(0xF, x, 0x1, 0xE)
    case FontChar(x) => Word(0xF, x, 0x2, 0x9)
    case StoreBcd(x) => Word(0xF, x, 0x3, 0x3)
    case StoreRegs(x) => Word(0xF, x, 0x5, 0x5)
    case LoadRegs(x) => Word(0xF, x, 0x6, 0x5)
  }

  /** Every instruction is recognised from its own word. */
  lemma DecodeEncode(ins: Instr)
    ensures Decode(Encode(ins)) == Some(ins)
  {
    if ins.SkipIfEq? || ins.SkipIfNe? || ins.Set? || ins.AddImm? || ins.Random? {
      ByteWord(Digit1(Encode(ins)), ins.x, ins.nn);
    } else if ins.Copy? || ins.Or? || ins.And? || ins.Xor? || ins.Add? || ins.Sub? ||
              ins.Shr? || ins.SubFrom? || ins.Shl? {
      DecodeEncodeArith(ins);
    } else if ins.SkipIfKey? || ins.SkipIfNotKey? {
      DecodeEncodeKeys(ins);
    } else if ins.GetDelay? || ins.WaitKey? || ins.SetDelay? || ins.SetSound? {
      DecodeEncodeTimers(ins);
    } else if ins.AddIndex? || ins.FontChar? {
      DecodeEncodeIndex(ins);
    } else if ins.StoreBcd? || ins.StoreRegs? || ins.LoadRegs? {
      DecodeEncodeMemory(ins);
    } else if ins.Jump? || ins.Call? || ins.SetIndex? || ins.JumpV0? {
      AddrWord(Digit1(Encode(ins)), ins.nnn);
    } else {
      DecodeEncodeFlow(ins);
    }
  }

  /** `DecodeEncode` for the system, register-compare and draw instructions. */
  lemma DecodeEncodeFlow(ins: Instr)
    requires ins.Nop? || ins.ClearScreen? || ins.Return? || ins.SkipIfRegEq? ||
             ins.SkipIfRegNe? || ins.Draw?
    ensures Decode(Encode(ins)) == Some(ins)
  {
    match ins
    case Nop =>
    case ClearScreen => assert Digit3(0xE0) == 0xE && Digit4(0xE0) == 0;
    case Return => assert Digit3(0xEE) == 0xE && Digit4(0xEE) == 0xE;
    case SkipIfRegEq(x, y) => DigitsOfWord(0x5, x, y, 0x0);
    case SkipIfRegNe(x, y) => DigitsOfWord(0x9, x, y, 0x0);
    case Draw(x, y, n) => DigitsOfWord(0xD, x, y, n);
  }

  /** `DecodeEncode` for the register-to-register family 8XYn. */
  lemma DecodeEncodeArith(ins: Instr)
    requires ins.Copy? || ins.Or? || ins.And? || ins.Xor? || ins.Add? || ins.Sub? ||
             ins.Shr? || ins.SubFrom? || ins.Shl?
    ensures Decode(Encode(ins)) == Some(ins)
  {
    match ins
    case Copy(x, y) => DigitsOfWord(0x8, x, y, 0x0);
    case Or(x, y) => DigitsOfWord(0x8, x, y, 0x1);
    case And(x, y) => DigitsOfWord(0x8, x, y, 0x2);
    case Xor(x, y) => DigitsOfWord(0x8, x, y, 0x3);
    case Add(x, y) => DigitsOfWord(0x8, x, y, 0x4);
    case Sub(x, y) => DigitsOfWord(0x8, x, y, 0x5);
    case Shr(x, y) => DigitsOfWord(0x8, x, y, 0x6);
    case SubFrom(x, y) => DigitsOfWord(0x8, x, y, 0x7);
    case Shl(x, y) => DigitsOfWord(0x8, x, y, 0xE);
  }

  /** `DecodeEncode` for the key and timer instructions. */
  lemma DecodeEncodeKeys(ins: Instr)
    requires ins.SkipIfKey? || ins.SkipIfNotKey?
    ensures Decode(Encode(ins)) == Some(ins)
  {
    match ins
    case SkipIfKey(x) => DigitsOfWord(0xE, x, 0x9, 0xE);
    case SkipIfNotKey(x) => DigitsOfWord(0xE, x, 0xA, 0x1);
  }

  /** `DecodeEncode` for the timer and key-wait instructions FXnn. */
  lemma DecodeEncodeTimers(ins: Instr)
    requires ins.GetDelay? || ins.WaitKey? || ins.SetDelay? || ins.SetSound?
    ensures Decode(Encode(ins)) == Some(ins)
  {
    match ins
    case GetDelay(x) => DigitsOfWord(0xF, x, 0x0, 0x7);
    case WaitKey(x) => DigitsOfWord(0xF, x, 0x0, 0xA);
    case SetDelay(x) => DigitsOfWord(0xF, x, 0x1, 0x5);
    case SetSound(x) => DigitsOfWord(0xF, x, 0x1, 0x8);
  }

  /** `DecodeEncode` for the index-register and memory instructions FXnn. */
  lemma DecodeEncodeIndex(ins: Instr)
    requires ins.AddIndex? || ins.FontChar?
    ensures Decode(Encode(ins)) == Some(ins)
  {
    match ins
    case AddIndex(x) => DigitsOfWord(0xF, x, 0x1, 0xE);
    case FontChar(x) => DigitsOfWord(0xF, x, 0x2, 0x9);
  }

  /** `DecodeEncode` for the memory instructions FX33, FX55 and FX65. */
  lemma DecodeEncodeMemory(ins: Instr)
    requires ins.StoreBcd? || ins.StoreRegs? || ins.LoadRegs?
    ensures Decode(Encode(ins)) == Some(ins)
  {
    match ins
    case StoreBcd(x) => DigitsOfWord(0xF, x, 0x3, 0x3);
    case StoreRegs(x) => DigitsOfWord(0xF, x, 0x5, 0x5);
    case LoadRegs(x) => DigitsOfWord(0xF, x, 0x6, 0x5);
  }

  /** Every recognised word is the word of the instruction it decodes to, so
      decoding is injective on the words it accepts. */
  lemma EncodeDecode(op: u16)
    requires Decode(op).Some?
    ensures Encode(Decode(op).value) == op
  {
    var d := Digit1(op);
    if d == 0x3 || d == 0x4 || d == 0x6 || d == 0x7 || d == 0xC {
      EncodeDecodeByte(op);
    } else if d == 0x8 || d == 0xE || d == 0xF {
      EncodeDecodeSub(op);
    } else if d == 0x1 || d == 0x2 || d == 0xA || d == 0xB {
      EncodeDecodeAddr(op);
    } else {
      EncodeDecodeFlow(op);
    }
  }

  /** `EncodeDecode` for the families with a byte operand. */
  lemma EncodeDecodeByte(op: u16)
    requires var d := Digit1(op); d == 0x3 || d == 0x4 || d == 0x6 || d == 0x7 || d == 0xC
    ensures Encode(Decode(op).value) == op
  {
    WordOfDigits(op);
    DivBy(LowByte(op), 0x10, Digit3(op), Digit4(op));
  }

  /** `EncodeDecode` for the families told apart by their low nibbles. */
  lemma EncodeDecodeSub(op: u16)
    requires Decode(op).Some? && (Digit1(op) == 0x8 || Digit1(op) == 0xE || Digit1(op) == 0xF)
    ensures Encode(Decode(op).value) == op
  {
    WordOfDigits(op);
  }

  /** `EncodeDecode` for the families with an address operand. */
  lemma EncodeDecodeAddr(op: u16)
    requires var d := Digit1(op); d == 0x1 || d == 0x2 || d == 0xA || d == 0xB
    ensures Encode(Decode(op).value) == op
  {
    WordOfDigits(op);
  }

  /** `EncodeDecode` for the system, register-compare and draw families. */
  lemma EncodeDecodeFlow(op: u16)
    requires Decode(op).Some?
    requires var d := Digit1(op); d == 0x0 || d == 0x5 || d == 0x9 || d == 0xD
    ensures Encode(Decode(op).value) == op
  {
    WordOfDigits(op);
  }

  /** Decoding splits a word with an address operand at its leading nibble. */
  lemma AddrWord(a: Nibble, nnn: Addr)
    requires a > 0
    ensures Digit1(a * 0x1000 + nnn) == a && LowAddr(a * 0x1000 + nnn) == nnn
  {
    DivBy(a * 0x1000 + nnn, 0x1000, a, nnn);
  }

  /** Decoding splits a word with a byte operand into register and byte. */
  lemma ByteWord(a: Nibble, x: Nibble, nn: u8)
    ensures var op := Word(a, x, HighHalf(nn), LowHalf(nn));
      Digit1(op) == a && Digit2(op) == x && LowByte(op) == nn
  {
    HalvesOfByte(nn);
    DigitsOfWord(a, x, HighHalf(nn), LowHalf(nn));
  }
}
