/** Fixed-width words of the CHIP-8 core and the four-nibble split of an
    instruction word. Rust's `u16` and `u8` become bounded `int`s; the bitwise operators go
    through `bv8`. */
module Words {

  /** Rust `u8`: V registers, memory cells, timers. */
  type u8 = x: int | 0 <= x < 0x100

  /** Rust `u16`: the program counter, the index register, stack entries and
      instruction words. */
  type u16 = x: int | 0 <= x < 0x1_0000

  /** A 4-bit field of an instruction word; also a V-register index. */
  type Nibble = x: int | 0 <= x < 0x10

  /** The 12-bit address operand `NNN` of an instruction word. */
  type Addr = x: int | 0 <= x < 0x1000

  /** The four nibbles of an instruction word, most significant first
      (`(op & 0xF000) >> 12` ... `op & 0x000F`). */
  function Digit1(op: u16): Nibble { op / 0x1000 }
  function Digit2(op: u16): Nibble { op / 0x100 % 0x10 }
  function Digit3(op: u16): Nibble { op / 0x10 % 0x10 }
  function Digit4(op: u16): Nibble { op % 0x10 }

  /** The byte operand `NN` (`(op & 0x00FF) as u8`). */
  function LowByte(op: u16): u8 { op % 0x100 }

  /** The address operand `NNN` (`op & 0x0FFF`). */
  function LowAddr(op: u16): Addr { op % 0x1000 }

  /** The instruction word whose nibbles are `a`, `b`, `c`, `d`. */
  function Word(a: Nibble, b: Nibble, c: Nibble, d: Nibble): u16 {
    a * 0x1000 + b * 0x100 + c * 0x10 + d
  }

  /** The two nibbles of a byte, high first. */
  function HighHalf(b: u8): Nibble { b / 0x10 }
  function LowHalf(b: u8): Nibble { b % 0x10 }

  /** A word is determined by its nibbles, and its operands are made of them. */
  lemma WordOfDigits(op: u16)
    ensures op == Word(Digit1(op), Digit2(op), Digit3(op), Digit4(op))
    ensures LowByte(op) == Digit3(op) * 0x10 + Digit4(op)
    ensures LowAddr(op) == Digit2(op) * 0x100 + Digit3(op) * 0x10 + Digit4(op)
  {
    var a: int, b: int, c: int, d: int := Digit1(op), Digit2(op), Digit3(op), Digit4(op);
    var q1: int, q2: int := op / 0x100, op / 0x10;
    DivBy(op, 0x10, q2, d);
    DivBy(op, 0x100, q1, op % 0x100);
    DivBy(op, 0x1000, a, op % 0x1000);
    DivBy(q2, 0x10, q2 / 0x10, c);
    DivBy(q1, 0x10, q1 / 0x10, b);
    DivBy(op, 0x100, q2 / 0x10, c * 0x10 + d);
    DivBy(op, 0x1000, q1 / 0x10, b * 0x100 + c * 0x10 + d);
  }

  /** Splitting a word built from nibbles gives those nibbles back. */
  lemma DigitsOfWord(a: Nibble, b: Nibble, c: Nibble, d: Nibble)
    ensures var op := Word(a, b, c, d);
      Digit1(op) == a && Digit2(op) == b && Digit3(op) == c && Digit4(op) == d &&
      LowByte(op) == c * 0x10 + d && LowAddr(op) == b * 0x100 + c * 0x10 + d
  {
    var op: int := Word(a, b, c, d);
    var q2: int := a * 0x100 + b * 0x10 + c;
    var q1: int := a * 0x10 + b;
    DivBy(op, 0x10, q2, d);
    DivBy(q2, 0x10, q1, c);
    DivBy(q1, 0x10, a, b);
    DivBy(op, 0x100, q1, c * 0x10 + d);
    DivBy(op, 0x1000, a, b * 0x100 + c * 0x10 + d);
  }

  /** Division by a power of sixteen is determined by quotient and remainder. */
  lemma DivBy(n: int, m: int, q: int, r: int)
    requires m == 0x10 || m == 0x100 || m == 0x1000
    requires 0 <= r < m && n == q * m + r
    ensures n / m == q && n % m == r
  {
    if m == 0x10 {
      assert n == q * 0x10 + r;
    } else if m == 0x100 {
      assert n == q * 0x100 + r;
    } else {
      assert n == q * 0x1000 + r;
    }
  }

  /** A byte is its two nibbles. */
  lemma HalvesOfByte(b: u8)
    ensures b as int == HighHalf(b) * 0x10 + LowHalf(b)
  {
  }

  /** Bitwise operators on bytes, as `chip8_core` applies them to `u8`. */
  function BitOr(a: u8, b: u8): u8 { ((a as bv8) | (b as bv8)) as int }
  function BitAnd(a: u8, b: u8): u8 { ((a as bv8) & (b as bv8)) as int }
  function BitXor(a: u8, b: u8): u8 { ((a as bv8) ^ (b as bv8)) as int }

  /** `a >> 1` and `a >> 7` on an unsigned byte: the bits shifted out are
      dropped. */
  function ShiftRight1(a: u8): u8 { a / 2 }
  function ShiftRight7(a: u8): u8 { a / 0x80 }

  /** Wrapping byte arithmetic (`wrapping_add`, `overflowing_sub`, `<<= 1`):
      the exact result reduced modulo 256. */
  function WrapAdd(a: u8, b: u8): u8 { (a + b) % 0x100 }
  function WrapSub(a: u8, b: u8): u8 { (a - b) % 0x100 }
  function ShiftLeft1(a: u8): u8 { (a * 2) % 0x100 }

  /** The bit `8XY6` shifts out is the parity bit. */
  lemma LowBit(a: u8)
    ensures BitAnd(a, 1) == a % 2
  {
  }

  /** The bit `8XYE` shifts out is the top bit. */
  lemma TopBit(a: u8)
    ensures BitAnd(ShiftRight7(a), 1) == a / 128
  {
    LowBit(ShiftRight7(a));
  }
}
