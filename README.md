# CHIP-8 emulator core in Dafny

This project models `Emu`, the CHIP-8 virtual machine of `chip8_core`, and proves
properties of it. The machine has:

- 4 KiB of memory, with the hexadecimal font at address 0;
- a 64×32 monochrome screen;
- sixteen 8-bit registers V0..VF, where VF is the flag register;
- a 16-bit index register I and a 16-bit program counter, starting at 0x200;
- a 16-entry return stack and a stack pointer;
- sixteen keys, and the delay and sound timers.

A `tick` fetches the big-endian instruction word at the program counter,
advances the counter by two and executes the word. The other host entry point
is `tick_timers`.

The model has two layers.

- **Value level.** `Words` (`words.dfy`) holds the machine's integer widths and
  byte arithmetic. `Opcode` (`opcode.dfy`) has the 35 instructions as a datatype
  with `Decode` and its inverse `Encode`. `Display` (`draw.dfy`) has the screen
  and XOR sprite drawing. `Chip8` (`machine.dfy`) has the machine state as a
  value, with one function per operation: `Initial`, `Push`, `Pop`, `Fetch`,
  `Exec`/`Execute`, `Tick` and `TickTimers`. These functions are the
  specification.
- **Imperative level.** `Emulator.Emu` (`emu.dfy`) is the struct as a class. Its
  memory, screen, registers, stack and keys are arrays updated in place, and
  its other fields are reassigned. Each method is proved to take the machine
  `Model()` from `old(Model())` to the state the `Chip8` function computes.
  FX55, FX65, FX0A and DXYN keep their loops, with their invariants.

`Properties` (`properties.dfy`) proves what the operations promise about the
value level. Because every `Emu` method is tied to the same functions, each
property holds of the imperative machine too.

Under a debug build, the Rust `Emu` panics on its unguarded cases. These are:

- the `unimplemented!` arm for unknown words;
- a push onto a full stack and a pop from an empty one;
- an index out of memory or out of the key array;
- `u16` overflow of the program counter.

Each panic is a `Fault` in the model. The fault is detected before anything is
written:

- `Execute` on a fault leaves the machine unchanged.
- `Tick` on a fault in the fetch (the program counter at the last byte of memory or beyond) leaves the machine unchanged. On a fault in the execution it leaves the program counter past the fetched word, as the fetch moved it.

The random byte of CXNN is a parameter, `rnd`.

## Model

| member | source | states |
|---|---|---|
| Chip8.Initial | chip8_core/src/lib.rs:59-77 | defines the `default` state; its promises are stated by `Properties.InitialBaseline` |
| Chip8.Push | chip8_core/src/lib.rs:89-92 | defines `push`, faulting at depth 16; its promises are stated by `Properties.PushPop` |
| Chip8.Pop | chip8_core/src/lib.rs:94-97 | defines `pop`, faulting at depth 0; its promises are stated by `Properties.PushPop` and `Properties.ReturnUnderflow` |
| Chip8.Fetch | chip8_core/src/lib.rs:351-357 | defines `fetch`; its promises are stated by `Properties.FetchWord` |
| Opcode.Decode | chip8_core/src/lib.rs:106-344 | defines the nibble dispatch of `execute`, None for the `unimplemented!` arm; its promises are stated by `Opcode.DecodeEncode`, `Opcode.EncodeDecode` and `Properties.UnknownOpcodes` |
| Chip8.Exec | chip8_core/src/lib.rs:112-344 | defines each arm of `execute` on the machine state, with the panics as faults; its promises are stated by `Properties.CallReturn`, the flag lemmas, `Properties.DrawEffect`, `Properties.StoreBcdDigits`, `Properties.StoreRegsFootprint`, `Properties.LoadRegsFootprint` and their neighbours |
| Chip8.Execute | chip8_core/src/lib.rs:106-344 | defines `execute`: decode, then `Exec`, UnknownOpcode for the `unimplemented!` arm; its promises are stated by `Properties.UnknownOpcodes` |
| Chip8.Tick | chip8_core/src/lib.rs:99-104 | defines `tick`: fetch, then execute; its promises are stated by `Properties.TickRuns`, `Properties.TickSkip`, `Properties.TickWaitKey` and `Properties.TickCall` |
| Chip8.TickTimers | chip8_core/src/lib.rs:359-369 | defines `tick_timers`; its promises are stated by `Properties.TimersCountDown` and `Properties.TimersAfter` |
| Display.DrawScreen | chip8_core/src/lib.rs:241-254 | defines the screen after DXYN's XOR loops; its promises are stated by `Display.DrawExactly` and `Display.DrawTwice` |
| Display.Collides | chip8_core/src/lib.rs:250-261 | defines DXYN's `flipped`; its promises are stated by `Display.CollidesIffCleared` and `Display.RedrawCollides` |
| Emulator.Emu.constructor | chip8_core/src/lib.rs:59-83 | a new machine is `Initial()`: font at 0, pc 0x200, all else zero/off; its arrays are fresh, so each machine is independent of every other |
| Emulator.Emu.TickOneOfTwo | chip8_core/src/lib.rs:81-83 | two machines from `new` are independent: ticking the first leaves it in `Chip8.Tick(Initial())`'s state and the second at `Initial()` |
| Emulator.Emu.Reset | chip8_core/src/lib.rs:85-87 | after `reset` the machine is `Initial()`, whatever it held |
| Emulator.Emu.Push | chip8_core/src/lib.rs:89-92 | stores at sp and increments it; at depth 16 reports StackOverflow and changes nothing |
| Emulator.Emu.Pop | chip8_core/src/lib.rs:94-97 | decrements sp and returns the entry there; at depth 0 reports StackUnderflow |
| Emulator.Emu.Fetch | chip8_core/src/lib.rs:351-357 | returns the big-endian word at pc and advances pc by 2; faults when pc+1 is outside memory |
| Emulator.Emu.Tick | chip8_core/src/lib.rs:99-104 | the machine ends in `Chip8.Tick`'s state, or reports its fault in `TickFaultState`: unchanged on a fetch fault, pc advanced by 2 on an execution fault |
| Emulator.Emu.Execute | chip8_core/src/lib.rs:106-348 | the machine ends in `Chip8.Execute`'s state, or reports its fault and is unchanged |
| Emulator.Emu.RunFlow | chip8_core/src/lib.rs:113-227 | 0000, 00E0, 00EE, 1NNN, 2NNN (lines 113-120) and BNNN (lines 224-227) do what `Exec` says (00E0 clears every cell, 00EE pops) |
| Emulator.Emu.RunSkip | chip8_core/src/lib.rs:121-141 | the six conditional skips advance pc by 2 exactly when their condition holds |
| Emulator.Emu.SkipIf | chip8_core/src/lib.rs:124-126 | `pc += 2` under the condition; faults on u16 overflow |
| Emulator.Emu.RunRegisters | chip8_core/src/lib.rs:142-313 | 6XNN, 7XNN (lines 142-151), ANNN, CXNN (lines 220-233), FX07, FX15, FX18, FX1E and FX29 (lines 279-282, 297-313) write exactly what `Chip8.Load` says |
| Emulator.Emu.RunArithmetic | chip8_core/src/lib.rs:152-212 | the nine 8XYn operations write V[X] and VF as `Chip8.Alu` says |
| Emulator.Emu.WriteV | chip8_core/src/lib.rs:145 | only V[X] changes |
| Emulator.Emu.WriteVWithFlag | chip8_core/src/lib.rs:178-179 | V[X] and then VF change, nothing else |
| Emulator.Emu.Draw | chip8_core/src/lib.rs:234-262 | the row/column loops leave the screen `DrawScreen(...)` and VF = 1 iff `Collides(...)` |
| Emulator.Emu.DrawRow | chip8_core/src/lib.rs:244-253 | one row's column loop toggles the cells of that row's set bits and accumulates the collision |
| Emulator.Emu.WaitKey | chip8_core/src/lib.rs:283-296 | the key scan puts the lowest pressed key in V[X], or steps pc back by 2 |
| Emulator.Emu.StoreBcd | chip8_core/src/lib.rs:314-325 | memory at I..I+2 gets the decimal digits of V[X]; faults when I+2 is outside memory |
| Emulator.Emu.StoreRegs | chip8_core/src/lib.rs:326-333 | the loop leaves memory equal to `DumpRam`: V0..=VX at I..=I+X, rest unchanged |
| Emulator.Emu.LoadRegs | chip8_core/src/lib.rs:334-341 | the loop leaves the registers equal to `LoadV`: memory I..=I+X in V0..=VX, rest unchanged |
| Emulator.Emu.TickTimers | chip8_core/src/lib.rs:359-369 | the machine ends in `Chip8.TickTimers`'s state |
| Opcode.DecodeEncode | chip8_core/src/lib.rs:107-341 | every instruction is decoded back from its own word |
| Opcode.EncodeDecode | chip8_core/src/lib.rs:107-344 | every word the dispatch accepts is the encoding of what it decodes to |
| Words.WordOfDigits | chip8_core/src/lib.rs:107-110 | the four nibbles rebuild the word; NN and NNN are made of the low nibbles |
| Words.DigitsOfWord | chip8_core/src/lib.rs:107-110 | the nibbles of a word built from nibbles are those nibbles |
| Words.LowBit | chip8_core/src/lib.rs:192 | `a & 1` is the parity of a |
| Words.TopBit | chip8_core/src/lib.rs:209 | `(a >> 7) & 1` is a / 128, the top bit |
| Chip8.FirstPressedFrom | chip8_core/src/lib.rs:286-292 | the key found is pressed and no key between the start and it is; None means none from the start is |
| Chip8.FirstPressedIs | chip8_core/src/lib.rs:286-292 | FX0A picks k iff k is pressed and no lower key is |
| Display.DrawToggles | chip8_core/src/lib.rs:245-251 | the cell under a sprite bit at ((x+col) mod 64, (y+row) mod 32) flips exactly when the bit is set |
| Display.DrawKeeps | chip8_core/src/lib.rs:241-254 | a cell no set bit lands on keeps its value |
| Display.DrawExactly | chip8_core/src/lib.rs:241-254 | a cell changes iff some set sprite bit lands on it |
| Display.DrawTwice | chip8_core/src/lib.rs:251 | XOR-drawing a sprite twice at the same place restores the screen |
| Display.RedrawCollides | chip8_core/src/lib.rs:250 | the second identical draw collides iff some set bit lands on a cell that was clear before the first |
| Display.CollidesIffCleared | chip8_core/src/lib.rs:250-261 | a collision is reported iff some set cell was turned off |
| Display.DrawNothing | chip8_core/src/lib.rs:241 | with N = 0 the screen is untouched and there is no collision |
| Display.CellInRange | chip8_core/src/lib.rs:246-249 | every pixel index lands on the screen |
| Display.CellCoords | chip8_core/src/lib.rs:246-249 | a pixel index determines the sprite row and column that land on it |
| Properties.InitialBaseline | chip8_core/src/lib.rs:59-77 | the baseline: pc 0x200, font at 0, rest of memory, registers, stack, screen, keys, timers zero |
| Properties.FetchWord | chip8_core/src/lib.rs:351-357 | fetch is Ok iff pc+1 is in memory; the word's high byte is ram[pc], its low byte ram[pc+1]; only pc moves, by 2 |
| Properties.TickRuns | chip8_core/src/lib.rs:99-104 | a tick runs the instruction at pc with pc already advanced by 2 |
| Properties.UnknownOpcodes | chip8_core/src/lib.rs:344 | words outside the dispatch (5XY1, 9XY3, 8XY8, 00E1, 0123, EX9F, FXFF) fault |
| Properties.PushPop | chip8_core/src/lib.rs:89-97 | pop after push returns the pushed value and the old depth; push fails only at depth 16 |
| Properties.CallReturn | chip8_core/src/lib.rs:115-120 | 2NNN saves pc on the stack and jumps; a later 00EE at the same depth returns there and restores sp |
| Properties.TickCall | chip8_core/src/lib.rs:117-120 | at tick level the saved address is the call's address + 2; overflow at depth 16 |
| Properties.ReturnUnderflow | chip8_core/src/lib.rs:94-97 | 00EE faults iff the stack is empty |
| Properties.AddFlags | chip8_core/src/lib.rs:172-180 | VF is the carry; V[X] + 256·VF is the exact sum; VF wins when X = F; other registers unchanged |
| Properties.SubFlags | chip8_core/src/lib.rs:181-189 | VF = 1 iff V[X] ≥ V[Y]; V[X] is the difference mod 256 |
| Properties.SubFromFlags | chip8_core/src/lib.rs:198-206 | VF = 1 iff V[Y] ≥ V[X]; V[X] is V[Y] − V[X] mod 256 |
| Properties.ShiftRightFlags | chip8_core/src/lib.rs:190-197 | 2·V[X]' + VF is the old V[X]; VF is its low bit |
| Properties.ShiftLeftFlags | chip8_core/src/lib.rs:207-212 | V[X]' + 256·VF is twice the old V[X]; VF is its top bit |
| Properties.AddImmNoFlag | chip8_core/src/lib.rs:147-151 | 7XNN adds mod 256 and never touches VF |
| Properties.TickSkip | chip8_core/src/lib.rs:121-141 | a skip tick moves pc by 4 when its condition holds and by 2 otherwise, nothing else; key skips fault on V[X] ≥ 16 |
| Properties.TickWaitKey | chip8_core/src/lib.rs:283-296 | with no key down a tick changes nothing (FX0A runs again); else V[X] := lowest key down and pc advances |
| Properties.DrawEffect | chip8_core/src/lib.rs:234-262 | DXYN is Ok iff N = 0 or I+N is within memory; it flips exactly the covered cells of set bits, VF = 1 iff some set cell was turned off, nothing else changes |
| Properties.DrawNoRows | chip8_core/src/lib.rs:241-261 | DXY0 only clears VF |
| Properties.DrawTwiceRestores | chip8_core/src/lib.rs:234-262 | the same DXYN twice restores the screen; the second VF is 1 iff the first draw lit a cell |
| Properties.StoreBcdDigits | chip8_core/src/lib.rs:314-325 | FX33 is Ok iff I+2 is in memory; writes digits h, t, o < 10 with 100h+10t+o = V[X]; nothing else changes |
| Properties.StoreBcdExample | chip8_core/src/lib.rs:314-325 | 234 is stored as 2, 3, 4 |
| Properties.StoreRegsFootprint | chip8_core/src/lib.rs:326-333 | FX55 is Ok iff I+X is in memory; memory I..=I+X holds V0..=VX; every other cell and field unchanged |
| Properties.LoadRegsFootprint | chip8_core/src/lib.rs:334-341 | FX65 is Ok iff I+X is in memory; V0..=VX hold memory I..=I+X; the higher registers and all else unchanged |
| Properties.StoreThenLoad | chip8_core/src/lib.rs:326-341 | FX55 then FX65 with the same I and X changes nothing more |
| Properties.LoadThenStore | chip8_core/src/lib.rs:326-341 | FX65 then FX55 with the same I and X leaves memory as it was |
| Properties.TimersCountDown | chip8_core/src/lib.rs:359-369 | each timer decrements when positive and stays at 0; nothing else changes |
| Properties.TimersAfter | chip8_core/src/lib.rs:359-369 | after n timer ticks each timer is max(t − n, 0) and nothing else changed |
| Properties.TickSet | chip8_core/src/lib.rs:142-146 | a 6XNN tick sets V[X] and advances pc |
| Properties.TickAdd | chip8_core/src/lib.rs:172-180 | an 8XY4 tick writes the wrapped sum and the carry and advances pc |
| Properties.SelfJumpScenario | chip8_core/src/lib.rs:116 | 1200 at 0x200 of a new machine: a tick leaves the machine as it was |
| Properties.SampleProgram | chip8_core/src/lib.rs:99-180 | the sample program 6005 6103 8014 at 0x200 of a new machine: three ticks leave V0 = 8, V1 = 3, VF = 0 and pc = 0x206 |
| Properties.SampleStep1 | chip8_core/src/lib.rs:142-146 | its first tick (6005) sets V0 to 5 and moves pc to 0x202, nothing else |
| Properties.SampleStep2 | chip8_core/src/lib.rs:142-146 | its second tick (6103) sets V1 to 3 and moves pc to 0x204, nothing else |
| Properties.SampleStep3 | chip8_core/src/lib.rs:172-180 | its third tick (8014) sets V0 to 8, VF to 0 (no carry) and moves pc to 0x206 |

## Left out

- `add` and its test `it_works` (lib.rs:3-16) are unrelated to the machine.
- CXNN's `rand::random()` is a parameter `rnd` of `Exec`, `Execute`, `Tick` and the `Emu` methods. The model does not say how the byte is chosen.
- FX33 computes its digits in `f32`. For a `u8` value those are exactly the integer digits, and the model uses integer division.
- The sound TODO in `tick_timers` has no behaviour to model.
- Loading a program into memory, reading the screen and setting keys are not part of this model. The host does them through accessors the core does not define, and keys and memory appear only as state.
- Emulator.Emu.Execute: a panic is modelled as a fault detected before any write. So a DXYN, FX33, FX55 or FX65 that runs past memory changes nothing in the model. The Rust code would first write the screen cells, memory cells or registers V0..V(k-1) that come before the bad address, and then panic.
- The stack pointer is a `u16` in the Rust `Emu`. Here it is bounded to 0..16, because a push at 16 faults before sp can pass 16.
- Release-build wrap-around (no overflow checks) is not modelled. For example, under wrap-around 00EE on an empty stack would index with sp = 0xFFFF, which panics anyway.
- Redrawing a sprite to erase it reports VF = 1 whenever the first draw lit some cell, because the code ORs in every set cell it turns off (`Properties.DrawTwiceRestores`, `Display.RedrawCollides`).
