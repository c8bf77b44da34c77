# CHIP-8 interpreter core in Dafny

This project models the `CHIP8` virtual machine: its state (4096 bytes of memory, fifteen registers `V[0..14]`, a separate `VF`, the 16-bit `I` and `PC`, a 64 by 32 framebuffer, a 24-slot call stack and an 8-bit `SP`) and its two operations, `Init` and `Cycle`. It proves what one step does to each part of the state and what some short instruction sequences do.

The project has three modules:

- `Semantics` (semantics.dfy) is the interpreter as a pure state machine.
  - `Machine` is the value of every field.
  - `Step` is one `Cycle` and returns its boolean result with the new machine. `Reset` is one `Init`.
  - `uint8_t` and `uint16_t` become the integer subtypes `u8` and `u16`. Each place where the C++ truncates a result to its field's width is written out as `% 0x100` or `% 0x1_0000`.
- `Interpreter` (interpreter.dfy) holds the class `Chip8`.
  - Its fields are arrays for `memory`, `V`, `screen` and `stack`, and mutable fields for `VF`, `I`, `PC` and `SP`.
  - `Init` and `Cycle` update them in place: `memset` becomes a `forall` statement, and the DXYN drawing loop becomes two nested `while` loops.
  - Each method is proved to leave every field as `Reset` or `Step` of the old state says.
- `Properties` (properties.dfy) holds lemmas about `Step` and `Reset`. Because of the method contracts, these lemmas hold of the object too.

Out-of-range indexing is undefined behaviour in C++. The model makes it a precondition: `Cycle` requires `Defined(State())`. `Defined` demands the following:
- `PC + 1 < 4096`.
- Every register index the opcode uses is below 15. Register `0xF` does not exist in `V[15]`.
- `00EE` runs only with `SP < 24`.
- `2NNN` runs only when the incremented `SP` is below 24.
- DXYN with `N > 0` keeps the rectangle inside the 64 by 32 screen.

The model follows the code where it behaves unusually:
- 5XY0 shifts the masked word `opcode & 0x00F0`, which is 16 times Y, right by 16, so the second register is always 0 and it compares VX with V0.
- CXNN shifts the masked word `opcode & 0x0F00` right by 4 instead of 8, so it writes `V[16 * X]`. The "random" byte is the constant 73.
- No opcode writes VF.
- DXYN ignores `memory[I]` and inverts an 8 by N rectangle. It sets no collision flag.
- The 0x0 family dispatches on the low byte only, so 0x0NE0 and 0x0NEE also clear the screen and return.
- An 8XYN whose low nibble has no case still advances PC by 2 and returns true.
- The E and F families are unknown opcodes.
- `Init` leaves `V`, `VF`, `I`, the screen and `memory[5..]` as they were.

Line 28 of `src/chip8.cpp` assigns a bracketed list to `*memory`, which is not valid C++. The model writes what it evidently means: the digit-0 glyph `F0 90 90 90 F0` at addresses 0 to 4, and nothing else.

The constructor stands for the one statically allocated instance in `src/main.cpp:78`. Static storage is zero-initialised, so every byte, register and pixel starts at 0.

## Model

| member | source | states |
|---|---|---|
| Interpreter.Chip8.constructor | src/main.cpp:78 | every byte of memory, every register, VF, I, PC, SP, the stack and every pixel is 0 |
| Interpreter.Chip8.Init | src/chip8.cpp:19-29 | the new state is `Reset` of the old: PC, SP, the stack and memory[0..4] change, nothing else |
| Interpreter.Chip8.Fetch | src/chip8.cpp:33 | the opcode's high byte is memory[PC] and its low byte is memory[PC + 1] |
| Interpreter.Chip8.ClearScreen | src/chip8.cpp:42 | every pixel is off afterwards |
| Interpreter.Chip8.System | src/chip8.cpp:38-55 | the result, PC, SP and screen after a 0x0 opcode match `Step`: 00E0 clears, 00EE pops with post-decrement then adds 2, anything else fails |
| Interpreter.Chip8.Arithmetic | src/chip8.cpp:138-166 | the register file after the 8XYN switch is `Alu` of the old one |
| Interpreter.Chip8.DrawSprite | src/chip8.cpp:211-215 | the screen afterwards is the old one with the 8 by N rectangle at (VX, VY) inverted; unchanged for N == 0 |
| Interpreter.Chip8.Cycle | src/chip8.cpp:31-226 | the result and each field (memory, V, VF, I, PC, screen, stack, SP) equal the corresponding part of `Step` of the old state |
| Semantics.Opcode | src/chip8.cpp:33 | the word's high byte is memory[PC] and its low byte memory[PC + 1] |
| Semantics.SkipEqualSecond | src/chip8.cpp:105 | the second register of 5XY0 is always 0 |
| Semantics.RandomTarget | src/chip8.cpp:198 | the register CXNN writes is 16 times X |
| Semantics.Step | src/chip8.cpp:31-226 | one step keeps the array sizes and never changes memory or VF |
| Semantics.Reset | src/chip8.cpp:19-29 | PC is 0x200, SP 0, all 24 stack slots 0, memory[0..4] is F0 90 90 90 F0; memory[5..], V, VF, I and the screen are unchanged |
| Properties.ResetIdempotent | src/chip8.cpp:19-29 | a second Init changes nothing |
| Properties.UnknownOpcode | src/chip8.cpp:36-222 | Cycle returns false exactly for a 0x0 word whose low byte is neither E0 nor EE and for the E and F families; then nothing, not even PC, changes |
| Properties.ProgramCounter | src/chip8.cpp:53-194 | PC after each accepted opcode: +4 or +2 for the skips by their condition, +2 for 00E0/6/7/8/A/C/D, NNN for 1NNN and on call, V0 + NNN for BNNN, the popped address + 2 for 00EE |
| Properties.Call | src/chip8.cpp:64-73 | 2NNN succeeds, SP becomes SP + 1 mod 256, PC is stored in that slot, PC becomes NNN, and nothing else changes |
| Properties.Return | src/chip8.cpp:45-53 | 00EE succeeds, PC becomes stack[SP] + 2 mod 65536, SP becomes SP - 1 mod 256, and nothing else changes |
| Properties.CallThenReturn | src/chip8.cpp:45-73 | 2NNN followed by 00EE returns to the call site + 2 with SP restored; registers, I and screen unchanged |
| Properties.ReturnAfterReset | src/chip8.cpp:45-53 | 00EE right after Init gives PC == 2 and SP == 255 |
| Properties.StackOnlyOnCallReturn | src/chip8.cpp:37-223 | SP and the stack are unchanged by every opcode other than 2NNN and 00EE |
| Properties.BranchesChangeOnlyPC | src/chip8.cpp:56-194 | 1NNN, 3XNN, 4XNN, 5XY0, 9XY0 and BNNN succeed and change nothing but PC |
| Properties.SkipEqualIgnoresY | src/chip8.cpp:102-115 | 5XY0 skips exactly when VX == V0, whatever Y is, and changes only PC |
| Properties.SetRegister | src/chip8.cpp:116-124 | 6XNN succeeds, sets VX to NN and PC += 2, and changes nothing else |
| Properties.AddImmediate | src/chip8.cpp:125-133 | 7XNN sets VX to (VX + NN) mod 256 and leaves the other registers and VF |
| Properties.AluFrame | src/chip8.cpp:138-166 | 8XYN changes no register but VX (and VY for 8XYE); an unlisted nibble changes none |
| Properties.AluMoves | src/chip8.cpp:139-165 | 8XY0 copies VY to VX; 8XYE leaves the same value in VX and VY |
| Properties.AddLosesCarry | src/chip8.cpp:151-153 | 8XY4 gives VX + VY minus 256 when the sum exceeds 255; the carry is not kept |
| Properties.SubtractLosesBorrow | src/chip8.cpp:154-156 | 8XY5 gives VX - VY, plus 256 when VY is larger |
| Properties.ShiftRightDropsBit | src/chip8.cpp:157-159 | 8XY6 gives VY halved, the low bit dropped |
| Properties.ReverseSubtractLosesBorrow | src/chip8.cpp:160-162 | 8XY7 gives VY - VX, plus 256 when VX is larger |
| Properties.ShiftLeftDropsBit | src/chip8.cpp:163-165 | 8XYE doubles VY, minus 256 when its top bit was set |
| Properties.SubtractUndoesAdd | src/chip8.cpp:151-156 | 8XY4 then 8XY5 on distinct registers restores the register file |
| Properties.UnlistedAluNibble | src/chip8.cpp:134-169 | an 8XYN with no case for N only advances PC by 2 and succeeds |
| Properties.SetIndex | src/chip8.cpp:183-189 | ANNN succeeds, sets I to NNN and PC += 2, and changes nothing else |
| Properties.RegisterOpsChangeOnlyVAndPC | src/chip8.cpp:116-204 | 6XNN, 7XNN, 8XYN and CXNN succeed and change nothing but V and PC |
| Properties.RandomTargetsV0 | src/chip8.cpp:195-204 | CXNN is in range exactly when X == 0, and then V0 becomes 73 & NN |
| Properties.ScreenOnlyOnClearDraw | src/chip8.cpp:37-223 | every opcode other than 00E0 and DXYN leaves the screen unchanged |
| Properties.ToggleTwice | src/chip8.cpp:211-215 | inverting the same rectangle twice restores the screen |
| Properties.DrawInvertsRectangle | src/chip8.cpp:205-219 | DXYN succeeds, inverts exactly the cells (VX + i, VY + j) for i < 8, j < N and changes nothing else but PC += 2; DXY0 only does PC += 2 |
| Properties.DrawTwiceRestores | src/chip8.cpp:205-219 | running the same DXYN again from the same PC restores the screen |
| Properties.SetRegisterAfterReset | src/chip8.cpp:116-124 | 6005 at 0x200 after Init gives V0 == 5 and PC == 0x202 |
| Properties.SetIndexAfterReset | src/chip8.cpp:183-189 | A200 at 0x200 after Init gives I == 0x200 and PC == 0x202 |
| Properties.AddTwice | src/chip8.cpp:125-133 | 7005 twice from V0 == 0 gives V0 == 0x0A, VF unchanged, PC == 0x204 |
| Properties.DrawRectangleOnBlank | src/chip8.cpp:205-219 | D015 with V0 == V1 == 0 on a blank screen lights the 8 by 5 rectangle at the origin and nothing else, whatever memory holds |

## Left out

- The `std::cout` logging in `Cycle` and the destructor that prints the screen (src/chip8.cpp:5-17) are left out: output only, with no effect on the state.
- `src/main.cpp` is left out except for the zero-initialised instance. That covers:
  - the windowing and rendering;
  - the interpreter loop thread and its mutex, which are concurrency;
  - the key callback and key mapping;
  - the floating-point clock slider;
  - the loader that copies a program into `memory`.
- `src/program-reader.cpp` is left out: it does file I/O.
- Timers, key input, `Tick`, `GetInfo`, `ClearMemory`, `Keys` and `DataGuard` are left out. `main.cpp` calls them, but `chip8.cpp` and `chip8.h` do not define them.
- Interpreter.Chip8.Cycle: requires `Defined(State())`, so it leaves undefined behaviour unmodelled. That is any out-of-range read or write of `memory`, `V`, `stack` or `screen`: a register index 0xF, `SP` outside the stack, `PC` at the end of memory, or a sprite past the screen edge.
