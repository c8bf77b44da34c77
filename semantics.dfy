/** The CHIP-8 interpreter as a pure state machine.

    A `Machine` is the value of every field that `CHIP8` declares; `Step` is
    one call of `Cycle` on that value and `Reset` is one call of `Init`.
    `uint8_t` and `uint16_t` values are integers in range, and every place
    where the C++ truncates a result back to its field's width is written
    out as `% 0x100` or `% 0x1_0000`. */
module Semantics {

  type u8 = x: int | 0 <= x < 0x100
  type u16 = x: int | 0 <= x < 0x1_0000

  const MemorySize := 4096
  const RegisterCount := 15   // V[0..14]; VF is a separate field
  const StackDepth := 24
  const ScreenWidth := 64
  const ScreenHeight := 32

  /** Address that `Init` loads into PC: programs start at 0x200. */
  const ProgramStart: u16 := 0x200

  /** The fixed "random" byte that CXNN masks with NN. */
  const RandomByte: u8 := 73

  /** The glyph of digit 0, the only font data `Init` writes. */
  const DigitZero: seq<u8> := [0xF0, 0x90, 0x90, 0x90, 0xF0]

  /** The framebuffer, indexed `[column][row]` like `screen[64][32]`. */
  type Screen = seq<seq<bool>>

  datatype Machine = Machine(
    memory: seq<u8>,
    V: seq<u8>,
    VF: u8,
    I: u16,
    PC: u16,
    screen: Screen,
    stack: seq<u16>,
    SP: u8)

  predicate IsScreen(s: Screen) {
    |s| == ScreenWidth && forall x :: 0 <= x < |s| ==> |s[x]| == ScreenHeight
  }

  /** The array sizes declared for the fields of `CHIP8`. */
  predicate WellFormed(m: Machine) {
    |m.memory| == MemorySize && |m.V| == RegisterCount &&
    IsScreen(m.screen) && |m.stack| == StackDepth
  }

  function Blank(): (s: Screen)
    ensures IsScreen(s)
    ensures forall x, y :: 0 <= x < ScreenWidth && 0 <= y < ScreenHeight ==> !s[x][y]
  {
    seq(ScreenWidth, _ => seq(ScreenHeight, _ => false))
  }

  /** Two screens are equal when they agree on every cell. */
  lemma ScreenExtensionality(s: Screen, t: Screen)
    requires IsScreen(s) && IsScreen(t)
    requires forall x, y :: 0 <= x < ScreenWidth && 0 <= y < ScreenHeight ==> s[x][y] == t[x][y]
    ensures s == t
  {
    forall x | 0 <= x < ScreenWidth
      ensures s[x] == t[x]
    {
      assert forall y :: 0 <= y < ScreenHeight ==> s[x][y] == t[x][y];
    }
  }

  // ---------------------------------------------------------------------
  // Byte operations of the C++, on values in range

  function Or8(a: u8, b: u8): u8 {
    ((a as bv8) | (b as bv8)) as int
  }

  function And8(a: u8, b: u8): u8 {
    ((a as bv8) & (b as bv8)) as int
  }

  function Xor8(a: u8, b: u8): u8 {
    ((a as bv8) ^ (b as bv8)) as int
  }

  // ---------------------------------------------------------------------
  // Fetch and decode

  /** `(memory[PC] << 8) | memory[PC + 1]`: the big-endian word at PC. */
  function Opcode(m: Machine): (op: u16)
    requires WellFormed(m) && m.PC + 1 < MemorySize
    ensures op / 0x100 == m.memory[m.PC] && op % 0x100 == m.memory[m.PC + 1]
  {
    m.memory[m.PC] as int * 256 + m.memory[m.PC + 1]
  }

  /** The top nibble, the value of `opcode & 0xF000` divided by 0x1000. */
  function Family(op: u16): (f: nat)
    ensures f < 16
  {
    op / 0x1000
  }

  /** `(opcode & 0x0F00) >> 8` */
  function OpX(op: u16): (x: nat)
    ensures x < 16
  {
    op / 0x100 % 16
  }

  /** `(opcode & 0x00F0) >> 4` */
  function OpY(op: u16): (y: nat)
    ensures y < 16
  {
    op / 0x10 % 16
  }

  /** `opcode & 0x000F` */
  function OpN(op: u16): (n: nat)
    ensures n < 16
  {
    op % 0x10
  }

  /** `opcode & 0x00FF` */
  function OpNN(op: u16): u8 {
    op % 0x100
  }

  /** `opcode & 0x0FFF` */
  function OpNNN(op: u16): (a: u16)
    ensures a < MemorySize
  {
    op % 0x1000
  }

  /** The second register of 5XY0, `(opcode & 0x00F0) >> 16`: the Y nibble
      is shifted out of the word, so the result is register 0. */
  function SkipEqualSecond(op: u16): (r: nat)
    ensures r == 0
  {
    (OpY(op) * 0x10) / 0x1_0000
  }

  /** The register of CXNN, `(opcode & 0x0F00) >> 4` stored in a `uint8_t`:
      X shifted left by 4 rather than X. */
  function RandomTarget(op: u16): (r: nat)
    ensures r == 16 * OpX(op)
  {
    (OpX(op) * 0x100 / 0x10) % 0x100
  }

  /** Low nibbles that the 8XY_ switch has a case for. */
  predicate AluCase(n: nat) {
    n <= 7 || n == 0xE
  }

  /** Cells that DXYN toggles: 8 columns from `col`, `height` rows from `row`. */
  predicate InSprite(x: int, y: int, col: int, row: int, height: int) {
    col <= x < col + 8 && row <= y < row + height
  }

  // ---------------------------------------------------------------------
  // Where the C++ stays inside its arrays

  /** True when one `Cycle` on `m` reads and writes only inside the arrays
      of `CHIP8`; in any other state the C++ indexes out of bounds. */
  predicate Defined(m: Machine)
    requires WellFormed(m)
  {
    m.PC + 1 < MemorySize &&
    var op := Opcode(m);
    var f := Family(op);
    (f == 0x0 && OpNN(op) == 0xEE ==> m.SP < StackDepth) &&
    (f == 0x2 ==> (m.SP as int + 1) % 0x100 < StackDepth) &&
    (0x3 <= f <= 0x7 ==> OpX(op) < RegisterCount) &&
    (f == 0x8 && AluCase(OpN(op)) ==> OpX(op) < RegisterCount && OpY(op) < RegisterCount) &&
    (f == 0x9 ==> OpX(op) < RegisterCount && OpY(op) < RegisterCount) &&
    (f == 0xC ==> RandomTarget(op) < RegisterCount) &&
    (f == 0xD && OpN(op) > 0 ==>
       OpX(op) < RegisterCount && OpY(op) < RegisterCount &&
       m.V[OpX(op)] + 8 <= ScreenWidth && m.V[OpY(op)] + OpN(op) <= ScreenHeight)
  }

  // ---------------------------------------------------------------------
  // Execute

  /** `PC += bytes` on the 16-bit program counter. */
  function Advance(pc: u16, bytes: nat): u16 {
    (pc + bytes) % 0x1_0000
  }

  /** `PC += 4` when the condition holds, else `PC += 2`. */
  function Skip(pc: u16, condition: bool): u16 {
    if condition then Advance(pc, 4) else Advance(pc, 2)
  }

  /** The register file after 8XYN. */
  function Alu(v: seq<u8>, x: nat, y: nat, n: nat): (r: seq<u8>)
    requires AluCase(n) ==> x < |v| && y < |v|
    ensures |r| == |v|
  {
    if n == 0x0 then v[x := v[y]]
    else if n == 0x1 then v[x := Or8(v[x], v[y])]
    else if n == 0x2 then v[x := And8(v[x], v[y])]
    else if n == 0x3 then v[x := Xor8(v[x], v[y])]
    else if n == 0x4 then v[x := (v[x] as int + v[y]) % 0x100]
    else if n == 0x5 then v[x := (v[x] as int - v[y]) % 0x100]
    else if n == 0x6 then v[x := v[y] / 2]
    else if n == 0x7 then v[x := (v[y] as int - v[x]) % 0x100]
    else if n == 0xE then
      var shifted := (v[y] as int * 2) % 0x100;
      v[y := shifted][x := shifted]
    else v
  }

  /** The framebuffer with the 8-wide, `height`-tall rectangle at
      (`col`, `row`) inverted. */
  function Toggle(s: Screen, col: int, row: int, height: int): (r: Screen)
    requires IsScreen(s)
    ensures IsScreen(r)
  {
    seq(ScreenWidth, x requires 0 <= x < ScreenWidth =>
      seq(ScreenHeight, y requires 0 <= y < ScreenHeight =>
        if InSprite(x, y, col, row, height) then !s[x][y] else s[x][y]))
  }

  /** The framebuffer after DXYN: when N is 0 the loop body never runs. */
  function Draw(m: Machine, op: u16): (s: Screen)
    requires WellFormed(m)
    requires OpN(op) > 0 ==> OpX(op) < RegisterCount && OpY(op) < RegisterCount
    ensures IsScreen(s)
  {
    if OpN(op) == 0 then m.screen
    else Toggle(m.screen, m.V[OpX(op)], m.V[OpY(op)], OpN(op))
  }

  /** One fetch, decode and execute step. The boolean is `Cycle`'s result;
      when it is false the machine is returned as it was. */
  function Step(m: Machine): (r: (bool, Machine))
    requires WellFormed(m) && Defined(m)
    ensures WellFormed(r.1)
    ensures r.1.memory == m.memory && r.1.VF == m.VF
  {
    var op := Opcode(m);
    var f := Family(op);
    var pc2 := Advance(m.PC, 2);
    if f == 0x0 then
      if OpNN(op) == 0xE0 then (true, m.(screen := Blank(), PC := pc2))
      else if OpNN(op) == 0xEE then
        (true, m.(PC := Advance(m.stack[m.SP], 2), SP := (m.SP as int - 1) % 0x100))
      else (false, m)
    else if f == 0x1 then (true, m.(PC := OpNNN(op)))
    else if f == 0x2 then
      var sp := (m.SP as int + 1) % 0x100;
      (true, m.(SP := sp, stack := m.stack[sp := m.PC], PC := OpNNN(op)))
    else if f == 0x3 then (true, m.(PC := Skip(m.PC, m.V[OpX(op)] == OpNN(op))))
    else if f == 0x4 then (true, m.(PC := Skip(m.PC, m.V[OpX(op)] != OpNN(op))))
    else if f == 0x5 then (true, m.(PC := Skip(m.PC, m.V[OpX(op)] == m.V[SkipEqualSecond(op)])))
    else if f == 0x6 then (true, m.(V := m.V[OpX(op) := OpNN(op)], PC := pc2))
    else if f == 0x7 then (true, m.(V := m.V[OpX(op) := (m.V[OpX(op)] as int + OpNN(op)) % 0x100], PC := pc2))
    else if f == 0x8 then (true, m.(V := Alu(m.V, OpX(op), OpY(op), OpN(op)), PC := pc2))
    else if f == 0x9 then (true, m.(PC := Skip(m.PC, m.V[OpX(op)] != m.V[OpY(op)])))
    else if f == 0xA then (true, m.(I := OpNNN(op), PC := pc2))
    else if f == 0xB then (true, m.(PC := m.V[0] as int + OpNNN(op)))
    else if f == 0xC then (true, m.(V := m.V[RandomTarget(op) := And8(RandomByte, OpNN(op))], PC := pc2))
    else if f == 0xD then (true, m.(screen := Draw(m, op), PC := pc2))
    else (false, m)
  }

  // ---------------------------------------------------------------------
  // Init

  /** The machine after `Init`: PC, SP, the stack and the digit-0 glyph. */
  function Reset(m: Machine): (r: Machine)
    requires WellFormed(m)
    ensures WellFormed(r)
    ensures r.PC == 0x200 && r.SP == 0
    ensures forall i :: 0 <= i < StackDepth ==> r.stack[i] == 0
    ensures r.memory[0] == 0xF0 && r.memory[1] == 0x90 && r.memory[2] == 0x90 &&
            r.memory[3] == 0x90 && r.memory[4] == 0xF0
    ensures forall a :: 5 <= a < MemorySize ==> r.memory[a] == m.memory[a]
    ensures r.V == m.V && r.VF == m.VF && r.I == m.I && r.screen == m.screen
  {
    m.(PC := ProgramStart, SP := 0, stack := seq(StackDepth, _ => 0),
       memory := DigitZero + m.memory[|DigitZero|..])
  }
}
