/** What one step of the interpreter does, opcode family by opcode family,
    and what sequences of steps do, stated on `Semantics.Step` and
    `Semantics.Reset`. `Chip8.Cycle` and `Chip8.Init` are proved to follow
    those functions, so everything here holds of the object as well. */
module Properties {
  import opened Semantics

  // ---------------------------------------------------------------------
  // Init

  /** A second `Init` changes nothing. */
  lemma ResetIdempotent(m: Machine)
    requires WellFormed(m)
    ensures Reset(Reset(m)) == Reset(m)
  {
    assert Reset(Reset(m)).memory == Reset(m).memory;
  }

  // ---------------------------------------------------------------------
  // Unknown opcodes and the result of Cycle

  /** `Cycle` fails exactly on a 0x0 word whose low byte is neither E0 nor
      EE and on the families 0xE and 0xF; a failing step changes nothing,
      not even PC. */
  lemma UnknownOpcode(m: Machine)
    requires WellFormed(m) && Defined(m)
    ensures var op := Opcode(m);
      !Step(m).0 <==>
        (Family(op) == 0x0 && OpNN(op) != 0xE0 && OpNN(op) != 0xEE) || Family(op) >= 0xE
    ensures !Step(m).0 ==> Step(m).1 == m
  {
  }

  /** The program counter after every opcode that `Cycle` accepts. */
  lemma ProgramCounter(m: Machine)
    requires WellFormed(m) && Defined(m) && Step(m).0
    ensures var op, pc, r := Opcode(m), m.PC as int, Step(m).1;
      var f, x := Family(op), OpX(op);
      (f == 0x0 && OpNN(op) == 0xE0 ==> r.PC == (pc + 2) % 0x1_0000) &&
      (f == 0x0 && OpNN(op) == 0xEE ==> r.PC == (m.stack[m.SP] as int + 2) % 0x1_0000) &&
      (f == 0x1 || f == 0x2 ==> r.PC == op % 0x1000) &&
      (f == 0x3 ==> r.PC == (pc + if m.V[x] == op % 0x100 then 4 else 2) % 0x1_0000) &&
      (f == 0x4 ==> r.PC == (pc + if m.V[x] != op % 0x100 then 4 else 2) % 0x1_0000) &&
      (f == 0x5 ==> r.PC == (pc + if m.V[x] == m.V[0] then 4 else 2) % 0x1_0000) &&
      (f == 0x9 ==> r.PC == (pc + if m.V[x] != m.V[OpY(op)] then 4 else 2) % 0x1_0000) &&
      (f in {0x6, 0x7, 0x8, 0xA, 0xC, 0xD} ==> r.PC == (pc + 2) % 0x1_0000) &&
      (f == 0xB ==> r.PC == m.V[0] + op % 0x1000)
  {
  }

  // ---------------------------------------------------------------------
  // Subroutines

  /** 2NNN moves SP up by one (modulo 256), stores PC in the new slot and
      jumps to NNN; nothing else changes. */
  lemma Call(m: Machine)
    requires WellFormed(m) && Defined(m) && Family(Opcode(m)) == 0x2
    ensures var sp := (m.SP as int + 1) % 0x100;
      Step(m) == (true, m.(SP := sp, stack := m.stack[sp := m.PC], PC := Opcode(m) % 0x1000))
  {
  }

  /** 00EE (any 0x0 word with low byte EE) loads PC from the slot at SP plus
      2 and moves SP down by one (modulo 256); the stack itself is kept. */
  lemma Return(m: Machine)
    requires WellFormed(m) && Defined(m) && Family(Opcode(m)) == 0x0 && OpNN(Opcode(m)) == 0xEE
    ensures Step(m) == (true, m.(PC := (m.stack[m.SP] as int + 2) % 0x1_0000,
                                 SP := (m.SP as int - 1) % 0x100))
  {
  }

  /** `2NNN` followed by `00EE` at NNN comes back to the word after the
      call with SP as it was; the return address stays in the stack. */
  lemma CallThenReturn(m: Machine)
    requires WellFormed(m) && Defined(m) && Family(Opcode(m)) == 0x2
    requires Defined(Step(m).1)
    requires Family(Opcode(Step(m).1)) == 0x0 && OpNN(Opcode(Step(m).1)) == 0xEE
    ensures var after := Step(Step(m).1);
      after.0 && after.1.PC == (m.PC as int + 2) % 0x1_0000 && after.1.SP == m.SP &&
      after.1.stack == m.stack[(m.SP as int + 1) % 0x100 := m.PC] &&
      after.1.V == m.V && after.1.I == m.I && after.1.screen == m.screen
  {
    var called := Step(m).1;
    assert called.PC == OpNNN(Opcode(m)) && called.SP == (m.SP as int + 1) % 0x100;
    assert called.stack[called.SP] == m.PC;
  }

  /** Right after `Init`, a `00EE` at 0x200 pops the never-written slot 0:
      PC becomes 0 + 2 and SP wraps from 0 to 255. */
  lemma ReturnAfterReset(m: Machine)
    requires WellFormed(m) && m.memory[0x200] == 0x00 && m.memory[0x201] == 0xEE
    ensures Defined(Reset(m))
    ensures Step(Reset(m)) == (true, Reset(m).(PC := 2, SP := 255))
  {
    var r := Reset(m);
    assert Opcode(r) == 0x00EE;
  }

  /** SP and the stack change only on 2NNN and 00EE. */
  lemma StackOnlyOnCallReturn(m: Machine)
    requires WellFormed(m) && Defined(m)
    requires Family(Opcode(m)) != 0x2 && !(Family(Opcode(m)) == 0x0 && OpNN(Opcode(m)) == 0xEE)
    ensures Step(m).1.SP == m.SP && Step(m).1.stack == m.stack
  {
  }

  /** Jumps and skips (1NNN, 3XNN, 4XNN, 5XY0, 9XY0, BNNN) change PC and
      nothing else. */
  lemma BranchesChangeOnlyPC(m: Machine)
    requires WellFormed(m) && Defined(m) && Family(Opcode(m)) in {0x1, 0x3, 0x4, 0x5, 0x9, 0xB}
    ensures Step(m).0 && Step(m).1 == m.(PC := Step(m).1.PC)
  {
  }

  // ---------------------------------------------------------------------
  // Registers

  /** 5XY0 compares VX with V0 whatever Y is. */
  lemma SkipEqualIgnoresY(m: Machine)
    requires WellFormed(m) && Defined(m) && Family(Opcode(m)) == 0x5
    ensures Step(m).1 == m.(PC := Skip(m.PC, m.V[OpX(Opcode(m))] == m.V[0]))
  {
  }

  /** 6XNN stores NN into VX and moves PC to the next word; nothing else changes. */
  lemma SetRegister(m: Machine)
    requires WellFormed(m) && Defined(m) && Family(Opcode(m)) == 0x6
    ensures var op := Opcode(m);
      Step(m) == (true, m.(V := m.V[OpX(op) := op % 0x100], PC := (m.PC as int + 2) % 0x1_0000))
  {
  }

  /** 7XNN adds NN to VX modulo 256 and leaves every other register and VF. */
  lemma AddImmediate(m: Machine)
    requires WellFormed(m) && Defined(m) && Family(Opcode(m)) == 0x7
    ensures var op, r := Opcode(m), Step(m).1;
      r.V[OpX(op)] == (m.V[OpX(op)] + op % 0x100) % 0x100 &&
      (forall i :: 0 <= i < RegisterCount && i != OpX(op) ==> r.V[i] == m.V[i]) &&
      r.VF == m.VF
  {
  }

  /** 8XY4 then 8XY5 on distinct registers gives VX back: the wrapped
      subtraction undoes the wrapped addition. */
  lemma SubtractUndoesAdd(v: seq<u8>, x: nat, y: nat)
    requires x < |v| && y < |v| && x != y
    ensures Alu(Alu(v, x, y, 0x4), x, y, 0x5) == v
  {
    var a, b := v[x] as int, v[y] as int;
    var sum := Alu(v, x, y, 0x4);
    assert sum[x] == (a + b) % 0x100 && sum[y] == b;
    assert ((a + b) % 0x100 - b) % 0x100 == a;
    assert Alu(sum, x, y, 0x5) == sum[x := v[x]];
  }

  /** 8XYN writes VX only (and VY for 8XYE); a nibble without a case
      leaves every register as it was. */
  lemma AluFrame(v: seq<u8>, x: nat, y: nat, n: nat)
    requires AluCase(n) ==> x < |v| && y < |v|
    ensures var r := Alu(v, x, y, n);
      (AluCase(n) ==> forall i :: 0 <= i < |v| && i != x && (n != 0xE || i != y) ==> r[i] == v[i]) &&
      (!AluCase(n) ==> r == v)
  {
  }

  /** 8XY0 copies VY into VX; 8XYE leaves the same byte in VX and VY. */
  lemma AluMoves(v: seq<u8>, x: nat, y: nat)
    requires x < |v| && y < |v|
    ensures Alu(v, x, y, 0x0)[x] == v[y]
    ensures Alu(v, x, y, 0xE)[x] == Alu(v, x, y, 0xE)[y]
  {
  }

  /** 8XY4: the sum loses its carry, which goes nowhere. */
  lemma AddLosesCarry(v: seq<u8>, x: nat, y: nat)
    requires x < |v| && y < |v|
    ensures var a, b := v[x] as int, v[y] as int;
      Alu(v, x, y, 0x4)[x] as int + (if a + b > 0xFF then 0x100 else 0) == a + b
  {
    assert Alu(v, x, y, 0x4)[x] == (v[x] as int + v[y]) % 0x100;
  }

  /** 8XY5: VX - VY wraps to VX - VY + 256 when VY is larger. */
  lemma SubtractLosesBorrow(v: seq<u8>, x: nat, y: nat)
    requires x < |v| && y < |v|
    ensures var a, b := v[x] as int, v[y] as int;
      Alu(v, x, y, 0x5)[x] as int == (if b > a then 0x100 + a - b else a - b)
  {
    assert Alu(v, x, y, 0x5)[x] == (v[x] as int - v[y]) % 0x100;
  }

  /** 8XY7: VY - VX wraps to VY - VX + 256 when VX is larger. */
  lemma ReverseSubtractLosesBorrow(v: seq<u8>, x: nat, y: nat)
    requires x < |v| && y < |v|
    ensures var a, b := v[x] as int, v[y] as int;
      Alu(v, x, y, 0x7)[x] as int == (if a > b then 0x100 + b - a else b - a)
  {
    assert Alu(v, x, y, 0x7)[x] == (v[y] as int - v[x]) % 0x100;
  }

  /** 8XY6: VX is VY shifted right; the bit shifted out is dropped. */
  lemma ShiftRightDropsBit(v: seq<u8>, x: nat, y: nat)
    requires x < |v| && y < |v|
    ensures 2 * Alu(v, x, y, 0x6)[x] as int + v[y] % 2 == v[y]
  {
  }

  /** 8XYE: VY is doubled in place, dropping its top bit. */
  lemma ShiftLeftDropsBit(v: seq<u8>, x: nat, y: nat)
    requires x < |v| && y < |v|
    ensures var b := v[y] as int;
      Alu(v, x, y, 0xE)[y] as int == 2 * b - (if b >= 0x80 then 0x100 else 0)
  {
    assert Alu(v, x, y, 0xE)[y] == (v[y] as int * 2) % 0x100;
  }

  /** An 8XYN whose low nibble has no case only moves PC to the next word. */
  lemma UnlistedAluNibble(m: Machine)
    requires WellFormed(m) && Defined(m)
    requires Family(Opcode(m)) == 0x8 && !AluCase(OpN(Opcode(m)))
    ensures Step(m) == (true, m.(PC := (m.PC as int + 2) % 0x1_0000))
  {
  }

  /** ANNN loads NNN into I and moves PC to the next word; nothing else changes. */
  lemma SetIndex(m: Machine)
    requires WellFormed(m) && Defined(m) && Family(Opcode(m)) == 0xA
    ensures var op := Opcode(m);
      Step(m) == (true, m.(I := op % 0x1000, PC := (m.PC as int + 2) % 0x1_0000))
  {
  }

  /** 6XNN, 7XNN, 8XYN and CXNN change the registers V and PC and nothing else. */
  lemma RegisterOpsChangeOnlyVAndPC(m: Machine)
    requires WellFormed(m) && Defined(m) && Family(Opcode(m)) in {0x6, 0x7, 0x8, 0xC}
    ensures Step(m).0 && Step(m).1 == m.(V := Step(m).1.V, PC := Step(m).1.PC)
  {
  }

  /** CXNN can only be executed as C0NN, which stores 73 & NN into V0. */
  lemma RandomTargetsV0(m: Machine)
    requires WellFormed(m) && m.PC + 1 < MemorySize && Family(Opcode(m)) == 0xC
    ensures Defined(m) <==> OpX(Opcode(m)) == 0
    ensures Defined(m) ==> Step(m).1.V == m.V[0 := And8(RandomByte, Opcode(m) % 0x100)]
  {
  }

  // ---------------------------------------------------------------------
  // The framebuffer

  /** Only 00E0 and DXYN write the framebuffer. */
  lemma ScreenOnlyOnClearDraw(m: Machine)
    requires WellFormed(m) && Defined(m)
    requires Family(Opcode(m)) != 0xD && !(Family(Opcode(m)) == 0x0 && OpNN(Opcode(m)) == 0xE0)
    ensures Step(m).1.screen == m.screen
  {
  }

  /** Inverting the same rectangle twice restores the screen. */
  lemma {:induction false} ToggleTwice(s: Screen, col: int, row: int, height: int)
    requires IsScreen(s)
    ensures Toggle(Toggle(s, col, row, height), col, row, height) == s
  {
    var t := Toggle(Toggle(s, col, row, height), col, row, height);
    forall x, y | 0 <= x < ScreenWidth && 0 <= y < ScreenHeight
      ensures t[x][y] == s[x][y]
    {
    }
    ScreenExtensionality(t, s);
  }

  /** DXYN inverts exactly the cells (VX + i, VY + j) for i < 8 and j < N,
      and changes nothing but the screen and PC; DXY0 only advances PC. */
  lemma DrawInvertsRectangle(m: Machine)
    requires WellFormed(m) && Defined(m) && Family(Opcode(m)) == 0xD
    ensures var op, r := Opcode(m), Step(m);
      r.0 &&
      (OpN(op) == 0 ==> r.1 == m.(PC := (m.PC as int + 2) % 0x1_0000)) &&
      (OpN(op) > 0 ==>
         (forall x, y :: 0 <= x < ScreenWidth && 0 <= y < ScreenHeight ==>
            r.1.screen[x][y] == (if InSprite(x, y, m.V[OpX(op)], m.V[OpY(op)], OpN(op))
                                 then !m.screen[x][y] else m.screen[x][y]))) &&
      r.1 == m.(screen := r.1.screen, PC := (m.PC as int + 2) % 0x1_0000)
  {
  }

  /** Running the same DXYN again, with the same registers, restores the
      screen. */
  lemma DrawTwiceRestores(m: Machine)
    requires WellFormed(m) && Defined(m) && Family(Opcode(m)) == 0xD
    ensures Defined(Step(m).1.(PC := m.PC))
    ensures Step(Step(m).1.(PC := m.PC)).1.screen == m.screen
  {
    var op := Opcode(m);
    var again := Step(m).1.(PC := m.PC);
    assert Opcode(again) == op;
    if OpN(op) > 0 {
      ToggleTwice(m.screen, m.V[OpX(op)], m.V[OpY(op)], OpN(op));
    }
  }

  // ---------------------------------------------------------------------
  // Short programs run from a fresh Init

  /** 6005 at 0x200 sets V0 to 5 and moves PC from 0x200 to 0x202. */
  lemma SetRegisterAfterReset(m: Machine)
    requires WellFormed(m) && m.memory[0x200] == 0x60 && m.memory[0x201] == 0x05
    ensures Defined(Reset(m))
    ensures Step(Reset(m)).1.V[0] == 5 && Step(Reset(m)).1.PC == 0x202
  {
    assert Opcode(Reset(m)) == 0x6005;
  }

  /** A200 at 0x200 after Init sets I to 0x200 and PC to 0x202. */
  lemma SetIndexAfterReset(m: Machine)
    requires WellFormed(m) && m.memory[0x200] == 0xA2 && m.memory[0x201] == 0x00
    ensures Defined(Reset(m))
    ensures Step(Reset(m)).1.I == 0x200 && Step(Reset(m)).1.PC == 0x202
  {
    assert Opcode(Reset(m)) == 0xA200;
  }

  /** 7005 twice from V0 == 0 leaves V0 == 0x0A and VF as it was. */
  lemma AddTwice(m: Machine)
    requires WellFormed(m) && m.PC == 0x200 && m.V[0] == 0
    requires m.memory[0x200] == 0x70 && m.memory[0x201] == 0x05
    requires m.memory[0x202] == 0x70 && m.memory[0x203] == 0x05
    ensures Defined(m) && Defined(Step(m).1)
    ensures var r := Step(Step(m).1).1;
      r.V[0] == 0x0A && r.VF == m.VF && r.PC == 0x204
  {
    assert Opcode(m) == 0x7005;
    var m1 := Step(m).1;
    assert m1.PC == 0x202 && m1.V[0] == 5;
    assert Opcode(m1) == 0x7005;
  }

  /** D015 with V0 == V1 == 0 on a blank screen lights the whole 8 by 5
      rectangle at the origin, whatever `memory[I..]` holds, and leaves VF. */
  lemma DrawRectangleOnBlank(m: Machine)
    requires WellFormed(m) && m.screen == Blank() && m.V[0] == 0 && m.V[1] == 0
    requires m.PC + 1 < MemorySize && m.memory[m.PC] == 0xD0 && m.memory[m.PC + 1] == 0x15
    ensures Defined(m)
    ensures var r := Step(m).1;
      (forall x, y :: 0 <= x < ScreenWidth && 0 <= y < ScreenHeight ==> r.screen[x][y] == (x < 8 && y < 5)) &&
      r.VF == m.VF
  {
    assert Opcode(m) == 0xD015;
  }
}
