/** The `CHIP8` object: its arrays and fields, `Init` and `Cycle`, each
    proved to change the state exactly as `Semantics.Reset` and
    `Semantics.Step` say. */
module Interpreter {
  import opened Semantics

  /** The framebuffer array seen as a `Screen` value. */
  ghost function ScreenOf(a: array2<bool>): (s: Screen)
    reads a
    requires a.Length0 == ScreenWidth && a.Length1 == ScreenHeight
    ensures IsScreen(s)
    ensures forall x, y :: 0 <= x < ScreenWidth && 0 <= y < ScreenHeight ==> s[x][y] == a[x, y]
  {
    seq(ScreenWidth, x requires 0 <= x < ScreenWidth reads a =>
      seq(ScreenHeight, y requires 0 <= y < ScreenHeight reads a => a[x, y]))
  }

  class Chip8 {
    const memory: array<u8>
    const V: array<u8>
    var VF: u8
    var I: u16
    var PC: u16
    const screen: array2<bool>
    const stack: array<u16>
    var SP: u8

    /** The array sizes of the declaration. */
    ghost predicate Valid()
      reads this
    {
      memory.Length == MemorySize && V.Length == RegisterCount &&
      screen.Length0 == ScreenWidth && screen.Length1 == ScreenHeight &&
      stack.Length == StackDepth
    }

    /** The value of every field. */
    ghost function State(): (m: Machine)
      reads this, memory, V, screen, stack
      requires Valid()
      ensures WellFormed(m)
    {
      Machine(memory[..], V[..], VF, I, PC, ScreenOf(screen), stack[..], SP)
    }

    /** A fresh object has every byte, register and pixel zero, as the
        statically allocated instance that the program drives. */
    constructor ()
      ensures Valid()
      ensures fresh(memory) && fresh(V) && fresh(screen) && fresh(stack)
      ensures State() == Machine(seq(MemorySize, _ => 0), seq(RegisterCount, _ => 0), 0, 0, 0,
                                 Blank(), seq(StackDepth, _ => 0), 0)
    {
      memory := new u8[MemorySize](_ => 0);
      V := new u8[RegisterCount](_ => 0);
      VF, I, PC, SP := 0, 0, 0, 0;
      screen := new bool[ScreenWidth, ScreenHeight]((_, _) => false);
      stack := new u16[StackDepth](_ => 0);
      new;
      ScreenExtensionality(ScreenOf(screen), Blank());
    }

    /** Resets PC, SP and the stack and writes the digit-0 glyph at address 0. */
    method Init()
      requires Valid()
      modifies this`PC, this`SP, memory, stack
      ensures Valid()
      ensures State() == Reset(old(State()))
    {
      PC := ProgramStart;
      SP := 0;
      forall i | 0 <= i < StackDepth {
        stack[i] := 0;
      }
      memory[0], memory[1], memory[2], memory[3], memory[4] := 0xF0, 0x90, 0x90, 0x90, 0xF0;
      assert memory[..] == DigitZero + old(memory[..])[|DigitZero|..];
    }

    /** Reads the big-endian opcode at PC. */
    method Fetch() returns (opcode: u16)
      requires Valid() && PC + 1 < MemorySize
      ensures opcode / 0x100 == memory[PC] && opcode % 0x100 == memory[PC + 1]
    {
      opcode := memory[PC] as int * 256 + memory[PC + 1];
    }

    /** `memset(screen, false, ...)`: every pixel off. */
    method ClearScreen()
      requires Valid()
      modifies screen
      ensures ScreenOf(screen) == Blank()
    {
      forall x, y | 0 <= x < ScreenWidth && 0 <= y < ScreenHeight {
        screen[x, y] := false;
      }
      ScreenExtensionality(ScreenOf(screen), Blank());
    }

    /** The DXYN loop: inverts the 8 by N rectangle whose top-left cell is
        (`V[X]`, `V[Y]`); the registers are read only inside the loop. */
    method DrawSprite(X: nat, Y: nat, N: nat)
      requires Valid()
      requires N > 0 ==> X < RegisterCount && Y < RegisterCount &&
                         V[X] + 8 <= ScreenWidth && V[Y] + N <= ScreenHeight
      modifies screen
      ensures N == 0 ==> ScreenOf(screen) == old(ScreenOf(screen))
      ensures N > 0 ==> ScreenOf(screen) == Toggle(old(ScreenOf(screen)), V[X], V[Y], N)
    {
      ghost var before := ScreenOf(screen);
      var y := 0;
      while y < N
        invariant 0 <= y <= N
        invariant forall i, j :: 0 <= i < ScreenWidth && 0 <= j < ScreenHeight ==>
          screen[i, j] == (if y > 0 && InSprite(i, j, V[X], V[Y], y) then !before[i][j] else before[i][j])
      {
        var x := 0;
        while x < 8
          invariant 0 <= x <= 8
          invariant forall i, j :: 0 <= i < ScreenWidth && 0 <= j < ScreenHeight ==>
            screen[i, j] == (if InSprite(i, j, V[X], V[Y], y) || (j == V[Y] + y && V[X] <= i < V[X] + x)
                             then !before[i][j] else before[i][j])
        {
          screen[V[X] + x, V[Y] + y] := !screen[V[X] + x, V[Y] + y];
          x := x + 1;
        }
        y := y + 1;
      }
      if N > 0 {
        ScreenExtensionality(ScreenOf(screen), Toggle(before, V[X], V[Y], N));
      } else {
        ScreenExtensionality(ScreenOf(screen), before);
      }
    }

    /** The nested switch of the 0x0 family on the low byte: 00E0 clears
        the screen, 00EE returns from a subroutine, and any other low byte
        is an unknown instruction that changes nothing. */
    method System(opcode: u16) returns (ok: bool)
      requires Valid() && Defined(State()) && opcode == Opcode(State()) && Family(opcode) == 0x0
      modifies this`PC, this`SP, screen
      ensures ok == Step(old(State())).0
      ensures PC == Step(old(State())).1.PC
      ensures ScreenOf(screen) == Step(old(State())).1.screen
      ensures SP == Step(old(State())).1.SP
    {
      var low := OpNN(opcode);
      if low == 0xE0 {
        ClearScreen();
      } else if low == 0xEE {
        PC := stack[SP];
        SP := (SP as int - 1) % 0x100;
      } else {
        return false;
      }
      PC := Advance(PC, 2);
      return true;
    }

    /** The nested switch of 8XYN on the low nibble; no case writes VF. */
    method Arithmetic(X: nat, Y: nat, n: nat)
      requires Valid()
      requires AluCase(n) ==> X < RegisterCount && Y < RegisterCount
      modifies V
      ensures V[..] == Alu(old(V[..]), X, Y, n)
    {
      if n == 0x0 {
        V[X] := V[Y];
      } else if n == 0x1 {
        V[X] := Or8(V[X], V[Y]);
      } else if n == 0x2 {
        V[X] := And8(V[X], V[Y]);
      } else if n == 0x3 {
        V[X] := Xor8(V[X], V[Y]);
      } else if n == 0x4 {
        V[X] := (V[X] as int + V[Y]) % 0x100;
      } else if n == 0x5 {
        V[X] := (V[X] as int - V[Y]) % 0x100;
      } else if n == 0x6 {
        V[X] := V[Y] / 2;
      } else if n == 0x7 {
        V[X] := (V[Y] as int - V[X]) % 0x100;
      } else if n == 0xE {
        V[Y] := (V[Y] as int * 2) % 0x100;
        V[X] := V[Y];
      }
    }

    /** One fetch, decode and execute step; false for an unknown opcode. */
    method Cycle() returns (ok: bool)
      requires Valid() && Defined(State())
      modifies this`PC, this`SP, this`I, V, screen, stack
      ensures Valid()
      ensures ok == Step(old(State())).0
      ensures memory[..] == Step(old(State())).1.memory
      ensures V[..] == Step(old(State())).1.V
      ensures VF == Step(old(State())).1.VF
      ensures I == Step(old(State())).1.I
      ensures PC == Step(old(State())).1.PC
      ensures ScreenOf(screen) == Step(old(State())).1.screen
      ensures stack[..] == Step(old(State())).1.stack
      ensures SP == Step(old(State())).1.SP
    {
      var opcode := Fetch();
      assert opcode == Opcode(State());
      var family := Family(opcode);
      if family == 0x0 {
        ok := System(opcode);
        return;
      } else if family == 0x1 {
        PC := OpNNN(opcode);
      } else if family == 0x2 {
        SP := (SP as int + 1) % 0x100;
        stack[SP] := PC;
        PC := OpNNN(opcode);
      } else if family == 0x3 {
        var s, v := OpX(opcode), OpNN(opcode);
        if V[s] == v {
          PC := Advance(PC, 4);
        } else {
          PC := Advance(PC, 2);
        }
      } else if family == 0x4 {
        var s, v := OpX(opcode), OpNN(opcode);
        if V[s] != v {
          PC := Advance(PC, 4);
        } else {
          PC := Advance(PC, 2);
        }
      } else if family == 0x5 {
        var v1, v2 := OpX(opcode), SkipEqualSecond(opcode);
        if V[v1] == V[v2] {
          PC := Advance(PC, 4);
        } else {
          PC := Advance(PC, 2);
        }
      } else if family == 0x6 {
        var s, v := OpX(opcode), OpNN(opcode);
        V[s] := v;
        PC := Advance(PC, 2);
      } else if family == 0x7 {
        var s, v := OpX(opcode), OpNN(opcode);
        V[s] := (V[s] as int + v) % 0x100;
        PC := Advance(PC, 2);
      } else if family == 0x8 {
        var X, Y, n := OpX(opcode), OpY(opcode), OpN(opcode);
        Arithmetic(X, Y, n);
        PC := Advance(PC, 2);
      } else if family == 0x9 {
        var X, Y := OpX(opcode), OpY(opcode);
        if V[X] != V[Y] {
          PC := Advance(PC, 4);
        } else {
          PC := Advance(PC, 2);
        }
      } else if family == 0xA {
        I := OpNNN(opcode);
        PC := Advance(PC, 2);
      } else if family == 0xB {
        PC := V[0] as int + OpNNN(opcode);
      } else if family == 0xC {
        var rand := RandomByte;
        var X, N := RandomTarget(opcode), OpNN(opcode);
        V[X] := And8(rand, N);
        PC := Advance(PC, 2);
      } else if family == 0xD {
        var X, Y, N := OpX(opcode), OpY(opcode), OpN(opcode);
        DrawSprite(X, Y, N);
        PC := Advance(PC, 2);
      } else {
        return false;
      }
      return true;
    }
  }
}
