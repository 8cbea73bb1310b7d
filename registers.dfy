/**
 The bit layouts of the four GPU display-control commands. Each command is a
 32-bit word written by the emulated CPU; every field is cut out of it with a
 mask (and a shift), so no command word is ever rejected: out-of-range bits are
 simply dropped, as the hardware drops them.

 The fields are computed on unbounded integers: a right shift by k is division
 by 2^k, a mask of the low k bits is the remainder modulo 2^k. Lemma
 MasksAreArithmetic checks each of these readings against the bitwise
 expression, with both sides computed on 32-bit words. The step from that
 32-bit division and remainder to the same operations on unbounded integers
 is not proved here; it holds because a command word is below 2^32 and no
 operation above can overflow it.
 */
module Registers {

  /** A 32-bit command word. */
  type Word = n: int | 0 <= n < 0x1_0000_0000

  /** An 8-bit mode byte. */
  type Byte = n: int | 0 <= n < 0x100

  /** Horizontal display-range registers are 12 bits wide. */
  type U12 = x: int | 0 <= x < 0x1000

  /** Vertical display-range registers are 10 bits wide. */
  type U10 = x: int | 0 <= x < 0x400

  /** Display-start X, `command & 0x3fe`: bits 1..9 of the command; bit 0 is masked off. */
  function StartX(command: Word): (x: nat)
    ensures x < 1024 && x % 2 == 0
  {
    (command % 1024) / 2 * 2
  }

  /** Display-start Y, `(command >> 10) & 0x1ff`: bits 10..18 of the command. */
  function StartY(command: Word): (y: nat)
    ensures y < 512
  {
    (command / 1024) % 512
  }

  /**
   A display-start command with no bits above bit 0 sets the origin to (0, 0).
   A helper for the reset, which writes command 0.
   */
  lemma StartOfZero(command: Word)
    requires command < 2
    ensures StartX(command) == 0 && StartY(command) == 0
  {
  }

  /** First horizontal range register, `command & 0xfff`: bits 0..11. */
  function RangeX1(command: Word): (x: nat)
    ensures x < 0x1000
  {
    command % 4096
  }

  /** Second horizontal range register, `(command >> 12) & 0xfff`: bits 12..23. */
  function RangeX2(command: Word): (x: nat)
    ensures x < 0x1000
  {
    (command / 4096) % 4096
  }

  /** First vertical range register, `command & 0x3ff`: bits 0..9. */
  function RangeY1(command: Word): (y: nat)
    ensures y < 0x400
  {
    command % 1024
  }

  /** Second vertical range register, `(command >> 10) & 0x3ff`: bits 10..19. */
  function RangeY2(command: Word): (y: nat)
    ensures y < 0x400
  {
    (command / 1024) % 1024
  }

  /** The draw mode, `command & 0xff`: the low byte of the mode command. */
  function ModeByte(command: Word): (mode: nat)
    ensures mode < 0x100
  {
    command % 256
  }

  /** Bit 3 of the draw mode, `mode & 0x8`, selects the 50 Hz (PAL) video standard. */
  predicate IsPal(mode: Byte)
    ensures IsPal(mode) <==> mode % 16 >= 8
  {
    (mode / 8) % 2 == 1
  }

  /** Bit 4 of the draw mode, `mode & 0x10`, selects 24-bit colour. */
  predicate Is24Bit(mode: Byte)
    ensures Is24Bit(mode) <==> mode % 32 >= 16
  {
    (mode / 16) % 2 == 1
  }

  /** Bit 5 of the draw mode, `mode & 0x20`, selects interlaced scanning. */
  predicate IsInterlaced(mode: Byte)
    ensures IsInterlaced(mode) <==> mode % 64 >= 32
  {
    (mode / 32) % 2 == 1
  }

  /** The three mode flags read off the mode byte are bits 3, 4 and 5 of the command word itself. */
  lemma ModeFlagsFromCommand(command: Word)
    ensures IsPal(ModeByte(command)) <==> (command / 8) % 2 == 1
    ensures Is24Bit(ModeByte(command)) <==> (command / 16) % 2 == 1
    ensures IsInterlaced(ModeByte(command)) <==> (command / 32) % 2 == 1
  {
    var high, low := command / 256, command % 256;
    DivideLowByte(high, low);
    Parity(high * 16, low / 8);
    Parity(high * 8, low / 16);
    Parity(high * 4, low / 32);
  }

  /** Shifting high * 256 + low right by 3, 4 or 5 bits shifts the two parts separately. */
  lemma DivideLowByte(high: nat, low: nat)
    requires low < 256
    ensures (high * 256 + low) / 8 == high * 32 + low / 8
    ensures (high * 256 + low) / 16 == high * 16 + low / 16
    ensures (high * 256 + low) / 32 == high * 8 + low / 32
  {
  }

  lemma Parity(half: nat, q: nat)
    ensures (2 * half + q) % 2 == q % 2
  {
  }

  /**
   The arithmetic readings above agree with the bitwise expressions on every
   32-bit word (and, for the mode flags, on every byte).
   */
  lemma MasksAreArithmetic(c: bv32, m: bv8)
    ensures c & 0x3fe == (c % 1024) / 2 * 2
    ensures (c >> 10) & 0x1ff == (c / 1024) % 512
    ensures c & 0xfff == c % 4096
    ensures (c >> 12) & 0xfff == (c / 4096) % 4096
    ensures c & 0x3ff == c % 1024
    ensures (c >> 10) & 0x3ff == (c / 1024) % 1024
    ensures c & 0xff == c % 256
    ensures (m & 0x08 != 0) == ((m / 8) % 2 == 1)
    ensures (m & 0x10 != 0) == ((m / 16) % 2 == 1)
    ensures (m & 0x20 != 0) == ((m / 32) % 2 == 1)
  {
  }
}
