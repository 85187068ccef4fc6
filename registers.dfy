/** Holding-register words and the four primitive reads the SunSpec layouts use.
    A register block is read left to right; the position of the next unread
    register (the cursor) is passed in and handed back by every primitive. */
module Registers {

  /** One 16-bit holding register, as the big-endian wire carries it. */
  type Word = w: int | 0 <= w < 0x1_0000

  /** Both inverter layouts are read starting at holding register 72. */
  const InverterBase := 72

  /** The word of `regs` that holds register `address`, when `regs` was read
      starting at InverterBase. */
  function At(regs: seq<Word>, address: int): Word
    requires InverterBase <= address < InverterBase + |regs|
  {
    regs[address - InverterBase]
  }

  /** Two's-complement reading of one register. */
  function S16(w: Word): (r: int)
    ensures -0x8000 <= r < 0x8000
    ensures (r - w) % 0x1_0000 == 0
    ensures r < 0 <==> w >= 0x8000
  {
    if w >= 0x8000 then w - 0x1_0000 else w
  }

  /** The register a signed 16-bit value is sent as (the inverse of S16). */
  function EncodeS16(x: int): (w: Word)
    requires -0x8000 <= x < 0x8000
    ensures (w - x) % 0x1_0000 == 0
  {
    if x < 0 then x + 0x1_0000 else x
  }

  lemma S16RoundTrip(w: Word, x: int)
    requires -0x8000 <= x < 0x8000
    ensures EncodeS16(S16(w)) == w
    ensures S16(EncodeS16(x)) == x
  {
  }

  /** Two registers read as one unsigned 32-bit value, high word first. */
  function U32(hi: Word, lo: Word): (r: nat)
    ensures r < 0x1_0000_0000
    ensures r / 0x1_0000 == hi && r % 0x1_0000 == lo
  {
    hi * 0x1_0000 + lo
  }

  /** Reads one register as an unsigned value. */
  method DecodeU16(regs: seq<Word>, pos: nat) returns (v: int, next: nat)
    requires pos < |regs|
    ensures 0 <= v < 0x1_0000 && v == regs[pos]
    ensures next == pos + 1
  {
    v, next := regs[pos], pos + 1;
  }

  /** Reads one register as a two's-complement value. */
  method DecodeS16(regs: seq<Word>, pos: nat) returns (v: int, next: nat)
    requires pos < |regs|
    ensures -0x8000 <= v < 0x8000 && v == S16(regs[pos])
    ensures next == pos + 1
  {
    v, next := S16(regs[pos]), pos + 1;
  }

  /** Reads two registers as an unsigned 32-bit value, high word first. */
  method DecodeU32(regs: seq<Word>, pos: nat) returns (v: int, next: nat)
    requires pos + 1 < |regs|
    ensures 0 <= v < 0x1_0000_0000
    ensures v / 0x1_0000 == regs[pos] && v % 0x1_0000 == regs[pos + 1]
    ensures next == pos + 2
  {
    v, next := U32(regs[pos], regs[pos + 1]), pos + 2;
  }

  /** Discards `n` bytes, that is n / 2 registers. */
  method SkipBytes(pos: nat, n: nat) returns (next: nat)
    requires n % 2 == 0
    ensures next == pos + n / 2
  {
    next := pos + n / 2;
  }
}
