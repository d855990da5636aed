/**
  The macOS line-control record (`struct termios` of sys/termios.h) and the
  flag and index constants the converter uses, with the values macOS gives
  them. Flag words (`tcflag_t`) are 64-bit vectors; speeds (`speed_t`) and
  table entries (`cc_t`) are unsigned integers of 64 and 8 bits.
 */
module TermiosDarwin {

  /** `cc_t`: one entry of the control-character table. */
  newtype Byte = x: int | 0 <= x < 0x100

  /** `speed_t`: a line speed. */
  newtype Speed = x: int | 0 <= x < 0x1_0000_0000_0000_0000

  /** Character-size patterns: two bits of c_cflag, four values. */
  const CS5: bv64 := 0x0000_0000
  const CS6: bv64 := 0x0000_0100
  const CS7: bv64 := 0x0000_0200
  const CS8: bv64 := 0x0000_0300
  /** Ignore modem status lines. */
  const CLOCAL: bv64 := 0x0000_8000
  /** Enable the receiver. */
  const CREAD: bv64 := 0x0000_0800
  /** Two stop bits instead of one. */
  const CSTOPB: bv64 := 0x0000_0400
  /** c_iflag: ignore bytes with parity errors. */
  const IGNPAR: bv64 := 0x0000_0004
  /** Enable parity generation and checking. */
  const PARENB: bv64 := 0x0000_1000
  /** Odd parity instead of even. */
  const PARODD: bv64 := 0x0000_2000

  /** The character-size field of c_cflag: the union of the four patterns
      (POSIX names it CSIZE; the Go file does not declare it). */
  const CSIZE: bv64 := CS5 | CS6 | CS7 | CS8

  /** Length of the control-character table. */
  const NCCS: nat := 20
  /** Slot of the minimum byte count of a non-canonical read. */
  const VMIN: nat := 16
  /** Slot of the inter-byte timer of a non-canonical read, in tenths of a second. */
  const VTIME: nat := 17

  datatype Termios = Termios(
    iflag: bv64,
    oflag: bv64,
    cflag: bv64,
    lflag: bv64,
    cc: seq<Byte>,
    ispeed: Speed,
    ospeed: Speed
  )

  /** The control-character table has its fixed length, as the array type
      `[kNCCS]cc_t` guarantees in the Go code. */
  predicate WellFormed(t: Termios) {
    |t.cc| == NCCS
  }
}
