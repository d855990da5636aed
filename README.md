# macOS serial-port option conversion, in Dafny

This project models the part of the go-serial package that turns a portable
set of serial-port options into the macOS line-control record
(`struct termios`), or refuses the options with an error. Later, an `ioctl`
call applies that record to an open device. The converter does five things
in order:

1. It turns on two baseline control flags: CLOCAL (ignore modem status
   lines) and CREAD (enable the receiver).
2. It rounds the inter-character timeout to whole tenths of a second. It
   rejects a read that has no minimum size and a timeout of less than one
   tenth. It also rejects a timeout that one byte of tenths cannot hold.
3. It stores the timeout (in tenths) in the VTIME slot of the
   control-character table, and the minimum read size in the VMIN slot.
   These are the POSIX non-canonical read parameters ("Non-Canonical Mode
   Input Processing", General Terminal Interface chapter of
   IEEE Std 1003.1).
4. It checks the baud rate against the 22 rates macOS supports. It copies
   the rate into both speed fields.
5. It maps data bits, stop bits and parity to bits of `c_cflag`.

Files and modules:

- `wrappers.dfy` (`Wrappers`): the `Result` type that stands in for Go's
  `(value, error)` pair.
- `open_options.dfy` (`OpenOptions`): the options record and the parity
  mode.
- `termios_darwin.dfy` (`TermiosDarwin`): the flag constants, the table
  indices and the `Termios` record, with the values from sys/termios.h on
  macOS.
- `converter.dfy` (`Converter`):
  - `Convert` is the reference definition of the conversion.
  - `ConvertOptions` is the conversion written the way the Go code does it.
    It starts from a zeroed record, ORs into `c_cflag` one flag at a time,
    writes the timing slots of a 20-byte array in place, and returns at the
    first failed check. Its postcondition is `r == Convert(options)`.
  - In `Convert`, the control word is the OR-fold (`OrAll`) of the list of
    flags the Go code applies, in its order (`CflagUpdates`).
- `converter_properties.dfy` (`ConverterProperties`): what the conversion
  guarantees, as lemmas about `Convert`:
  - the order of the checks, stated on the caller's own values;
  - the exact contents of the record on success;
  - a decoder that recovers the options from the record.

Three behaviours of the code are easy to miss, and the model keeps them:

- The code has two distinct timing errors with different messages. The
  model keeps both, as `TimingWithoutMinimum` and `TimeoutTooLong`.
- The code does not range-check `MinimumReadSize`. It keeps only the low
  byte (`cc_t(vmin)`). `MinimumReadSizeWrapsToZero` shows the effect: a
  minimum read size of 256 with no timeout is accepted. It is stored as
  VMIN = 0 and VTIME = 0, which is the pair the timing check refuses when a
  caller asks for it directly.
- A timeout of 50 ms with no minimum read size is accepted. `round(0.5)` is
  1, so VTIME is 1 (`TimingExamples`). Only timeouts below 50 ms are
  refused.

## Model

| member | source | states |
|---|---|---|
| `Converter.RoundedTimeout` | serial/open_darwin.go:103-105 | The rounded timeout is a multiple of 100. It lies in the window (t - 50, t + 50], so a timeout exactly halfway rounds up. |
| `ConverterProperties.RoundedTimeoutIsNearest` | serial/open_darwin.go:121 | No multiple of 100 is nearer to the timeout than the rounded value. Of two equally near multiples, the rounded value is the larger. |
| `ConverterProperties.RoundedTimeoutIdempotent` | serial/open_darwin.go:121 | Rounding an already rounded timeout leaves it unchanged. |
| `ConverterProperties.RoundingExamples` | serial/open_darwin.go:103-105 | 0 and 49 round to 0; 50 and 149 round to 100; 150 rounds to 200; 25549 rounds to 25500; 25550 rounds to 25600. |
| `ConverterProperties.TimingThresholds` | serial/open_darwin.go:124-130 | The rounded timeout is below 100 exactly when the timeout is below 50. It exceeds 25500 exactly when the timeout is at least 25550. |
| `ConverterProperties.ConvertReportsFirstFailingCheck` | serial/open_darwin.go:124-210 | Each of the six errors is returned exactly when its check fails and all earlier checks pass. The checks run in this order: timing, timeout range, baud rate, data bits, stop bits, parity. The timing conditions are stated on the unrounded timeout. Conversion succeeds exactly when every check passes. |
| `Converter.Convert` | serial/open_darwin.go:107-213 | The record built by `convertOptions` has a control-character table of exactly NCCS = 20 entries, the fixed length of the `termios` struct (lines 68-76). A failure carries no record. |
| `Converter.ConvertOptions` | serial/open_darwin.go:107-213 | The stepwise conversion produces exactly `Convert(options)`: the same error on every failure path and the same record on success. |
| `Converter.MessageDistinguishesErrors` | serial/open_darwin.go:125-209 | The six error texts of `Converter.Message` (lines 125, 129, 161, 180, 190 and 209) are pairwise different: two errors have the same text exactly when they are the same error. |
| `Converter.StopBitsUpdates` | serial/open_darwin.go:184-191 | The stop-bit step ORs in at most one flag. It is CSTOPB, and it is there exactly for 2 stop bits; for 1 stop bit nothing is ORed in. |
| `Converter.ParityUpdates` | serial/open_darwin.go:193-210 | The parity step ORs in at most two flags, each PARENB or PARODD. PARENB is among them exactly for odd or even parity, PARODD exactly for odd parity. |
| `Converter.CflagUpdates` | serial/open_darwin.go:112-207 | The ordered list of `c_cflag` updates has 3 to 6 entries. It starts with CLOCAL, CREAD and the character size. CSTOPB is in it exactly for 2 stop bits, PARENB exactly for odd or even parity, PARODD exactly for odd parity. |
| `Converter.OrAll` | serial/open_darwin.go:112-118 | Starting from zero and OR-ing each flag into `c_cflag` in turn leaves every applied flag set in the final word. |
| `Converter.CharSize` | serial/open_darwin.go:44-47 | Each character-size pattern lies inside the character-size field (mask 0x300). |
| `Converter.ControlChars` | serial/open_darwin.go:133-134 | The table has 20 entries. The VMIN and VTIME slots hold the given bytes. |
| `Converter.OrAllConcat` | serial/open_darwin.go:112-118 | OR-ing the flags of two lists one after another gives the OR of the two lists' words. |
| `Converter.OrAllOfCflagUpdates` | serial/open_darwin.go:112-207 | The OR-updates of `c_cflag`, in order, give CLOCAL, CREAD and the character size. CSTOPB is added for two stop bits, PARENB and PARODD for odd parity, and PARENB for even parity. |
| `ConverterProperties.ConvertSetsBaselineFlags` | serial/open_darwin.go:108-118 | On success CLOCAL and CREAD are set. The input, output and local flag words stay 0. |
| `ConverterProperties.ConvertFillsControlChars` | serial/open_darwin.go:132-134 | On success VTIME times 100 is the rounded timeout, so VTIME is at most 255. VMIN is the minimum read size modulo 256. All other 18 slots are 0. |
| `ConverterProperties.ConvertCopiesBaudRate` | serial/open_darwin.go:164-167 | On success both the input and the output speed equal the requested baud rate. |
| `ConverterProperties.ConvertSetsCharSize` | serial/open_darwin.go:170-181 | On success the character-size field equals CS5, CS6, CS7 or CS8 exactly when the data bits are 5, 6, 7 or 8. |
| `ConverterProperties.ConvertSetsStopBits` | serial/open_darwin.go:184-191 | On success CSTOPB is set exactly when there are 2 stop bits, and clear exactly when there is 1. |
| `ConverterProperties.ConvertSetsParity` | serial/open_darwin.go:193-210 | On success PARENB is set exactly for odd or even parity and clear exactly for no parity. PARODD is set exactly for odd parity. IGNPAR is never set. |
| `ConverterProperties.ConvertSetsNoOtherBits` | serial/open_darwin.go:107-212 | No bit of `c_cflag` outside CLOCAL, CREAD, the character-size field, CSTOPB, PARENB and PARODD is ever set. |
| `ConverterProperties.DecodeInvertsConvert` | serial/open_darwin.go:107-213 | Decoding a converted record gives back the port name, baud rate, data bits, stop bits and parity. It also gives the timeout as rounded and the minimum read size modulo 256. |
| `ConverterProperties.ReconvertDecoded` | serial/open_darwin.go:107-213 | Converting the decoded options rebuilds the same record exactly unless the minimum read size is a non-zero multiple of 256 and the timeout is below 50 ms. In that case the decoded options are refused with the first timing error. |
| `ConverterProperties.MinimumReadSizeWrapsToZero` | serial/open_darwin.go:122-134 | A minimum read size of 256 with no timeout passes the timing check and is stored as VMIN = 0, VTIME = 0. A minimum read size of 0 with the same timeout is refused. |
| `ConverterProperties.Convert9600Baud8N1` | serial/open_darwin.go:107-213 | 9600 baud, 8 data bits, 1 stop bit, no parity, no timeout and a minimum read of 1 byte give CLOCAL, CREAD and CS8, VMIN = 1, VTIME = 0, and both speeds 9600. |
| `ConverterProperties.TimingExamples` | serial/open_darwin.go:121-134 | With no minimum read size, a 50 ms timeout is accepted with VTIME = 1 and 49 ms is refused. 25550 ms is refused as too long; 25549 ms is accepted with VTIME = 255. |

## Left out

- `setTermios` (serial/open_darwin.go:81-101) is not modelled. It is a raw
  `ioctl` system call that takes the record's address. It fails when errno
  is non-zero, and also when the call's return value is non-zero.
- `openInternal` (serial/open_darwin.go:215-257) is not modelled. It opens
  the device in non-blocking mode, clears the mode with `fcntl`, converts
  the options and applies the record. All of that is operating-system I/O.
  The Go code does not close the file on any of its error returns
  (lines 236-253), so the model makes no claim about descriptors.
- The `ioctl` request codes (lines 62-65) are used only by `setTermios`.
- Floating point: `round(float64(t)/100.0) * 100` is modelled as the
  integer `(t + 50) / 100 * 100`. The two are equal for every timeout below
  2^53. Division is correctly rounded and an exact half is representable,
  so no quotient crosses a rounding boundary. From 2^53 up to 2^64 the two
  values may differ, but both exceed 25500, so the Go code and the model
  both refuse the timeout with the same error. Only once the float result
  reaches 2^64 is Go's `uint(...)` conversion implementation-defined; the
  model refuses those timeouts too.
- Integer widths of the options: the Go fields are unsigned machine
  integers and are modelled as unbounded naturals. The narrowing of VMIN to
  a byte is modelled explicitly. The speed fields receive only validated
  rates, which fit in 64 bits.
- The `OpenOptions` declaration (serial/serial.go) is not part of this
  model. Its parity type is an integer. The model uses three named cases
  and `ParityOther` for every other value the converter rejects.
- Go's error values are strings. The model uses one constructor per error;
  `Converter.Message` gives each one's text, and
  `Converter.MessageDistinguishesErrors` states that the texts differ.
- The memory layout of `termios` against the macOS ABI (field widths and
  padding) cannot be expressed or checked here.
- The Go code's 22-case `switch` on the baud rate is written in
  `ConvertOptions` as a membership test on the set `BaudRates`. The set
  lists exactly the switch's cases.
