/**
  Translation of a portable `OpenOptions` record into a macOS `termios`
  record, or the reason the options are refused.

  `Convert` is the reference definition: what the translation produces, as a
  single expression. `ConvertOptions` is the operation as the Go code performs
  it, building the record field by field and returning at the first failed
  check; its postcondition says it computes `Convert`.
 */
module Converter {
  import opened Wrappers
  import opened OpenOptions
  import opened TermiosDarwin

  /** Why a conversion is refused, one case per error the Go code returns. */
  datatype ConvertError =
    | TimingWithoutMinimum  // no minimum read size and a timeout under 100 ms
    | TimeoutTooLong        // timeout beyond what one byte of tenths holds
    | InvalidBaudRate
    | InvalidDataBits
    | InvalidStopBits
    | InvalidParityMode

  /** The text of the Go error value for each case. */
  function Message(e: ConvertError): (text: string) {
    match e
    case TimingWithoutMinimum => "Invalid values for InterCharacterTimeout and MinimumReadSize."
    case TimeoutTooLong => "Invalid value for InterCharacterTimeout."
    case InvalidBaudRate => "Invalid setting for BaudRate."
    case InvalidDataBits => "Invalid setting for DataBits."
    case InvalidStopBits => "Invalid setting for StopBits."
    case InvalidParityMode => "Invalid setting for ParityMode."
  }

  /** Each error has its own text, so a caller can tell them apart. */
  lemma MessageDistinguishesErrors(e1: ConvertError, e2: ConvertError)
    ensures Message(e1) == Message(e2) <==> e1 == e2
  {
  }

  /** The rates macOS accepts; on macOS a speed constant is the rate itself. */
  const BaudRates: set<nat> := {
    50, 75, 110, 134, 150, 200, 300, 600, 1200, 1800, 2400, 4800, 7200,
    9600, 14400, 19200, 28800, 38400, 57600, 76800, 115200, 230400
  }

  const DataBitsValues: set<nat> := {5, 6, 7, 8}
  const StopBitsValues: set<nat> := {1, 2}

  /** Largest timeout, in ms, that the one-byte VTIME slot can carry. */
  const MaxTimeout: nat := 25500

  /**
    The timeout rounded to whole tenths of a second and given back in ms:
    `round(float64(t)/100.0) * 100` with `round(f) = floor(f + 0.5)`.
    Over the naturals this is `(t + 50) / 100 * 100`. The two are equal for
    every timeout below 2^53. From 2^53 up to 2^64 they may differ, but both
    exceed 25500, so both are refused with the same error. The result is the
    one multiple of 100 in the half-open window (t - 50, t + 50], so halves
    round up.
   */
  function RoundedTimeout(t: nat): (v: nat)
    ensures v % 100 == 0
    ensures t < v + 50 && v <= t + 50
  {
    (t + 50) / 100 * 100
  }

  /** The character-size pattern for each accepted number of data bits. */
  function CharSize(dataBits: nat): (flag: bv64)
    requires dataBits in DataBitsValues
    ensures flag & CSIZE == flag
  {
    if dataBits == 5 then CS5
    else if dataBits == 6 then CS6
    else if dataBits == 7 then CS7
    else CS8
  }

  /** The flags OR-ed in for the number of stop bits: CSTOPB for two. */
  function StopBitsUpdates(stopBits: nat): (flags: seq<bv64>)
    requires stopBits in StopBitsValues
    ensures CSTOPB in flags <==> stopBits == 2
    ensures flags == [] <==> stopBits == 1
    ensures |flags| <= 1 && forall i :: 0 <= i < |flags| ==> flags[i] == CSTOPB
  {
    if stopBits == 2 then [CSTOPB] else []
  }

  /** The flags OR-ed in for each named parity mode, in the Go code's order. */
  function ParityUpdates(p: ParityMode): (flags: seq<bv64>)
    requires !p.ParityOther?
    ensures PARENB in flags <==> p != ParityNone
    ensures PARODD in flags <==> p == ParityOdd
    ensures |flags| <= 2
    ensures forall i :: 0 <= i < |flags| ==> flags[i] == PARENB || flags[i] == PARODD
  {
    match p
    case ParityNone => []
    case ParityOdd => [PARENB, PARODD]
    case ParityEven => [PARENB]
  }

  /** Every flag the conversion ORs into c_cflag, in the order it does so. */
  function CflagUpdates(o: OpenOptions): (flags: seq<bv64>)
    requires o.dataBits in DataBitsValues && o.stopBits in StopBitsValues
    requires !o.parityMode.ParityOther?
    ensures 3 <= |flags| <= 6
    ensures flags[0] == CLOCAL && flags[1] == CREAD && flags[2] == CharSize(o.dataBits)
    ensures CSTOPB in flags <==> o.stopBits == 2
    ensures PARENB in flags <==> o.parityMode != ParityNone
    ensures PARODD in flags <==> o.parityMode == ParityOdd
  {
    var stop, parity := StopBitsUpdates(o.stopBits), ParityUpdates(o.parityMode);
    assert |stop| <= 1 && |parity| <= 2;
    [CLOCAL] + [CREAD] + [CharSize(o.dataBits)] + stop + parity
  }

  /** The word obtained by starting from zero and OR-ing in each flag of
      `flags` in turn, as repeated `c_cflag |= flag` does. */
  function OrAll(flags: seq<bv64>): (word: bv64)
    ensures forall i :: 0 <= i < |flags| ==> word & flags[i] == flags[i]
  {
    if flags == [] then 0 else OrAll(flags[..|flags| - 1]) | flags[|flags| - 1]
  }

  /** Folding a concatenation ORs the folds of its parts. */
  lemma {:induction false} OrAllConcat(a: seq<bv64>, b: seq<bv64>)
    ensures OrAll(a + b) == OrAll(a) | OrAll(b)
  {
    if b == [] {
      assert a + b == a;
    } else {
      var n := |b| - 1;
      assert (a + b)[..|a + b| - 1] == a + b[..n];
      OrAllConcat(a, b[..n]);
    }
  }

  lemma OrAllSingleton(f: bv64)
    ensures OrAll([f]) == f
  {
  }

  /** The fold of the conversion's flag list, written out as one word. */
  lemma OrAllOfCflagUpdates(o: OpenOptions)
    requires o.dataBits in DataBitsValues && o.stopBits in StopBitsValues
    requires !o.parityMode.ParityOther?
    ensures OrAll(CflagUpdates(o))
            == CLOCAL | CREAD | CharSize(o.dataBits)
               | (if o.stopBits == 2 then CSTOPB else 0)
               | (match o.parityMode
                  case ParityOdd => PARENB | PARODD
                  case ParityEven => PARENB
                  case _ => 0)
  {
    var stop, parity := StopBitsUpdates(o.stopBits), ParityUpdates(o.parityMode);
    OrAllSingleton(CLOCAL);
    OrAllSingleton(CREAD);
    OrAllSingleton(CharSize(o.dataBits));
    OrAllConcat([CLOCAL], [CREAD]);
    OrAllConcat([CLOCAL] + [CREAD], [CharSize(o.dataBits)]);
    OrAllConcat([CLOCAL] + [CREAD] + [CharSize(o.dataBits)], stop);
    OrAllConcat([CLOCAL] + [CREAD] + [CharSize(o.dataBits)] + stop, parity);
    if o.stopBits == 2 {
      OrAllSingleton(CSTOPB);
    }
    if o.parityMode == ParityOdd {
      OrAllSingleton(PARENB);
      OrAllSingleton(PARODD);
      OrAllConcat([PARENB], [PARODD]);
      assert parity == [PARENB] + [PARODD];
    } else if o.parityMode == ParityEven {
      OrAllSingleton(PARENB);
    }
  }

  /** The control-character table: everything 0 but the two timing slots. */
  function ControlChars(vmin: Byte, vtime: Byte): (cc: seq<Byte>)
    ensures |cc| == NCCS && cc[VMIN] == vmin && cc[VTIME] == vtime
  {
    seq(NCCS, i => if i == VMIN then vmin else if i == VTIME then vtime else 0)
  }

  /** Reference definition of the conversion. The checks come in the
      Go code's order, and the first one that fails decides the error. */
  function Convert(o: OpenOptions): (r: Result<Termios, ConvertError>)
    ensures r.Success? ==> WellFormed(r.value)
  {
    var vtime := RoundedTimeout(o.interCharacterTimeout);
    if o.minimumReadSize == 0 && vtime < 100 then Failure(TimingWithoutMinimum)
    else if vtime > MaxTimeout then Failure(TimeoutTooLong)
    else if o.baudRate !in BaudRates then Failure(InvalidBaudRate)
    else if o.dataBits !in DataBitsValues then Failure(InvalidDataBits)
    else if o.stopBits !in StopBitsValues then Failure(InvalidStopBits)
    else if o.parityMode.ParityOther? then Failure(InvalidParityMode)
    else
      Success(Termios(
        iflag := 0,
        oflag := 0,
        cflag := OrAll(CflagUpdates(o)),
        lflag := 0,
        // VMIN keeps the low byte of the minimum read size: `cc_t(vmin)`.
        cc := ControlChars((o.minimumReadSize % 256) as Byte, (vtime / 100) as Byte),
        ispeed := o.baudRate as Speed,
        ospeed := o.baudRate as Speed))
  }

  /**
    The conversion as the Go code performs it: a zeroed record whose control
    flags are OR-ed in one step at a time and whose control-character array
    is written in place, with an early return at each failed check.
   */
  method ConvertOptions(options: OpenOptions) returns (r: Result<Termios, ConvertError>)
    ensures r == Convert(options)
  {
    // `var result termios`: every field starts at zero.
    var cflag: bv64 := 0;
    var cc := new Byte[NCCS](_ => 0);

    cflag := cflag | CLOCAL;
    cflag := cflag | CREAD;

    var vtime := RoundedTimeout(options.interCharacterTimeout);
    var vmin := options.minimumReadSize;
    if vmin == 0 && vtime < 100 {
      return Failure(TimingWithoutMinimum);
    }
    if vtime > MaxTimeout {
      return Failure(TimeoutTooLong);
    }

    cc[VTIME] := (vtime / 100) as Byte;
    cc[VMIN] := (vmin % 256) as Byte;

    // The Go code's switch lists the members of BaudRates as empty cases and
    // returns from its default case.
    if options.baudRate !in BaudRates {
      return Failure(InvalidBaudRate);
    }
    var ispeed := options.baudRate as Speed;
    var ospeed := options.baudRate as Speed;

    match options.dataBits {
      case 5 => cflag := cflag | CS5;
      case 6 => cflag := cflag | CS6;
      case 7 => cflag := cflag | CS7;
      case 8 => cflag := cflag | CS8;
      case _ => return Failure(InvalidDataBits);
    }
    assert cflag == CLOCAL | CREAD | CharSize(options.dataBits);

    match options.stopBits {
      case 1 =>
      case 2 => cflag := cflag | CSTOPB;
      case _ => return Failure(InvalidStopBits);
    }
    assert cflag == CLOCAL | CREAD | CharSize(options.dataBits)
                    | (if options.stopBits == 2 then CSTOPB else 0);

    match options.parityMode {
      case ParityNone =>
      case ParityOdd =>
        cflag := cflag | PARENB;
        cflag := cflag | PARODD;
      case ParityEven =>
        cflag := cflag | PARENB;
      case ParityOther =>
        return Failure(InvalidParityMode);
    }

    assert cc[..] == ControlChars((vmin % 256) as Byte, (vtime / 100) as Byte);
    assert cflag == OrAll(CflagUpdates(options)) by {
      OrAllOfCflagUpdates(options);
    }
    r := Success(Termios(0, 0, cflag, 0, cc[..], ispeed, ospeed));
  }
}
