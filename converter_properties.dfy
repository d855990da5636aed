/**
  What the conversion guarantees: the order of its checks, stated on the raw
  options; the exact shape of the record it produces; and a decoder that
  reads the options back out of that record.
 */
module ConverterProperties {
  import opened Wrappers
  import opened OpenOptions
  import opened TermiosDarwin
  import opened Converter

  // ---------------------------------------------------------------------
  // Rounding of the inter-character timeout

  function Distance(a: int, b: int): (d: nat) {
    if a <= b then b - a else a - b
  }

  /** The rounded timeout is a multiple of 100 nearest to the timeout, and of
      two equally near multiples it is the larger one (halves round up). */
  lemma RoundedTimeoutIsNearest(t: nat, m: nat)
    requires m % 100 == 0
    ensures Distance(t, RoundedTimeout(t)) <= Distance(t, m)
    ensures Distance(t, RoundedTimeout(t)) == Distance(t, m) ==> m <= RoundedTimeout(t)
  {
  }

  /** Rounding an already rounded timeout changes nothing. */
  lemma RoundedTimeoutIdempotent(t: nat)
    ensures RoundedTimeout(RoundedTimeout(t)) == RoundedTimeout(t)
  {
  }

  lemma RoundingExamples()
    ensures RoundedTimeout(0) == 0 && RoundedTimeout(49) == 0
    ensures RoundedTimeout(50) == 100 && RoundedTimeout(149) == 100
    ensures RoundedTimeout(150) == 200 && RoundedTimeout(25549) == 25500
    ensures RoundedTimeout(25550) == 25600
  {
  }

  // ---------------------------------------------------------------------
  // The checks, stated on the options as the caller gives them

  /** The timing check, on the unrounded timeout: a read with no minimum
      size needs a timeout that rounds to at least 100 ms, and no timeout
      may round beyond 25500 ms. */
  predicate TimingValid(o: OpenOptions) {
    (o.minimumReadSize > 0 || o.interCharacterTimeout >= 50)
    && o.interCharacterTimeout < 25550
  }

  predicate BaudRateValid(o: OpenOptions) {
    o.baudRate in BaudRates
  }

  predicate DataBitsValid(o: OpenOptions) {
    5 <= o.dataBits <= 8
  }

  predicate StopBitsValid(o: OpenOptions) {
    o.stopBits == 1 || o.stopBits == 2
  }

  predicate ParityValid(o: OpenOptions) {
    o.parityMode == ParityNone || o.parityMode == ParityOdd || o.parityMode == ParityEven
  }

  /** The two thresholds of the timing check, moved from the rounded value
      back to the timeout itself. */
  lemma TimingThresholds(t: nat)
    ensures RoundedTimeout(t) < 100 <==> t < 50
    ensures RoundedTimeout(t) > MaxTimeout <==> t >= 25550
  {
  }

  /** Each error is reported exactly when its check fails and every earlier
      check passes; the conversion succeeds exactly when every check passes. */
  lemma ConvertReportsFirstFailingCheck(o: OpenOptions)
    ensures Convert(o) == Failure(TimingWithoutMinimum)
            <==> o.minimumReadSize == 0 && o.interCharacterTimeout < 50
    ensures Convert(o) == Failure(TimeoutTooLong)
            <==> (o.minimumReadSize > 0 || o.interCharacterTimeout >= 50)
                 && o.interCharacterTimeout >= 25550
    ensures Convert(o) == Failure(InvalidBaudRate)
            <==> TimingValid(o) && !BaudRateValid(o)
    ensures Convert(o) == Failure(InvalidDataBits)
            <==> TimingValid(o) && BaudRateValid(o) && !DataBitsValid(o)
    ensures Convert(o) == Failure(InvalidStopBits)
            <==> TimingValid(o) && BaudRateValid(o) && DataBitsValid(o) && !StopBitsValid(o)
    ensures Convert(o) == Failure(InvalidParityMode)
            <==> TimingValid(o) && BaudRateValid(o) && DataBitsValid(o) && StopBitsValid(o)
                 && !ParityValid(o)
    ensures Convert(o).Success?
            <==> TimingValid(o) && BaudRateValid(o) && DataBitsValid(o) && StopBitsValid(o)
                 && ParityValid(o)
  {
  }

  // ---------------------------------------------------------------------
  // The record produced on success

  /** The baseline control flags are always on; the input, output and local
      flag words stay zero, so in particular IGNPAR is never set. */
  lemma ConvertSetsBaselineFlags(o: OpenOptions, t: Termios)
    requires Convert(o) == Success(t)
    ensures t.cflag & CLOCAL == CLOCAL && t.cflag & CREAD == CREAD
    ensures t.iflag == 0 && t.oflag == 0 && t.lflag == 0
    ensures t.iflag & IGNPAR == 0
  {
  }

  /** VTIME holds the rounded timeout in tenths of a second, VMIN the low
      byte of the minimum read size, and every other slot is zero. */
  lemma ConvertFillsControlChars(o: OpenOptions, t: Termios)
    requires Convert(o) == Success(t)
    ensures |t.cc| == NCCS
    ensures t.cc[VTIME] as int * 100 == RoundedTimeout(o.interCharacterTimeout)
    ensures t.cc[VMIN] as int == o.minimumReadSize % 256
    ensures forall i :: 0 <= i < NCCS && i != VMIN && i != VTIME ==> t.cc[i] == 0
  {
  }

  /** Both speed fields carry the requested rate unchanged. */
  lemma ConvertCopiesBaudRate(o: OpenOptions, t: Termios)
    requires Convert(o) == Success(t)
    ensures t.ispeed as int == o.baudRate && t.ospeed as int == o.baudRate
  {
  }

  /** The character-size field holds the pattern of the requested number of
      data bits, and therefore none of the other three. */
  lemma ConvertSetsCharSize(o: OpenOptions, t: Termios)
    requires Convert(o) == Success(t)
    ensures o.dataBits == 5 <==> t.cflag & CSIZE == CS5
    ensures o.dataBits == 6 <==> t.cflag & CSIZE == CS6
    ensures o.dataBits == 7 <==> t.cflag & CSIZE == CS7
    ensures o.dataBits == 8 <==> t.cflag & CSIZE == CS8
  {
    OrAllOfCflagUpdates(o);
  }

  lemma ConvertSetsStopBits(o: OpenOptions, t: Termios)
    requires Convert(o) == Success(t)
    ensures t.cflag & CSTOPB == CSTOPB <==> o.stopBits == 2
    ensures t.cflag & CSTOPB == 0 <==> o.stopBits == 1
  {
    OrAllOfCflagUpdates(o);
  }

  /** Parity is enabled for odd and even parity, odd polarity only for odd
      parity; parity errors are never made to drop bytes. */
  lemma ConvertSetsParity(o: OpenOptions, t: Termios)
    requires Convert(o) == Success(t)
    ensures t.cflag & PARENB == PARENB <==> o.parityMode == ParityOdd || o.parityMode == ParityEven
    ensures t.cflag & PARENB == 0 <==> o.parityMode == ParityNone
    ensures t.cflag & PARODD == PARODD <==> o.parityMode == ParityOdd
    ensures t.iflag & IGNPAR == 0
  {
    OrAllOfCflagUpdates(o);
  }

  /** Every bit of c_cflag comes from one of the flags above. */
  lemma ConvertSetsNoOtherBits(o: OpenOptions, t: Termios)
    requires Convert(o) == Success(t)
    ensures t.cflag & !(CLOCAL | CREAD | CSIZE | CSTOPB | PARENB | PARODD) == 0
  {
    OrAllOfCflagUpdates(o);
  }

  // ---------------------------------------------------------------------
  // Reading the options back out of the record

  function DataBitsOf(cflag: bv64): (dataBits: nat)
    ensures dataBits in DataBitsValues
  {
    var size := cflag & CSIZE;
    if size == CS5 then 5 else if size == CS6 then 6 else if size == CS7 then 7 else 8
  }

  function StopBitsOf(cflag: bv64): (stopBits: nat)
    ensures stopBits in StopBitsValues
  {
    if cflag & CSTOPB == 0 then 1 else 2
  }

  function ParityOf(cflag: bv64): (p: ParityMode)
    ensures !p.ParityOther?
  {
    if cflag & PARENB == 0 then ParityNone
    else if cflag & PARODD == 0 then ParityEven
    else ParityOdd
  }

  /** The options a record stands for, with the timeout in whole tenths. */
  function Decode(portName: string, t: Termios): (o: OpenOptions)
    requires WellFormed(t)
    ensures o.portName == portName
    ensures DataBitsValid(o) && StopBitsValid(o) && ParityValid(o)
  {
    OpenOptions(
      portName := portName,
      baudRate := t.ispeed as nat,
      dataBits := DataBitsOf(t.cflag),
      stopBits := StopBitsOf(t.cflag),
      parityMode := ParityOf(t.cflag),
      interCharacterTimeout := t.cc[VTIME] as nat * 100,
      minimumReadSize := t.cc[VMIN] as nat)
  }

  /** Decoding a converted record gives back every setting, the timeout as
      rounded and the minimum read size as truncated to a byte. */
  lemma DecodeInvertsConvert(o: OpenOptions, t: Termios)
    requires Convert(o) == Success(t)
    ensures Decode(o.portName, t)
            == o.(interCharacterTimeout := RoundedTimeout(o.interCharacterTimeout),
                  minimumReadSize := o.minimumReadSize % 256)
  {
    ConvertFillsControlChars(o, t);
    OrAllOfCflagUpdates(o);
  }

  /** Converting the decoded options rebuilds the same record, except
      exactly when the minimum read size is a non-zero multiple of 256 and the
      timeout rounds to zero: VMIN then reads back as 0 with no timeout, and
      the timing check refuses the decoded options. */
  lemma ReconvertDecoded(o: OpenOptions, t: Termios)
    requires Convert(o) == Success(t)
    ensures Convert(Decode(o.portName, t)) == Success(t)
            <==> !(o.minimumReadSize % 256 == 0 && o.minimumReadSize > 0
                   && o.interCharacterTimeout < 50)
    ensures Convert(Decode(o.portName, t)) != Success(t)
            ==> Convert(Decode(o.portName, t)) == Failure(TimingWithoutMinimum)
  {
    DecodeInvertsConvert(o, t);
    RoundedTimeoutIdempotent(o.interCharacterTimeout);
  }

  /** VMIN is not range-checked: a minimum read size of 256 with no timeout
      passes the timing check and is stored as VMIN = 0, VTIME = 0, the pair
      that check refuses when it is asked for directly. */
  lemma MinimumReadSizeWrapsToZero()
    ensures var o := OpenOptions("", 9600, 8, 1, ParityNone, 0, 256);
            Convert(o).Success?
            && Convert(o).value.cc[VMIN] == 0 && Convert(o).value.cc[VTIME] == 0
            && Convert(o.(minimumReadSize := 0)) == Failure(TimingWithoutMinimum)
  {
  }

  /** The common 9600 baud, 8N1, one-byte read configuration. */
  lemma Convert9600Baud8N1()
    ensures Convert(OpenOptions("", 9600, 8, 1, ParityNone, 0, 1))
            == Success(Termios(0, 0, CLOCAL | CREAD | CS8, 0, ControlChars(1, 0), 9600, 9600))
  {
    OrAllOfCflagUpdates(OpenOptions("", 9600, 8, 1, ParityNone, 0, 1));
  }

  /** A timeout of 50 ms rounds up to one tenth and is enough without a
      minimum read size; 49 ms rounds down to zero and is not. */
  lemma TimingExamples()
    ensures var o := OpenOptions("", 9600, 8, 1, ParityNone, 50, 0);
            Convert(o).Success? && Convert(o).value.cc[VTIME] == 1
            && Convert(o.(interCharacterTimeout := 49)) == Failure(TimingWithoutMinimum)
            && Convert(o.(interCharacterTimeout := 25550)) == Failure(TimeoutTooLong)
            && Convert(o.(interCharacterTimeout := 25549)).value.cc[VTIME] == 255
  {
  }
}
