/**
  The portable configuration record a caller hands to the serial package.
  The Go declaration (serial/serial.go) is not part of this model; the fields
  below are the ones the converter reads. The Go code's fields are unsigned
  machine integers; they are modelled as naturals, and every place where the
  converter narrows one to a smaller type does so explicitly.
 */
module OpenOptions {

  /** The Go code's integer `ParityMode` type. Its three named constants get a
      constructor each; `ParityOther` stands for every other value of the
      type, which the converter rejects. */
  datatype ParityMode = ParityNone | ParityOdd | ParityEven | ParityOther

  datatype OpenOptions = OpenOptions(
    portName: string,
    baudRate: nat,
    dataBits: nat,
    stopBits: nat,
    parityMode: ParityMode,
    /** Milliseconds of silence after which a pending read returns. */
    interCharacterTimeout: nat,
    /** Bytes that complete a read without waiting for the timeout. */
    minimumReadSize: nat
  )
}
