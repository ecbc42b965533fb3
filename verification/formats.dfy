/** The sample-format dispatch of the input converter. */
module SampleConverter {

  /** The element formats a caller may tag its buffer with; any other tag is Unrecognized. */
  datatype SampleFormat =
    | FormatByte
    | FormatShort
    | FormatInt
    | FormatLong
    | FormatLongLong
    | FormatDouble
    | FormatSingle
    | Unrecognized(tag: int)

  predicate IsRecognized(format: SampleFormat) {
    !format.Unrecognized?
  }

  /**
   * The return code of the converter: 0 when the buffer was converted (the native format is
   * copied verbatim, every other recognised format is cast element by element), 1 when the
   * format tag is not recognised and the freshly allocated output buffer is released.
   */
  function ConvertToSamples(format: SampleFormat): (failed: nat)
    ensures failed <= 1
    ensures failed == 0 <==> IsRecognized(format)
  {
    match format
    case FormatSingle => 0
    case FormatByte => 0
    case FormatShort => 0
    case FormatInt => 0
    case FormatLong => 0
    case FormatLongLong => 0
    case FormatDouble => 0
    case Unrecognized(_) => 1
  }
}
