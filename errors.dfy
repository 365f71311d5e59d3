/** The exceptions the load generator can raise. */
module Errors {

  datatype Error =
    /** `ValueError("Unsupported data type: ...")` from the field synthesizer. */
    | UnsupportedDataType(dtype: string)
    /** `ZeroDivisionError` from `1 / tps` or from `total_tps // num_threads`. */
    | ZeroDivision
    /** `ValueError` raised by `time.sleep` when the pause is negative. */
    | NegativeSleep

  /** The text of the `ValueError` carried by `UnsupportedDataType(dtype)`. */
  function UnsupportedMessage(dtype: string): (m: string)
    ensures |m| == 23 + |dtype| && m[..23] == "Unsupported data type: " && m[23..] == dtype
  {
    "Unsupported data type: " + dtype
  }

  /** Different tags give different messages, so the message identifies the tag. */
  lemma UnsupportedMessageInjective(a: string, b: string)
    ensures UnsupportedMessage(a) == UnsupportedMessage(b) <==> a == b
  {
    if UnsupportedMessage(a) == UnsupportedMessage(b) {
      assert a == UnsupportedMessage(a)[23..];
    }
  }
}
