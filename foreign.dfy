/**
 * Primitives the core calls but does not define. Each is an uninterpreted
 * function: the model relies only on its being a function of its input.
 */
module Foreign {
  import opened Wrappers
  import opened Php

  type Positive = r: real | r > 0.0 witness 1.0

  datatype Externals = Externals(
    /** `json_encode` (RFC 8259); None when it returns false. */
    jsonEncode: Value -> Option<string>,
    /** `json_decode($s, true)`; None when `json_last_error()` reports an error. */
    jsonDecode: string -> Option<Value>,
    /** `hash('sha256', $s)` (FIPS 180-4), as hexadecimal text. */
    sha256: string -> string,
    /** `preg_replace` with the e-mail rule; None when PCRE fails (null). */
    emailRule: string -> Option<string>,
    /** `preg_replace` with the phone-number rule; None when PCRE fails (null). */
    phoneRule: string -> Option<string>,
    /** `sqrt`, only ever applied to a positive sum of squares. */
    sqrt: real -> Positive
  )
}
