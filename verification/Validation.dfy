/** What the request validators share (internal/validator/types.go, internal/validator/openai.go). */
module Validation {
  /** Any level that is neither off nor strict is lenient. */
  datatype Level = Off | Lenient | Strict

  function Clamp(v: real, low: real, high: real): (r: real)
    ensures low <= high ==> low <= r <= high
  {
    if v < low then low else if v > high then high else v
  }
}
