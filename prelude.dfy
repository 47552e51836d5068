/** Small value types shared by the model: optional values, results of
    computations that can fail with a message, the completion of a Python
    call that may raise, and the ASCII part of Python's str.lower. */
module Prelude {

  /** Python's Optional[T]: None or a value. */
  datatype Option<+T> = None | Some(value: T)

  /** A value, or the message of the error that stopped its computation. */
  datatype Result<+T> = Ok(value: T) | Err(error: string)

  /** How a Python call that can raise completed: normally, or by raising an
      exception whose str() is `message`. */
  datatype Outcome = Pass | Raised(message: string)

  predicate IsUpper(c: char) { 'A' <= c <= 'Z' }

  function LowerChar(c: char): (r: char)
    ensures !IsUpper(r)
    ensures !IsUpper(c) ==> r == c
  {
    if IsUpper(c) then (c as int - 'A' as int + 'a' as int) as char else c
  }

  /** str.lower restricted to ASCII letters. */
  function Lower(s: string): (r: string)
    ensures |r| == |s|
    ensures forall i :: 0 <= i < |s| ==> r[i] == LowerChar(s[i])
  {
    if s == [] then [] else [LowerChar(s[0])] + Lower(s[1..])
  }

  /** Lower-casing a string without upper-case letters changes nothing, and
      lower-casing twice is lower-casing once. */
  lemma LowerFixesLowercase(s: string)
    ensures (forall i :: 0 <= i < |s| ==> !IsUpper(s[i])) ==> Lower(s) == s
    ensures Lower(Lower(s)) == Lower(s)
  {
  }
}
