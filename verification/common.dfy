/** Small building blocks shared by every part of the model: optional and
    failing results, ASCII case folding, and calendar timestamps. */
module Common {

  datatype Option<+T> = None | Some(value: T)

  datatype Result<+R, +E> = Success(value: R) | Failure(error: E)

  /** A clock reading. Only its calendar date (a day number) is ever inspected:
      `timestamp.date()` in Python, the `date` field of a food item in React. */
  datatype Timestamp = Timestamp(date: int, secondOfDay: real)

  /** Lower-casing of one character. Only the ASCII letters A-Z are folded. */
  function LowerChar(c: char): char
  {
    if 'A' <= c <= 'Z' then (c as int + 32) as char else c
  }

  /** `s.lower()` in Python, `s.toLowerCase()` in JavaScript, on ASCII text. */
  function Lower(s: string): (r: string)
    ensures |r| == |s|
    ensures forall i :: 0 <= i < |s| ==> r[i] == LowerChar(s[i])
  {
    if s == [] then [] else [LowerChar(s[0])] + Lower(s[1..])
  }

  /** The elements of `s` in the opposite order (Python's `list.reverse()`). */
  function Reversed<T>(s: seq<T>): (r: seq<T>)
    ensures |r| == |s|
    ensures forall k :: 0 <= k < |s| ==> r[k] == s[|s| - 1 - k]
  {
    if s == [] then [] else Reversed(s[1..]) + [s[0]]
  }
}
