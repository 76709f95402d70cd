/** Small shared datatypes, joining, and a fact about sequences. */
module Basics {
  datatype Option<+T> = None | Some(value: T)

  /** strings.Join for a separator of one character. */
  function JoinWith(parts: seq<string>, sep: char): string {
    if parts == [] then "" else if |parts| == 1 then parts[0] else parts[0] + [sep] + JoinWith(parts[1..], sep)
  }

  lemma SeqAssoc<T>(a: seq<T>, b: seq<T>, c: seq<T>)
    ensures a + (b + c) == a + b + c
  {
  }
}
