/** Go's `strings.Join`. */
module Strings {

  /** The parts in order with `sep` between each neighbouring pair. */
  function Join(parts: seq<string>, sep: string): (joined: string)
    ensures |parts| == 0 ==> joined == ""
    ensures |parts| == 1 ==> joined == parts[0]
    ensures 1 <= |parts| ==> |joined| == TotalLength(parts) + (|parts| - 1) * |sep|
    ensures 1 <= |parts| ==> joined[..|parts[0]|] == parts[0]
  {
    if |parts| == 0 then ""
    else if |parts| == 1 then parts[0]
    else parts[0] + sep + Join(parts[1..], sep)
  }

  /** The sum of the lengths of `parts`. */
  function TotalLength(parts: seq<string>): nat
  {
    if |parts| == 0 then 0 else |parts[0]| + TotalLength(parts[1..])
  }

  /** Joining two parts puts the separator once between them. */
  lemma JoinTwo(a: string, b: string, sep: string)
    ensures Join([a, b], sep) == a + sep + b
  {
    assert [a, b][1..] == [b];
  }
}
