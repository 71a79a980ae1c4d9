/** Small text utilities used by symbols, error messages and displays. */
module Text {

  /** A text made of a head, a middle and a tail starts with the head and ends with the tail. */
  lemma Framed(head: string, middle: string, tail: string)
    ensures var t := head + middle + tail;
            |t| >= |head| + |tail| && t[..|head|] == head && t[|t| - |tail|..] == tail
  {
    var t := head + middle + tail;
    assert t == head + (middle + tail);
    assert t == (head + middle) + tail;
  }

  /** Position of the first occurrence of `c` in `s`, or `|s|` when `c` does not occur. */
  function IndexOf(s: string, c: char): (i: nat)
    ensures i <= |s|
    ensures i < |s| ==> s[i] == c
    ensures forall j :: 0 <= j < i ==> s[j] != c
  {
    if s == [] then 0
    else if s[0] == c then 0
    else 1 + IndexOf(s[1..], c)
  }

  /** Splitting at the first `c` of a text whose first part does not contain `c`
      recovers both parts. */
  lemma IndexOfJoined(first: string, c: char, rest: string)
    requires c !in first
    ensures IndexOf(first + [c] + rest, c) == |first|
    ensures (first + [c] + rest)[..|first|] == first
    ensures (first + [c] + rest)[|first| + 1..] == rest
  {
    var t := first + [c] + rest;
    assert t[|first|] == c;
  }

  /** Decimal digits of a natural number, most significant first. */
  function NatText(n: nat): (r: string)
    ensures |r| > 0
    ensures forall k :: 0 <= k < |r| ==> '0' <= r[k] <= '9'
  {
    if n < 10 then [Digit(n)] else NatText(n / 10) + [Digit(n % 10)]
  }

  function Digit(d: nat): (c: char)
    requires d < 10
    ensures '0' <= c <= '9'
  {
    ['0', '1', '2', '3', '4', '5', '6', '7', '8', '9'][d]
  }

  /** Decimal text of an integer with a leading `-` for negative numbers (Rust's `{}` on an i64). */
  function IntText(i: int): (r: string)
    ensures |r| > 0
    ensures (r[0] == '-') <==> i < 0
  {
    if i < 0 then "-" + NatText(-i) else NatText(i)
  }

  /** The items of `items` separated by `sep` (Rust's `join`). */
  function Join(items: seq<string>, sep: string): (r: string)
    ensures items == [] ==> r == ""
    ensures |items| == 1 ==> r == items[0]
  {
    if items == [] then ""
    else if |items| == 1 then items[0]
    else items[0] + sep + Join(items[1..], sep)
  }
}
