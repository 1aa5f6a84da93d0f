/** The handful of JavaScript string operations the application relies on. */
module Text {

  /**
   * `s.toLowerCase()` or `s.toUpperCase()`, with the per-character mapping left
   * as a parameter: the model does not fix Unicode's case-mapping tables.
   */
  function FoldCase(fold: char -> char, s: string): (r: string)
    ensures |r| == |s|
    ensures forall i :: 0 <= i < |s| ==> r[i] == fold(s[i])
  {
    if s == [] then [] else [fold(s[0])] + FoldCase(fold, s[1..])
  }

  /**
   * `s.indexOf(q)`: the first position at which `q` occurs in `s`, or -1.
   * The empty string occurs at position 0 of every string.
   */
  function IndexOf(s: string, q: string): (r: int)
    ensures -1 <= r <= |s|
    ensures r >= 0 ==> q <= s[r..] && forall k :: 0 <= k < r ==> !(q <= s[k..])
    ensures r == -1 ==> forall k :: 0 <= k <= |s| ==> !(q <= s[k..])
    ensures r == 0 <==> q <= s
    decreases |s|
  {
    if q <= s then 0
    else if s == [] then -1
    else
      var k := IndexOf(s[1..], q);
      assert s[0..] == s;
      assert forall j :: 1 <= j <= |s| ==> s[j..] == s[1..][j - 1..];
      if k == -1 then -1 else k + 1
  }

  /** `parts.join(sep)`. */
  function Join(parts: seq<string>, sep: string): string
  {
    if |parts| == 0 then ""
    else if |parts| == 1 then parts[0]
    else parts[0] + sep + Join(parts[1..], sep)
  }

  /** Joining keeps the parts in order: adding a part appends it after one separator. */
  lemma {:induction false} JoinAppend(parts: seq<string>, last: string, sep: string)
    ensures Join(parts + [last], sep) == if parts == [] then last else Join(parts, sep) + sep + last
  {
    if |parts| <= 1 {
    } else {
      assert (parts + [last])[1..] == parts[1..] + [last];
      JoinAppend(parts[1..], last, sep);
    }
  }

  /** The joined text is as long as the parts plus one separator between each neighbouring pair. */
  lemma {:induction false} JoinLength(parts: seq<string>, sep: string)
    requires parts != []
    ensures |Join(parts, sep)| == TotalLength(parts) + (|parts| - 1) * |sep|
  {
    if |parts| > 1 {
      JoinLength(parts[1..], sep);
    }
  }

  /** The sum of the lengths of `parts`. */
  function TotalLength(parts: seq<string>): nat
  {
    if parts == [] then 0 else |parts[0]| + TotalLength(parts[1..])
  }

  /** Template-literal rendering of a non-negative integer in decimal. */
  function NatToString(n: nat): (r: string)
    ensures |r| >= 1
    ensures forall i :: 0 <= i < |r| ==> '0' <= r[i] <= '9'
    decreases n
  {
    if n < 10 then [Digit(n)] else NatToString(n / 10) + [Digit(n % 10)]
  }

  function Digit(d: nat): (c: char)
    requires d < 10
    ensures '0' <= c <= '9'
  {
    "0123456789"[d]
  }

  /** Template-literal rendering of an integer: `${n}`. */
  function IntToString(n: int): string
  {
    if n < 0 then "-" + NatToString(-n) else NatToString(n)
  }
}
