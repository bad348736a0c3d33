/** The few string operations of Python that the model needs. */
module Text {

  function DigitChar(d: nat): char
    requires d < 10
  {
    "0123456789"[d]
  }

  /** `str(n)` for a non-negative int: its decimal digits. */
  function NatStr(n: nat): (s: string)
    ensures |s| >= 1
    decreases n
  {
    if n < 10 then [DigitChar(n)] else NatStr(n / 10) + [DigitChar(n % 10)]
  }

  /** Distinct numbers have distinct decimal texts. */
  lemma {:induction false} NatStrInjective(a: nat, b: nat)
    requires NatStr(a) == NatStr(b)
    ensures a == b
    decreases a
  {
    var sa, sb := NatStr(a), NatStr(b);
    assert sa[|sa| - 1] == sb[|sb| - 1];
    if a >= 10 && b >= 10 {
      assert NatStr(a / 10) == sa[..|sa| - 1] == sb[..|sb| - 1] == NatStr(b / 10);
      NatStrInjective(a / 10, b / 10);
    }
  }

  /** `str(i)` for any int. */
  function IntStr(i: int): string {
    if i < 0 then "-" + NatStr(-i) else NatStr(i)
  }

  /** `p in s` for two Python strings: `p` occurs in `s` as a contiguous block. */
  predicate IsSubstring(p: string, s: string)
    decreases |s|
  {
    p <= s || (s != [] && IsSubstring(p, s[1..]))
  }

  /** `s.split(":")[0]`: the text before the first ':' (all of `s` when it has none). */
  function FirstSegment(s: string): (r: string)
    ensures r <= s
    ensures ':' !in r
    ensures r == s || s[|r|] == ':'
  {
    if s == [] || s[0] == ':' then [] else [s[0]] + FirstSegment(s[1..])
  }

  /** `s[-3:]`: the last three characters (all of `s` when it is shorter). */
  function LastThree(s: string): (r: string)
    ensures |r| == if |s| < 3 then |s| else 3
    ensures s == s[..|s| - |r|] + r
  {
    if |s| < 3 then s else s[|s| - 3..]
  }

  /** `name[:-1]`: `name` without its last character ("" stays ""). */
  function DropLast(name: string): (r: string)
    ensures name == [] ==> r == []
    ensures name != [] ==> name == r + [name[|name| - 1]]
  {
    if name == [] then [] else name[..|name| - 1]
  }

  /** Text joined after a colon-free head splits back to that head. */
  lemma {:induction false} FirstSegmentJoined(head: string, rest: string)
    requires ':' !in head
    ensures FirstSegment(head + ":" + rest) == head
  {
    if head != [] {
      assert (head + ":" + rest)[1..] == head[1..] + ":" + rest;
      FirstSegmentJoined(head[1..], rest);
    }
  }

  /** The last three characters come from the tail when it is long enough. */
  lemma LastThreeOfTail(front: string, tail: string)
    requires |tail| >= 3
    ensures LastThree(front + tail) == LastThree(tail)
  {
    assert (front + tail)[|front + tail| - 3..] == tail[|tail| - 3..];
  }
}
