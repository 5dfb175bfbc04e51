/**
 * The bounded trajectory buffer: a first-in first-out window over the most
 * recent points. Each tick pushes one point at the back and, when that makes
 * the buffer longer than its capacity, shifts the oldest point off the front.
 */
module Window {

  function Min(a: int, b: int): int {
    if a <= b then a else b
  }

  /** The most recent `n` elements of `s`, oldest first (all of `s` when it is no longer than `n`). */
  function LastN<T>(s: seq<T>, n: nat): seq<T> {
    if |s| <= n then s else s[|s| - n..]
  }

  /** Append `p`; if the buffer then holds more than `cap` elements, drop the front one. */
  function Push<T>(buf: seq<T>, p: T, cap: nat): (r: seq<T>)
    ensures |buf| <= cap ==> |r| == Min(|buf| + 1, cap)
    ensures |buf| < cap ==> r == buf + [p]
    ensures 0 < |buf| && cap <= |buf| ==> r == buf[1..] + [p]
    ensures 0 < cap ==> 0 < |r| && r[|r| - 1] == p
  {
    var grown := buf + [p];
    if |grown| > cap then grown[1..] else grown
  }

  /** The buffer never exceeds its capacity once it starts within it. */
  lemma PushBounded<T>(buf: seq<T>, p: T, cap: nat)
    requires |buf| <= cap
    ensures |Push(buf, p, cap)| <= cap
  {
  }

  /**
   * At capacity, exactly the oldest element is evicted: every other element
   * keeps its value and moves one place toward the front.
   */
  lemma PushEvictsOldest<T>(buf: seq<T>, p: T, cap: nat)
    requires 0 < cap == |buf|
    ensures |Push(buf, p, cap)| == |buf|
    ensures forall i :: 0 <= i < |buf| - 1 ==> Push(buf, p, cap)[i] == buf[i + 1]
  {
  }

  /** Pushing onto the window of a history gives the window of the extended history. */
  lemma PushKeepsWindow<T>(s: seq<T>, p: T, cap: nat)
    ensures Push(LastN(s, cap), p, cap) == LastN(s + [p], cap)
  {
    var w := LastN(s, cap);
    if |s| >= cap && 0 < cap {
      assert w[1..] + [p] == (s + [p])[|s| + 1 - cap..];
    }
  }

  /** The buffer after pushing every element of `ps`, in order, onto an empty buffer. */
  function PushAll<T>(ps: seq<T>, cap: nat): (r: seq<T>)
    ensures |r| == Min(|ps|, cap)
  {
    if |ps| == 0 then [] else Push(PushAll(ps[..|ps| - 1], cap), ps[|ps| - 1], cap)
  }

  /** Whatever was pushed, the buffer holds exactly the last `cap` pushed elements in push order. */
  lemma {:induction false} PushAllIsWindow<T>(ps: seq<T>, cap: nat)
    ensures PushAll(ps, cap) == LastN(ps, cap)
  {
    if |ps| > 0 {
      var front := ps[..|ps| - 1];
      PushAllIsWindow(front, cap);
      PushKeepsWindow(front, ps[|ps| - 1], cap);
      assert front + [ps[|ps| - 1]] == ps;
    }
  }
}
