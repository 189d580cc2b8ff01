/** A Python `collections.deque` created with `maxlen`, as a sequence whose
    length never exceeds that bound (oldest element at index 0). */
module BoundedQueue {

  /** The reference meaning of a bounded FIFO: the last `n` elements of `s`,
      or all of `s` when it has no more than `n`. */
  function Last<T>(s: seq<T>, n: nat): seq<T> {
    if |s| <= n then s else s[|s| - n..]
  }

  /** `deque.append(x)` on a full deque: the new element goes on the right and,
      if that overflows `maxlen`, one element is dropped from the left. */
  function Append<T>(q: seq<T>, x: T, maxlen: nat): (r: seq<T>)
    requires |q| <= maxlen
    ensures r == Last(q + [x], maxlen)
    ensures |r| <= maxlen
  {
    var grown := q + [x];
    if |grown| > maxlen then grown[1..] else grown
  }

  /** Appending one element at a time never needs more than the last `n`
      elements of what came before. */
  lemma LastOfLast<T>(s: seq<T>, t: seq<T>, n: nat)
    ensures Last(Last(s, n) + t, n) == Last(s + t, n)
  {
    if |s| > n {
      var cut := |s| - n;
      assert Last(s, n) + t == (s + t)[cut..];
      assert |Last(s, n) + t| >= n;
      if |Last(s, n) + t| > n {
        assert (s + t)[cut..][|(s + t)[cut..]| - n..] == (s + t)[|s + t| - n..];
      }
    }
  }

  /** A run of appends: the elements of `xs` appended one after the other. */
  function AppendAll<T>(q: seq<T>, xs: seq<T>, maxlen: nat): (r: seq<T>)
    requires |q| <= maxlen
    ensures |r| <= maxlen
    decreases |xs|
  {
    if xs == [] then q else AppendAll(Append(q, xs[0], maxlen), xs[1..], maxlen)
  }

  /** However many elements are appended, the deque holds exactly the last
      `maxlen` of everything appended so far, in order. */
  lemma {:induction false} AppendAllKeepsLast<T>(q: seq<T>, xs: seq<T>, maxlen: nat)
    requires |q| <= maxlen
    ensures AppendAll(q, xs, maxlen) == Last(q + xs, maxlen)
    decreases |xs|
  {
    if xs == [] {
      assert q + xs == q;
    } else {
      var q' := Append(q, xs[0], maxlen);
      AppendAllKeepsLast(q', xs[1..], maxlen);
      LastOfLast(q + [xs[0]], xs[1..], maxlen);
      assert q + [xs[0]] + xs[1..] == q + xs;
    }
  }
}
