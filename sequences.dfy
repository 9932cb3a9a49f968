/** Concatenating what a function gives for each element of a sequence, and
    the facts about it the streaming proofs rely on.  The function is a
    parameter, so these proofs never look inside it. */
module Sequences {

  /** Concatenation is associative; stated once so that callers need not
      rediscover it among large terms. */
  lemma AppendAssociative<T>(a: seq<T>, b: seq<T>, c: seq<T>)
    ensures (a + b) + c == a + (b + c)
  {
  }

  /** `f(xs[0]) + f(xs[1]) + ... + f(xs[|xs| - 1])` */
  function ConcatMap<T, U>(f: T -> seq<U>, xs: seq<T>): seq<U> {
    if xs == [] then [] else f(xs[0]) + ConcatMap(f, xs[1..])
  }

  /** One more element at the end contributes its image at the end. */
  lemma {:induction false} ConcatMapSnoc<T, U>(f: T -> seq<U>, xs: seq<T>, x: T)
    ensures ConcatMap(f, xs + [x]) == ConcatMap(f, xs) + f(x)
    decreases |xs|
  {
    var ys := xs + [x];
    if xs == [] {
      assert ys == [x] && ys[1..] == [];
    } else {
      assert ys[0] == xs[0];
      assert ys[1..] == xs[1..] + [x];
      ConcatMapSnoc(f, xs[1..], x);
      calc {
        ConcatMap(f, ys);
        f(xs[0]) + ConcatMap(f, xs[1..] + [x]);
        f(xs[0]) + (ConcatMap(f, xs[1..]) + f(x));
        (f(xs[0]) + ConcatMap(f, xs[1..])) + f(x);
      }
    }
  }

  /** The same, for a non-empty sequence split before its last element. */
  lemma ConcatMapLast<T, U>(f: T -> seq<U>, xs: seq<T>)
    requires xs != []
    ensures ConcatMap(f, xs) == ConcatMap(f, xs[..|xs| - 1]) + f(xs[|xs| - 1])
  {
    var init := xs[..|xs| - 1];
    assert xs == init + [xs[|xs| - 1]];
    ConcatMapSnoc(f, init, xs[|xs| - 1]);
  }

  /** If every element of every image satisfies `p`, so does every element of the concatenation. */
  lemma {:induction false} ConcatMapAll<T, U>(f: T -> seq<U>, xs: seq<T>, p: U -> bool)
    requires forall i, j :: 0 <= i < |xs| && 0 <= j < |f(xs[i])| ==> p(f(xs[i])[j])
    ensures forall k :: 0 <= k < |ConcatMap(f, xs)| ==> p(ConcatMap(f, xs)[k])
    decreases |xs|
  {
    if xs != [] {
      var rest := xs[1..];
      assert forall i :: 0 <= i < |rest| ==> rest[i] == xs[i + 1];
      ConcatMapAll(f, rest, p);
      var head := f(xs[0]);
      var tail := ConcatMap(f, rest);
      assert ConcatMap(f, xs) == head + tail;
      forall k | 0 <= k < |head + tail| ensures p((head + tail)[k]) {
        if k < |head| {
          assert (head + tail)[k] == f(xs[0])[k];
        } else {
          assert (head + tail)[k] == tail[k - |head|];
        }
      }
    }
  }

  /** If every image is empty or a pair whose first element satisfies `p` and
      second satisfies `q`, the concatenation is a sequence of such pairs. */
  lemma {:induction false} ConcatMapPairs<T, U>(f: T -> seq<U>, xs: seq<T>, p: U -> bool, q: U -> bool)
    requires forall i :: 0 <= i < |xs| ==> f(xs[i]) == [] || (|f(xs[i])| == 2 && p(f(xs[i])[0]) && q(f(xs[i])[1]))
    ensures |ConcatMap(f, xs)| % 2 == 0
    ensures forall k :: 0 <= k < |ConcatMap(f, xs)| / 2 ==>
      p(ConcatMap(f, xs)[2 * k]) && q(ConcatMap(f, xs)[2 * k + 1])
    decreases |xs|
  {
    if xs != [] {
      var rest := xs[1..];
      assert forall i :: 0 <= i < |rest| ==> rest[i] == xs[i + 1];
      ConcatMapPairs(f, rest, p, q);
      var head := f(xs[0]);
      var tail := ConcatMap(f, rest);
      assert ConcatMap(f, xs) == head + tail;
      if head != [] {
        forall k | 0 <= k < |head + tail| / 2
          ensures p((head + tail)[2 * k]) && q((head + tail)[2 * k + 1])
        {
          if k > 0 {
            assert (head + tail)[2 * k] == tail[2 * (k - 1)];
            assert (head + tail)[2 * k + 1] == tail[2 * (k - 1) + 1];
          }
        }
      }
    }
  }
}
