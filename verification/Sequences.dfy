/** Facts about sequences that several modules need. */
module Sequences {
  lemma Assoc<T>(a: seq<T>, b: seq<T>, c: seq<T>)
    ensures (a + b) + c == a + (b + c)
  {}

  /** xs is ys with some elements left out. */
  ghost predicate Subsequence<T>(xs: seq<T>, ys: seq<T>) {
    xs == [] ||
    (ys != [] &&
     ((xs[|xs| - 1] == ys[|ys| - 1] && Subsequence(xs[..|xs| - 1], ys[..|ys| - 1]))
      || Subsequence(xs, ys[..|ys| - 1])))
  }

  lemma {:induction false} SubsequenceAppend<T>(xs: seq<T>, ys: seq<T>, tail: seq<T>)
    requires Subsequence(xs, ys)
    ensures Subsequence(xs + tail, ys + tail)
    decreases |tail|
  {
    if tail == [] {
      assert xs + tail == xs && ys + tail == ys;
    } else {
      var t := tail[..|tail| - 1];
      SubsequenceAppend(xs, ys, t);
      assert (xs + tail)[..|xs + tail| - 1] == xs + t;
      assert (ys + tail)[..|ys + tail| - 1] == ys + t;
    }
  }

  /** The last elements of both are the same, or the longer one's is left out. */
  lemma SubsequenceOne<T>(xs: seq<T>, ys: seq<T>, x: T)
    requires Subsequence(xs, ys)
    ensures Subsequence(xs + [x], ys + [x]) && Subsequence(xs, ys + [x])
  {
    assert (xs + [x])[..|xs|] == xs && (ys + [x])[..|ys|] == ys;
  }
}
