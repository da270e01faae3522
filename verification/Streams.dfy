/** Folds over the value streams that the decoders emit. */
module Streams {

  /** The last element of a stream, or the given start when nothing was seen. */
  function Last(start: int, s: seq<int>): int {
    if s == [] then start else s[|s| - 1]
  }

  /** The stream of changes of a value that starts at `start`: repetitions are dropped. */
  function Changes(start: int, s: seq<int>): seq<int> {
    if s == [] then []
    else
      var init := s[..|s| - 1];
      Changes(start, init) + (if s[|s| - 1] == Last(start, init) then [] else [s[|s| - 1]])
  }

  function NonZero(s: seq<int>): seq<int> {
    if s == [] then []
    else NonZero(s[..|s| - 1]) + (if s[|s| - 1] == 0 then [] else [s[|s| - 1]])
  }

  function Sum(s: seq<int>): int {
    if s == [] then 0 else Sum(s[..|s| - 1]) + s[|s| - 1]
  }

  lemma ConcatAssociative<T>(a: seq<T>, b: seq<T>, c: seq<T>)
    ensures a + (b + c) == (a + b) + c
  {
  }

  lemma SumAppend(a: seq<int>, b: seq<int>)
    ensures Sum(a + b) == Sum(a) + Sum(b)
  {
    if b == [] {
      assert a + b == a;
    } else {
      assert (a + b)[..|a + b| - 1] == a + b[..|b| - 1];
      SumAppend(a, b[..|b| - 1]);
    }
  }

  /** Consecutive elements differ, the first one from `start`. */
  ghost predicate Alternating(start: int, s: seq<int>) {
    && (s != [] ==> s[0] != start)
    && forall i, j | 0 <= i && j == i + 1 && j < |s| :: s[i] != s[j]
  }

  /** Folding the changes gives back the last value, and no change is redundant. */
  lemma {:induction false} ChangesReplay(start: int, s: seq<int>)
    ensures Last(start, Changes(start, s)) == Last(start, s)
    ensures Alternating(start, Changes(start, s))
  {
    if s != [] {
      var init := s[..|s| - 1];
      ChangesReplay(start, init);
      var c := Changes(start, init);
      assert Last(start, init) == Last(start, c);
    }
  }

  /** Over a two-valued stream the changes are 1, 0, 1, 0, ... */
  lemma {:induction false} BinaryChanges(s: seq<int>)
    requires forall i | 0 <= i < |s| :: s[i] == 0 || s[i] == 1
    ensures forall i | 0 <= i < |Changes(0, s)| :: Changes(0, s)[i] == 1 - i % 2
    ensures Last(0, s) == |Changes(0, s)| % 2
  {
    if s != [] {
      BinaryChanges(s[..|s| - 1]);
    }
  }

  lemma {:induction false} NonZeroSum(s: seq<int>)
    ensures Sum(NonZero(s)) == Sum(s)
    ensures 0 !in NonZero(s)
  {
    if s != [] {
      NonZeroSum(s[..|s| - 1]);
      var x := s[|s| - 1];
      SumAppend(NonZero(s[..|s| - 1]), if x == 0 then [] else [x]);
    }
  }
}
