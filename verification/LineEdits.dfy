/** Deleting lines of a file by index. */
module LineEdits {
  predicate Ascending(s: seq<nat>) { forall i, j | 0 <= i < j < |s| :: s[i] < s[j] }

  /** `lines` without the ones whose index, counted from `at`, is in `drop`. */
  function Without<T>(lines: seq<T>, drop: set<nat>, at: nat): (kept: seq<T>)
    ensures |kept| <= |lines|
  {
    if lines == [] then []
    else if at in drop then Without(lines[1..], drop, at + 1)
    else [lines[0]] + Without(lines[1..], drop, at + 1)
  }

  lemma {:induction false} WithoutNothing<T>(lines: seq<T>, drop: set<nat>, at: nat)
    requires forall i | at <= i < at + |lines| :: i !in drop
    ensures Without(lines, drop, at) == lines
  {
    if lines != [] { WithoutNothing(lines[1..], drop, at + 1); }
  }

  lemma {:induction false} WithoutConcat<T>(a: seq<T>, b: seq<T>, drop: set<nat>, at: nat)
    ensures Without(a + b, drop, at) == Without(a, drop, at) + Without(b, drop, at + |a|)
  {
    if a == [] {
      assert a + b == b;
    } else {
      assert (a + b)[1..] == a[1..] + b;
      WithoutConcat(a[1..], b, drop, at + 1);
    }
  }

  /** `lines` with the filter applied from index `hi` on: the state of a back-to-front deletion. */
  function FilteredFrom<T>(lines: seq<T>, drop: set<nat>, hi: nat): (now: seq<T>)
    requires hi <= |lines|
    ensures |now| >= hi
  {
    lines[..hi] + Without(lines[hi..], drop, hi)
  }

  /** Indices that are not popped do not matter. */
  lemma SkipGap<T>(lines: seq<T>, drop: set<nat>, lo: nat, hi: nat)
    requires lo <= hi <= |lines| && forall i | lo <= i < hi :: i !in drop
    ensures FilteredFrom(lines, drop, lo) == FilteredFrom(lines, drop, hi)
  {
    WithoutNothing(lines[lo..hi], drop, lo);
    assert lines[lo..] == lines[lo..hi] + lines[hi..];
    WithoutConcat(lines[lo..hi], lines[hi..], drop, lo);
    assert lines[..hi] == lines[..lo] + lines[lo..hi];
  }

  /** Popping `p` extends the filter by one index; what lies before `p` has not moved. */
  lemma PopOne<T>(lines: seq<T>, drop: set<nat>, p: nat)
    requires p < |lines| && p in drop
    ensures var now := FilteredFrom(lines, drop, p + 1);
      now[p] == lines[p] && now[..p] + now[p + 1..] == FilteredFrom(lines, drop, p)
  {
    var now := FilteredFrom(lines, drop, p + 1);
    assert lines[p..][1..] == lines[p + 1..];
    assert now[..p] == lines[..p];
    assert now[p + 1..] == Without(lines[p + 1..], drop, p + 1);
  }

  lemma FilteredFromStart<T>(lines: seq<T>, drop: set<nat>)
    ensures FilteredFrom(lines, drop, 0) == Without(lines, drop, 0)
    ensures FilteredFrom(lines, drop, |lines|) == lines
  {
  }

  function Map<T, U>(f: T -> U, s: seq<T>): (t: seq<U>)
    ensures |t| == |s| && forall i | 0 <= i < |s| :: t[i] == f(s[i])
  {
    seq(|s|, i requires 0 <= i < |s| => f(s[i]))
  }

  /** Deleting lines does not depend on what is read off them. */
  lemma {:induction false} MapWithout<T, U>(f: T -> U, lines: seq<T>, drop: set<nat>, at: nat)
    ensures Map(f, Without(lines, drop, at)) == Without(Map(f, lines), drop, at)
  {
    if lines != [] {
      assert Map(f, lines)[1..] == Map(f, lines[1..]);
      MapWithout(f, lines[1..], drop, at + 1);
    }
  }
}
