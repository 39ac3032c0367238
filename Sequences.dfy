/** `Where` over a sequence, and the fact that it is an order-preserving selection. */
module Sequences {

  /** The elements of `s` that satisfy `keep`, in their order in `s`. */
  function Filter<T>(s: seq<T>, keep: T -> bool): (r: seq<T>)
    ensures |r| <= |s|
    ensures forall k :: 0 <= k < |r| ==> keep(r[k])
  {
    if s == [] then []
    else if keep(s[0]) then [s[0]] + Filter(s[1..], keep)
    else Filter(s[1..], keep)
  }

  /** Adds one to every index: the positions of `s[1..]` seen as positions of `s`. */
  function Shift(idx: seq<nat>): (r: seq<nat>)
    ensures |r| == |idx|
    ensures forall k :: 0 <= k < |idx| ==> r[k] == idx[k] + 1
  {
    seq(|idx|, k requires 0 <= k < |idx| => idx[k] + 1)
  }

  lemma ShiftMembership(idx: seq<nat>, j: nat)
    ensures j in Shift(idx) <==> j > 0 && j - 1 in idx
  {
    var r := Shift(idx);
    if j in r {
      var k :| 0 <= k < |r| && r[k] == j;
      assert idx[k] == j - 1;
    }
    if j > 0 && j - 1 in idx {
      var k :| 0 <= k < |idx| && idx[k] == j - 1;
      assert r[k] == j;
    }
  }

  /** An order-preserving selection of `s`: position `k` of `r` is position `idx[k]` of `s`. */
  ghost predicate Selects<T>(r: seq<T>, s: seq<T>, idx: seq<nat>) {
    && |idx| == |r|
    && (forall k :: 0 <= k < |idx| ==> idx[k] < |s| && r[k] == s[idx[k]])
    && (forall k, l :: 0 <= k < l < |idx| ==> idx[k] < idx[l])
  }

  lemma SelectsTail<T>(r: seq<T>, s: seq<T>, idx: seq<nat>, x: T)
    requires Selects(r, s, idx)
    ensures Selects(r, [x] + s, Shift(idx))
    ensures Selects([x] + r, [x] + s, [0] + Shift(idx))
  {
  }

  /**
   * `Filter` keeps exactly the elements that satisfy `keep`, each once, in
   * their original order: the returned `idx` maps each kept position to its
   * position in `s`, is strictly increasing, and hits every satisfying position.
   */
  lemma {:induction false} FilterIndices<T>(s: seq<T>, keep: T -> bool) returns (idx: seq<nat>)
    ensures Selects(Filter(s, keep), s, idx)
    ensures forall j :: 0 <= j < |s| ==> (keep(s[j]) <==> j in idx)
  {
    if s == [] {
      idx := [];
      return;
    }
    var tail := s[1..];
    assert s == [s[0]] + tail;
    var rest := FilterIndices(tail, keep);
    SelectsTail(Filter(tail, keep), tail, rest, s[0]);
    if keep(s[0]) {
      idx := [0] + Shift(rest);
    } else {
      idx := Shift(rest);
    }
    forall j | 0 <= j < |s| ensures keep(s[j]) <==> j in idx {
      ShiftMembership(rest, j);
      if j > 0 {
        assert s[j] == tail[j - 1];
      }
    }
  }

  /**
   * `Filter` is empty exactly when nothing satisfies `keep`; otherwise its
   * first element is the first satisfying element of `s`.
   */
  lemma {:induction false} FilterFirst<T>(s: seq<T>, keep: T -> bool)
    ensures |Filter(s, keep)| > 0 <==> exists i :: 0 <= i < |s| && keep(s[i])
    ensures |Filter(s, keep)| > 0 ==>
      exists i :: 0 <= i < |s| && keep(s[i]) && Filter(s, keep)[0] == s[i] && forall j :: 0 <= j < i ==> !keep(s[j])
  {
    if s != [] && !keep(s[0]) {
      FilterFirst(s[1..], keep);
      if exists i :: 0 <= i < |s| && keep(s[i]) {
        var i :| 0 <= i < |s| && keep(s[i]);
        assert s[1..][i - 1] == s[i];
      }
      if |Filter(s, keep)| > 0 {
        var i :| 0 <= i < |s[1..]| && keep(s[1..][i]) && Filter(s[1..], keep)[0] == s[1..][i]
          && forall j :: 0 <= j < i ==> !keep(s[1..][j]);
        assert forall j :: 0 <= j < i + 1 ==> !keep(s[j]) by {
          forall j | 0 <= j < i + 1 ensures !keep(s[j]) {
            if j > 0 {
              assert s[j] == s[1..][j - 1];
            }
          }
        }
        assert keep(s[i + 1]) && Filter(s, keep)[0] == s[i + 1];
      }
    }
  }

  /** Filtering distributes over concatenation. */
  lemma {:induction false} FilterConcat<T>(a: seq<T>, b: seq<T>, keep: T -> bool)
    ensures Filter(a + b, keep) == Filter(a, keep) + Filter(b, keep)
  {
    if a == [] {
      assert a + b == b;
    } else {
      FilterConcat(a[1..], b, keep);
      assert (a + b)[0] == a[0] && (a + b)[1..] == a[1..] + b;
    }
  }

  /** A sequence whose every element is kept is its own filtering. */
  lemma {:induction false} FilterKeepsAll<T>(s: seq<T>, keep: T -> bool)
    requires forall i :: 0 <= i < |s| ==> keep(s[i])
    ensures Filter(s, keep) == s
  {
    if s != [] {
      FilterKeepsAll(s[1..], keep);
    }
  }
}
