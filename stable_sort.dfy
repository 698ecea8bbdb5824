/**
 * The stable ordering of the comment feed by creation time, compared with a
 * strict `Before`. `StableSorted` is the reference definition (insertion
 * from the right that moves a comment only past strictly later ones);
 * `SortByCreatedAt` performs it in place on an array.
 */
module StableSort {
  import opened Comments

  /** Inserts `x` after every comment of `s` that is not strictly later than it. */
  function Insert(s: seq<Comment>, x: Comment): (r: seq<Comment>)
    ensures |r| == |s| + 1
  {
    if s == [] || !(x.createdAt < s[|s| - 1].createdAt) then s + [x]
    else Insert(s[..|s| - 1], x) + [s[|s| - 1]]
  }

  /** The stable sort of `s` by creation time. */
  function StableSorted(s: seq<Comment>): (r: seq<Comment>)
    ensures |r| == |s|
  {
    if s == [] then [] else Insert(StableSorted(s[..|s| - 1]), s[|s| - 1])
  }

  lemma {:induction false} InsertPermutes(s: seq<Comment>, x: Comment)
    ensures multiset(Insert(s, x)) == multiset(s) + multiset{x}
  {
    if s == [] || !(x.createdAt < s[|s| - 1].createdAt) {
    } else {
      var p, l := s[..|s| - 1], s[|s| - 1];
      InsertPermutes(p, x);
      assert s == p + [l];
    }
  }

  lemma {:induction false} InsertSorted(s: seq<Comment>, x: Comment)
    requires SortedByCreatedAt(s)
    ensures SortedByCreatedAt(Insert(s, x))
  {
    if s == [] || !(x.createdAt < s[|s| - 1].createdAt) {
    } else {
      var p, l := s[..|s| - 1], s[|s| - 1];
      InsertSorted(p, x);
      InsertPermutes(p, x);
      var q := Insert(p, x);
      forall i | 0 <= i < |q| ensures q[i].createdAt <= l.createdAt {
        assert q[i] in multiset(q);
        if q[i] != x {
          assert q[i] in multiset(p);
          var k :| 0 <= k < |p| && p[k] == q[i];
          assert s[k] == p[k];
        }
      }
    }
  }

  /** Insertion appends `x` to its own tie group and leaves every other one alone. */
  lemma {:induction false} InsertKeepsTies(s: seq<Comment>, x: Comment, t: Timestamp)
    ensures WithCreatedAt(Insert(s, x), t) == WithCreatedAt(s, t) + WithCreatedAt([x], t)
  {
    if s == [] || !(x.createdAt < s[|s| - 1].createdAt) {
      WithCreatedAtAppend(s, [x], t);
    } else {
      var p, l := s[..|s| - 1], s[|s| - 1];
      assert s == p + [l];
      InsertKeepsTies(p, x, t);
      WithCreatedAtAppend(Insert(p, x), [l], t);
      WithCreatedAtAppend(p, [l], t);
      assert WithCreatedAt([x], t) == [] || WithCreatedAt([l], t) == [];
    }
  }

  /** The reference sort orders the feed by creation time. */
  lemma {:induction false} StableSortedIsSorted(s: seq<Comment>)
    ensures SortedByCreatedAt(StableSorted(s))
  {
    if s != [] {
      StableSortedIsSorted(s[..|s| - 1]);
      InsertSorted(StableSorted(s[..|s| - 1]), s[|s| - 1]);
    }
  }

  /** The reference sort neither drops nor duplicates a comment. */
  lemma {:induction false} StableSortedPermutes(s: seq<Comment>)
    ensures multiset(StableSorted(s)) == multiset(s)
  {
    if s != [] {
      var p, l := s[..|s| - 1], s[|s| - 1];
      StableSortedPermutes(p);
      InsertPermutes(StableSorted(p), l);
      assert s == p + [l];
    }
  }

  /** The reference sort keeps comments with equal creation times in input order. */
  lemma {:induction false} StableSortedKeepsTies(s: seq<Comment>, t: Timestamp)
    ensures WithCreatedAt(StableSorted(s), t) == WithCreatedAt(s, t)
  {
    if s != [] {
      var p, l := s[..|s| - 1], s[|s| - 1];
      StableSortedKeepsTies(p, t);
      InsertKeepsTies(StableSorted(p), l, t);
      assert s == p + [l];
      WithCreatedAtAppend(p, [l], t);
    }
  }

  /** In a sorted sequence every comment is at least as late as the first. */
  lemma HeadIsEarliest(s: seq<Comment>, c: Comment)
    requires SortedByCreatedAt(s) && c in s
    ensures s[0].createdAt <= c.createdAt
  {
    var k :| 0 <= k < |s| && s[k] == c;
    if k > 0 {
      assert s[0].createdAt <= s[k].createdAt;
    }
  }

  /** Sorted sequences that agree on every tie group begin with the same comment. */
  lemma SameHead(a: seq<Comment>, b: seq<Comment>)
    requires a != [] && b != []
    requires SortedByCreatedAt(a) && SortedByCreatedAt(b)
    requires forall t :: WithCreatedAt(a, t) == WithCreatedAt(b, t)
    ensures a[0] == b[0]
  {
    var m, n := a[0].createdAt, b[0].createdAt;
    WithCreatedAtHas(a, 0);
    assert a[0] in WithCreatedAt(b, m);
    HeadIsEarliest(b, a[0]);
    WithCreatedAtHas(b, 0);
    assert b[0] in WithCreatedAt(a, n);
    HeadIsEarliest(a, b[0]);
    assert WithCreatedAt(a, m)[0] == a[0];
    assert WithCreatedAt(b, m)[0] == b[0];
  }

  /** Removing a common first comment keeps the tie groups in agreement. */
  lemma SameTailTies(a: seq<Comment>, b: seq<Comment>, t: Timestamp)
    requires a != [] && b != [] && a[0] == b[0]
    requires WithCreatedAt(a, t) == WithCreatedAt(b, t)
    ensures WithCreatedAt(a[1..], t) == WithCreatedAt(b[1..], t)
  {
    var h := if a[0].createdAt == t then [a[0]] else [];
    assert WithCreatedAt(a[1..], t) == WithCreatedAt(a, t)[|h|..];
    assert WithCreatedAt(b[1..], t) == WithCreatedAt(b, t)[|h|..];
  }

  lemma SortedTail(s: seq<Comment>)
    requires s != [] && SortedByCreatedAt(s)
    ensures SortedByCreatedAt(s[1..])
  {
    forall i, j | 0 <= i < j < |s| - 1 ensures s[1..][i].createdAt <= s[1..][j].createdAt {
      assert s[1..][i] == s[i + 1] && s[1..][j] == s[j + 1];
    }
  }

  /** A sequence that shares every tie group with the empty one is empty. */
  lemma NoTiesEmpty(s: seq<Comment>)
    requires forall t :: WithCreatedAt(s, t) == []
    ensures s == []
  {
    if s != [] {
      WithCreatedAtHas(s, 0);
    }
  }

  /**
   * Two orderings that are both sorted and agree on every tie group are the
   * same sequence.
   */
  lemma {:induction false} SortedTiesDetermine(a: seq<Comment>, b: seq<Comment>)
    requires SortedByCreatedAt(a) && SortedByCreatedAt(b)
    requires forall t :: WithCreatedAt(a, t) == WithCreatedAt(b, t)
    ensures a == b
  {
    if a == [] {
      NoTiesEmpty(b);
    } else if b == [] {
      NoTiesEmpty(a);
    } else {
      SameHead(a, b);
      SortedTail(a);
      SortedTail(b);
      forall t ensures WithCreatedAt(a[1..], t) == WithCreatedAt(b[1..], t) {
        SameTailTies(a, b, t);
      }
      SortedTiesDetermine(a[1..], b[1..]);
      assert a == [a[0]] + a[1..];
      assert b == [b[0]] + b[1..];
    }
  }

  /**
   * Any stable sort of `s` by creation time produces exactly `StableSorted(s)`,
   * whatever algorithm it uses.
   */
  lemma StableSortIsUnique(s: seq<Comment>, r: seq<Comment>)
    requires SortedByCreatedAt(r)
    requires forall t :: WithCreatedAt(r, t) == WithCreatedAt(s, t)
    ensures r == StableSorted(s)
  {
    StableSortedIsSorted(s);
    forall t ensures WithCreatedAt(r, t) == WithCreatedAt(StableSorted(s), t) {
      StableSortedKeepsTies(s, t);
    }
    SortedTiesDetermine(r, StableSorted(s));
  }

  /**
   * Moves the comment at `a[i]` leftwards into the sorted prefix `a[..i]`,
   * swapping it with its left neighbour only while it is strictly before it.
   */
  method SinkInto(a: array<Comment>, i: nat)
    requires i < a.Length
    modifies a
    ensures a[..i + 1] == Insert(old(a[..i]), old(a[i]))
    ensures a[i + 1..] == old(a[i + 1..])
  {
    ghost var sorted, x := a[..i], a[i];
    var j := i;
    while j > 0 && a[j].createdAt < a[j - 1].createdAt
      invariant 0 <= j <= i
      invariant a[j] == x
      invariant a[i + 1..] == old(a[i + 1..])
      invariant Insert(a[..j], x) + a[j + 1..i + 1] == Insert(sorted, x)
    {
      ghost var before := a[..];
      assert Insert(a[..j], x) == Insert(a[..j - 1], x) + [a[j - 1]] by {
        assert a[..j][..j - 1] == a[..j - 1];
      }
      a[j], a[j - 1] := a[j - 1], a[j];
      assert a[..j - 1] == before[..j - 1];
      assert a[j..i + 1] == [before[j - 1]] + before[j + 1..i + 1];
      j := j - 1;
    }
    assert Insert(a[..j], x) == a[..j + 1];
    assert a[..i + 1] == a[..j + 1] + a[j + 1..i + 1];
  }

  /**
   * Sorts `a` in place by creation time, stably: each comment is swapped
   * leftwards past its neighbour only while it is strictly before it.
   */
  method SortByCreatedAt(a: array<Comment>)
    modifies a
    ensures a[..] == StableSorted(old(a[..]))
    ensures SortedByCreatedAt(a[..])
    ensures multiset(a[..]) == multiset(old(a[..]))
    ensures forall t :: WithCreatedAt(a[..], t) == WithCreatedAt(old(a[..]), t)
  {
    ghost var input := a[..];
    var i := 0;
    while i < a.Length
      invariant 0 <= i <= a.Length
      invariant a[..i] == StableSorted(input[..i])
      invariant a[i..] == input[i..]
    {
      assert a[i] == input[i] by { assert a[i..][0] == input[i..][0]; }
      assert input[..i + 1][..i] == input[..i];
      SinkInto(a, i);
      i := i + 1;
    }
    assert a[..] == a[..a.Length];
    assert input == input[..a.Length];
    StableSortedIsSorted(input);
    StableSortedPermutes(input);
    forall t ensures WithCreatedAt(a[..], t) == WithCreatedAt(input, t) {
      StableSortedKeepsTies(input, t);
    }
  }
}
