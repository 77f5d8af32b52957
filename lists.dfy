/** Python's `list.remove` and the facts about it that the attack bag and the
    wave queue rely on. */
module Lists {

  /** `s.remove(x)`: drops the first element equal to `x`.  Python raises
      `ValueError` when there is none; here the list is then left as it is
      (no caller in this model removes an absent element). */
  function RemoveFirst<T(==)>(s: seq<T>, x: T): (r: seq<T>)
    ensures x in s ==> multiset(r) == multiset(s) - multiset{x}
    ensures x !in s ==> r == s
    ensures |r| == if x in s then |s| - 1 else |s|
    ensures forall y :: y in r ==> y in s
  {
    if s == [] then []
    else
      assert s == [s[0]] + s[1..];
      if s[0] == x then s[1..]
      else [s[0]] + RemoveFirst(s[1..], x)
  }

  /** Putting a removed element back restores the list's contents. */
  lemma RemoveFirstPutBack<T>(s: seq<T>, x: T)
    requires x in s
    ensures multiset(RemoveFirst(s, x)) + multiset{x} == multiset(s)
  {
    assert x in multiset(s);
  }

  /** A non-empty prefix is its head followed by the rest of it, and the
      tail's slices are the original's shifted by one. */
  lemma PrefixSplit<T>(s: seq<T>, n: nat)
    requires 1 <= n <= |s|
    ensures s[..n] == [s[0]] + s[1..n]
    ensures multiset(s[..n]) == multiset{s[0]} + multiset(s[1..n])
    ensures s[1..][..n - 1] == s[1..n] && s[1..][n - 1..] == s[n..]
  {
    assert s[..n] == [s[0]] + s[1..n];
  }

  /** A slice of a suffix is a slice of the whole, shifted. */
  lemma SliceOfSuffix<T>(s: seq<T>, m: nat, i: nat, j: nat)
    requires m <= |s| && i <= j <= |s| - m
    ensures s[m..][i..j] == s[m + i..m + j]
  {
  }

  /** No element occurs twice. */
  predicate NoDup<T(==)>(s: seq<T>) {
    forall i, j :: 0 <= i < j < |s| ==> s[i] != s[j]
  }

  /** Removing from a list without duplicates keeps it so, and the removed
      element is gone. */
  lemma {:induction false} RemoveFirstNoDup<T>(s: seq<T>, x: T)
    requires NoDup(s)
    ensures NoDup(RemoveFirst(s, x))
    ensures x !in RemoveFirst(s, x)
  {
    if s != [] && s[0] != x {
      assert NoDup(s[1..]) by {
        forall i, j | 0 <= i < j < |s[1..]| ensures s[1..][i] != s[1..][j] {
          assert s[1..][i] == s[i + 1] && s[1..][j] == s[j + 1];
        }
      }
      RemoveFirstNoDup(s[1..], x);
      var t := RemoveFirst(s[1..], x);
      assert s[0] !in s[1..] by {
        forall k | 0 <= k < |s[1..]| ensures s[1..][k] != s[0] {
          assert s[1..][k] == s[k + 1];
        }
      }
      forall i, j | 0 <= i < j < |[s[0]] + t| ensures ([s[0]] + t)[i] != ([s[0]] + t)[j] {
        if i == 0 {
          assert ([s[0]] + t)[j] == t[j - 1];
        } else {
          assert ([s[0]] + t)[i] == t[i - 1] && ([s[0]] + t)[j] == t[j - 1];
        }
      }
    } else if s != [] {
      assert x !in s[1..] by {
        forall k | 0 <= k < |s[1..]| ensures s[1..][k] != x {
          assert s[1..][k] == s[k + 1];
        }
      }
      forall i, j | 0 <= i < j < |s[1..]| ensures s[1..][i] != s[1..][j] {
        assert s[1..][i] == s[i + 1] && s[1..][j] == s[j + 1];
      }
    }
  }

  /** `for r in rs: s.remove(r)`. */
  function RemoveEach<T(==)>(s: seq<T>, rs: seq<T>): seq<T>
    decreases |rs|
  {
    if rs == [] then s else RemoveEach(RemoveFirst(s, rs[0]), rs[1..])
  }

  /** Removals that never name `x` leave a leading `x` in front. */
  lemma {:induction false} RemoveEachKeepsHead<T>(x: T, s: seq<T>, rs: seq<T>)
    requires x !in rs
    ensures RemoveEach([x] + s, rs) == [x] + RemoveEach(s, rs)
    decreases |rs|
  {
    if rs != [] {
      assert rs[0] != x;
      assert RemoveFirst([x] + s, rs[0]) == [x] + RemoveFirst(s, rs[0]) by {
        assert ([x] + s)[0] == x;
        assert ([x] + s)[1..] == s;
      }
      RemoveEachKeepsHead(x, RemoveFirst(s, rs[0]), rs[1..]);
    }
  }
}
