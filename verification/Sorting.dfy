/** A stable sort by an integer key, standing for the library sort. */
module Sorting {

  function InsertBy<T>(key: T -> int, s: seq<T>, x: T): (r: seq<T>)
    ensures |r| == |s| + 1
  {
    if |s| == 0 || key(s[|s| - 1]) <= key(x) then s + [x]
    else InsertBy(key, s[..|s| - 1], x) + [s[|s| - 1]]
  }

  function SortBy<T>(key: T -> int, s: seq<T>): (r: seq<T>)
    ensures |r| == |s|
  {
    if |s| == 0 then [] else InsertBy(key, SortBy(key, s[..|s| - 1]), s[|s| - 1])
  }

  ghost predicate Ascending<T>(key: T -> int, s: seq<T>) {
    forall i, j | 0 <= i < j < |s| :: key(s[i]) <= key(s[j])
  }

  ghost predicate StrictlyAscending<T>(key: T -> int, s: seq<T>) {
    forall i, j | 0 <= i < j < |s| :: key(s[i]) < key(s[j])
  }

  ghost predicate DistinctKeys<T>(key: T -> int, s: seq<T>) {
    forall i, j | 0 <= i < j < |s| :: key(s[i]) != key(s[j])
  }

  lemma {:induction false} InsertMembers<T>(key: T -> int, s: seq<T>, x: T, y: T)
    ensures y in InsertBy(key, s, x) <==> y in s || y == x
  {
    if |s| > 0 && key(s[|s| - 1]) > key(x) {
      InsertMembers(key, s[..|s| - 1], x, y);
      assert s == s[..|s| - 1] + [s[|s| - 1]];
    }
  }

  lemma {:induction false} InsertAscending<T>(key: T -> int, s: seq<T>, x: T)
    requires Ascending(key, s)
    ensures Ascending(key, InsertBy(key, s, x))
    ensures StrictlyAscending(key, s) && (forall i | 0 <= i < |s| :: key(s[i]) != key(x)) ==> StrictlyAscending(key, InsertBy(key, s, x))
  {
    if |s| > 0 && key(s[|s| - 1]) > key(x) {
      var t, z := s[..|s| - 1], s[|s| - 1];
      InsertAscending(key, t, x);
      var r := InsertBy(key, t, x);
      forall i | 0 <= i < |r| ensures r[i] == x || exists j :: 0 <= j < |t| && t[j] == r[i] {
        InsertMembers(key, t, x, r[i]);
      }
    }
  }

  lemma {:induction false} SortMembers<T>(key: T -> int, s: seq<T>, y: T)
    ensures y in SortBy(key, s) <==> y in s
  {
    if |s| > 0 {
      SortMembers(key, s[..|s| - 1], y);
      InsertMembers(key, SortBy(key, s[..|s| - 1]), s[|s| - 1], y);
      assert s == s[..|s| - 1] + [s[|s| - 1]];
    }
  }

  /** Sorting orders the keys, and strictly so when they are distinct. */
  lemma {:induction false} SortAscending<T>(key: T -> int, s: seq<T>)
    ensures Ascending(key, SortBy(key, s))
    ensures DistinctKeys(key, s) ==> StrictlyAscending(key, SortBy(key, s))
  {
    if |s| > 0 {
      var t, x := s[..|s| - 1], s[|s| - 1];
      SortAscending(key, t);
      InsertAscending(key, SortBy(key, t), x);
      var r := SortBy(key, t);
      forall i | 0 <= i < |r| ensures exists j :: 0 <= j < |t| && t[j] == r[i] {
        SortMembers(key, t, r[i]);
      }
    }
  }

  // ---------------------------------------------------------------------------------------------
  // Cutting at a key
  // ---------------------------------------------------------------------------------------------

  /** The elements whose key is at most `d`, in order. */
  function Below<T>(key: T -> int, s: seq<T>, d: int): seq<T> {
    if |s| == 0 then [] else Below(key, s[..|s| - 1], d) + if key(s[|s| - 1]) <= d then [s[|s| - 1]] else []
  }

  lemma BelowOneMore<T>(key: T -> int, s: seq<T>, x: T, d: int)
    ensures Below(key, s + [x], d) == if key(x) <= d then Below(key, s, d) + [x] else Below(key, s, d)
  {
    assert (s + [x])[..|s|] == s;
  }

  lemma InsertOneMore<T>(key: T -> int, s: seq<T>, z: T, x: T)
    ensures InsertBy(key, s + [z], x) == if key(z) <= key(x) then s + [z] + [x] else InsertBy(key, s, x) + [z]
  {
    assert (s + [z])[..|s|] == s;
  }

  lemma SortOneMore<T>(key: T -> int, s: seq<T>, x: T)
    ensures SortBy(key, s + [x]) == InsertBy(key, SortBy(key, s), x)
  {
    assert (s + [x])[..|s|] == s;
  }

  lemma {:induction false} BelowInsert<T>(key: T -> int, s: seq<T>, x: T, d: int)
    ensures Below(key, InsertBy(key, s, x), d) == if key(x) <= d then InsertBy(key, Below(key, s, d), x) else Below(key, s, d)
  {
    if |s| == 0 || key(s[|s| - 1]) <= key(x) {
      BelowOneMore(key, s, x, d);
    } else {
      var t, z := s[..|s| - 1], s[|s| - 1];
      assert s == t + [z];
      BelowInsert(key, t, x, d);
      BelowInsertStep(key, t, z, x, d);
    }
  }

  lemma BelowInsertStep<T>(key: T -> int, t: seq<T>, z: T, x: T, d: int)
    requires key(z) > key(x)
    requires Below(key, InsertBy(key, t, x), d) == if key(x) <= d then InsertBy(key, Below(key, t, d), x) else Below(key, t, d)
    ensures Below(key, InsertBy(key, t + [z], x), d)
      == if key(x) <= d then InsertBy(key, Below(key, t + [z], d), x) else Below(key, t + [z], d)
  {
    InsertOneMore(key, t, z, x);
    BelowOneMore(key, t, z, d);
    BelowOneMore(key, InsertBy(key, t, x), z, d);
    if key(z) <= d {
      InsertOneMore(key, Below(key, t, d), z, x);
    }
  }

  /** Cutting before or after the sort gives the same. */
  lemma {:induction false} SortBelow<T>(key: T -> int, s: seq<T>, d: int)
    ensures SortBy(key, Below(key, s, d)) == Below(key, SortBy(key, s), d)
  {
    if |s| > 0 {
      var t, x := s[..|s| - 1], s[|s| - 1];
      SortBelow(key, t, d);
      assert s == t + [x];
      BelowOneMore(key, t, x, d);
      BelowInsert(key, SortBy(key, t), x, d);
      SortOneMore(key, Below(key, t, d), x);
    }
  }

  /** The first `k` elements are those with a key of at most `d`. */
  ghost predicate CutsAt<T>(key: T -> int, s: seq<T>, k: nat, d: int) {
    && k <= |s|
    && (forall i | 0 <= i < k :: key(s[i]) <= d)
    && (forall i | k <= i < |s| :: key(s[i]) > d)
  }

  lemma CutOneMore<T>(key: T -> int, t: seq<T>, z: T, k: nat, d: int)
    requires CutsAt(key, t, k, d) && key(z) > d
    ensures CutsAt(key, t + [z], k, d) && (t + [z])[..k] == t[..k]
  {
  }

  lemma AllBelowLast<T>(key: T -> int, s: seq<T>, d: int)
    requires Ascending(key, s) && |s| > 0 && key(s[|s| - 1]) <= d
    ensures CutsAt(key, s, |s|, d)
  {
  }

  /** On a sorted sequence the cut is a prefix. */
  lemma {:induction false} BelowIsPrefix<T>(key: T -> int, s: seq<T>, d: int) returns (k: nat)
    requires Ascending(key, s)
    ensures CutsAt(key, s, k, d) && Below(key, s, d) == s[..k]
  {
    if |s| == 0 {
      k := 0;
    } else if key(s[|s| - 1]) <= d {
      k := |s|;
      AllBelowLast(key, s, d);
      BelowAll(key, s, d);
    } else {
      var t, z := s[..|s| - 1], s[|s| - 1];
      assert s == t + [z];
      k := BelowIsPrefix(key, t, d);
      BelowOneMore(key, t, z, d);
      CutOneMore(key, t, z, k, d);
    }
  }

  lemma {:induction false} BelowAll<T>(key: T -> int, s: seq<T>, d: int)
    requires forall i | 0 <= i < |s| :: key(s[i]) <= d
    ensures Below(key, s, d) == s
  {
    if |s| > 0 {
      var t, x := s[..|s| - 1], s[|s| - 1];
      BelowAll(key, t, d);
      BelowOneMore(key, t, x, d);
      assert t + [x] == s;
    }
  }
}
