/** Python's stable `sorted(..., reverse=True)` / `list.sort(reverse=True)` and MongoDB's
    descending sort, over a two-part key compared lexicographically. */
module Sorting {
  import opened Seqs

  /** A sort key: `major` is compared first, `minor` breaks ties
      (`sort=[("last_accessed", -1), ("importance", -1)]`). */
  datatype Key = Key(major: real, minor: real)

  /** `a` sorts no later than `b` in descending order. */
  predicate AtLeast(a: Key, b: Key) {
    a.major > b.major || (a.major == b.major && a.minor >= b.minor)
  }

  /** Inserts `x`, which came earlier in the input than everything in `s`, into the
      descending sequence `s`: before the first element whose key it matches or exceeds. */
  function Insert<T>(x: T, s: seq<T>, key: T -> Key): (r: seq<T>)
    ensures |r| == |s| + 1
    ensures multiset(r) == multiset(s) + multiset{x}
  {
    if s == [] || AtLeast(key(x), key(s[0])) then [x] + s
    else
      assert s == [s[0]] + s[1..];
      [s[0]] + Insert(x, s[1..], key)
  }

  /** Stable descending sort. */
  function SortDesc<T>(s: seq<T>, key: T -> Key): (r: seq<T>)
    ensures |r| == |s|
    ensures multiset(r) == multiset(s)
  {
    if s == [] then []
    else
      assert s == [s[0]] + s[1..];
      Insert(s[0], SortDesc(s[1..], key), key)
  }

  /** Sorting neither adds nor drops an element. */
  lemma SortDescMembers<T>(s: seq<T>, key: T -> Key)
    ensures forall x :: x in SortDesc(s, key) <==> x in s
  {
    var r := SortDesc(s, key);
    forall x ensures x in r <==> x in s {
      assert x in r <==> x in multiset(r);
      assert x in s <==> x in multiset(s);
    }
  }

  /** `x` comes before `y` in the order a stable descending sort produces from an
      input listed by ascending `tag`: larger key first, equal keys by ascending tag. */
  predicate Precedes<T>(x: T, y: T, key: T -> Key, tag: T -> int) {
    !AtLeast(key(y), key(x)) || (key(x) == key(y) && tag(x) < tag(y))
  }

  /** Every earlier element precedes every later one. */
  predicate RankedBy<T>(r: seq<T>, key: T -> Key, tag: T -> int) {
    forall i, j :: 0 <= i < j < |r| ==> Precedes(r[i], r[j], key, tag)
  }

  predicate TagsIncreasing<T>(s: seq<T>, tag: T -> int) {
    forall i, j :: 0 <= i < j < |s| ==> tag(s[i]) < tag(s[j])
  }

  lemma {:induction false} InsertRanked<T>(x: T, s: seq<T>, key: T -> Key, tag: T -> int)
    requires RankedBy(s, key, tag)
    requires forall i :: 0 <= i < |s| ==> tag(x) < tag(s[i])
    ensures RankedBy(Insert(x, s, key), key, tag)
  {
    var r := Insert(x, s, key);
    if s == [] || AtLeast(key(x), key(s[0])) {
      assert r == [x] + s;
      forall j | 0 < j < |r| ensures Precedes(r[0], r[j], key, tag) {
        assert r[j] == s[j - 1];
        if j > 1 {
          assert Precedes(s[0], s[j - 1], key, tag);
        }
      }
    } else {
      var t := Insert(x, s[1..], key);
      InsertRanked(x, s[1..], key, tag);
      assert r == [s[0]] + t;
      forall j | 0 < j < |r| ensures Precedes(r[0], r[j], key, tag) {
        assert r[j] in multiset(t);
        assert r[j] in multiset(s[1..]) + multiset{x};
        if r[j] != x {
          assert r[j] in s[1..];
          var k :| 0 <= k < |s[1..]| && s[1..][k] == r[j];
          assert Precedes(s[0], s[k + 1], key, tag);
        }
      }
    }
  }

  /** Sorting a tag-ascending input yields the strict (key descending, tag ascending) order:
      the sort is stable, and equal keys keep their input order. */
  lemma {:induction false} SortDescRanked<T>(s: seq<T>, key: T -> Key, tag: T -> int)
    requires TagsIncreasing(s, tag)
    ensures RankedBy(SortDesc(s, key), key, tag)
  {
    if s != [] {
      var t := SortDesc(s[1..], key);
      SortDescRanked(s[1..], key, tag);
      forall i | 0 <= i < |t| ensures tag(s[0]) < tag(t[i]) {
        assert t[i] in multiset(s[1..]);
        var k :| 0 <= k < |s[1..]| && s[1..][k] == t[i];
        assert s[k + 1] == t[i];
      }
      InsertRanked(s[0], t, key, tag);
    }
  }

  /** The output is in descending key order whatever the input order. */
  lemma {:induction false} SortDescSorted<T>(s: seq<T>, key: T -> Key)
    ensures forall i, j :: 0 <= i < j < |SortDesc(s, key)| ==> AtLeast(key(SortDesc(s, key)[i]), key(SortDesc(s, key)[j]))
  {
    if s != [] {
      SortDescSorted(s[1..], key);
      InsertSorted(s[0], SortDesc(s[1..], key), key);
    }
  }

  lemma {:induction false} InsertSorted<T>(x: T, s: seq<T>, key: T -> Key)
    requires forall i, j :: 0 <= i < j < |s| ==> AtLeast(key(s[i]), key(s[j]))
    ensures forall i, j :: 0 <= i < j < |Insert(x, s, key)| ==> AtLeast(key(Insert(x, s, key)[i]), key(Insert(x, s, key)[j]))
  {
    var r := Insert(x, s, key);
    if s == [] || AtLeast(key(x), key(s[0])) {
      assert r == [x] + s;
    } else {
      var t := Insert(x, s[1..], key);
      InsertSorted(x, s[1..], key);
      assert r == [s[0]] + t;
      forall j | 0 < j < |r| ensures AtLeast(key(r[0]), key(r[j])) {
        assert r[j] in multiset(s[1..]) + multiset{x};
        if r[j] != x {
          var k :| 0 <= k < |s[1..]| && s[1..][k] == r[j];
          assert AtLeast(key(s[0]), key(s[k + 1]));
        }
      }
    }
  }

  /** Sorting commutes with a map that preserves the key: sorting records and then
      projecting them gives the same list as projecting and then sorting. */
  lemma {:induction false} SortDescMap<A, B>(s: seq<A>, f: A -> B, ka: A -> Key, kb: B -> Key)
    requires forall x :: ka(x) == kb(f(x))
    ensures Map(SortDesc(s, ka), f) == SortDesc(Map(s, f), kb)
  {
    if s != [] {
      SortDescMap(s[1..], f, ka, kb);
      assert Map(s, f)[1..] == Map(s[1..], f);
      InsertMap(s[0], SortDesc(s[1..], ka), f, ka, kb);
    }
  }

  lemma {:induction false} InsertMap<A, B>(x: A, s: seq<A>, f: A -> B, ka: A -> Key, kb: B -> Key)
    requires forall y :: ka(y) == kb(f(y))
    ensures Map(Insert(x, s, ka), f) == Insert(f(x), Map(s, f), kb)
  {
    if s == [] || AtLeast(ka(x), ka(s[0])) {
      assert ([x] + s)[1..] == s;
    } else {
      InsertMap(x, s[1..], f, ka, kb);
      assert Map(s, f)[1..] == Map(s[1..], f);
      assert ([s[0]] + Insert(x, s[1..], ka))[1..] == Insert(x, s[1..], ka);
    }
  }
}
