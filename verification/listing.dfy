/** The query pipeline the listing routes share: filter a collection, sort
    it newest first, skip `(page - 1) * limit` documents, return at most
    `limit`, and report `pages = Math.ceil(total / limit)`.

    A collection is a sequence in insertion order, so "newest first"
    (`sort({ createdAt: -1 })`) is the reverse of that order. */
module Listing {
  import opened Common

  /** The elements of `s` that satisfy `keep`, in their original order. */
  function Filter<T(!new)>(s: seq<T>, keep: T -> bool): (r: seq<T>)
    ensures |r| <= |s|
    ensures forall x :: x in r <==> x in s && keep(x)
  {
    if s == [] then []
    else if keep(s[0]) then [s[0]] + Filter(s[1..], keep)
    else Filter(s[1..], keep)
  }

  /** The number of elements of `s` that satisfy `keep` (`countDocuments`). */
  function Count<T>(s: seq<T>, keep: T -> bool): (n: nat)
    ensures n <= |s|
    ensures n == 0 <==> forall i :: 0 <= i < |s| ==> !keep(s[i])
  {
    if s == [] then 0
    else (if keep(s[0]) then 1 else 0) + Count(s[1..], keep)
  }

  /** Filtering keeps exactly as many elements as the count says. */
  lemma {:induction false} FilterLength<T(!new)>(s: seq<T>, keep: T -> bool)
    ensures |Filter(s, keep)| == Count(s, keep)
  {
    if s != [] {
      FilterLength(s[1..], keep);
    }
  }

  /** Two filters that agree on every element keep the same elements, so
      the result depends on the query's meaning, not on how it is written. */
  lemma {:induction false} FilterCongruent<T(!new)>(s: seq<T>, p: T -> bool, q: T -> bool)
    requires forall x :: x in s ==> p(x) == q(x)
    ensures Filter(s, p) == Filter(s, q)
    ensures NewestFirst(s, p) == NewestFirst(s, q)
  {
    if s != [] {
      assert s[0] in s;
      assert forall x :: x in s[1..] ==> x in s;
      FilterCongruent(s[1..], p, q);
    }
  }

  /** A filter that keeps everything keeps the whole sequence. */
  lemma {:induction false} FilterAll<T(!new)>(s: seq<T>, keep: T -> bool)
    requires forall x :: x in s ==> keep(x)
    ensures Filter(s, keep) == s
  {
    if s != [] {
      assert s[0] in s;
      assert forall x :: x in s[1..] ==> x in s;
      FilterAll(s[1..], keep);
      assert s == [s[0]] + s[1..];
    }
  }

  /** Appending a kept element adds one to the count. */
  lemma {:induction false} CountAppend<T>(s: seq<T>, x: T, keep: T -> bool)
    ensures Count(s + [x], keep) == Count(s, keep) + (if keep(x) then 1 else 0)
  {
    if s != [] {
      assert (s + [x])[1..] == s[1..] + [x];
      CountAppend(s[1..], x, keep);
    }
  }

  /** Appending a kept element appends it to the filtered sequence. */
  lemma {:induction false} FilterAppend<T(!new)>(s: seq<T>, x: T, keep: T -> bool)
    requires keep(x)
    ensures Filter(s + [x], keep) == Filter(s, keep) + [x]
  {
    if s == [] {
      assert Filter([x], keep) == [x] + Filter([], keep);
    } else {
      assert (s + [x])[1..] == s[1..] + [x];
      FilterAppend(s[1..], x, keep);
    }
  }
  /** The sequence in reverse order. */
  function Reverse<T>(s: seq<T>): (r: seq<T>)
    ensures |r| == |s|
    ensures forall i :: 0 <= i < |s| ==> r[i] == s[|s| - 1 - i]
  {
    if s == [] then [] else Reverse(s[1..]) + [s[0]]
  }

  /** The documents that satisfy the query, newest first. */
  function NewestFirst<T(!new)>(s: seq<T>, keep: T -> bool): (r: seq<T>)
    ensures |r| == Count(s, keep)
    ensures forall x :: x in r <==> x in s && keep(x)
  {
    FilterLength(s, keep);
    var f := Filter(s, keep);
    var r := Reverse(f);
    assert forall x :: x in r <==> x in f by {
      forall x | x in f ensures x in r {
        var i :| 0 <= i < |f| && f[i] == x;
        assert r[|f| - 1 - i] == x;
      }
    }
    r
  }

  /** `skip(skip).limit(limit)` on a cursor: a non-negative skip; a limit of
      0 means no limit, and a negative limit returns at most `-limit`
      documents (the driver turns it into a single batch of that size). */
  function Slice<T>(s: seq<T>, skip: nat, limit: int): (r: seq<T>)
    ensures |r| <= |s|
    ensures limit != 0 ==> |r| <= if limit > 0 then limit else -limit
    ensures forall i :: 0 <= i < |r| ==> skip + i < |s| && r[i] == s[skip + i]
    ensures skip < |s| && limit == 0 ==> |r| == |s| - skip
    ensures skip < |s| && limit != 0 ==>
      |r| == (var cap := if limit > 0 then limit else -limit; if |s| - skip < cap then |s| - skip else cap)
    ensures skip >= |s| ==> r == []
  {
    if skip >= |s| then []
    else
      var rest := s[skip..];
      var cap := if limit > 0 then limit else -limit;
      if limit == 0 || |rest| <= cap then rest else rest[..cap]
  }

  /** The page the listing routes return, or `None` when the computed skip
      is negative (the database rejects it and the route answers 500). */
  function Page<T>(s: seq<T>, page: int, limit: int): (r: Option<seq<T>>)
    ensures r.None? <==> (page - 1) * limit < 0
    ensures r.Some? ==> forall i :: 0 <= i < |r.value| ==>
      (page - 1) * limit + i < |s| && r.value[i] == s[(page - 1) * limit + i]
    ensures r.Some? && limit > 0 ==> |r.value| <= limit
    ensures r.Some? ==> (page - 1) * limit >= 0 && r.value == Slice(s, (page - 1) * limit, limit)
  {
    var skip := (page - 1) * limit;
    if skip < 0 then None else Some(Slice(s, skip, limit))
  }

  /** `Math.ceil(total / limit)` as it reaches the JSON reply: a division by
      zero gives `Infinity` or `NaN`, both serialised as `null` (`None`). */
  function PageCount(total: nat, limit: int): (r: Option<int>)
    ensures r.None? <==> limit == 0
    ensures limit > 0 ==> r.Some? && r.value * limit >= total && (r.value - 1) * limit < total
    ensures limit < 0 ==> r.Some? && r.value * limit <= total && (r.value - 1) * limit > total
  {
    if limit == 0 then None
    else if limit > 0 then
      var q := (total + limit - 1) / limit;
      CeilBounds(total, limit);
      Some(q)
    else
      var q := -(total / -limit);
      FloorBounds(total, -limit);
      Some(q)
  }

  lemma CeilBounds(total: nat, limit: int)
    requires limit > 0
    ensures var q := (total + limit - 1) / limit; q * limit >= total && (q - 1) * limit < total
  {
    var n := total + limit - 1;
    var q := n / limit;
    var m := n % limit;
    assert n == q * limit + m && 0 <= m < limit;
    assert (q - 1) * limit == q * limit - limit;
  }

  lemma FloorBounds(total: nat, d: int)
    requires d > 0
    ensures var q := -(total / d); q * -d <= total && (q - 1) * -d > total
  {
    var p := total / d;
    var m := total % d;
    assert total == p * d + m && 0 <= m < d;
    assert -p * -d == p * d;
    assert (-p - 1) * -d == p * d + d;
  }

  /** Whether `s` is in non-decreasing order of `key` (insertion stamps). */
  predicate Ascending<T>(s: seq<T>, key: T -> int) {
    forall i, j :: 0 <= i < j < |s| ==> key(s[i]) <= key(s[j])
  }

  /** Whether `s` is in non-increasing order of `key`. */
  predicate Descending<T>(s: seq<T>, key: T -> int) {
    forall i, j :: 0 <= i < j < |s| ==> key(s[i]) >= key(s[j])
  }

  /** Filtering keeps the order of what it keeps. */
  lemma {:induction false} FilterAscending<T(!new)>(s: seq<T>, keep: T -> bool, key: T -> int)
    requires Ascending(s, key)
    ensures Ascending(Filter(s, keep), key)
  {
    if s != [] {
      var t := s[1..];
      assert Ascending(t, key);
      FilterAscending(t, keep, key);
      var ft := Filter(t, keep);
      if keep(s[0]) {
        var r := [s[0]] + ft;
        forall i, j | 0 <= i < j < |r| ensures key(r[i]) <= key(r[j]) {
          if i == 0 {
            assert r[j] in ft;
            var k :| 0 <= k < |t| && t[k] == r[j];
            assert key(s[0]) <= key(s[k + 1]);
          }
        }
      }
    }
  }

  /** When the collection was stored oldest first, the newest-first listing,
      and every page of it, is in non-increasing creation order. */
  lemma NewestFirstIsDescending<T(!new)>(s: seq<T>, keep: T -> bool, key: T -> int, page: int, limit: int)
    requires Ascending(s, key)
    ensures Descending(NewestFirst(s, keep), key)
    ensures Page(NewestFirst(s, keep), page, limit).Some? ==>
      Descending(Page(NewestFirst(s, keep), page, limit).value, key)
  {
    FilterAscending(s, keep, key);
    var f := Filter(s, keep);
    var r := NewestFirst(s, keep);
    assert r == Reverse(f);
    forall i, j | 0 <= i < j < |r| ensures key(r[i]) >= key(r[j]) {
      assert r[i] == f[|f| - 1 - i] && r[j] == f[|f| - 1 - j];
    }
    PageKeepsDescending(r, key, page, limit);
  }

  /** A page of a listing in non-increasing order is in non-increasing order. */
  lemma PageKeepsDescending<T>(r: seq<T>, key: T -> int, page: int, limit: int)
    requires Descending(r, key)
    ensures Page(r, page, limit).Some? ==> Descending(Page(r, page, limit).value, key)
  {
    var p := Page(r, page, limit);
    if p.Some? {
      var sk := (page - 1) * limit;
      forall i, j | 0 <= i < j < |p.value| ensures key(p.value[i]) >= key(p.value[j]) {
        assert p.value[i] == r[sk + i] && p.value[j] == r[sk + j];
      }
    }
  }

  /** The first page with a positive limit holds the `limit` newest matches,
      or all of them when there are fewer. */
  lemma FirstPage<T>(s: seq<T>, limit: int)
    requires limit > 0
    ensures Page(s, 1, limit) == Some(if |s| <= limit then s else s[..limit])
  {
  }

  /** No document is listed on two different pages, and consecutive pages
      continue where the previous one stopped. */
  lemma PagesAreConsecutive<T>(s: seq<T>, page: int, limit: int)
    requires page >= 1 && limit > 0
    requires |s| >= page * limit
    ensures Page(s, page, limit) == Some(s[(page - 1) * limit .. page * limit])
  {
    var sk := (page - 1) * limit;
    assert sk + limit == page * limit;
    var r := Page(s, page, limit).value;
    assert |r| == limit;
    assert r == s[sk .. sk + limit];
  }
}
