/** The top-customers aggregation (src/app/api/top-users/route.ts): group
    the order documents by a key, count each group, sort by count
    descending and keep the first three. The grouping and ranking are
    generic in the key; the route groups on `customerEmail`. */
module TopUsers {
  import opened Common
  import Orders

  /** One row of the aggregation: the group key (`_id`) and its size. */
  datatype Entry<K> = Entry(key: K, orderCount: nat)

  /** `{ $limit: 3 }`. */
  const TOP_COUNT: nat := 3

  /** How many documents carry the key `k` (`{ $sum: 1 }` per group). */
  function Occurrences<K(==)>(keys: seq<K>, k: K): (n: nat)
    ensures n <= |keys|
    ensures n > 0 <==> k in keys
  {
    if keys == [] then 0
    else
      assert k in keys <==> keys[0] == k || k in keys[1..];
      (if keys[0] == k then 1 else 0) + Occurrences(keys[1..], k)
  }

  /** Whether no key occurs twice. */
  predicate NoDup<K(==)>(s: seq<K>) {
    forall i, j :: 0 <= i < j < |s| ==> s[i] != s[j]
  }

  /** The groups `$group` forms: each key once, in first-occurrence order. */
  function Distinct<K(==,!new)>(keys: seq<K>): (r: seq<K>)
    ensures NoDup(r)
    ensures forall k :: k in r <==> k in keys
    ensures |r| <= |keys|
  {
    if keys == [] then []
    else
      var init := keys[..|keys| - 1];
      var last := keys[|keys| - 1];
      assert keys == init + [last];
      var d := Distinct(init);
      if last in d then d else d + [last]
  }

  /** The position of the first largest count. */
  function ArgMax<K>(s: seq<K>, count: K -> nat): (i: nat)
    requires |s| > 0
    ensures i < |s|
    ensures forall k :: k in s ==> count(k) <= count(s[i])
  {
    if |s| == 1 then 0
    else
      var i := ArgMax(s[1..], count);
      assert forall k :: k in s ==> k == s[0] || k in s[1..];
      if count(s[0]) >= count(s[1..][i]) then 0 else i + 1
  }

  /** The sequence without its element at `i`. */
  function Remove<K(==,!new)>(s: seq<K>, i: nat): (r: seq<K>)
    requires i < |s|
    requires NoDup(s)
    ensures |r| == |s| - 1
    ensures NoDup(r)
    ensures forall k :: k in r <==> k in s && k != s[i]
  {
    var r := s[..i] + s[i + 1..];
    assert forall j :: 0 <= j < |r| ==> r[j] == if j < i then s[j] else s[j + 1];
    assert forall k :: k in s ==> exists j :: 0 <= j < |s| && s[j] == k;
    r
  }

  /** The keys an aggregation result lists. */
  function KeysOf<K(==)>(r: seq<Entry<K>>): set<K> {
    if r == [] then {} else {r[0].key} + KeysOf(r[1..])
  }

  /** `$sort: { orderCount: -1 }` then `$limit: n` over the groups: the `n`
      largest groups, largest first (see TopIsRanked and TopIsTop).
      Ties, which the database leaves in an unspecified order, are broken
      here by first occurrence; every property proved holds whatever the
      tie order. */
  function Top<K(==,!new)>(groups: seq<K>, count: K -> nat, n: nat): (r: seq<Entry<K>>)
    requires NoDup(groups)
    ensures |r| == if n < |groups| then n else |groups|
    ensures forall j :: 0 <= j < |r| ==> r[j].key in groups && r[j].orderCount == count(r[j].key)
    decreases n
  {
    if n == 0 || groups == [] then []
    else
      var i := ArgMax(groups, count);
      [Entry(groups[i], count(groups[i]))] + Top(Remove(groups, i), count, n - 1)
  }

  /** Each key listed once, in non-increasing order of size. */
  predicate Ranked<K(==)>(r: seq<Entry<K>>) {
    forall j, j' :: 0 <= j < j' < |r| ==> r[j].key != r[j'].key && r[j].orderCount >= r[j'].orderCount
  }

  /** No group outside the ranking is larger than any group in it. */
  predicate Dominates<K(==,!new)>(r: seq<Entry<K>>, groups: seq<K>, count: K -> nat) {
    forall g :: g in groups && g !in KeysOf(r) ==> Below(count(g), r)
  }

  /** No entry of the ranking is smaller than `c`. */
  predicate Below<K>(c: nat, r: seq<Entry<K>>) {
    forall j :: 0 <= j < |r| ==> c <= r[j].orderCount
  }

  /** The ranking lists each group once, in non-increasing order of size. */
  lemma TopIsRanked<K(!new)>(groups: seq<K>, count: K -> nat, n: nat)
    requires NoDup(groups)
    ensures Ranked(Top(groups, count, n))
    decreases n
  {
    if n > 0 && groups != [] {
      TopIsRanked(Remove(groups, ArgMax(groups, count)), count, n - 1);
      TopIsRankedStep(groups, count, n);
    } else {
      assert Top(groups, count, n) == [];
    }
  }

  /** The inductive step of TopIsRanked. */
  lemma TopIsRankedStep<K(!new)>(groups: seq<K>, count: K -> nat, n: nat)
    requires NoDup(groups) && n > 0 && groups != []
    ensures Ranked(Top(Remove(groups, ArgMax(groups, count)), count, n - 1))
      ==> Ranked(Top(groups, count, n))
  {
    var i := ArgMax(groups, count);
    var others := Remove(groups, i);
    var rest := Top(others, count, n - 1);
    var head := Entry(groups[i], count(groups[i]));
    if Ranked(rest) {
      assert Top(groups, count, n) == [head] + rest;
      RankedCons(head, rest, others);
    }
  }

  /** A group no smaller than, and different from, every group of a
      ranking can head it. */
  lemma RankedCons<K(!new)>(head: Entry<K>, rest: seq<Entry<K>>, others: seq<K>)
    requires Ranked(rest) && head.key !in others
    requires forall j :: 0 <= j < |rest| ==> rest[j].key in others && rest[j].orderCount <= head.orderCount
    ensures Ranked([head] + rest)
  {
    var r := [head] + rest;
    forall j, j' | 0 <= j < j' < |r| ensures r[j].key != r[j'].key && r[j].orderCount >= r[j'].orderCount {
      assert r[j'] == rest[j' - 1];
      if j > 0 {
        assert r[j] == rest[j - 1];
      }
    }
  }

  /** No group left out of the ranking is larger than any group in it. */
  lemma TopIsTop<K(!new)>(groups: seq<K>, count: K -> nat, n: nat)
    requires NoDup(groups)
    ensures Dominates(Top(groups, count, n), groups, count)
    decreases n
  {
    if n > 0 && groups != [] {
      TopIsTop(Remove(groups, ArgMax(groups, count)), count, n - 1);
      TopIsTopStep(groups, count, n);
    } else {
      assert Top(groups, count, n) == [];
    }
  }

  /** The inductive step of TopIsTop: the largest group, then the ranking
      of the others. */
  lemma TopIsTopStep<K(!new)>(groups: seq<K>, count: K -> nat, n: nat)
    requires NoDup(groups) && n > 0 && groups != []
    ensures Dominates(Top(Remove(groups, ArgMax(groups, count)), count, n - 1),
                      Remove(groups, ArgMax(groups, count)), count)
      ==> Dominates(Top(groups, count, n), groups, count)
  {
    var others := Remove(groups, ArgMax(groups, count));
    var rest := Top(others, count, n - 1);
    if Dominates(rest, others, count) {
      TopStepDominates(groups, count, n, others, rest);
    }
  }

  lemma TopStepDominates<K(!new)>(groups: seq<K>, count: K -> nat, n: nat, others: seq<K>, rest: seq<Entry<K>>)
    requires NoDup(groups) && n > 0 && groups != []
    requires others == Remove(groups, ArgMax(groups, count))
    requires rest == Top(others, count, n - 1)
    requires Dominates(rest, others, count)
    ensures Dominates(Top(groups, count, n), groups, count)
  {
    var i := ArgMax(groups, count);
    var head := Entry(groups[i], count(groups[i]));
    assert forall g :: g in groups ==> count(g) <= head.orderCount;
    assert forall g :: g in groups && g != head.key ==> g in others;
    DominatesCons(head, rest, groups, others, count);
  }

  /** Putting the largest group in front of a ranking of the other groups
      ranks all of them. */
  lemma DominatesCons<K(!new)>(head: Entry<K>, rest: seq<Entry<K>>, groups: seq<K>, others: seq<K>, count: K -> nat)
    requires forall g :: g in groups ==> count(g) <= head.orderCount
    requires forall g :: g in groups && g != head.key ==> g in others
    requires Dominates(rest, others, count)
    ensures Dominates([head] + rest, groups, count)
  {
    var r := [head] + rest;
    KeysOfCons(head, rest);
    forall g | g in groups && g !in KeysOf(r) ensures Below(count(g), r) {
      assert Below(count(g), rest);
      assert forall j :: 1 <= j < |r| ==> r[j] == rest[j - 1];
    }
  }

  lemma KeysOfCons<K>(e: Entry<K>, rest: seq<Entry<K>>)
    ensures KeysOf([e] + rest) == {e.key} + KeysOf(rest)
  {
    assert ([e] + rest)[1..] == rest;
  }

  /** The aggregation over the grouping key of each order document. */
  function TopGroups<K(==,!new)>(keys: seq<K>): (r: seq<Entry<K>>)
    ensures |r| <= TOP_COUNT
    ensures |r| == if TOP_COUNT < |Distinct(keys)| then TOP_COUNT else |Distinct(keys)|
    ensures forall j :: 0 <= j < |r| ==>
      r[j].key in keys && r[j].orderCount == Occurrences(keys, r[j].key) && r[j].orderCount >= 1
    ensures Ranked(r)
    ensures forall k, j :: k in keys && k !in KeysOf(r) && 0 <= j < |r| ==> Occurrences(keys, k) <= r[j].orderCount
  {
    var count := k => Occurrences(keys, k);
    var r := Top(Distinct(keys), count, TOP_COUNT);
    TopIsRanked(Distinct(keys), count, TOP_COUNT);
    TopIsTop(Distinct(keys), count, TOP_COUNT);
    GroupsCountOccurrences(keys, r, count);
    r
  }

  /** A ranking of the groups of `keys`, counted by occurrence, speaks of
      the keys themselves. */
  lemma GroupsCountOccurrences<K(!new)>(keys: seq<K>, r: seq<Entry<K>>, count: K -> nat)
    requires forall k :: count(k) == Occurrences(keys, k)
    requires forall j :: 0 <= j < |r| ==> r[j].key in Distinct(keys) && r[j].orderCount == count(r[j].key)
    requires Dominates(r, Distinct(keys), count)
    ensures forall j :: 0 <= j < |r| ==>
      r[j].key in keys && r[j].orderCount == Occurrences(keys, r[j].key) && r[j].orderCount >= 1
    ensures forall k, j :: k in keys && k !in KeysOf(r) && 0 <= j < |r| ==> Occurrences(keys, k) <= r[j].orderCount
  {
    forall k, j | k in keys && k !in KeysOf(r) && 0 <= j < |r| ensures Occurrences(keys, k) <= r[j].orderCount {
      assert k in Distinct(keys);
      assert Below(count(k), r);
    }
  }

  /** The `customerEmail` of an order document, as the route reads it. The
      order schema declares no such field, so no order the application
      stores carries one and the aggregation reads `null` for all of them. */
  function CustomerEmail(o: Orders.Order): Option<string> {
    None
  }

  /** The grouping keys of the stored orders. */
  function EmailKeys(orders: seq<Orders.Order>): (keys: seq<Option<string>>)
    ensures |keys| == |orders|
    ensures forall i :: 0 <= i < |keys| ==> keys[i] == CustomerEmail(orders[i])
  {
    seq(|orders|, i requires 0 <= i < |orders| => CustomerEmail(orders[i]))
  }

  /** GET /api/top-users, as written: group by `customerEmail`. */
  function TopUsers(orders: seq<Orders.Order>): (r: seq<Entry<Option<string>>>)
    ensures |r| <= TOP_COUNT
    ensures forall j :: 0 <= j < |r| ==> r[j].orderCount >= 1
  {
    TopGroups(EmailKeys(orders))
  }

  /** Every key is missing, so there is one group: a single `null` row
      counting every order (and no row for no orders). */
  lemma TopUsersIsOneNullGroup(orders: seq<Orders.Order>)
    ensures orders == [] ==> TopUsers(orders) == []
    ensures orders != [] ==> TopUsers(orders) == [Entry(None, |orders|)]
  {
    var keys := EmailKeys(orders);
    if orders != [] {
      DistinctOfConstant(keys, None);
      OccurrencesOfConstant(keys, None);
    }
  }

  /** A sequence of one repeated key forms one group. */
  lemma {:induction false} DistinctOfConstant<K(!new)>(keys: seq<K>, k: K)
    requires keys != [] && forall i :: 0 <= i < |keys| ==> keys[i] == k
    ensures Distinct(keys) == [k]
  {
    var init := keys[..|keys| - 1];
    if init != [] {
      DistinctOfConstant(init, k);
    }
  }

  /** A key every element has occurs once per element. */
  lemma {:induction false} OccurrencesOfConstant<K>(keys: seq<K>, k: K)
    requires forall i :: 0 <= i < |keys| ==> keys[i] == k
    ensures Occurrences(keys, k) == |keys|
  {
    if keys != [] {
      OccurrencesOfConstant(keys[1..], k);
    }
  }

  /** The grouping the route evidently means: by the ordering account. */
  function AccountKeys(orders: seq<Orders.Order>): (keys: seq<Id>)
    ensures |keys| == |orders|
    ensures forall i :: 0 <= i < |keys| ==> keys[i] == orders[i].user
  {
    seq(|orders|, i requires 0 <= i < |orders| => orders[i].user)
  }

  /** The three accounts with the most orders, most first, each with the
      exact number of its orders; no account left out has more orders
      than any account listed. */
  function TopCustomers(orders: seq<Orders.Order>): (r: seq<Entry<Id>>)
    ensures |r| <= TOP_COUNT
    ensures forall j :: 0 <= j < |r| ==>
      r[j].orderCount >= 1 && r[j].orderCount == Occurrences(AccountKeys(orders), r[j].key)
    ensures Ranked(r)
    ensures forall i, j :: 0 <= i < |orders| && orders[i].user !in KeysOf(r) && 0 <= j < |r| ==>
      Occurrences(AccountKeys(orders), orders[i].user) <= r[j].orderCount
  {
    var keys := AccountKeys(orders);
    assert forall i :: 0 <= i < |orders| ==> orders[i].user in keys by {
      forall i | 0 <= i < |orders| ensures orders[i].user in keys {
        assert keys[i] == orders[i].user;
      }
    }
    TopGroups(keys)
  }

  /** Two customers with different order counts are told apart, unlike in
      the route as written: the busier one is ranked first. */
  lemma TopCustomersSeparatesAccounts(a: Orders.Order, b: Orders.Order)
    requires a.user != b.user
    ensures TopCustomers([a, a, b]) == [Entry(a.user, 2), Entry(b.user, 1)]
    ensures TopUsers([a, a, b]) == [Entry(None, 3)]
  {
    assert AccountKeys([a, a, b]) == [a.user, a.user, b.user];
    TopOfTwoGroups(a.user, b.user);
    TopUsersIsOneNullGroup([a, a, b]);
  }

  /** Keys x, x, y rank x (twice) above y (once). */
  lemma TopOfTwoGroups(x: Id, y: Id)
    requires x != y
    ensures TopGroups([x, x, y]) == [Entry(x, 2), Entry(y, 1)]
  {
    var keys := [x, x, y];
    TwoGroups(x, y);
    var r := TopGroups(keys);
    assert |r| == 2;
    var k0, k1 := r[0].key, r[1].key;
    assert k0 in keys && k1 in keys && k0 != k1;
    assert r[0].orderCount == Occurrences(keys, k0) && r[1].orderCount == Occurrences(keys, k1);
    RankTwo(r, x, y, Occurrences(keys, x), Occurrences(keys, y));
  }

  /** Two distinct keys with different counts, listed most first, come in
      the order of their counts. */
  lemma RankTwo(r: seq<Entry<Id>>, x: Id, y: Id, cx: nat, cy: nat)
    requires x != y && cx > cy && |r| == 2
    requires r[0].key in {x, y} && r[1].key in {x, y} && r[0].key != r[1].key
    requires r[0].orderCount == (if r[0].key == x then cx else cy)
    requires r[1].orderCount == (if r[1].key == x then cx else cy)
    requires r[0].orderCount >= r[1].orderCount
    ensures r == [Entry(x, cx), Entry(y, cy)]
  {
  }

  /** The groups and counts of the keys x, x, y. */
  lemma TwoGroups(x: Id, y: Id)
    requires x != y
    ensures Distinct([x, x, y]) == [x, y]
    ensures Occurrences([x, x, y], x) == 2 && Occurrences([x, x, y], y) == 1
  {
    var keys := [x, x, y];
    DistinctOfConstant([x, x], x);
    assert keys[..2] == [x, x];
    assert keys[1..] == [x, y] && keys[1..][1..] == [y];
  }
}
