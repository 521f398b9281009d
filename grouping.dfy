/** The `groupPhotosByEvent` algorithm of both photo screens, over any item type
    carrying a numeric key: `reduce` into a dictionary keyed by the booking id,
    creating a group (whose cover is the first item seen) on a key's first
    occurrence and pushing every item into its key's group, then
    `Object.values`, which lists integer keys in ascending order. */
module Grouping {
  import opened Common

  datatype Group<P> = Group(key: nat, items: seq<P>, cover: P)

  /** The items carrying key `k`, in input order. */
  function WithKey<P>(items: seq<P>, key: P -> nat, k: nat): seq<P> {
    Filter(items, KeyIs(key, k))
  }

  function KeyIs<P>(key: P -> nat, k: nat): P -> bool {
    (x: P) => key(x) == k
  }

  predicate HasKey<P>(items: seq<P>, key: P -> nat, k: nat) {
    exists i :: 0 <= i < |items| && key(items[i]) == k
  }

  predicate StrictlyIncreasing(ks: seq<nat>) {
    forall i, j :: 0 <= i < j < |ks| ==> ks[i] < ks[j]
  }

  function KeysOf<P>(groups: seq<Group<P>>): (ks: seq<nat>)
    ensures |ks| == |groups|
    ensures forall j :: 0 <= j < |groups| ==> ks[j] == groups[j].key
  {
    seq(|groups|, j requires 0 <= j < |groups| => groups[j].key)
  }

  /** What a correct grouping of `items` is: one group per distinct key, in
      ascending key order, each holding exactly the items with its key in their
      original order, non-empty, with the first of them as cover. */
  ghost predicate IsGrouping<P>(items: seq<P>, key: P -> nat, groups: seq<Group<P>>) {
    StrictlyIncreasing(KeysOf(groups)) &&
    (forall k :: HasKey(items, key, k) <==> k in KeysOf(groups)) &&
    (forall j :: 0 <= j < |groups| ==>
       groups[j].items == WithKey(items, key, groups[j].key) &&
       groups[j].items != [] &&
       groups[j].cover == groups[j].items[0])
  }

  /** Where a new integer key goes among the keys of an object: ascending order. */
  function InsertSorted(ks: seq<nat>, k: nat): (r: seq<nat>)
    requires StrictlyIncreasing(ks) && k !in ks
    ensures StrictlyIncreasing(r)
    ensures |r| == |ks| + 1
    ensures forall x :: x in r <==> x in ks || x == k
  {
    if ks == [] || k < ks[0] then [k] + ks
    else
      var t := InsertSorted(ks[1..], k);
      assert ks[0] in ks && k != ks[0];
      assert forall j :: 0 <= j < |t| ==> ks[0] < t[j] by {
        forall j | 0 <= j < |t| ensures ks[0] < t[j] {
          if t[j] != k {
            assert t[j] in t;
            var m :| 0 <= m < |ks[1..]| && ks[1..][m] == t[j];
            assert ks[m + 1] == t[j];
          }
        }
      }
      [ks[0]] + t
  }

  lemma {:induction false} WithKeySnoc<P>(items: seq<P>, key: P -> nat, i: nat, k: nat)
    requires i < |items|
    ensures WithKey(items[..i + 1], key, k) ==
            WithKey(items[..i], key, k) + (if key(items[i]) == k then [items[i]] else [])
  {
    assert items[..i + 1] == items[..i] + [items[i]];
    FilterAppend(items[..i], [items[i]], (x: P) => key(x) == k);
    assert Filter([items[i]], (x: P) => key(x) == k) == (if key(items[i]) == k then [items[i]] else []) by {
      assert [items[i]][1..] == [];
    }
  }

  lemma HasKeySnoc<P>(items: seq<P>, key: P -> nat, i: nat, k: nat)
    requires i < |items|
    ensures HasKey(items[..i + 1], key, k) <==> HasKey(items[..i], key, k) || key(items[i]) == k
  {
    if HasKey(items[..i + 1], key, k) && key(items[i]) != k {
      var j :| 0 <= j < i + 1 && key(items[..i + 1][j]) == k;
      assert items[..i][j] == items[..i + 1][j];
    }
    if HasKey(items[..i], key, k) {
      var j :| 0 <= j < i && key(items[..i][j]) == k;
      assert items[..i + 1][j] == items[..i][j];
    }
    if key(items[i]) == k {
      assert items[..i + 1][i] == items[i];
    }
  }

  /** The dictionary after `reduce` has visited the first `i` items; `order` is
      the order in which `Object.values` would list its keys. */
  ghost predicate Visited<P>(items: seq<P>, key: P -> nat, i: nat, acc: map<nat, Group<P>>, order: seq<nat>) {
    i <= |items| &&
    StrictlyIncreasing(order) &&
    (forall k :: k in order <==> k in acc) &&
    acc.Keys == KeysSeen(items[..i], key) &&
    (forall k :: k in acc ==> GroupSoFar(items, key, i, acc[k], k))
  }

  /** Group `g` holds the items of key `k` among the first `i` items, the first of them as cover. */
  ghost predicate GroupSoFar<P>(items: seq<P>, key: P -> nat, i: nat, g: Group<P>, k: nat) {
    i <= |items| && g.key == k && g.items == WithKey(items[..i], key, k) && g.items != [] && g.cover == g.items[0]
  }

  /** The keys of the items of `s`, gathered from the front. */
  ghost function KeysSeen<P>(s: seq<P>, key: P -> nat): set<nat>
    decreases |s|
  {
    if s == [] then {} else KeysSeen(s[..|s| - 1], key) + {key(s[|s| - 1])}
  }

  lemma {:induction false} KeysSeenIff<P>(s: seq<P>, key: P -> nat, k: nat)
    ensures k in KeysSeen(s, key) <==> HasKey(s, key, k)
    decreases |s|
  {
    if s != [] {
      KeysSeenIff(s[..|s| - 1], key, k);
      HasKeySnoc(s, key, |s| - 1, k);
      assert s[..|s|] == s;
    }
  }

  lemma KeysSeenSnoc<P>(items: seq<P>, key: P -> nat, i: nat)
    requires i < |items|
    ensures KeysSeen(items[..i + 1], key) == KeysSeen(items[..i], key) + {key(items[i])}
  {
    assert items[..i + 1][..i] == items[..i];
  }

  lemma {:induction false} NoItemsWithoutKey<P>(items: seq<P>, key: P -> nat, k: nat)
    requires !HasKey(items, key, k)
    ensures WithKey(items, key, k) == []
  {
    if items != [] {
      assert key(items[0]) != k;
      NoItemsWithoutKey(items[1..], key, k);
    }
  }

  /** A key seen for the first time gets a group whose only item, and cover, is this item. */
  lemma VisitNewKey<P>(items: seq<P>, key: P -> nat, i: nat, acc: map<nat, Group<P>>, order: seq<nat>,
                       created: map<nat, Group<P>>, acc': map<nat, Group<P>>)
    requires i < |items| && Visited(items, key, i, acc, order) && key(items[i]) !in acc
    requires created == acc[key(items[i]) := Group(key(items[i]), [], items[i])]
    requires acc' == created[key(items[i]) := created[key(items[i])].(items := created[key(items[i])].items + [items[i]])]
    ensures key(items[i]) !in order
    ensures Visited(items, key, i + 1, acc', InsertSorted(order, key(items[i])))
  {
    var x := items[i];
    assert created[key(x)] == Group(key(x), [], x);
    KeysSeenSnoc(items, key, i);
    assert acc'.Keys == acc.Keys + {key(x)};
    forall k | k in acc' ensures GroupSoFar(items, key, i + 1, acc'[k], k) {
      if k == key(x) {
        KeysSeenIff(items[..i], key, k);
        NoItemsWithoutKey(items[..i], key, k);
        WithKeySnoc(items, key, i, k);
        assert acc'[k].items == [] + [x];
      } else {
        OldKeyGroup(items, key, i, acc[k], k, acc'[k]);
      }
    }
  }

  /** A key seen before gets this item pushed onto the end of its group. */
  lemma VisitOldKey<P>(items: seq<P>, key: P -> nat, i: nat, acc: map<nat, Group<P>>, order: seq<nat>,
                       acc': map<nat, Group<P>>)
    requires i < |items| && Visited(items, key, i, acc, order) && key(items[i]) in acc
    requires acc' == acc[key(items[i]) := acc[key(items[i])].(items := acc[key(items[i])].items + [items[i]])]
    ensures Visited(items, key, i + 1, acc', order)
  {
    KeysSeenSnoc(items, key, i);
    assert acc'.Keys == acc.Keys + {key(items[i])};
    GroupsAfterOldKey(items, key, i, acc, acc');
  }

  lemma GroupsAfterOldKey<P>(items: seq<P>, key: P -> nat, i: nat, acc: map<nat, Group<P>>, acc': map<nat, Group<P>>)
    requires i < |items| && key(items[i]) in acc
    requires forall k :: k in acc ==> GroupSoFar(items, key, i, acc[k], k)
    requires acc' == acc[key(items[i]) := acc[key(items[i])].(items := acc[key(items[i])].items + [items[i]])]
    ensures forall k :: k in acc' ==> GroupSoFar(items, key, i + 1, acc'[k], k)
  {
    forall k | k in acc' ensures GroupSoFar(items, key, i + 1, acc'[k], k) {
      OldKeyGroup(items, key, i, acc[k], k, acc'[k]);
    }
  }

  /** One group after the step for an item of an already seen key. */
  lemma OldKeyGroup<P>(items: seq<P>, key: P -> nat, i: nat, g: Group<P>, k: nat, g': Group<P>)
    requires i < |items| && GroupSoFar(items, key, i, g, k)
    requires g' == (if key(items[i]) == k then g.(items := g.items + [items[i]]) else g)
    ensures GroupSoFar(items, key, i + 1, g', k)
  {
    WithKeySnoc(items, key, i, k);
    if key(items[i]) == k {
      assert g'.items[0] == g.items[0];
    }
  }

  method GroupByKey<P>(items: seq<P>, key: P -> nat) returns (groups: seq<Group<P>>)
    ensures IsGrouping(items, key, groups)
  {
    var acc: map<nat, Group<P>> := map[];
    var order: seq<nat> := [];
    var i := 0;
    while i < |items|
      invariant Visited(items, key, i, acc, order)
      decreases |items| - i
    {
      var x := items[i];
      ghost var accBefore, orderBefore := acc, order;
      if key(x) !in acc {
        acc := acc[key(x) := Group(key(x), [], x)];
        order := InsertSorted(order, key(x));
      }
      ghost var created := acc;
      acc := acc[key(x) := acc[key(x)].(items := acc[key(x)].items + [x])];
      if key(x) !in accBefore {
        VisitNewKey(items, key, i, accBefore, orderBefore, created, acc);
      } else {
        VisitOldKey(items, key, i, accBefore, orderBefore, acc);
      }
      i := i + 1;
    }
    groups := seq(|order|, j requires 0 <= j < |order| => acc[order[j]]);
    VisitedAllIsGrouping(items, key, acc, order, groups);
  }

  /** Once every item is visited, listing the groups in key order gives a correct grouping. */
  lemma VisitedAllIsGrouping<P>(items: seq<P>, key: P -> nat, acc: map<nat, Group<P>>, order: seq<nat>,
                                groups: seq<Group<P>>)
    requires Visited(items, key, |items|, acc, order)
    requires |groups| == |order| && forall j :: 0 <= j < |order| ==> groups[j] == acc[order[j]]
    ensures IsGrouping(items, key, groups)
  {
    assert items[..|items|] == items;
    assert KeysOf(groups) == order;
    forall k ensures HasKey(items, key, k) <==> k in KeysOf(groups) {
      KeysSeenIff(items, key, k);
    }
    forall j | 0 <= j < |groups|
      ensures groups[j].items == WithKey(items, key, groups[j].key) &&
              groups[j].items != [] && groups[j].cover == groups[j].items[0]
    {
      assert GroupSoFar(items, key, |items|, acc[order[j]], order[j]);
    }
  }

  // ---------------------------------------------------------------------
  // Counting: the group sizes add up to the number of items

  function SizeSum<P>(groups: seq<Group<P>>): nat {
    if groups == [] then 0 else |groups[0].items| + SizeSum(groups[1..])
  }

  /** The number of items whose key is in `ks`. */
  function CountKeyIn<P>(items: seq<P>, key: P -> nat, ks: seq<nat>): nat {
    if items == [] then 0 else (if key(items[0]) in ks then 1 else 0) + CountKeyIn(items[1..], key, ks)
  }

  function SizesOverKeys<P>(items: seq<P>, key: P -> nat, ks: seq<nat>): nat {
    if ks == [] then 0 else |WithKey(items, key, ks[0])| + SizesOverKeys(items, key, ks[1..])
  }

  lemma {:induction false} IndicatorSum(ks: seq<nat>, k: nat)
    requires StrictlyIncreasing(ks)
    ensures (if k in ks then 1 else 0) ==
            (if ks == [] then 0 else (if ks[0] == k then 1 else 0) + (if k in ks[1..] then 1 else 0))
    ensures ks != [] && ks[0] == k ==> k !in ks[1..]
  {
    if ks != [] {
      assert ks == [ks[0]] + ks[1..];
    }
  }

  lemma {:induction false} SizesOverKeysCount<P>(items: seq<P>, key: P -> nat, ks: seq<nat>)
    requires StrictlyIncreasing(ks)
    ensures SizesOverKeys(items, key, ks) == CountKeyIn(items, key, ks)
  {
    if ks == [] {
      CountKeyInNone(items, key, ks);
    } else {
      SizesOverKeysCount(items, key, ks[1..]);
      CountKeyInSplit(items, key, ks);
    }
  }

  lemma {:induction false} CountKeyInNone<P>(items: seq<P>, key: P -> nat, ks: seq<nat>)
    requires ks == []
    ensures CountKeyIn(items, key, ks) == 0
  {
    if items != [] {
      CountKeyInNone(items[1..], key, ks);
    }
  }

  /** Counting over `ks` is counting its head plus counting over its tail. */
  lemma {:induction false} CountKeyInSplit<P>(items: seq<P>, key: P -> nat, ks: seq<nat>)
    requires StrictlyIncreasing(ks) && ks != []
    ensures CountKeyIn(items, key, ks) ==
            |WithKey(items, key, ks[0])| + CountKeyIn(items, key, ks[1..])
  {
    if items != [] {
      CountKeyInSplit(items[1..], key, ks);
      IndicatorSum(ks, key(items[0]));
      assert WithKey(items, key, ks[0]) ==
             (if key(items[0]) == ks[0] then [items[0]] else []) + WithKey(items[1..], key, ks[0]);
    }
  }

  lemma {:induction false} CountAllKeys<P>(items: seq<P>, key: P -> nat, ks: seq<nat>)
    requires forall i :: 0 <= i < |items| ==> key(items[i]) in ks
    ensures CountKeyIn(items, key, ks) == |items|
  {
    if items != [] {
      CountAllKeys(items[1..], key, ks);
    }
  }

  lemma {:induction false} SizeSumIsSizesOverKeys<P>(items: seq<P>, key: P -> nat, groups: seq<Group<P>>)
    requires forall j :: 0 <= j < |groups| ==> groups[j].items == WithKey(items, key, groups[j].key)
    ensures SizeSum(groups) == SizesOverKeys(items, key, KeysOf(groups))
  {
    if groups != [] {
      SizeSumIsSizesOverKeys(items, key, groups[1..]);
      assert KeysOf(groups)[1..] == KeysOf(groups[1..]);
    }
  }

  /** Every item lands in exactly one group: the group sizes sum to the item count. */
  lemma GroupSizesSum<P>(items: seq<P>, key: P -> nat, groups: seq<Group<P>>)
    requires IsGrouping(items, key, groups)
    ensures SizeSum(groups) == |items|
  {
    SizeSumIsSizesOverKeys(items, key, groups);
    SizesOverKeysCount(items, key, KeysOf(groups));
    forall i | 0 <= i < |items| ensures key(items[i]) in KeysOf(groups) {
      assert HasKey(items, key, key(items[i]));
    }
    CountAllKeys(items, key, KeysOf(groups));
  }

  /** Every group is non-empty, so there are never more groups than items. */
  lemma GroupsAtMostItems<P>(items: seq<P>, key: P -> nat, groups: seq<Group<P>>)
    requires IsGrouping(items, key, groups)
    ensures |groups| <= |items|
  {
    GroupSizesSum(items, key, groups);
    SizeSumAtLeastCount(groups);
  }

  lemma {:induction false} SizeSumAtLeastCount<P>(groups: seq<Group<P>>)
    requires forall j :: 0 <= j < |groups| ==> groups[j].items != []
    ensures |groups| <= SizeSum(groups)
  {
    if groups != [] {
      SizeSumAtLeastCount(groups[1..]);
    }
  }

  // ---------------------------------------------------------------------
  // Removing items

  /** A key has a group exactly when some item carries it. */
  lemma HasKeyIffWithKey<P>(items: seq<P>, key: P -> nat, k: nat)
    ensures HasKey(items, key, k) <==> WithKey(items, key, k) != []
  {
    if HasKey(items, key, k) {
      var i :| 0 <= i < |items| && key(items[i]) == k;
      assert items[i] in WithKey(items, key, k);
    } else {
      NoItemsWithoutKey(items, key, k);
    }
  }

  /** Filtering the items and then taking a key's items is taking the key's items
      and then filtering them. */
  lemma WithKeyOfFilter<P>(items: seq<P>, key: P -> nat, k: nat, p: P -> bool)
    ensures WithKey(Filter(items, p), key, k) == Filter(WithKey(items, key, k), p)
  {
    FilterCommute(items, p, KeyIs(key, k));
  }
}
