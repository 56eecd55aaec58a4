/** Whole context items chosen within a character budget. */
module Contexts {
  import opened Contracts

  datatype Item = Item(id: string, text: string, priority: int, evidence: seq<string>, required: bool)

  datatype Packet = Packet(text: string, included: seq<string>, omitted: seq<string>, evidence: seq<string>)

  // -------------------------------------------------------------------- text

  function Part(item: Item): string { "[" + item.id + "]\n" + item.text }

  function Parts(items: seq<Item>): seq<string> {
    if items == [] then [] else Parts(items[..|items| - 1]) + [Part(items[|items| - 1])]
  }

  /** "\n\n".join(parts) */
  function Joined(parts: seq<string>): string {
    if parts == [] then ""
    else
      var n := |parts| - 1;
      if n == 0 then parts[0] else Joined(parts[..n]) + "\n\n" + parts[n]
  }

  function Text(items: seq<Item>): string { Joined(Parts(items)) }

  lemma JoinsOn(parts: seq<string>, part: string)
    ensures Joined(parts + [part]) == (if parts == [] then part else Joined(parts) + "\n\n" + part)
  {
    assert (parts + [part])[..|parts|] == parts;
  }

  lemma {:induction false} PartsLength(items: seq<Item>)
    ensures |Parts(items)| == |items|
  {
    if items != [] {
      PartsLength(items[..|items| - 1]);
    }
  }

  /** What one more item adds to the text. */
  lemma TextGrows(items: seq<Item>, item: Item)
    ensures Parts(items + [item]) == Parts(items) + [Part(item)]
    ensures |Text(items + [item])| == |Text(items)| + |Part(item)| + (if items == [] then 0 else 2)
  {
    assert (items + [item])[..|items|] == items;
    PartsLength(items);
    JoinsOn(Parts(items), Part(item));
  }

  // ------------------------------------------------------------------- order

  /** a may stand before b: required first, then descending priority. */
  predicate Precedes(a: Item, b: Item) {
    if a.required == b.required then a.priority >= b.priority else a.required
  }

  predicate Ordered(items: seq<Item>) {
    forall i, k :: 0 <= i < k < |items| ==> Precedes(items[i], items[k])
  }

  function Insert(items: seq<Item>, item: Item): seq<Item> {
    if items == [] then [item]
    else
      var n := |items| - 1;
      if Precedes(items[n], item) then items + [item] else Insert(items[..n], item) + [items[n]]
  }

  /** sorted(items, key=...) */
  function StableSort(items: seq<Item>): seq<Item> {
    if items == [] then [] else Insert(StableSort(items[..|items| - 1]), items[|items| - 1])
  }

  /** The items of one key, in order. */
  function Keyed(items: seq<Item>, required: bool, priority: int): seq<Item> {
    if items == [] then []
    else
      var n := |items| - 1;
      Keyed(items[..n], required, priority)
      + if items[n].required == required && items[n].priority == priority then [items[n]] else []
  }

  lemma {:induction false} KeyedAppend(items: seq<Item>, item: Item, required: bool, priority: int)
    ensures Keyed(items + [item], required, priority)
         == Keyed(items, required, priority) + if item.required == required && item.priority == priority then [item] else []
  {
    assert (items + [item])[..|items|] == items;
  }

  lemma {:induction false} InsertPermutes(items: seq<Item>, item: Item)
    ensures multiset(Insert(items, item)) == multiset(items) + multiset{item}
  {
    if items != [] {
      var n := |items| - 1;
      assert items == items[..n] + [items[n]];
      if !Precedes(items[n], item) {
        InsertPermutes(items[..n], item);
      }
    }
  }

  lemma OrderedLast(sorted: seq<Item>)
    requires Ordered(sorted) && sorted != []
    ensures var n := |sorted| - 1;
      && Ordered(sorted[..n])
      && (forall item :: item in sorted[..n] ==> Precedes(item, sorted[n]))
      && (sorted[n].required ==> forall k :: 0 <= k < n ==> sorted[k].required)
  {
    var n := |sorted| - 1;
    assert forall k :: 0 <= k < n ==> Precedes(sorted[k], sorted[n]);
  }

  lemma OrderedAppend(sorted: seq<Item>, item: Item)
    requires Ordered(sorted) && forall other :: other in sorted ==> Precedes(other, item)
    ensures Ordered(sorted + [item])
  {
  }

  lemma {:induction false} InsertOrders(items: seq<Item>, item: Item)
    requires Ordered(items)
    ensures Ordered(Insert(items, item))
  {
    if items == [] {
      OrderedAppend([], item);
      assert [] + [item] == [item];
    } else {
      var n := |items| - 1;
      OrderedLast(items);
      hide Ordered;
      if Precedes(items[n], item) {
        forall other | other in items ensures Precedes(other, item) {
          assert other in items[..n] || other == items[n];
        }
        OrderedAppend(items, item);
      } else {
        InsertOrders(items[..n], item);
        InsertPermutes(items[..n], item);
        var inserted := Insert(items[..n], item);
        forall other | other in inserted ensures Precedes(other, items[n]) {
          assert other in multiset(inserted);
        }
        OrderedAppend(inserted, items[n]);
      }
    }
  }

  lemma {:induction false} InsertStays(items: seq<Item>, item: Item, required: bool, priority: int)
    requires Ordered(items)
    ensures Keyed(Insert(items, item), required, priority) == Keyed(items + [item], required, priority)
  {
    hide Ordered, Keyed;
    KeyedAppend(items, item, required, priority);
    if items == [] {
      assert [] + [item] == [item];
    } else {
      var n := |items| - 1;
      OrderedLast(items);
      if !Precedes(items[n], item) {
        InsertStays(items[..n], item, required, priority);
        KeyedAppend(items[..n], item, required, priority);
        KeyedAppend(items[..n], items[n], required, priority);
        assert items == items[..n] + [items[n]];
        KeyedAppend(Insert(items[..n], item), items[n], required, priority);
      }
    }
  }

  /** The sort is a permutation in order, and items of one key keep the order they came in. */
  lemma {:induction false} SortsStably(items: seq<Item>, required: bool, priority: int)
    ensures Ordered(StableSort(items)) && multiset(StableSort(items)) == multiset(items)
    ensures Keyed(StableSort(items), required, priority) == Keyed(items, required, priority)
  {
    hide Keyed, Insert, Precedes;
    if items != [] {
      var n := |items| - 1;
      var sorted := StableSort(items[..n]);
      SortsStably(items[..n], required, priority);
      assert items == items[..n] + [items[n]];
      InsertOrders(sorted, items[n]);
      InsertPermutes(sorted, items[n]);
      InsertStays(sorted, items[n], required, priority);
      KeyedAppend(sorted, items[n], required, priority);
      KeyedAppend(items[..n], items[n], required, priority);
    }
  }

  /** Required items come first, and within each of the two groups priority descends. */
  lemma SortsByPriority(items: seq<Item>, i: nat, k: nat)
    requires i < k < |items|
    ensures |StableSort(items)| == |items|
    ensures var sorted := StableSort(items);
      && (sorted[k].required ==> sorted[i].required)
      && (sorted[i].required == sorted[k].required ==> sorted[i].priority >= sorted[k].priority)
  {
    SortsStably(items, true, 0);
    var sorted := StableSort(items);
    assert |multiset(sorted)| == |multiset(items)|;
    assert Precedes(sorted[i], sorted[k]);
  }

  // --------------------------------------------------------------- selections

  /** The items a mask selects, in order. */
  function Pick(items: seq<Item>, mask: seq<bool>): seq<Item>
    requires |mask| == |items|
  {
    if items == [] then []
    else
      var n := |items| - 1;
      Pick(items[..n], mask[..n]) + if mask[n] then [items[n]] else []
  }

  function Rest(items: seq<Item>, mask: seq<bool>): seq<Item>
    requires |mask| == |items|
  {
    if items == [] then []
    else
      var n := |items| - 1;
      Rest(items[..n], mask[..n]) + if mask[n] then [] else [items[n]]
  }

  predicate Fits(items: seq<Item>, mask: seq<bool>, budget: int)
    requires |mask| == |items|
  {
    |Text(Pick(items, mask))| <= budget
  }

  /** Where two selections first differ, a selects. */
  predicate Prefers(a: seq<bool>, b: seq<bool>)
    requires |a| == |b|
  {
    exists k :: 0 <= k < |a| && a[k] && !b[k] && a[..k] == b[..k]
  }

  /** Each item is taken when it still fits after those taken before it. */
  function Greedy(items: seq<Item>, budget: int): (mask: seq<bool>)
    ensures |mask| == |items|
  {
    if items == [] then []
    else
      var n := |items| - 1;
      var mask := Greedy(items[..n], budget);
      mask + [|Text(Pick(items[..n], mask) + [items[n]])| <= budget]
  }

  lemma {:induction false} PrefixFits(items: seq<Item>, mask: seq<bool>, k: nat)
    requires |mask| == |items| && k <= |items|
    ensures |Text(Pick(items[..k], mask[..k]))| <= |Text(Pick(items, mask))|
    decreases |items| - k
  {
    hide Text;
    if k < |items| {
      PrefixFits(items, mask, k + 1);
      PickNext(items, mask, k);
      TextGrows(Pick(items[..k], mask[..k]), items[k]);
      assert Pick(items[..k], mask[..k]) + [] == Pick(items[..k], mask[..k]);
    } else {
      assert items[..k] == items && mask[..k] == mask;
    }
  }

  lemma PickNext(items: seq<Item>, mask: seq<bool>, k: nat)
    requires |mask| == |items| && k < |items|
    ensures Pick(items[..k + 1], mask[..k + 1]) == Pick(items[..k], mask[..k]) + if mask[k] then [items[k]] else []
  {
    assert items[..k + 1][..k] == items[..k] && mask[..k + 1][..k] == mask[..k];
  }

  lemma {:induction false} GreedyPrefix(items: seq<Item>, budget: int, k: nat)
    requires k <= |items|
    ensures Greedy(items, budget)[..k] == Greedy(items[..k], budget)
    decreases |items|
  {
    hide Text, Pick;
    if k < |items| {
      var n := |items| - 1;
      GreedyPrefix(items[..n], budget, k);
      assert items[..n][..k] == items[..k];
      assert Greedy(items, budget)[..k] == Greedy(items[..n], budget)[..k];
    } else {
      assert items[..k] == items;
    }
  }

  /** An item is taken exactly when it still fits after those taken before it. */
  lemma GreedyTakes(items: seq<Item>, budget: int, k: nat)
    requires k < |items|
    ensures Greedy(items, budget)[k] <==> |Text(Pick(items[..k], Greedy(items, budget)[..k]) + [items[k]])| <= budget
  {
    hide Text, Pick;
    GreedyPrefix(items, budget, k);
    GreedyPrefix(items, budget, k + 1);
    assert items[..k + 1][..k] == items[..k];
    assert Greedy(items, budget)[k] == Greedy(items, budget)[..k + 1][k];
  }

  lemma {:induction false} GreedyFits(items: seq<Item>, budget: int)
    requires budget >= 0
    ensures Fits(items, Greedy(items, budget), budget)
  {
    if items != [] {
      var n := |items| - 1;
      var mask := Greedy(items[..n], budget);
      GreedyFits(items[..n], budget);
      assert Greedy(items, budget)[..n] == mask;
      assert Pick(items[..n], mask) + [] == Pick(items[..n], mask);
    }
  }

  lemma TakesWhatFits(items: seq<Item>, budget: int, mask: seq<bool>, k: nat)
    requires |mask| == |items| && Fits(items, mask, budget)
    requires k < |items| && mask[..k] == Greedy(items, budget)[..k] && mask[k]
    ensures Greedy(items, budget)[k]
  {
    hide Text, Pick, Greedy;
    PrefixFits(items, mask, k + 1);
    PickNext(items, mask, k);
    GreedyTakes(items, budget, k);
  }

  /** Of all the selections that fit, the greedy one is the lexicographically greatest. */
  lemma GreedyIsBest(items: seq<Item>, budget: int, mask: seq<bool>)
    requires |mask| == |items| && Fits(items, mask, budget)
    ensures mask == Greedy(items, budget) || Prefers(Greedy(items, budget), mask)
  {
    hide Fits, Greedy;
    if mask != Greedy(items, budget) {
      var k := FirstDifference(Greedy(items, budget), mask);
      if mask[k] {
        TakesWhatFits(items, budget, mask, k);
      }
    }
  }

  lemma {:induction false} FirstDifference(a: seq<bool>, b: seq<bool>) returns (k: nat)
    requires |a| == |b| && a != b
    ensures k < |a| && a[k] != b[k] && a[..k] == b[..k]
    decreases |a|
  {
    var n := |a| - 1;
    if a[..n] != b[..n] {
      k := FirstDifference(a[..n], b[..n]);
      assert a[..n][..k] == a[..k] && b[..n][..k] == b[..k];
    } else {
      assert a == a[..n] + [a[n]] && b == b[..n] + [b[n]];
      k := n;
    }
  }

  lemma PreferenceIsStrict(a: seq<bool>, b: seq<bool>)
    requires |a| == |b| && Prefers(a, b)
    ensures a != b && !Prefers(b, a)
  {
    var k :| 0 <= k < |a| && a[k] && !b[k] && a[..k] == b[..k];
    forall m | 0 <= m < k ensures a[m] == b[m] {
      assert a[..k][m] == b[..k][m];
    }
    forall m | 0 <= m < |a| && b[m] && !a[m] ensures b[..m] != a[..m] {
      assert a[..m][k] != b[..m][k];
    }
  }

  /** No omitted item would still fit beside the items included. */
  lemma NothingMoreFits(items: seq<Item>, budget: int, k: nat)
    requires k < |items| && !Greedy(items, budget)[k]
    ensures !Fits(items, Greedy(items, budget)[k := true], budget)
  {
    hide Fits, Greedy;
    if Fits(items, Greedy(items, budget)[k := true], budget) {
      GreedyIsBest(items, budget, Greedy(items, budget)[k := true]);
    }
  }

  // ----------------------------------------------------------- required items

  function Required(items: seq<Item>): seq<Item> {
    if items == [] then []
    else Required(items[..|items| - 1]) + if items[|items| - 1].required then [items[|items| - 1]] else []
  }

  /** The characters of every part, with a separator for each. */
  function Weight(items: seq<Item>): nat {
    if items == [] then 0 else Weight(items[..|items| - 1]) + |Part(items[|items| - 1])| + 2
  }

  lemma {:induction false} TextWeight(items: seq<Item>)
    ensures |Text(items)| == if items == [] then 0 else Weight(items) - 2
  {
    if items != [] {
      var n := |items| - 1;
      TextWeight(items[..n]);
      TextGrows(items[..n], items[n]);
      assert items == items[..n] + [items[n]];
    }
  }

  lemma {:induction false} InsertRequired(items: seq<Item>, item: Item)
    ensures Weight(Required(Insert(items, item))) == Weight(Required(items + [item]))
    ensures |Required(Insert(items, item))| == |Required(items + [item])|
  {
    hide Part, Required, Weight, Precedes;
    RequiredAppend(items, item);
    if items != [] {
      var n := |items| - 1;
      RequiredAppend(items[..n], item);
      if !Precedes(items[n], item) {
        InsertRequired(items[..n], item);
        RequiredAppend(Insert(items[..n], item), items[n]);
        RequiredAppend(items[..n], items[n]);
        assert items == items[..n] + [items[n]];
      }
    } else {
      assert items + [item] == [item];
    }
  }

  lemma RequiredAppend(items: seq<Item>, item: Item)
    ensures Required(items + [item]) == Required(items) + if item.required then [item] else []
    ensures Weight(Required(items + [item])) == Weight(Required(items)) + if item.required then |Part(item)| + 2 else 0
  {
    hide Part;
    assert (items + [item])[..|items|] == items;
    assert (Required(items) + [item])[..|Required(items)|] == Required(items);
    assert Required(items) + [] == Required(items);
  }

  lemma {:induction false} SortKeepsWeight(items: seq<Item>)
    ensures Weight(Required(StableSort(items))) == Weight(Required(items))
    ensures |Required(StableSort(items))| == |Required(items)|
  {
    hide Part, Required, Weight;
    if items != [] {
      var n := |items| - 1;
      SortKeepsWeight(items[..n]);
      InsertRequired(StableSort(items[..n]), items[n]);
      RequiredAppend(StableSort(items[..n]), items[n]);
      RequiredAppend(items[..n], items[n]);
      assert items == items[..n] + [items[n]];
    }
  }

  /** The required items take the same room in sorted order. */
  lemma RequiredKeepsRoom(items: seq<Item>)
    ensures |Text(Required(StableSort(items)))| == |Text(Required(items))|
  {
    hide Text, Part, Required, Weight, StableSort;
    SortKeepsWeight(items);
    TextWeight(Required(StableSort(items)));
    TextWeight(Required(items));
  }

  lemma {:induction false} RequiredFirst(sorted: seq<Item>)
    requires Ordered(sorted)
    ensures Required(sorted) <= sorted
    ensures forall k :: 0 <= k < |sorted| ==> (sorted[k].required <==> k < |Required(sorted)|)
  {
    hide Ordered;
    if sorted != [] {
      var n := |sorted| - 1;
      OrderedLast(sorted);
      RequiredFirst(sorted[..n]);
      assert forall k :: 0 <= k < n ==> sorted[..n][k] == sorted[k];
      if sorted[n].required && n > 0 {
        assert sorted[..n][n - 1].required;
      }
    }
  }

  lemma {:induction false} PicksAll(items: seq<Item>, mask: seq<bool>)
    requires |mask| == |items| && forall k :: 0 <= k < |mask| ==> mask[k]
    ensures Pick(items, mask) == items
  {
    if items != [] {
      PicksAll(items[..|items| - 1], mask[..|items| - 1]);
    }
  }

  lemma TextOfNone()
    ensures Text([]) == ""
  {
  }

  /** The first n items are all taken exactly when they fit together. */
  lemma {:induction false} TakesPrefix(items: seq<Item>, budget: int, n: nat)
    requires budget >= 0 && n <= |items|
    ensures (forall k :: 0 <= k < n ==> Greedy(items, budget)[k]) <==> |Text(items[..n])| <= budget
  {
    hide Text, Greedy, Pick, Part;
    TextOfNone();
    if n > 0 {
      TakesPrefix(items, budget, n - 1);
      TextGrows(items[..n - 1], items[n - 1]);
      assert items[..n] == items[..n - 1] + [items[n - 1]];
      GreedyTakes(items, budget, n - 1);
      if forall k :: 0 <= k < n - 1 ==> Greedy(items, budget)[k] {
        PicksAll(items[..n - 1], Greedy(items, budget)[..n - 1]);
      }
    }
  }

  // ------------------------------------------------------------------ packets

  function Names(items: seq<Item>): seq<string> {
    if items == [] then [] else Names(items[..|items| - 1]) + [items[|items| - 1].id]
  }

  function Gathered(items: seq<Item>): seq<string> {
    if items == [] then [] else Gathered(items[..|items| - 1]) + items[|items| - 1].evidence
  }

  /** tuple(dict.fromkeys(s)) */
  function FirstOccurrences(s: seq<string>): seq<string> {
    if s == [] then []
    else
      var n := |s| - 1;
      FirstOccurrences(s[..n]) + if s[n] in s[..n] then [] else [s[n]]
  }

  function IndexIn(s: seq<string>, x: string): nat
    requires x in s
  {
    if s[0] == x then 0 else 1 + IndexIn(s[1..], x)
  }

  lemma {:induction false} IndexIsFirst(s: seq<string>, x: string)
    requires x in s
    ensures IndexIn(s, x) < |s| && s[IndexIn(s, x)] == x && x !in s[..IndexIn(s, x)]
  {
    if s[0] != x {
      IndexIsFirst(s[1..], x);
      assert s[..IndexIn(s, x)] == [s[0]] + s[1..][..IndexIn(s[1..], x)];
    }
  }

  lemma {:induction false} IndexUnique(s: seq<string>, x: string, i: nat)
    requires i < |s| && s[i] == x && x !in s[..i]
    ensures IndexIn(s, x) == i
  {
    if i > 0 {
      assert s[..i] == [s[0]] + s[1..][..i - 1];
      IndexUnique(s[1..], x, i - 1);
    }
  }

  lemma FirstInPrefix(s: seq<string>, n: nat, x: string)
    requires n <= |s| && x in s[..n]
    ensures x in s && IndexIn(s, x) == IndexIn(s[..n], x)
  {
    IndexIsFirst(s[..n], x);
    var k := IndexIn(s[..n], x);
    assert s[..n][..k] == s[..k];
    IndexUnique(s, x, k);
  }

  /** Each element once, where it first occurs. */
  lemma {:induction false} DedupesInOrder(s: seq<string>)
    ensures var d := FirstOccurrences(s);
      && (forall x :: x in d <==> x in s)
      && (forall i, k :: 0 <= i < k < |d| ==> d[i] != d[k] && IndexIn(s, d[i]) < IndexIn(s, d[k]))
  {
    if s != [] {
      var n := |s| - 1;
      DedupesInOrder(s[..n]);
      assert s == s[..n] + [s[n]];
      var d, before := FirstOccurrences(s), FirstOccurrences(s[..n]);
      forall i | 0 <= i < |before| ensures before[i] in s[..n] && IndexIn(s, before[i]) == IndexIn(s[..n], before[i]) < n {
        assert before[i] in before;
        FirstInPrefix(s, n, before[i]);
        IndexIsFirst(s[..n], before[i]);
      }
      if s[n] !in s[..n] {
        IndexIsFirst(s, s[n]);
        forall i | 0 <= i < n ensures s[i] != s[n] {
          assert s[i] in s[..n];
        }
      }
    }
  }

  function Packed(items: seq<Item>, mask: seq<bool>): Packet
    requires |mask| == |items|
  {
    var chosen := Pick(items, mask);
    Packet(Text(chosen), Names(chosen), Names(Rest(items, mask)), FirstOccurrences(Gathered(chosen)))
  }

  lemma MultisetOfAppend(items: seq<Item>, item: Item)
    ensures multiset(items + [item]) == multiset(items) + multiset{item}
  {
  }

  lemma PickSplits(items: seq<Item>, mask: seq<bool>)
    requires |mask| == |items| > 0
    ensures var n := |items| - 1;
      var before := multiset(Pick(items[..n], mask[..n]));
      multiset(Pick(items, mask)) == if mask[n] then before + multiset{items[n]} else before
  {
    var n := |items| - 1;
    MultisetOfAppend(Pick(items[..n], mask[..n]), items[n]);
    assert Pick(items[..n], mask[..n]) + [] == Pick(items[..n], mask[..n]);
  }

  lemma RestSplits(items: seq<Item>, mask: seq<bool>)
    requires |mask| == |items| > 0
    ensures var n := |items| - 1;
      var before := multiset(Rest(items[..n], mask[..n]));
      multiset(Rest(items, mask)) == if mask[n] then before else before + multiset{items[n]}
  {
    var n := |items| - 1;
    MultisetOfAppend(Rest(items[..n], mask[..n]), items[n]);
    assert Rest(items[..n], mask[..n]) + [] == Rest(items[..n], mask[..n]);
  }

  lemma ItemsSplit(items: seq<Item>)
    requires items != []
    ensures multiset(items) == multiset(items[..|items| - 1]) + multiset{items[|items| - 1]}
  {
    MultisetOfAppend(items[..|items| - 1], items[|items| - 1]);
    assert items == items[..|items| - 1] + [items[|items| - 1]];
  }

  lemma Regroups(a: multiset<Item>, b: multiset<Item>, c: multiset<Item>)
    ensures (a + c) + b == (a + b) + c && a + (b + c) == (a + b) + c
  {
  }

  lemma NothingPartitioned()
    ensures Pick([], []) == [] && Rest([], []) == []
  {
  }

  lemma {:induction false} Partitions(items: seq<Item>, mask: seq<bool>)
    requires |mask| == |items|
    ensures multiset(Pick(items, mask)) + multiset(Rest(items, mask)) == multiset(items)
  {
    hide Pick, Rest;
    if items == [] {
      NothingPartitioned();
      assert mask == [];
    } else {
      var n := |items| - 1;
      Partitions(items[..n], mask[..n]);
      PickSplits(items, mask);
      RestSplits(items, mask);
      ItemsSplit(items);
      Regroups(multiset(Pick(items[..n], mask[..n])), multiset(Rest(items[..n], mask[..n])), multiset{items[n]});
    }
  }

  function IdSet(items: seq<Item>): set<string> { set item | item in items :: item.id }

  predicate DistinctIds(items: seq<Item>) {
    forall i, k :: 0 <= i < k < |items| ==> items[i].id != items[k].id
  }

  lemma DistinctAppend(items: seq<Item>, item: Item)
    ensures DistinctIds(items + [item]) <==> DistinctIds(items) && item.id !in IdSet(items)
    ensures IdSet(items + [item]) == IdSet(items) + {item.id}
  {
    var all := items + [item];
    if DistinctIds(all) {
      forall i, k | 0 <= i < k < |items| ensures items[i].id != items[k].id {
        assert all[i].id != all[k].id;
      }
      forall other | other in items ensures other.id != item.id {
        var i :| 0 <= i < |items| && items[i] == other;
        assert all[i].id != all[|items|].id;
      }
    }
    if item.id !in IdSet(items) {
      assert forall i :: 0 <= i < |items| ==> items[i].id in IdSet(items);
    }
    assert forall x :: x in all <==> x in items || x == item;
  }

  lemma {:induction false} IdSetCounts(items: seq<Item>)
    ensures |IdSet(items)| <= |items|
    ensures |IdSet(items)| == |items| <==> DistinctIds(items)
  {
    hide IdSet, DistinctIds;
    if items == [] {
      NoIds();
    } else {
      var n := |items| - 1;
      IdSetCounts(items[..n]);
      assert items == items[..n] + [items[n]];
      DistinctAppend(items[..n], items[n]);
    }
  }

  lemma NoIds()
    ensures IdSet([]) == {} && DistinctIds([])
  {
  }

  // ----------------------------------------------------------------- compiling

  /** The packet after one more item. */
  lemma PicksNext(items: seq<Item>, mask: seq<bool>, k: nat)
    requires |mask| == |items| && k < |items|
    ensures var chosen := Pick(items[..k], mask[..k]);
      Pick(items[..k + 1], mask[..k + 1]) == if mask[k] then chosen + [items[k]] else chosen
    ensures Names(Rest(items[..k + 1], mask[..k + 1]))
         == Names(Rest(items[..k], mask[..k])) + if mask[k] then [] else [items[k].id]
  {
    hide Pick;
    PickNext(items, mask, k);
    assert Pick(items[..k], mask[..k]) + [] == Pick(items[..k], mask[..k]);
    assert items[..k + 1][..k] == items[..k] && mask[..k + 1][..k] == mask[..k];
    assert (Rest(items[..k], mask[..k]) + [items[k]])[..|Rest(items[..k], mask[..k])|] == Rest(items[..k], mask[..k]);
    assert Rest(items[..k], mask[..k]) + [] == Rest(items[..k], mask[..k]);
  }

  lemma ChosenGrows(chosen: seq<Item>, item: Item)
    ensures Names(chosen + [item]) == Names(chosen) + [item.id]
    ensures Gathered(chosen + [item]) == Gathered(chosen) + item.evidence
    ensures Parts(chosen + [item]) == Parts(chosen) + [Part(item)]
  {
    assert (chosen + [item])[..|chosen|] == chosen;
  }

  /** The required items are all taken exactly when they fit together. */
  lemma RequiredFit(items: seq<Item>, budget: int)
    requires budget >= 0 && Ordered(items)
    ensures (forall k :: 0 <= k < |items| && items[k].required ==> Greedy(items, budget)[k])
       <==> |Text(Required(items))| <= budget
  {
    hide Text, Greedy, Required, Ordered;
    RequiredFirst(items);
    assert items[..|Required(items)|] == Required(items);
    TakesPrefix(items, budget, |Required(items)|);
  }

  /** A required item that does not fit stands first in line: everything before it is required and taken. */
  lemma RequiredMisses(items: seq<Item>, budget: int, k: nat)
    requires budget >= 0 && k < |items| && items[k].required && !Greedy(items, budget)[k] && Ordered(items)
    requires forall m :: 0 <= m < k && items[m].required ==> Greedy(items, budget)[m]
    ensures TooLong(items, budget, k)
    ensures |Text(Required(items))| > budget
  {
    hide Text, Greedy, Required;
    assert forall m :: 0 <= m < k ==> Precedes(items[m], items[k]);
    TakesPrefix(items, budget, k);
    TakesPrefix(items, budget, k + 1);
    RequiredFit(items, budget);
  }

  /** The k-th item is required and the first at which the required items outgrow the budget. */
  predicate TooLong(items: seq<Item>, budget: int, k: nat) {
    k < |items| && items[k].required && |Text(items[..k])| <= budget < |Text(items[..k + 1])|
  }

  class ContextCompiler {
    const maxCharacters: nat

    constructor (maxCharacters: nat)
      ensures this.maxCharacters == maxCharacters
    {
      this.maxCharacters := maxCharacters;
    }

    static method Create(maxCharacters: int) returns (r: Outcome<ContextCompiler>)
      ensures r.Ok? <==> maxCharacters > 0
      ensures r.Ok? ==> r.value.maxCharacters == maxCharacters
    {
      if maxCharacters <= 0 {
        return Raised(Refused(ContextBudgetNotPositive));
      }
      var compiler := new ContextCompiler(maxCharacters);
      r := Ok(compiler);
    }

    /** Refuses repeated identities, or required items that do not fit together; otherwise returns the packet of the
        best selection. */
    method Compile(items: seq<Item>) returns (r: Outcome<Packet>)
      ensures r == Raised(Refused(ContextIdsRepeated)) <==> !DistinctIds(items)
      ensures r.Ok? <==> DistinctIds(items) && |Text(Required(items))| <= maxCharacters
      ensures r.Ok? ==> r.value == Packed(StableSort(items), Greedy(StableSort(items), maxCharacters))
      ensures DistinctIds(items) && r.Raised? ==>
        exists k: nat :: TooLong(StableSort(items), maxCharacters, k)
                         && r == Raised(Refused(RequiredContextTooLong(StableSort(items)[k].id)))
    {
      hide IdSet, DistinctIds, Greedy, StableSort, Ordered, Required, Pick, Rest, Names, Gathered, Text, Part, Parts, Joined, TooLong;
      IdSetCounts(items);
      if |IdSet(items)| != |items| {
        return Raised(Refused(ContextIdsRepeated));
      }
      var included, omitted, evidence, parts := [], [], [], [];
      var size := 0;
      var sorted := StableSort(items);
      SortsStably(items, true, 0);
      RequiredKeepsRoom(items);
      ghost var mask := Greedy(sorted, maxCharacters);
      NothingPicked();
      for i := 0 to |sorted|
        invariant Progress(sorted[..i], mask[..i], parts, size, included, omitted, evidence)
        invariant forall k :: 0 <= k < i && sorted[k].required ==> mask[k]
      {
        var item := sorted[i];
        var part := Part(item);
        var cost := |part| + if parts != [] then 2 else 0;
        ProgressOn(sorted, maxCharacters, i, parts, size, included, omitted, evidence);
        if size + cost > maxCharacters {
          if item.required {
            RequiredMisses(sorted, maxCharacters, i);
            return Raised(Refused(RequiredContextTooLong(item.id)));
          }
          omitted := omitted + [item.id];
          continue;
        }
        parts := parts + [part];
        size := size + cost;
        included := included + [item.id];
        evidence := evidence + item.evidence;
      }
      assert sorted[..|sorted|] == sorted && mask[..|sorted|] == mask;
      RequiredFit(sorted, maxCharacters);
      PackedOf(sorted, mask, parts, size, included, omitted, evidence);
      r := Ok(Packet(Joined(parts), included, omitted, FirstOccurrences(evidence)));
    }
  }

  /** The loop's variables, against the selection made so far; size is the length of the text. */
  predicate Progress(items: seq<Item>, mask: seq<bool>, parts: seq<string>, size: int, included: seq<string>,
                     omitted: seq<string>, evidence: seq<string>)
    requires |mask| == |items|
  {
    var chosen := Pick(items, mask);
    && parts == Parts(chosen) && size == |Text(chosen)| && (parts == [] <==> chosen == [])
    && included == Names(chosen) && omitted == Names(Rest(items, mask)) && evidence == Gathered(chosen)
  }

  lemma NothingPicked()
    ensures Progress([], [], [], 0, [], [], [])
  {
  }

  lemma ProgressOn(items: seq<Item>, budget: int, i: nat, parts: seq<string>, size: int, included: seq<string>,
                   omitted: seq<string>, evidence: seq<string>)
    requires i < |items| && Progress(items[..i], Greedy(items, budget)[..i], parts, size, included, omitted, evidence)
    ensures var cost := |Part(items[i])| + if parts != [] then 2 else 0;
      var mask := Greedy(items, budget)[..i + 1];
      if size + cost > budget then
        && !Greedy(items, budget)[i]
        && Progress(items[..i + 1], mask, parts, size, included, omitted + [items[i].id], evidence)
      else
        && Greedy(items, budget)[i]
        && Progress(items[..i + 1], mask, parts + [Part(items[i])], size + cost, included + [items[i].id], omitted,
                    evidence + items[i].evidence)
  {
    hide Greedy, Pick, Rest, Names, Gathered, Text, Part, Parts;
    var chosen := Pick(items[..i], Greedy(items, budget)[..i]);
    GreedyTakes(items, budget, i);
    TextGrows(chosen, items[i]);
    ChosenGrows(chosen, items[i]);
    PicksNext(items, Greedy(items, budget), i);
  }

  lemma PackedOf(items: seq<Item>, mask: seq<bool>, parts: seq<string>, size: int, included: seq<string>,
                 omitted: seq<string>, evidence: seq<string>)
    requires |mask| == |items| && Progress(items, mask, parts, size, included, omitted, evidence)
    ensures Packet(Joined(parts), included, omitted, FirstOccurrences(evidence)) == Packed(items, mask)
    ensures size == |Packed(items, mask).text|
  {
  }

  /** A compiled packet fits the budget, holds every required item, and accounts for every item once. */
  lemma CompiledAccounts(items: seq<Item>, budget: int)
    requires budget >= 0 && |Text(Required(items))| <= budget
    ensures var sorted := StableSort(items);
      var best := Greedy(sorted, budget);
      && |Packed(sorted, best).text| <= budget
      && multiset(Pick(sorted, best)) + multiset(Rest(sorted, best)) == multiset(items)
      && (forall k :: 0 <= k < |sorted| && sorted[k].required ==> best[k])
  {
    hide Greedy, StableSort, Text, Required, Names, Gathered, Ordered, Pick, Rest;
    var sorted := StableSort(items);
    SortsStably(items, true, 0);
    RequiredKeepsRoom(items);
    GreedyFits(sorted, budget);
    Partitions(sorted, Greedy(sorted, budget));
    RequiredFit(sorted, budget);
  }

  /** Nothing the packet omits would still fit, and no other selection that fits is preferred to its own. */
  lemma CompiledIsBest(items: seq<Item>, budget: int, mask: seq<bool>, k: nat)
    requires |mask| == |items|
    ensures |StableSort(items)| == |items|
    ensures var sorted := StableSort(items);
      var best := Greedy(sorted, budget);
      && (k < |sorted| && !best[k] ==> !Fits(sorted, best[k := true], budget))
      && (Fits(sorted, mask, budget) ==> mask == best || (Prefers(best, mask) && !Prefers(mask, best)))
  {
    hide Greedy, StableSort, Fits, Prefers, Ordered;
    var sorted := StableSort(items);
    SortsStably(items, true, 0);
    assert |multiset(sorted)| == |multiset(items)|;
    if k < |sorted| && !Greedy(sorted, budget)[k] {
      NothingMoreFits(sorted, budget, k);
    }
    if Fits(sorted, mask, budget) {
      GreedyIsBest(sorted, budget, mask);
      if mask != Greedy(sorted, budget) {
        PreferenceIsStrict(Greedy(sorted, budget), mask);
      }
    }
  }

  /** An optional item omitted although a less important one is included did not fit after the items before it: the
      required ones, and those of at least its own priority. */
  lemma OmittedForRoom(items: seq<Item>, budget: int, i: nat, k: nat)
    requires |StableSort(items)| == |items| && i < |items| && k < |items|
    requires var sorted, best := StableSort(items), Greedy(StableSort(items), budget);
      !sorted[i].required && !sorted[k].required && !best[i] && best[k] && sorted[k].priority < sorted[i].priority
    ensures var sorted, best := StableSort(items), Greedy(StableSort(items), budget);
      && i < k
      && (forall m :: 0 <= m < i ==> sorted[m].required || sorted[m].priority >= sorted[i].priority)
      && (forall m :: i <= m < |sorted| ==> !sorted[m].required)
      && |Text(Pick(sorted[..i], best[..i]) + [sorted[i]])| > budget
  {
    hide Text, Pick, Greedy, StableSort;
    forall m | 0 <= m < i ensures StableSort(items)[m].required
                              || StableSort(items)[m].priority >= StableSort(items)[i].priority {
      SortsByPriority(items, m, i);
    }
    forall m | i < m < |items| ensures !StableSort(items)[m].required {
      SortsByPriority(items, i, m);
    }
    if k < i {
      SortsByPriority(items, k, i);
    }
    GreedyTakes(StableSort(items), budget, i);
  }

  // ------------------------------------------------------- what a packet holds

  /** The text of a packet: each item under its identity in brackets, with a blank line between items. */
  lemma TextReads(items: seq<Item>, item: Item)
    ensures Text([]) == "" && Text([item]) == "[" + item.id + "]\n" + item.text
    ensures items != [] ==> Text(items + [item]) == Text(items) + "\n\n" + "[" + item.id + "]\n" + item.text
  {
    hide Part, Parts, Joined, Text;
    TextBegins(item);
    PartReads(item, "");
    if items != [] {
      TextGoesOn(items, item);
    }
    PartReads(item, Text(items) + "\n\n");
  }

  lemma TextBegins(item: Item)
    ensures Text([]) == "" && Text([item]) == Part(item)
  {
    assert [item][..0] == [];
    assert Parts([item]) == [Part(item)];
  }

  lemma TextGoesOn(items: seq<Item>, item: Item)
    requires items != []
    ensures Text(items + [item]) == Text(items) + "\n\n" + Part(item)
  {
    hide Part;
    TextGrows(items, item);
    PartsLength(items);
    JoinsOn(Parts(items), Part(item));
  }

  lemma PartReads(item: Item, before: string)
    ensures Part(item) == "[" + item.id + "]\n" + item.text
    ensures before + Part(item) == before + "[" + item.id + "]\n" + item.text
  {
  }

  /** The identities of a selection, and the evidence it gathers, in its own order. */
  lemma {:induction false} NamesInOrder(items: seq<Item>)
    ensures |Names(items)| == |items| && forall i :: 0 <= i < |items| ==> Names(items)[i] == items[i].id
  {
    if items != [] {
      NamesInOrder(items[..|items| - 1]);
    }
  }

  lemma GathersInOrder(items: seq<Item>, item: Item)
    ensures Gathered([]) == [] && Gathered(items + [item]) == Gathered(items) + item.evidence
  {
    ChosenGrows(items, item);
  }

  /** A selection keeps order: one more item goes at the end of the chosen or of the omitted. */
  lemma SelectsInOrder(items: seq<Item>, mask: seq<bool>, item: Item, taken: bool)
    requires |mask| == |items|
    ensures Pick(items + [item], mask + [taken]) == if taken then Pick(items, mask) + [item] else Pick(items, mask)
    ensures Rest(items + [item], mask + [taken]) == if taken then Rest(items, mask) else Rest(items, mask) + [item]
  {
    assert (items + [item])[..|items|] == items && (mask + [taken])[..|mask|] == mask;
    assert Pick(items, mask) + [] == Pick(items, mask) && Rest(items, mask) + [] == Rest(items, mask);
  }

  /** Which items count as required. */
  lemma RequiredInOrder(items: seq<Item>, item: Item)
    ensures Required([]) == [] && Required(items + [item]) == if item.required then Required(items) + [item] else Required(items)
  {
    RequiredAppend(items, item);
    assert Required(items) + [] == Required(items);
  }
}
