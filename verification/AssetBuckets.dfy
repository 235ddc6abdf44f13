/** Assets gathered by the place where they really are. */
module AssetBuckets {
  import opened Options
  import opened RootLocations

  /** CCP's reference prices of a type; 0 where it gives none. */
  datatype Price = Price(average: real, adjusted: real)
  type Prices = map<int, Price>

  function UnitPrice(prices: Prices, typeId: int): real {
    var entry := if typeId in prices then prices[typeId] else Price(0.0, 0.0);
    if entry.average != 0.0 then entry.average else entry.adjusted
  }

  /** A stack of nothing is one item: ESI gives no quantity for singletons. */
  function Quantity(item: Item): int {
    if item.quantity == 0 then 1 else item.quantity
  }

  /** What the items come to, of those at one root and, if asked, of one type. */
  function Units(items: seq<Item>, roots: map<int, int>, root: int, typeId: Option<int>): int {
    if items == [] then 0 else
    var n := |items| - 1;
    Units(items[..n], roots, root, typeId)
    + if items[n].id in roots && roots[items[n].id] == root && (typeId.None? || typeId == Some(items[n].typeId))
      then Quantity(items[n]) else 0
  }

  function Worth(items: seq<Item>, roots: map<int, int>, root: int, prices: Prices): real {
    if items == [] then 0.0 else
    var n := |items| - 1;
    Worth(items[..n], roots, root, prices)
    + if items[n].id in roots && roots[items[n].id] == root
      then UnitPrice(prices, items[n].typeId) * (Quantity(items[n]) as real) else 0.0
  }

  /** What all the items come to that have a root. */
  function Total(items: seq<Item>, roots: map<int, int>): int {
    if items == [] then 0 else
    var n := |items| - 1;
    Total(items[..n], roots) + if items[n].id in roots then Quantity(items[n]) else 0
  }

  function TotalWorth(items: seq<Item>, roots: map<int, int>, prices: Prices): real {
    if items == [] then 0.0 else
    var n := |items| - 1;
    TotalWorth(items[..n], roots, prices)
    + if items[n].id in roots then UnitPrice(prices, items[n].typeId) * (Quantity(items[n]) as real) else 0.0
  }

  ghost predicate Distinct(s: seq<int>) {
    forall i, j :: 0 <= i < j < |s| ==> s[i] != s[j]
  }

  /** Units at each of some places, together. */
  function UnitsAt(items: seq<Item>, roots: map<int, int>, places: seq<int>): int {
    if places == [] then 0 else
    var n := |places| - 1;
    UnitsAt(items, roots, places[..n]) + Units(items, roots, places[n], None)
  }

  function WorthAt(items: seq<Item>, roots: map<int, int>, places: seq<int>, prices: Prices): real {
    if places == [] then 0.0 else
    WorthAt(items, roots, places[..|places| - 1], prices) + Worth(items, roots, places[|places| - 1], prices)
  }

  function UnitsOfTypes(items: seq<Item>, roots: map<int, int>, root: int, types: seq<int>): int {
    if types == [] then 0 else
    UnitsOfTypes(items, roots, root, types[..|types| - 1]) + Units(items, roots, root, Some(types[|types| - 1]))
  }

  lemma {:induction false} NothingAt(roots: map<int, int>, places: seq<int>, prices: Prices)
    ensures UnitsAt([], roots, places) == 0 && WorthAt([], roots, places, prices) == 0.0
  {
    if places != [] {
      NothingAt(roots, places[..|places| - 1], prices);
    }
  }

  lemma {:induction false} OneMoreAt(items: seq<Item>, roots: map<int, int>, places: seq<int>, prices: Prices)
    requires items != [] && Distinct(places)
    ensures var n := |items| - 1; var here := items[n].id in roots && roots[items[n].id] in places;
      && UnitsAt(items, roots, places) == UnitsAt(items[..n], roots, places) + (if here then Quantity(items[n]) else 0)
      && WorthAt(items, roots, places, prices) == WorthAt(items[..n], roots, places, prices)
           + (if here then UnitPrice(prices, items[n].typeId) * (Quantity(items[n]) as real) else 0.0)
  {
    if places != [] {
      OneMoreAt(items, roots, places[..|places| - 1], prices);
    }
  }

  /** Nothing is dropped and nothing counted twice: over the roots, however listed, the buckets come to all the
      items. */
  lemma {:induction false} Conservation(items: seq<Item>, roots: map<int, int>, places: seq<int>, prices: Prices)
    requires Distinct(places) && forall i :: 0 <= i < |items| && items[i].id in roots ==> roots[items[i].id] in places
    ensures UnitsAt(items, roots, places) == Total(items, roots)
    ensures WorthAt(items, roots, places, prices) == TotalWorth(items, roots, prices)
  {
    if items == [] {
      NothingAt(roots, places, prices);
    } else {
      OneMoreAt(items, roots, places, prices);
      Conservation(items[..|items| - 1], roots, places, prices);
    }
  }

  function Quantities(items: seq<Item>): int {
    if items == [] then 0 else Quantities(items[..|items| - 1]) + Quantity(items[|items| - 1])
  }

  /** Every item has a root, so every item is in some bucket. */
  lemma {:induction false} NothingDropped(items: seq<Item>, roots: map<int, int>)
    requires forall i :: 0 <= i < |items| ==> items[i].id in roots
    ensures Total(items, roots) == Quantities(items)
  {
    if items != [] {
      NothingDropped(items[..|items| - 1], roots);
    }
  }

  /** The buckets made from the roots of the items come to all the items together. */
  lemma AllAssets(items: seq<Item>, roots: map<int, int>, places: seq<int>, prices: Prices)
    requires DistinctIds(items) && IsFixpoint(PlacesOf(items), roots)
    requires Distinct(places) && forall n :: n in roots ==> roots[n] in places
    ensures UnitsAt(items, roots, places) == Quantities(items)
  {
    hide PlacesOf;
    PlacesHold(items);
    NothingDropped(items, roots);
    Conservation(items, roots, places, prices);
  }

  lemma {:induction false} NothingOfTypes(roots: map<int, int>, root: int, types: seq<int>)
    ensures UnitsOfTypes([], roots, root, types) == 0
  {
    if types != [] {
      NothingOfTypes(roots, root, types[..|types| - 1]);
    }
  }

  lemma {:induction false} OneMoreOfTypes(items: seq<Item>, roots: map<int, int>, root: int, types: seq<int>)
    requires items != [] && Distinct(types)
    ensures var n := |items| - 1;
      UnitsOfTypes(items, roots, root, types) == UnitsOfTypes(items[..n], roots, root, types)
        + if items[n].id in roots && roots[items[n].id] == root && items[n].typeId in types
          then Quantity(items[n]) else 0
  {
    if types != [] {
      OneMoreOfTypes(items, roots, root, types[..|types| - 1]);
    }
  }

  /** The units of a bucket are those of its types together. */
  lemma {:induction false} TypesAddUp(items: seq<Item>, roots: map<int, int>, root: int, types: seq<int>)
    requires Distinct(types)
    requires forall i :: 0 <= i < |items| && items[i].id in roots && roots[items[i].id] == root ==>
      items[i].typeId in types
    ensures UnitsOfTypes(items, roots, root, types) == Units(items, roots, root, None)
  {
    if items == [] {
      NothingOfTypes(roots, root, types);
    } else {
      OneMoreOfTypes(items, roots, root, types);
      TypesAddUp(items[..|items| - 1], roots, root, types);
    }
  }

  /** What a bucket holds. */
  datatype Bag = Bag(value: real, units: int, types: map<int, int>)

  const EMPTY: Bag := Bag(0.0, 0, map[])

  function Added(bag: Bag, typeId: int, qty: int, price: real): Bag {
    Bag(bag.value + price * (qty as real), bag.units + qty,
        bag.types[typeId := (if typeId in bag.types then bag.types[typeId] else 0) + qty])
  }

  predicate IsAt(item: Item, roots: map<int, int>, root: int) {
    item.id in roots && roots[item.id] == root
  }

  /** The bag of `root` holds what these items come to there, in all and by type. */
  ghost predicate Holds(bag: Bag, items: seq<Item>, roots: map<int, int>, root: int, prices: Prices) {
    && bag.units == Units(items, roots, root, None) && bag.value == Worth(items, roots, root, prices)
    && (forall t :: t in bag.types ==> bag.types[t] == Units(items, roots, root, Some(t)))
    && (forall t :: t !in bag.types ==> Units(items, roots, root, Some(t)) == 0)
    && (forall i :: 0 <= i < |items| && IsAt(items[i], roots, root) ==> items[i].typeId in bag.types)
  }

  lemma {:induction false} EmptyHolds(items: seq<Item>, roots: map<int, int>, root: int, prices: Prices)
    requires forall i :: 0 <= i < |items| ==> !IsAt(items[i], roots, root)
    ensures Holds(EMPTY, items, roots, root, prices)
  {
    if items != [] {
      EmptyHolds(items[..|items| - 1], roots, root, prices);
    }
  }

  lemma OneMoreHolds(bag: Bag, items: seq<Item>, item: Item, roots: map<int, int>, root: int, prices: Prices)
    requires Holds(bag, items, roots, root, prices)
    ensures var more :=
        if IsAt(item, roots, root)
        then Added(bag, item.typeId, Quantity(item), UnitPrice(prices, item.typeId)) else bag;
      Holds(more, items + [item], roots, root, prices)
  {
    assert (items + [item])[..|items|] == items;
  }

  class AssetBucket {
    var value: real
    var units: int
    var types: map<int, int>

    function Contents(): Bag
      reads this
    {
      Bag(value, units, types)
    }

    constructor ()
      ensures Contents() == EMPTY
    {
      value, units, types := 0.0, 0, map[];
    }

    method Add(typeId: int, qty: int, price: real)
      modifies this
      ensures Contents() == Added(old(Contents()), typeId, qty, price)
    {
      value := value + price * (qty as real);
      units := units + qty;
      types := types[typeId := (if typeId in types then types[typeId] else 0) + qty];
    }
  }

  /** The buckets are of the roots that occur, and no two roots share one. */
  ghost predicate Bucketed(buckets: map<int, AssetBucket>, items: seq<Item>, roots: map<int, int>) {
    && (forall r :: r in buckets ==> exists i :: 0 <= i < |items| && IsAt(items[i], roots, r))
    && (forall i :: 0 <= i < |items| && items[i].id in roots ==> roots[items[i].id] in buckets)
    && (forall a, b :: a in buckets && b in buckets && a != b ==> buckets[a] != buckets[b])
  }

  lemma OneMoreBucketed(buckets: map<int, AssetBucket>, items: seq<Item>, item: Item, roots: map<int, int>,
                        b: AssetBucket?)
    requires Bucketed(buckets, items, roots)
    requires item.id in roots ==>
      && b != null
      && if roots[item.id] in buckets then b == buckets[roots[item.id]] else forall r :: r in buckets ==>
          buckets[r] != b
    ensures Bucketed(if item.id in roots then buckets[roots[item.id] := b] else buckets, items + [item], roots)
  {
    var more := items + [item];
    assert more[|items|] == item;
    forall r | r in buckets
      ensures exists i :: 0 <= i < |more| && IsAt(more[i], roots, r)
    {
      var i :| 0 <= i < |items| && IsAt(items[i], roots, r);
      assert IsAt(more[i], roots, r);
    }
    if item.id in roots {
      assert IsAt(more[|items|], roots, roots[item.id]);
    }
  }

  method Buckets(items: seq<Item>, roots: map<int, int>, prices: Prices) returns (buckets: map<int, AssetBucket>)
    ensures Bucketed(buckets, items, roots)
    ensures forall r :: r in buckets ==> fresh(buckets[r]) && Holds(buckets[r].Contents(), items, roots, r, prices)
  {
    buckets := map[];
    var i := 0;
    while i < |items|
      invariant 0 <= i <= |items| && Bucketed(buckets, items[..i], roots)
      invariant forall r :: r in buckets ==>
        fresh(buckets[r]) && Holds(buckets[r].Contents(), items[..i], roots, r, prices)
    {
      hide Holds, Units, Worth, Added;
      var item := items[i];
      ghost var before, known := items[..i], buckets;
      assert items[..i + 1] == before + [item];
      forall r: int, bag: Bag | Holds(bag, before, roots, r, prices)
        ensures IsAt(item, roots, r) ==>
          Holds(Added(bag, item.typeId, Quantity(item), UnitPrice(prices, item.typeId)), before + [item], roots, r,
                prices)
        ensures !IsAt(item, roots, r) ==> Holds(bag, before + [item], roots, r, prices)
      {
        OneMoreHolds(bag, before, item, roots, r, prices);
      }
      i := i + 1;
      if item.id !in roots {
        OneMoreBucketed(known, before, item, roots, null);
        continue;
      }
      var root := roots[item.id];
      var b: AssetBucket;
      if root in buckets {
        b := buckets[root];
      } else {
        b := new AssetBucket();
        NoneThere(known, before, roots, root);
        EmptyHolds(before, roots, root, prices);
        buckets := buckets[root := b];
      }
      OneMoreBucketed(known, before, item, roots, b);
      assert buckets == known[root := b];
      b.Add(item.typeId, Quantity(item), UnitPrice(prices, item.typeId));
    }
    assert items[..i] == items;
  }

  lemma NoneThere(buckets: map<int, AssetBucket>, items: seq<Item>, roots: map<int, int>, root: int)
    requires Bucketed(buckets, items, roots) && root !in buckets
    ensures forall i :: 0 <= i < |items| ==> !IsAt(items[i], roots, root)
  {
  }

  /** The sum of the quantities as ESI gives them. */
  function Stacked(items: seq<Item>): int {
    if items == [] then 0 else Stacked(items[..|items| - 1]) + items[|items| - 1].quantity
  }

  /** The items without a quantity. */
  function Singletons(items: seq<Item>): nat {
    if items == [] then 0 else Singletons(items[..|items| - 1]) + if items[|items| - 1].quantity == 0 then 1 else 0
  }

  /** What an item is worth: at the average price, or at the adjusted one where there is no average, and at nothing
      where CCP has no price; as many times as its quantity, once if it has none. */
  function ItemWorth(item: Item, prices: Prices): real {
    var n := if item.quantity == 0 then 1.0 else item.quantity as real;
    if item.typeId !in prices then 0.0
    else if prices[item.typeId].average != 0.0 then prices[item.typeId].average * n
    else prices[item.typeId].adjusted * n
  }

  /** Item by item: each adds to the bucket of its root, in all and under its type, its quantity, or one if it has none,
      and its worth; and to no other. */
  lemma EachItemCounts(items: seq<Item>, item: Item, roots: map<int, int>, root: int, typeId: int, prices: Prices)
    ensures var units := if item.quantity == 0 then 1 else item.quantity;
      && Units(items + [item], roots, root, None)
           == Units(items, roots, root, None) + (if IsAt(item, roots, root) then units else 0)
      && Units(items + [item], roots, root, Some(typeId))
           == Units(items, roots, root, Some(typeId))
              + (if IsAt(item, roots, root) && item.typeId == typeId then units else 0)
    ensures Worth(items + [item], roots, root, prices)
         == Worth(items, roots, root, prices) + (if IsAt(item, roots, root) then ItemWorth(item, prices) else 0.0)
    ensures Units([], roots, root, None) == 0 && Units([], roots, root, Some(typeId)) == 0
    ensures Worth([], roots, root, prices) == 0.0
  {
    assert (items + [item])[..|items|] == items;
  }

  lemma {:induction false} QuantitiesAre(items: seq<Item>)
    ensures Quantities(items) == Stacked(items) + Singletons(items)
  {
    if items != [] {
      QuantitiesAre(items[..|items| - 1]);
    }
  }

  /** The units in the buckets of some places, together. */
  function UnitsIn(buckets: map<int, AssetBucket>, places: seq<int>): int
    requires forall i :: 0 <= i < |places| ==> places[i] in buckets
    reads set i | 0 <= i < |places| :: buckets[places[i]]
  {
    if places == [] then 0 else
    var n := |places| - 1;
    UnitsIn(buckets, places[..n]) + buckets[places[n]].units
  }

  lemma {:induction false} UnitsInAreAt(buckets: map<int, AssetBucket>, items: seq<Item>, roots: map<int, int>,
                                        prices: Prices, places: seq<int>)
    requires forall r :: r in buckets ==> Holds(buckets[r].Contents(), items, roots, r, prices)
    requires forall i :: 0 <= i < |places| ==> places[i] in buckets
    ensures UnitsIn(buckets, places) == UnitsAt(items, roots, places)
    ensures ValueIn(buckets, places) == WorthAt(items, roots, places, prices)
  {
    if places != [] {
      var n := |places| - 1;
      UnitsInAreAt(buckets, items, roots, prices, places[..n]);
      assert Holds(buckets[places[n]].Contents(), items, roots, places[n], prices);
    }
  }

  /** The places are those of the buckets, each once. */
  ghost predicate Lists(places: seq<int>, buckets: map<int, AssetBucket>) {
    && Distinct(places) && (forall i :: 0 <= i < |places| ==> places[i] in buckets)
    && (forall r :: r in buckets ==> r in places)
  }

  function ValueIn(buckets: map<int, AssetBucket>, places: seq<int>): real
    requires forall i :: 0 <= i < |places| ==> places[i] in buckets
    reads set i | 0 <= i < |places| :: buckets[places[i]]
  {
    if places == [] then 0.0 else
    var n := |places| - 1;
    ValueIn(buckets, places[..n]) + buckets[places[n]].value
  }

  /** What some items are worth together. */
  function ItemsWorth(items: seq<Item>, prices: Prices): real {
    if items == [] then 0.0 else ItemsWorth(items[..|items| - 1], prices) + ItemWorth(items[|items| - 1], prices)
  }

  lemma {:induction false} TotalIsWorth(items: seq<Item>, roots: map<int, int>, prices: Prices)
    requires forall i :: 0 <= i < |items| ==> items[i].id in roots
    ensures ItemsWorth(items, prices) == TotalWorth(items, roots, prices)
  {
    if items != [] {
      TotalIsWorth(items[..|items| - 1], roots, prices);
    }
  }

  /** The roots of the items and the buckets over them: listed in any way, each once, the buckets hold every unit there
      is, an item without a quantity counted as one, and all that the items are worth. */
  method ByRoot(items: seq<Item>, prices: Prices) returns (buckets: map<int, AssetBucket>)
    requires DistinctIds(items)
    ensures forall r :: r in buckets ==> fresh(buckets[r])
    ensures forall places :: Lists(places, buckets) ==>
      && UnitsIn(buckets, places) == Stacked(items) + Singletons(items)
      && ValueIn(buckets, places) == ItemsWorth(items, prices)
  {
    var roots := RootsOf(items);
    buckets := Buckets(items, roots, prices);
    forall places | Lists(places, buckets)
      ensures UnitsIn(buckets, places) == Stacked(items) + Singletons(items)
      ensures ValueIn(buckets, places) == ItemsWorth(items, prices)
    {
      hide ItemsWorth, Holds;
      PlacesHold(items);
      UnitsInAreAt(buckets, items, roots, prices, places);
      NothingDropped(items, roots);
      QuantitiesAre(items);
      TotalIsWorth(items, roots, prices);
      Conservation(items, roots, places, prices);
    }
  }
}
