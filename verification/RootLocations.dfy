/** Where each asset really is: the containment chain of every item, walked to the place that is not an item. */
module RootLocations {
  import opened Options

  datatype Item = Item(id: int, location: int, typeId: int, quantity: int)

  /** Where each item is: directly, and so perhaps in another item. */
  type Places = map<int, int>

  ghost predicate DistinctIds(items: seq<Item>) {
    forall i, j :: 0 <= i < j < |items| ==> items[i].id != items[j].id
  }

  function PlacesOf(items: seq<Item>): Places {
    if items == [] then map[] else
    var n := |items| - 1;
    PlacesOf(items[..n])[items[n].id := items[n].location]
  }

  lemma {:induction false} PlacesHold(items: seq<Item>)
    requires DistinctIds(items)
    ensures forall i :: 0 <= i < |items| ==>
      items[i].id in PlacesOf(items) && PlacesOf(items)[items[i].id] == items[i].location
    ensures forall id :: id in PlacesOf(items) <==> exists i :: 0 <= i < |items| && items[i].id == id
  {
    if items != [] {
      PlacesHold(items[..|items| - 1]);
    }
  }

  /** Where the walk from `n` stands after `k + 1` moves, if it has not left the items before. */
  function Up(places: Places, n: int, k: nat): Option<int>
    requires n in places
    decreases k
  {
    if k == 0 then Some(places[n])
    else if places[n] in places then Up(places, places[n], k - 1)
    else None
  }

  /** The walk from `n` comes past `r`. */
  ghost predicate Passes(places: Places, n: int, r: int)
    requires n in places
  {
    exists k: nat :: Up(places, n, k) == Some(r)
  }

  /** The plain walk, without a memory, ends at `r`. */
  ghost predicate Ends(places: Places, n: int, r: int)
    requires n in places
  {
    Passes(places, n, r) && r !in places
  }

  /** What the memory says of an item that it knows. */
  ghost predicate Known(places: Places, roots: map<int, int>, n: int)
    requires n in places && n in roots
  {
    && Passes(places, n, roots[n])
    && (places[n] !in places ==> roots[n] == places[n])
    && (places[n] in places && places[n] in roots ==> roots[n] == roots[places[n]])
    && (places[n] in places && places[n] !in roots ==> places[places[n]] == roots[n] && roots[n] !in places)
  }

  ghost predicate Sound(places: Places, roots: map<int, int>) {
    && (forall n :: n in roots ==> n in places)
    && (forall n :: n in roots ==> Known(places, roots, n))
  }

  /** The map of the documentation: an item in a place that is not an item is there; any other item is where its
      container is. */
  ghost predicate IsFixpoint(places: Places, roots: map<int, int>) {
    && (forall n :: n in roots <==> n in places)
    && forall n :: n in places ==> roots[n] == if places[n] in places then roots[places[n]] else places[n]
  }

  /** What comes after place `i` of the chain. */
  function Next(chain: seq<int>, i: nat, current: int): int {
    if i + 1 < |chain| then chain[i + 1] else current
  }

  /** The chain climbs from the item that is being resolved to `current`, through items not known before. */
  ghost predicate Climbs(places: Places, roots: map<int, int>, chain: seq<int>, item: int, current: int) {
    && current in places && item in places
    && (forall i :: 0 <= i < |chain| ==> chain[i] in places && chain[i] !in roots)
    && (forall i, j :: 0 <= i < j < |chain| ==> chain[i] != chain[j])
    && (forall i :: 0 <= i < |chain| ==> places[chain[i]] == Next(chain, i, current))
    && (if chain == [] then current == item else chain[0] == item)
  }

  lemma ClimbsWithin(places: Places, roots: map<int, int>, chain: seq<int>, item: int, current: int)
    requires Climbs(places, roots, chain, item, current)
    ensures forall i :: 0 <= i < |chain| ==>
      places[chain[i]] in places && (places[chain[i]] in chain || places[chain[i]] == current)
  {
    forall i | 0 <= i < |chain|
      ensures places[chain[i]] in places && (places[chain[i]] in chain || places[chain[i]] == current)
    {
      if i + 1 < |chain| {
        var next := chain[i + 1];
        assert next in chain && next in places;
      }
    }
  }

  lemma {:induction false} ClimbPasses(places: Places, roots: map<int, int>, chain: seq<int>, item: int, current: int,
                                       i: nat, r: int)
    requires Climbs(places, roots, chain, item, current) && i < |chain| && Passes(places, current, r)
    ensures Passes(places, chain[i], r)
    decreases |chain| - i
  {
    ClimbsWithin(places, roots, chain, item, current);
    if i + 1 < |chain| {
      ClimbPasses(places, roots, chain, item, current, i + 1, r);
    }
    var k: nat :| Up(places, places[chain[i]], k) == Some(r);
    assert Up(places, chain[i], k + 1) == Some(r);
  }

  /** Every item of the chain, and the one it started from, get the root that was found. */
  function Resolve(roots: map<int, int>, chain: seq<int>, item: int, r: int): map<int, int> {
    (map n | n in roots.Keys + Members(chain) + {item} :: if n in chain || n == item then r else roots[n])
  }

  function Members(chain: seq<int>): set<int> {
    set i | 0 <= i < |chain| :: chain[i]
  }

  /** How a climb stops: at an item that is known, at one whose place is not an item, or at one it has met before. */
  ghost predicate Stops(places: Places, roots: map<int, int>, chain: seq<int>, current: int, r: int) {
    && current in places
    && ((current in roots && r == roots[current])
        || (current !in roots && places[current] !in places && r == places[current])
        || (current !in roots && places[current] in places && current in chain && r == places[current]))
  }

  lemma ResolvePasses(places: Places, roots: map<int, int>, chain: seq<int>, item: int, current: int, r: int)
    requires Sound(places, roots) && Climbs(places, roots, chain, item, current)
    requires Stops(places, roots, chain, current, r)
    ensures Passes(places, item, r) && forall i :: 0 <= i < |chain| ==> Passes(places, chain[i], r)
  {
    assert Passes(places, current, r) by {
      if current in roots {
        assert Known(places, roots, current);
      } else {
        assert Up(places, current, 0) == Some(r);
      }
    }
    forall i | 0 <= i < |chain|
      ensures Passes(places, chain[i], r)
    {
      ClimbPasses(places, roots, chain, item, current, i, r);
    }
  }

  lemma ResolveSound(places: Places, roots: map<int, int>, chain: seq<int>, item: int, current: int, r: int)
    requires Sound(places, roots) && Climbs(places, roots, chain, item, current)
    requires Stops(places, roots, chain, current, r)
    ensures Sound(places, Resolve(roots, chain, item, r))
  {
    hide Passes;
    var roots' := Resolve(roots, chain, item, r);
    ResolvePasses(places, roots, chain, item, current, r);
    ClimbsWithin(places, roots, chain, item, current);
    forall n | n in roots'
      ensures Known(places, roots', n)
    {
      if n in chain {
        var i :| 0 <= i < |chain| && chain[i] == n;
        assert places[n] in chain || places[n] == current;
      } else if n in roots && n != item {
        assert Known(places, roots, n);
      }
    }
  }

  /**
   The loop over the items, and the climb from each, with a memory of what is resolved and a cut for containers that
   contain each other.
   */
  method RootsOf(items: seq<Item>) returns (roots: map<int, int>)
    requires DistinctIds(items)
    ensures IsFixpoint(PlacesOf(items), roots)
    ensures forall n :: n in roots ==> Passes(PlacesOf(items), n, roots[n])
  {
    PlacesHold(items);
    var byId := PlacesById(items);
    ghost var places := PlacesOf(items);
    SamePlaces(byId, places);
    roots := map[];
    var i := 0;
    while i < |items|
      invariant 0 <= i <= |items| && Sound(places, roots)
      invariant forall k :: 0 <= k < i ==> items[k].id in roots
    {
      var chain: seq<int>, r: int := [], 0;
      ghost var current;
      chain, r, current := Climb(byId, roots, items[i]);
      ResolveSound(places, roots, chain, items[i].id, current, r);
      roots := Resolve(roots, chain, items[i].id, r);
      i := i + 1;
    }
    AllKnown(items, roots);
  }

  lemma AllKnown(items: seq<Item>, roots: map<int, int>)
    requires DistinctIds(items) && Sound(PlacesOf(items), roots) && forall k :: 0 <= k < |items| ==>
      items[k].id in roots
    ensures IsFixpoint(PlacesOf(items), roots)
    ensures forall n :: n in roots ==> Passes(PlacesOf(items), n, roots[n])
  {
    hide Passes, PlacesOf;
    PlacesHold(items);
    var places := PlacesOf(items);
    assert forall n :: n in places ==> n in roots;
    forall n | n in places
      ensures n in roots && roots[n] == if places[n] in places then roots[places[n]] else places[n]
    {
      assert Known(places, roots, n);
    }
  }

  method PlacesById(items: seq<Item>) returns (byId: map<int, Item>)
    requires DistinctIds(items)
    ensures byId.Keys == PlacesOf(items).Keys
    ensures forall id :: id in byId ==> byId[id].id == id && byId[id].location == PlacesOf(items)[id]
  {
    byId := map[];
    var i := 0;
    while i < |items|
      invariant 0 <= i <= |items| && byId.Keys == PlacesOf(items[..i]).Keys
      invariant forall id :: id in byId ==> byId[id].id == id && byId[id].location == PlacesOf(items[..i])[id]
    {
      assert items[..i + 1][..i] == items[..i];
      byId := byId[items[i].id := items[i]];
      i := i + 1;
    }
    assert items[..i] == items;
  }

  /** What the items of the map say of their places. */
  function ByIdPlaces(byId: map<int, Item>): Places {
    map id | id in byId :: byId[id].location
  }

  lemma SamePlaces(byId: map<int, Item>, places: Places)
    requires byId.Keys == places.Keys
    requires forall id :: id in byId ==> byId[id].location == places[id]
    ensures ByIdPlaces(byId) == places
  {
    var p := ByIdPlaces(byId);
    assert forall k: int :: (k in p <==> k in places) && (k in p ==> p[k] == places[k]);
  }

  /** Up from one item.  Every item met is new to the chain, so there are at most as many moves as items. */
  method Climb(byId: map<int, Item>, roots: map<int, int>, item: Item)
    returns (chain: seq<int>, r: int, ghost current: int)
    requires forall id :: id in byId ==> byId[id].id == id
    requires item.id in byId && byId[item.id].location == item.location
    ensures var places := ByIdPlaces(byId);
      Climbs(places, roots, chain, item.id, current) && Stops(places, roots, chain, current, r)
  {
    ghost var places := ByIdPlaces(byId);
    chain := [];
    var at := item;
    while true
      invariant at.id in byId && byId[at.id].location == at.location
      invariant Climbs(places, roots, chain, item.id, at.id)
      decreases |byId| - |chain|
    {
      ChainFits(byId, chain);
      if at.id in roots {
        return chain, roots[at.id], at.id;
      }
      if at.location !in byId {
        return chain, at.location, at.id;
      }
      if at.id in chain {
        return chain, at.location, at.id;
      }
      chain := chain + [at.id];
      ChainFits(byId, chain);
      at := byId[at.location];
    }
  }

  lemma ChainFits(byId: map<int, Item>, chain: seq<int>)
    requires forall i :: 0 <= i < |chain| ==> chain[i] in byId
    requires forall i, j :: 0 <= i < j < |chain| ==> chain[i] != chain[j]
    ensures |chain| <= |byId|
  {
    MembersSize(chain);
    var members := Members(chain);
    assert members + (byId.Keys - members) == byId.Keys;
  }

  lemma {:induction false} MembersSize(chain: seq<int>)
    requires forall i, j :: 0 <= i < j < |chain| ==> chain[i] != chain[j]
    ensures |Members(chain)| == |chain|
  {
    if chain != [] {
      var n := |chain| - 1;
      MembersSize(chain[..n]);
      assert Members(chain) == Members(chain[..n]) + {chain[n]};
      assert chain[n] !in Members(chain[..n]);
    }
  }

  /** On the fixpoint, a walk that leaves the items ends at the root: the memory changes nothing, nor does the order of
      the items. */
  lemma {:induction false} RootIsEnd(places: Places, roots: map<int, int>, n: int, k: nat)
    requires IsFixpoint(places, roots) && n in places && Up(places, n, k).Some? && Up(places, n, k).value !in places
    ensures roots[n] == Up(places, n, k).value
    decreases k
  {
    if k > 0 {
      RootIsEnd(places, roots, places[n], k - 1);
    }
  }

  /** A root is a place, and the end of the plain walk, unless the walk goes round for ever: then, and only then, it is
      an item. */
  lemma RootIsItemExact(places: Places, roots: map<int, int>, n: int)
    requires IsFixpoint(places, roots) && n in places && Passes(places, n, roots[n])
    ensures roots[n] in places <==> forall r :: !Ends(places, n, r)
    ensures forall r :: Ends(places, n, r) ==> roots[n] == r
  {
    forall r | Ends(places, n, r)
      ensures roots[n] == r
    {
      var k: nat :| Up(places, n, k) == Some(r);
      RootIsEnd(places, roots, n, k);
    }
    if roots[n] !in places {
      assert Ends(places, n, roots[n]);
    }
  }

  /** Any two fixpoints agree on every item whose walk leaves the items, so the order of the items does not matter. */
  lemma RootsAgree(places: Places, a: map<int, int>, b: map<int, int>, n: int, r: int)
    requires IsFixpoint(places, a) && IsFixpoint(places, b) && n in places && Ends(places, n, r)
    ensures a[n] == b[n] == r
  {
    var k: nat :| Up(places, n, k) == Some(r);
    RootIsEnd(places, a, n, k);
    RootIsEnd(places, b, n, k);
  }

  lemma PlaceCarries(a: seq<Item>, b: seq<Item>, k: int)
    requires DistinctIds(a) && DistinctIds(b) && multiset(a) == multiset(b) && k in PlacesOf(a)
    ensures k in PlacesOf(b) && PlacesOf(b)[k] == PlacesOf(a)[k]
  {
    hide PlacesOf;
    PlacesHold(a);
    PlacesHold(b);
    InOther(a, b);
    var i :| 0 <= i < |a| && a[i].id == k;
    var j :| 0 <= j < |b| && b[j] == a[i];
    assert b[j].id in PlacesOf(b);
  }

  /** The same items in another order are in the same places. */
  lemma SameItemsSamePlaces(a: seq<Item>, b: seq<Item>)
    requires DistinctIds(a) && DistinctIds(b) && multiset(a) == multiset(b)
    ensures PlacesOf(a) == PlacesOf(b)
  {
    hide PlacesOf, DistinctIds;
    var p, q := PlacesOf(a), PlacesOf(b);
    forall k: int
      ensures (k in p <==> k in q) && (k in p ==> p[k] == q[k])
    {
      if k in p {
        PlaceCarries(a, b, k);
      } else if k in q {
        PlaceCarries(b, a, k);
      }
    }
  }

  lemma InOther(a: seq<Item>, b: seq<Item>)
    requires multiset(a) == multiset(b)
    ensures forall i :: 0 <= i < |a| ==> exists j :: 0 <= j < |b| && b[j] == a[i]
  {
    forall i | 0 <= i < |a|
      ensures exists j :: 0 <= j < |b| && b[j] == a[i]
    {
      assert a[i] in multiset(a);
      assert a[i] in multiset(b);
    }
  }

  /** No item contains itself, at any depth. */
  ghost predicate Acyclic(places: Places) {
    forall n, k: nat :: n in places ==> Up(places, n, k) != Some(n)
  }

  /** The results for two orders of the same items agree wherever the walk leaves the items; so they are the same when
      no item contains itself. */
  lemma OrderDoesNotMatter(a: seq<Item>, b: seq<Item>, ra: map<int, int>, rb: map<int, int>)
    requires DistinctIds(a) && DistinctIds(b) && multiset(a) == multiset(b)
    requires IsFixpoint(PlacesOf(a), ra) && IsFixpoint(PlacesOf(b), rb)
    ensures PlacesOf(a) == PlacesOf(b)
    ensures forall n, r :: n in PlacesOf(a) && Ends(PlacesOf(a), n, r) ==> ra[n] == rb[n] == r
    ensures Acyclic(PlacesOf(a)) ==> ra == rb
  {
    hide PlacesOf, Ends;
    SameItemsSamePlaces(a, b);
    var places := PlacesOf(a);
    forall n, r | n in places && Ends(places, n, r)
      ensures ra[n] == rb[n] == r
    {
      RootsAgree(places, ra, rb, n, r);
    }
    if Acyclic(places) {
      forall k: int
        ensures (k in ra <==> k in rb) && (k in ra ==> ra[k] == rb[k])
      {
        if k in places {
          var r := WalkEnds(places, k);
        }
      }
    }
  }

  /** Walking on from where one stands. */
  lemma {:induction false} UpOn(places: Places, n: int, i: nat, x: int, j: nat)
    requires n in places && Up(places, n, i) == Some(x) && x in places
    ensures Up(places, n, i + 1 + j) == Up(places, x, j)
    decreases i
  {
    if i > 0 {
      UpOn(places, places[n], i - 1, x, j);
    }
  }

  /** The items that the walk comes past in its first `k` moves, if it stays among them. */
  function Track(places: Places, n: int, k: nat): seq<int>
    requires n in places && forall j :: 0 <= j < k ==> Up(places, n, j).Some?
  {
    [n] + seq(k, j requires 0 <= j < k => Up(places, n, j).value)
  }

  /** When no item contains itself the walk never comes back, so it leaves the items. */
  lemma WalkEnds(places: Places, n: int) returns (r: int)
    requires Acyclic(places) && n in places
    ensures Ends(places, n, r)
  {
    var k: nat := 0;
    while Up(places, n, k).value in places
      invariant Up(places, n, k).Some?
      invariant forall j :: 0 <= j < k ==> Up(places, n, j).Some? && Up(places, n, j).value in places
      decreases |places| - k
    {
      TrackFits(places, n, k);
      UpOn(places, n, k, Up(places, n, k).value, 0);
      k := k + 1;
    }
    r := Up(places, n, k).value;
    assert Up(places, n, k) == Some(r);
  }

  lemma TrackDistinct(places: Places, n: int, k: nat, i: nat, j: nat)
    requires Acyclic(places) && n in places && i < j <= k
    requires forall m :: 0 <= m < k ==> Up(places, n, m).Some? && Up(places, n, m).value in places
    ensures Track(places, n, k)[i] != Track(places, n, k)[j]
  {
    hide Up;
    var track := Track(places, n, k);
    assert Up(places, n, j - 1) == Some(track[j]);
    if i > 0 {
      assert Up(places, n, i - 1) == Some(track[i]);
      UpOn(places, n, i - 1, track[i], j - i - 1);
    }
  }

  lemma TrackFits(places: Places, n: int, k: nat)
    requires Acyclic(places) && n in places
    requires forall m :: 0 <= m < k ==> Up(places, n, m).Some? && Up(places, n, m).value in places
    ensures k + 1 <= |places|
  {
    hide Up, Acyclic;
    var track := Track(places, n, k);
    forall i, j | 0 <= i < j < |track|
      ensures track[i] != track[j]
    {
      TrackDistinct(places, n, k, i, j);
    }
    MembersSize(track);
    var members := Members(track);
    assert members + (places.Keys - members) == places.Keys;
  }

  /** The two calls themselves. */
  method InTwoOrders(a: seq<Item>, b: seq<Item>) returns (ra: map<int, int>, rb: map<int, int>)
    requires DistinctIds(a) && DistinctIds(b) && multiset(a) == multiset(b)
    ensures forall n, r :: n in PlacesOf(a) && Ends(PlacesOf(a), n, r) ==> n in ra && n in rb && ra[n] == rb[n] == r
    ensures Acyclic(PlacesOf(a)) ==> ra == rb
  {
    ra := RootsOf(a);
    rb := RootsOf(b);
    OrderDoesNotMatter(a, b, ra, rb);
  }
}
