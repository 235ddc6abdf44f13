/**
 The cache of ESI responses: a list in order of use, a map into it, and a count of the bytes it holds.

 Its contents are a recency sequence, most recent first, cut to the longest prefix that fits.
 */
module ResponseCache {
  import opened Options

  const MAX_ENTRIES: nat := 2000
  const MAX_BYTES: nat := 256 * 1024 * 1024
  const MAX_BODY: nat := 8 * 1024 * 1024

  type Key = string
  datatype Body = Body(content: int, size: nat)
  datatype Response = Response(body: Body, etag: Option<int>, expiresAt: int, storedAt: int, pages: Option<int>)
  datatype Entry = Entry(key: Key, val: Response)

  function Bytes(rec: seq<Entry>): nat {
    if rec == [] then 0 else Bytes(rec[..|rec| - 1]) + rec[|rec| - 1].val.body.size
  }

  predicate Fits(rec: seq<Entry>) {
    |rec| <= MAX_ENTRIES && Bytes(rec) <= MAX_BYTES
  }

  /** Evicting from the back, one entry at a time, until the rest fits. */
  function Trim(rec: seq<Entry>): seq<Entry> {
    if rec == [] || Fits(rec) then rec else Trim(rec[..|rec| - 1])
  }

  function Drop(rec: seq<Entry>, key: Key): seq<Entry> {
    if rec == [] then [] else
    var n := |rec| - 1;
    Drop(rec[..n], key) + if rec[n].key == key then [] else [rec[n]]
  }

  function Find(rec: seq<Entry>, key: Key): Option<Response> {
    if rec == [] then None
    else if rec[|rec| - 1].key == key then Some(rec[|rec| - 1].val)
    else Find(rec[..|rec| - 1], key)
  }

  function ToFront(rec: seq<Entry>, key: Key, val: Response): seq<Entry> {
    [Entry(key, val)] + Drop(rec, key)
  }

  function Got(rec: seq<Entry>, key: Key): seq<Entry> {
    match Find(rec, key)
    case None => rec
    case Some(val) => ToFront(rec, key, val)
  }

  function Stored(rec: seq<Entry>, key: Key, val: Response): seq<Entry> {
    if val.body.size > MAX_BODY then rec else Trim(ToFront(rec, key, val))
  }

  function Touched(rec: seq<Entry>, key: Key, expiresAt: int, now: int): seq<Entry> {
    match Find(rec, key)
    case None => rec
    case Some(val) => ToFront(rec, key, val.(expiresAt := expiresAt, storedAt := now))
  }

  lemma {:induction false} BytesGrow(rec: seq<Entry>, k: nat)
    requires k <= |rec|
    ensures Bytes(rec[..k]) <= Bytes(rec)
  {
    if k < |rec| {
      BytesGrow(rec[..|rec| - 1], k);
      assert rec[..|rec| - 1][..k] == rec[..k];
    } else {
      assert rec[..k] == rec;
    }
  }

  /** What eviction leaves is the longest prefix that fits. */
  lemma {:induction false} TrimIsLongest(rec: seq<Entry>, k: nat)
    requires k <= |rec|
    ensures Trim(rec) <= rec && Fits(Trim(rec))
    ensures Fits(rec[..k]) ==> k <= |Trim(rec)|
  {
    if rec != [] && !Fits(rec) {
      var init := rec[..|rec| - 1];
      if k < |rec| {
        TrimIsLongest(init, k);
        assert init[..k] == rec[..k];
      } else {
        TrimIsLongest(init, 0);
        assert rec[..k] == rec;
      }
    }
  }

  /** An entry just put is there, in front, when its body is within the bound for bodies; the rest is what was there
      before, in the same order, as far as it fits.  A larger body is not stored, and leaves any older entry alone. */
  lemma PutIsFirst(rec: seq<Entry>, key: Key, val: Response)
    ensures val.body.size <= MAX_BODY ==>
      && |Stored(rec, key, val)| >= 1 && Stored(rec, key, val)[0] == Entry(key, val)
      && Stored(rec, key, val)[1..] <= Drop(rec, key) && Fits(Stored(rec, key, val))
    ensures val.body.size > MAX_BODY ==> Stored(rec, key, val) == rec
  {
    var front := ToFront(rec, key, val);
    TrimIsLongest(front, 1);
    assert front[..1] == [Entry(key, val)] && [Entry(key, val)][..0] == [];
    assert Bytes(front[..1]) == val.body.size;
    if val.body.size <= MAX_BODY {
      var cut := Trim(front);
      assert cut == front[..|cut|];
      assert cut[1..] == Drop(rec, key)[..|cut| - 1];
    }
  }

  ghost predicate Distinct(rec: seq<Entry>) {
    forall i, j :: 0 <= i < j < |rec| ==> rec[i].key != rec[j].key
  }

  lemma NotFound(key: Key)
    ensures Find([], key) == None
  {
  }

  lemma FindSnoc(rec: seq<Entry>, last: Entry, key: Key)
    ensures Find(rec + [last], key) == if last.key == key then Some(last.val) else Find(rec, key)
  {
    assert (rec + [last])[..|rec|] == rec;
  }

  lemma {:induction false} FindDropped(rec: seq<Entry>, key: Key, other: Key)
    ensures Find(Drop(rec, key), other) == if other == key then None else Find(rec, other)
  {
    hide Find;
    NotFound(other);
    if rec != [] {
      var n := |rec| - 1;
      FindDropped(rec[..n], key, other);
      var d := Drop(rec[..n], key);
      assert d + [] == d && rec[..n] + [rec[n]] == rec;
      FindSnoc(rec[..n], rec[n], other);
      FindSnoc(d, rec[n], other);
    }
  }

  lemma {:induction false} FindBehind(front: Entry, rest: seq<Entry>, key: Key)
    ensures Find([front] + rest, key)
         == match Find(rest, key)
            case Some(val) => Some(val)
            case None => if front.key == key then Some(front.val) else None
  {
    var s := [front] + rest;
    if rest == [] {
      assert s[..|s| - 1] == [];
    } else {
      FindBehind(front, rest[..|rest| - 1], key);
      assert s[..|s| - 1] == [front] + rest[..|rest| - 1];
    }
  }

  lemma FindFront(rec: seq<Entry>, key: Key, val: Response, other: Key)
    ensures Find(ToFront(rec, key, val), other) == if other == key then Some(val) else Find(rec, other)
  {
    FindBehind(Entry(key, val), Drop(rec, key), other);
    FindDropped(rec, key, other);
  }

  /** A get changes what no key holds; the key that was looked up, if it is there, is the most recent from then on, and
      the others are as they were among themselves. */
  lemma GotIsRecent(rec: seq<Entry>, key: Key, other: Key)
    ensures Find(Got(rec, key), other) == Find(rec, other)
    ensures Find(rec, key).None? ==> Got(rec, key) == rec
    ensures Find(rec, key).Some? ==>
      && Got(rec, key) != [] && Got(rec, key)[0] == Entry(key, Find(rec, key).value)
      && Got(rec, key)[1..] == Drop(rec, key)
  {
    if Find(rec, key).Some? {
      FindFront(rec, key, Find(rec, key).value, other);
    }
  }

  /** A touch gives the key's entry the expiry it was told and the moment it was told it, makes it the most recent, and
      leaves its body, its ETag and what every other key holds as they were. */
  lemma TouchedIs(rec: seq<Entry>, key: Key, expiresAt: int, now: int, other: Key)
    ensures other != key ==> Find(Touched(rec, key, expiresAt, now), other) == Find(rec, other)
    ensures Find(rec, key).None? ==> Touched(rec, key, expiresAt, now) == rec
    ensures Find(rec, key).Some? ==>
      var was, r := Find(rec, key).value, Touched(rec, key, expiresAt, now);
      && r != [] && r[0] == Entry(key, Response(was.body, was.etag, expiresAt, now, was.pages))
      && r[1..] == Drop(rec, key) && Find(r, key) == Some(r[0].val)
  {
    if Find(rec, key).Some? {
      var val := Find(rec, key).value.(expiresAt := expiresAt, storedAt := now);
      FindFront(rec, key, val, other);
      FindFront(rec, key, val, key);
    }
  }

  lemma {:induction false} FindPrefix(rec: seq<Entry>, k: nat, key: Key)
    requires Distinct(rec) && k <= |rec|
    ensures Find(rec[..k], key) == Find(rec, key) || Find(rec[..k], key) == None
  {
    if k < |rec| {
      var n := |rec| - 1;
      FindPrefix(rec[..n], k, key);
      assert rec[..n][..k] == rec[..k];
      if rec[n].key == key {
        AbsentDrops(rec[..n], key);
      }
    } else {
      assert rec[..k] == rec;
    }
  }

  lemma {:induction false} DropStaysDistinct(rec: seq<Entry>, key: Key)
    requires Distinct(rec)
    ensures Distinct(Drop(rec, key)) && forall i :: 0 <= i < |Drop(rec, key)| ==>
      Drop(rec, key)[i].key != key && Drop(rec, key)[i] in rec
  {
    if rec != [] {
      var n := |rec| - 1;
      DropStaysDistinct(rec[..n], key);
      assert forall i :: 0 <= i < n ==> rec[..n][i] == rec[i];
    }
  }

  /** A put gives the key what it was told, when the body is not too large; every other key holds what it held, or has
      been evicted. */
  lemma StoredIs(rec: seq<Entry>, key: Key, val: Response, other: Key)
    requires Distinct(rec) && val.body.size <= 8 * 1024 * 1024
    ensures Find(Stored(rec, key, val), key) == Some(val)
    ensures other != key ==>
      Find(Stored(rec, key, val), other) == Find(rec, other) || Find(Stored(rec, key, val), other) == None
  {
    hide Find, Drop, Trim, Fits;
    var front, cut := ToFront(rec, key, val), Stored(rec, key, val);
    PutIsFirst(rec, key, val);
    TrimIsLongest(front, 0);
    FrontDistinct(rec, key, val);
    FindFront(rec, key, val, other);
    assert cut == front[..|cut|];
    FindPrefix(front, |cut|, other);
    assert Distinct(cut);
    DropAt(cut, 0);
  }

  lemma FrontDistinct(rec: seq<Entry>, key: Key, val: Response)
    requires Distinct(rec)
    ensures Distinct(ToFront(rec, key, val))
  {
    hide Drop;
    DropStaysDistinct(rec, key);
  }

  class Element {
    const key: Key
    var val: Response

    constructor (key: Key, val: Response)
      ensures this.key == key && this.val == val
    {
      this.key, this.val := key, val;
    }
  }

  function Contents(ll: seq<Element>): (rec: seq<Entry>)
    reads ll
    ensures |rec| == |ll| && forall i :: 0 <= i < |ll| ==> rec[i] == Entry(ll[i].key, ll[i].val)
  {
    if ll == [] then [] else
    var n := |ll| - 1;
    Contents(ll[..n]) + [Entry(ll[n].key, ll[n].val)]
  }

  /** No two elements of the list have one key. */
  ghost predicate Apart(ll: seq<Element>) {
    forall i, j :: 0 <= i < j < |ll| ==> ll[i].key != ll[j].key
  }

  function Index(ll: seq<Element>, el: Element): (i: nat)
    requires el in ll
    ensures i < |ll| && ll[i] == el
  {
    if ll[0] == el then 0 else 1 + Index(ll[1..], el)
  }

  function Fronted<T>(s: seq<T>, i: nat): seq<T>
    requires i < |s|
  {
    [s[i]] + (s[..i] + s[i + 1..])
  }

  lemma {:induction false} AbsentDrops(rec: seq<Entry>, key: Key)
    requires forall i :: 0 <= i < |rec| ==> rec[i].key != key
    ensures Drop(rec, key) == rec && Find(rec, key) == None
  {
    if rec != [] {
      var n := |rec| - 1;
      AbsentDrops(rec[..n], key);
      assert rec[..n] + [rec[n]] == rec && rec[n].key != key;
    }
  }

  /** Dropping a key from a list of distinct keys is cutting out its place. */
  lemma {:induction false} DropAt(rec: seq<Entry>, i: nat)
    requires Distinct(rec) && i < |rec|
    ensures Drop(rec, rec[i].key) == rec[..i] + rec[i + 1..] && Find(rec, rec[i].key) == Some(rec[i].val)
  {
    var n := |rec| - 1;
    if i == n {
      AbsentDrops(rec[..n], rec[i].key);
      assert rec[..i] + rec[i + 1..] == rec[..n];
    } else {
      DropAt(rec[..n], i);
      assert rec[..n][..i] + rec[..n][i + 1..] + [rec[n]] == rec[..i] + rec[i + 1..];
    }
  }

  lemma {:induction false} BytesOf(front: Entry, rest: seq<Entry>)
    ensures Bytes([front] + rest) == front.val.body.size + Bytes(rest)
  {
    if rest == [] {
      assert [front] + rest == [front] && [front][..0] == [];
    } else {
      var s := [front] + rest;
      assert s[..|s| - 1] == [front] + rest[..|rest| - 1];
      BytesOf(front, rest[..|rest| - 1]);
    }
  }

  lemma {:induction false} BytesAt(rec: seq<Entry>, i: nat)
    requires i < |rec|
    ensures Bytes(rec) == rec[i].val.body.size + Bytes(rec[..i] + rec[i + 1..])
  {
    var n := |rec| - 1;
    if i == n {
      assert rec[..i] + rec[i + 1..] == rec[..n];
    } else {
      BytesAt(rec[..n], i);
      var cut := rec[..i] + rec[i + 1..];
      assert cut[..n - 1] == rec[..n][..i] + rec[..n][i + 1..];
    }
  }

  /** Moving an entry to the front changes neither the bytes nor what the keys hold. */
  lemma FrontIs(rec: seq<Entry>, i: nat)
    requires Distinct(rec) && i < |rec|
    ensures Fronted(rec, i) == ToFront(rec, rec[i].key, rec[i].val) && Bytes(Fronted(rec, i)) == Bytes(rec)
    ensures Fits(rec) ==> Fits(Fronted(rec, i))
    ensures Find(rec, rec[i].key) == Some(rec[i].val)
  {
    DropAt(rec, i);
    BytesAt(rec, i);
    BytesOf(rec[i], rec[..i] + rec[i + 1..]);
  }

  /** Changing an entry in place, under its key. */
  lemma ChangedAt(rec: seq<Entry>, i: nat, e: Entry)
    requires Distinct(rec) && i < |rec| && e.key == rec[i].key
    ensures var r := rec[i := e];
      && Distinct(r) && ToFront(r, e.key, e.val) == ToFront(rec, e.key, e.val)
      && Bytes(r) == Bytes(rec) - rec[i].val.body.size + e.val.body.size
      && (e.val.body == rec[i].val.body && Fits(rec) ==> Fits(r))
  {
    hide Drop, Bytes, Find;
    var r := rec[i := e];
    DropAt(rec, i);
    DropAt(r, i);
    BytesAt(rec, i);
    BytesAt(r, i);
    assert r[..i] + r[i + 1..] == rec[..i] + rec[i + 1..];
  }

  /** One eviction, while there is too much. */
  lemma CutBack(rec: seq<Entry>)
    requires rec != []
    ensures var n := |rec| - 1;
      && Bytes(rec) == Bytes(rec[..n]) + rec[n].val.body.size
      && (!Fits(rec) ==> Trim(rec) == Trim(rec[..n]))
  {
  }

  lemma NotCut(rec: seq<Entry>)
    ensures Fits(rec) ==> Trim(rec) == rec
    ensures Fits([]) && Trim([]) == []
  {
  }

  /** The list and the map hold the same elements, each once. */
  ghost predicate Linked(ll: seq<Element>, items: map<Key, Element>) {
    && Apart(ll)
    && (forall i :: 0 <= i < |ll| ==> ll[i].key in items && items[ll[i].key] == ll[i])
    && (forall key :: key in items ==> items[key] in ll && items[key].key == key)
  }

  lemma FrontedAt<T>(s: seq<T>, i: nat)
    requires i < |s|
    ensures |Fronted(s, i)| == |s|
    ensures forall k :: 0 <= k < |s| ==> Fronted(s, i)[k] == s[if k == 0 then i else if k <= i then k - 1 else k]
  {
  }

  lemma ContentsFronted(ll: seq<Element>, i: nat)
    requires i < |ll|
    ensures Contents(Fronted(ll, i)) == Fronted(Contents(ll), i)
  {
    hide Contents, Fronted;
    FrontedAt(ll, i);
    FrontedAt(Contents(ll), i);
  }

  lemma LinkedFront(ll: seq<Element>, items: map<Key, Element>, i: nat)
    requires Linked(ll, items) && i < |ll|
    ensures Linked(Fronted(ll, i), items)
  {
    hide Fronted;
    FrontedAt(ll, i);
    var r := Fronted(ll, i);
    forall key | key in items
      ensures items[key] in r
    {
      var k := Index(ll, items[key]);
      assert items[key] == r[if k == i then 0 else if k < i then k + 1 else k];
    }
  }

  lemma LinkedCut(ll: seq<Element>, items: map<Key, Element>)
    requires Linked(ll, items) && ll != []
    ensures Linked(ll[..|ll| - 1], items - {ll[|ll| - 1].key})
  {
    var n := |ll| - 1;
    forall key | key in items - {ll[n].key}
      ensures items[key] in ll[..n]
    {
      var k := Index(ll, items[key]);
      assert items[key] == ll[..n][k];
    }
  }

  lemma LinkedNew(ll: seq<Element>, items: map<Key, Element>, el: Element)
    requires Linked(ll, items) && el.key !in items
    ensures Linked([el] + ll, items[el.key := el])
  {
    var r := [el] + ll;
    forall key | key in items
      ensures items[key] in r
    {
      var k := Index(ll, items[key]);
      assert items[key] == r[k + 1];
    }
  }

  lemma Keys(ll: seq<Element>, items: map<Key, Element>)
    requires Linked(ll, items)
    ensures Apart(ll)
    ensures forall key :: key in items ==> items[key] in ll && items[key].key == key
    ensures forall i :: 0 <= i < |ll| ==> ll[i].key in items
  {
  }

  class Cache {
    var ll: seq<Element>
    var items: map<Key, Element>
    var bytes: int

    ghost predicate Valid()
      reads this, ll
    {
      Linked(ll, items) && bytes == Bytes(Contents(ll)) && Fits(Contents(ll))
    }

    constructor ()
      ensures Valid() && ll == []
    {
      ll, items, bytes := [], map[], 0;
    }

    method MoveToFront(el: Element)
      requires Linked(ll, items) && el in ll
      modifies this`ll
      ensures Linked(ll, items) && Contents(ll) == ToFront(old(Contents(ll)), el.key, el.val)
      ensures Bytes(Contents(ll)) == Bytes(old(Contents(ll)))
      ensures Fits(old(Contents(ll))) ==> Fits(Contents(ll))
      ensures forall i :: 0 <= i < |ll| ==> ll[i] in old(ll)
    {
      hide Contents, Bytes, Fits, Drop, ToFront, Linked, Find, Fronted;
      var i := Index(ll, el);
      LinkedFront(ll, items, i);
      Keys(ll, items);
      FrontIs(Contents(ll), i);
      ContentsFronted(ll, i);
      FrontedAt(ll, i);
      ll := Fronted(ll, i);
    }

    /** Evict from the back while there is too much. */
    method EvictLocked()
      requires Linked(ll, items) && bytes == Bytes(Contents(ll))
      modifies this
      ensures Valid() && Contents(ll) == Trim(old(Contents(ll)))
    {
      hide Contents, Bytes, Trim, Linked;
      ghost var trimmed := Trim(Contents(ll));
      while (|ll| > MAX_ENTRIES || bytes > MAX_BYTES) && |ll| > 0
        invariant Linked(ll, items) && bytes == Bytes(Contents(ll)) && Trim(Contents(ll)) == trimmed
        decreases |ll|
      {
        var n := |ll| - 1;
        var el := ll[n];
        LinkedCut(ll, items);
        CutBack(Contents(ll));
        assert Contents(ll)[..n] == Contents(ll[..n]);
        ll := ll[..n];
        items := items - {el.key};
        bytes := bytes - el.val.body.size;
      }
      NotCut(Contents(ll));
    }

    method Get(key: Key) returns (hit: Option<Response>)
      requires Valid()
      modifies this
      ensures Valid() && hit == Find(old(Contents(ll)), key) && Contents(ll) == Got(old(Contents(ll)), key)
      ensures forall i :: 0 <= i < |ll| ==> ll[i] in old(ll)
    {
      hide Contents, Bytes, Fits, Drop, ToFront, Find, Linked;
      Keys(ll, items);
      if key !in items {
        AbsentDrops(Contents(ll), key);
        return None;
      }
      var el := items[key];
      FrontIs(Contents(ll), Index(ll, el));
      MoveToFront(el);
      hit := Some(el.val);
    }

    method Put(key: Key, val: Response)
      requires Valid()
      modifies this, ll
      ensures Valid() && Contents(ll) == Stored(old(Contents(ll)), key, val)
    {
      hide Contents, Bytes, Fits, ToFront, Trim, Linked;
      if val.body.size > MAX_BODY {
        return;
      }
      Keys(ll, items);
      if key in items {
        Overwrite(key, val);
      } else {
        Insert(key, val);
      }
      EvictLocked();
    }

    /** The branch of a put that finds the key: the element is changed in place. */
    method Overwrite(key: Key, val: Response)
      requires Linked(ll, items) && bytes == Bytes(Contents(ll)) && key in items && items[key] in ll
      modifies this`ll, this`bytes, items[key]
      ensures Linked(ll, items) && bytes == Bytes(Contents(ll)) && Contents(ll) == ToFront(old(Contents(ll)), key, val)
    {
      hide Contents, Bytes, Fits, Drop, Find, ToFront, Linked;
      Keys(ll, items);
      var el := items[key];
      ghost var i := Index(ll, el);
      ghost var before := Contents(ll);
      bytes := bytes - el.val.body.size;
      el.val := val;
      bytes := bytes + val.body.size;
      assert Contents(ll) == before[i := Entry(key, val)];
      ChangedAt(before, i, Entry(key, val));
      MoveToFront(el);
    }

    /** The branch that does not: a new element in front. */
    method Insert(key: Key, val: Response)
      requires Linked(ll, items) && bytes == Bytes(Contents(ll)) && key !in items
      modifies this`ll, this`bytes, this`items
      ensures Linked(ll, items) && bytes == Bytes(Contents(ll)) && Contents(ll) == ToFront(old(Contents(ll)), key, val)
    {
      hide Contents, Bytes, Fits, Drop, Find, Linked;
      Keys(ll, items);
      var el := new Element(key, val);
      AbsentDrops(Contents(ll), key);
      BytesOf(Entry(key, val), Contents(ll));
      LinkedNew(ll, items, el);
      ghost var before := ll;
      ll := [el] + ll;
      assert Contents(ll) == [Entry(key, val)] + Contents(before);
      items := items[key := el];
      bytes := bytes + val.body.size;
    }

    method Touch(key: Key, expiresAt: int, now: int)
      requires Valid()
      modifies this, ll
      ensures Valid() && Contents(ll) == Touched(old(Contents(ll)), key, expiresAt, now)
    {
      hide Contents, Bytes, Fits, Drop, Find, ToFront, Linked;
      Keys(ll, items);
      if key !in items {
        AbsentDrops(Contents(ll), key);
        return;
      }
      var el := items[key];
      ghost var i := Index(ll, el);
      ghost var before := Contents(ll);
      DropAt(before, i);
      el.val := el.val.(expiresAt := expiresAt, storedAt := now);
      assert Contents(ll) == before[i := Entry(key, el.val)];
      ChangedAt(before, i, Entry(key, el.val));
      MoveToFront(el);
    }
  }
}
