/** All the pages of a list, fetched at once and gathered in the order in which they arrive. */
module PageGather {
  import opened Options

  type Row = int

  /** One page as fetched: its rows, or None when the data is not a list. */
  datatype Page = Page(rows: Option<seq<Row>>, age: real, fromCache: bool)
  datatype Box = Box(page: Page, failed: bool)
  datatype Gathered = Gathered(rows: seq<Row>, fromCache: bool, age: real, truncated: bool)

  /** Nothing to gather: the first page is the answer as it is. */
  datatype Result = First(page: Page) | Pages(all: Gathered) | Err

  function RowsOf(boxes: seq<Box>): seq<Row> {
    if boxes == [] then [] else
    var n := |boxes| - 1;
    RowsOf(boxes[..n]) + match boxes[n].page.rows case None => [] case Some(rows) => rows
  }

  lemma {:induction false} RowsConcat(a: seq<Box>, b: seq<Box>)
    ensures RowsOf(a + b) == RowsOf(a) + RowsOf(b)
  {
    if b == [] {
      assert a + b == a;
    } else {
      var n := |b| - 1;
      RowsConcat(a, b[..n]);
      assert (a + b)[..|a| + n] == a + b[..n];
      var last := match b[n].page.rows case None => [] case Some(rows) => rows;
      assert RowsOf(a) + RowsOf(b) == RowsOf(a) + RowsOf(b[..n]) + last;
    }
  }

  function Without(s: seq<Box>, i: nat): seq<Box>
    requires i < |s|
  {
    s[..i] + s[i + 1..]
  }

  lemma Parts<T>(a: seq<T>, b: seq<T>, c: seq<T>)
    ensures multiset(a + b + c) == multiset(a + c) + multiset(b)
  {
    assert multiset(a + b + c) == multiset(a) + multiset(b) + multiset(c);
    assert multiset(a + c) == multiset(a) + multiset(c);
  }

  lemma OneLess(s: seq<Box>, i: nat)
    requires i < |s|
    ensures multiset(Without(s, i)) == multiset(s) - multiset{s[i]}
  {
    assert s == s[..i] + [s[i]] + s[i + 1..];
    Parts(s[..i], [s[i]], s[i + 1..]);
  }

  lemma RowsInParts(a: seq<Box>, b: seq<Box>, c: seq<Box>)
    ensures multiset(RowsOf(a + b + c)) == multiset(RowsOf(a + c)) + multiset(RowsOf(b))
  {
    hide RowsOf;
    RowsConcat(a + b, c);
    RowsConcat(a, b);
    RowsConcat(a, c);
    Parts(RowsOf(a), RowsOf(b), RowsOf(c));
  }

  lemma WithoutOne(s: seq<Box>, i: nat)
    requires i < |s|
    ensures multiset(Without(s, i)) == multiset(s) - multiset{s[i]}
    ensures multiset(RowsOf(s)) == multiset(RowsOf(Without(s, i))) + multiset(RowsOf([s[i]]))
  {
    hide RowsOf;
    OneLess(s, i);
    RowsInParts(s[..i], [s[i]], s[i + 1..]);
    assert s == s[..i] + [s[i]] + s[i + 1..];
  }

  /** The rows gathered do not depend on the order of arrival, but for their own order. */
  lemma {:induction false} AnyOrder(a: seq<Box>, b: seq<Box>)
    requires multiset(a) == multiset(b)
    ensures multiset(RowsOf(a)) == multiset(RowsOf(b))
    decreases |a|
  {
    hide RowsOf;
    assert |a| == |multiset(a)| && |b| == |multiset(b)|;
    if a == [] {
      assert b == [];
    } else {
      assert a[0] in multiset(b);
      var i :| 0 <= i < |b| && b[i] == a[0];
      WithoutOne(a, 0);
      WithoutOne(b, i);
      AnyOrder(Without(a, 0), Without(b, i));
    }
  }

  function Min(a: int, b: int): int {
    if a <= b then a else b
  }

  /** There are pages to gather: the first says so, and its data is a list. */
  predicate Many(first: Page, total: Option<int>) {
    total.Some? && total.value > 1 && first.rows.Some?
  }

  /** What the gathered pages are, whatever the order in `boxes`. */
  ghost predicate Sums(first: Page, boxes: seq<Box>, age: real, fromCache: bool) {
    && (fromCache <==> first.fromCache && forall i :: 0 <= i < |boxes| ==> boxes[i].page.fromCache)
    && age >= first.age && (forall i :: 0 <= i < |boxes| ==> age >= boxes[i].page.age)
    && (age == first.age || exists i :: 0 <= i < |boxes| && age == boxes[i].page.age)
  }

  ghost predicate AnyFailed(boxes: seq<Box>) {
    exists i :: 0 <= i < |boxes| && boxes[i].failed
  }

  /** What is in one sequence is in the other. */
  lemma SameMembers(a: seq<Box>, b: seq<Box>)
    requires multiset(a) == multiset(b)
    ensures |a| == |b| && forall i :: 0 <= i < |a| ==> exists k :: 0 <= k < |b| && b[k] == a[i]
  {
    assert |a| == |multiset(a)| && |b| == |multiset(b)|;
    forall i | 0 <= i < |a|
      ensures exists k :: 0 <= k < |b| && b[k] == a[i]
    {
      assert a[i] in multiset(a);
      assert a[i] in multiset(b);
    }
  }

  lemma SameSums(first: Page, a: seq<Box>, b: seq<Box>, age: real, fromCache: bool)
    requires multiset(a) == multiset(b)
    ensures Sums(first, a, age, fromCache) <==> Sums(first, b, age, fromCache)
    ensures AnyFailed(a) <==> AnyFailed(b)
  {
    SameMembers(a, b);
    SameMembers(b, a);
  }

  /** The loop over the channel. */
  method Gather(first: Page, arrivals: seq<Box>) returns (failed: bool, rows: seq<Row>, age: real, fromCache: bool)
    requires first.rows.Some?
    ensures failed <==> AnyFailed(arrivals)
    ensures !failed ==> rows == first.rows.value + RowsOf(arrivals) && Sums(first, arrivals, age, fromCache)
  {
    hide RowsOf, Sums;
    failed, rows, age, fromCache := false, first.rows.value, first.age, first.fromCache;
    var i := 0;
    NothingYet(first);
    assert arrivals[..0] == [];
    while i < |arrivals|
      invariant 0 <= i <= |arrivals|
      invariant rows == first.rows.value + RowsOf(arrivals[..i])
      invariant Sums(first, arrivals[..i], age, fromCache)
      invariant forall k :: 0 <= k < i ==> !arrivals[k].failed
    {
      var b := arrivals[i];
      if b.failed {
        return true, rows, age, fromCache;
      }
      RowsConcat(arrivals[..i], [b]);
      assert arrivals[..i + 1] == arrivals[..i] + [b];
      OneBox(b);
      SumsMore(first, arrivals[..i], b, age, fromCache);
      if b.page.rows.Some? {
        rows := rows + b.page.rows.value;
      }
      if b.page.age > age {
        age := b.page.age;
      }
      fromCache := fromCache && b.page.fromCache;
      i := i + 1;
    }
    assert arrivals[..i] == arrivals;
  }

  lemma NothingYet(first: Page)
    ensures RowsOf([]) == [] && Sums(first, [], first.age, first.fromCache)
  {
  }

  lemma SumsMore(first: Page, boxes: seq<Box>, b: Box, age: real, fromCache: bool)
    requires Sums(first, boxes, age, fromCache)
    ensures Sums(first, boxes + [b], if b.page.age > age then b.page.age else age, fromCache && b.page.fromCache)
  {
    var more := boxes + [b];
    assert forall k :: 0 <= k < |boxes| ==> more[k] == boxes[k];
    assert more[|boxes|] == b;
    if b.page.age <= age && age != first.age {
      var k :| 0 <= k < |boxes| && age == boxes[k].page.age;
      assert age == more[k].page.age;
    }
  }

  lemma OneBox(b: Box)
    ensures RowsOf([b]) == match b.page.rows case None => [] case Some(rows) => rows
  {
    assert [b][..0] == [];
  }

  /**
   `total` is what the first page says of the number of pages; `boxes` are the answers to pages 2, 3, … up to the cap;
   `arrivals` are the same answers in the order of the channel.  The first page stays in front, every row is there once,
   and one failed page fails them all.
   */
  method GetAllPages(first: Page, total: Option<int>, maxPages: int, ghost boxes: seq<Box>, arrivals: seq<Box>)
    returns (r: Result)
    requires maxPages >= 1
    requires Many(first, total) ==> |boxes| == Min(total.value, maxPages) - 1
    requires multiset(arrivals) == multiset(boxes)
    ensures r.First? <==> !Many(first, total)
    ensures r.First? ==> r.page == first
    ensures r.Err? <==> Many(first, total) && AnyFailed(boxes)
    ensures r.Pages? ==>
      && first.rows.value <= r.all.rows
      && multiset(r.all.rows) == multiset(first.rows.value) + multiset(RowsOf(boxes))
      && Sums(first, boxes, r.all.age, r.all.fromCache)
      && (r.all.truncated <==> maxPages < total.value)
  {
    hide RowsOf, Sums;
    var pages := if total.Some? then total.value else 1;
    if pages <= 1 || first.rows.None? {
      return First(first);
    }
    var capped := Min(pages, maxPages);
    var failed, rows, age, fromCache := Gather(first, arrivals);
    SameSums(first, arrivals, boxes, age, fromCache);
    if failed {
      return Err;
    }
    AnyOrder(arrivals, boxes);
    r := Pages(Gathered(rows, fromCache, age, capped < pages));
  }
}
