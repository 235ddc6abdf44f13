/** Walking a list that the server hands out newest first, a page at a time, by a cursor. */
module CursorWalk {
  import opened Options

  /** `marker` is the row's value under the cursor key, if it has one. */
  datatype Row = Row(marker: Option<int>, body: int)

  datatype Walk = Walk(cursor: Option<int>, data: seq<Row>, seen: set<int>, batch: nat, fetched: nat, truncated: bool)
  datatype Merged = Merged(data: seq<Row>, seen: set<int>, next: Option<int>)
  datatype Stepped = Stepped(walk: Walk, goesOn: bool)

  function Max(a: int, b: int): int {
    if a >= b then a else b
  }

  function MergeRow(m: Merged, row: Row): Merged {
    match row.marker
    case None => m.(data := m.data + [row])
    case Some(marker) =>
      if marker in m.seen then m else
      Merged(m.data + [row], m.seen + {marker}, if m.next.None? || marker < m.next.value then row.marker else m.next)
  }

  function Merge(m: Merged, rows: seq<Row>): Merged {
    if rows == [] then m else MergeRow(Merge(m, rows[..|rows| - 1]), rows[|rows| - 1])
  }

  /** One page.  A page shorter than the largest seen so far is taken for the last. */
  function StepWith(w: Walk, rows: seq<Row>, last: bool): Stepped {
    var w1 := w.(fetched := w.fetched + 1);
    if rows == [] then Stepped(w1, false) else
    var batch := Max(w.batch, |rows|);
    var m := Merge(Merged(w.data, w.seen, None), rows);
    var w2 := w1.(data := m.data, seen := m.seen, batch := batch);
    if |rows| < batch then Stepped(w2, false)
    else if last then Stepped(w2.(truncated := true), false)
    else if m.next.None? || (w.cursor.Some? && m.next.value >= w.cursor.value) then Stepped(w2, false)
    else Stepped(w2.(cursor := m.next), true)
  }

  /** The server: the newest `size` rows below the cursor, or at it and below. */
  datatype Server = Server(list: seq<Row>, inclusive: bool, size: nat)

  ghost predicate Descending(list: seq<Row>) {
    && (forall i :: 0 <= i < |list| ==> list[i].marker.Some?)
    && (forall i, j :: 0 <= i < j < |list| ==> list[i].marker.value > list[j].marker.value)
  }

  predicate Reaches(row: Row, inclusive: bool, cursor: Option<int>) {
    cursor.Some? && row.marker.Some? ==>
      row.marker.value < cursor.value || (inclusive && row.marker.value == cursor.value)
  }

  function Start(list: seq<Row>, inclusive: bool, cursor: Option<int>): (k: nat)
    ensures k <= |list|
  {
    if list == [] || Reaches(list[0], inclusive, cursor) then 0 else 1 + Start(list[1..], inclusive, cursor)
  }

  /** Everything a complete walk from `cursor` would bring. */
  function All(s: Server, cursor: Option<int>): seq<Row> {
    s.list[Start(s.list, s.inclusive, cursor)..]
  }

  function Prefix<T>(s: seq<T>, n: int): seq<T> {
    if 0 <= n <= |s| then s[..n] else s
  }

  function Page(s: Server, cursor: Option<int>): seq<Row> {
    Prefix(All(s, cursor), s.size)
  }

  function WalkFrom(s: Server, w: Walk, index: nat, maxPages: nat): Walk
    decreases maxPages - index
  {
    if index >= maxPages then w else
    var r := StepWith(w, Page(s, w.cursor), index == maxPages - 1);
    if r.goesOn then WalkFrom(s, r.walk, index + 1, maxPages) else r.walk
  }

  function NewWalk(cursor: Option<int>, batchSize: int): Walk {
    Walk(cursor, [], {}, Max(batchSize, 1), 0, false)
  }

  function Walked(s: Server, cursor: Option<int>, batchSize: int, maxPages: int): Walk {
    WalkFrom(s, NewWalk(cursor, batchSize), 0, Max(maxPages, 1))
  }

  lemma {:induction false} StartIs(list: seq<Row>, inclusive: bool, cursor: Option<int>, k: nat)
    requires Descending(list) && k <= |list|
    requires forall i :: 0 <= i < k ==> !Reaches(list[i], inclusive, cursor)
    requires k < |list| ==> Reaches(list[k], inclusive, cursor)
    ensures Start(list, inclusive, cursor) == k
  {
    if k > 0 {
      StartIs(list[1..], inclusive, cursor, k - 1);
    }
  }

  ghost function Markers(rows: seq<Row>): set<int> {
    set i | 0 <= i < |rows| && rows[i].marker.Some? :: rows[i].marker.value
  }

  /** The walk stands after the first `k` rows of what it is to bring. */
  ghost predicate At(s: Server, all: seq<Row>, first: Option<int>, w: Walk, k: nat) {
    && Descending(all) && k <= |all| && w.data == all[..k] && w.seen == Markers(all[..k])
    && 1 <= w.batch <= s.size && !w.truncated
    && w.cursor == (if k == 0 then first else all[k - 1].marker)
  }

  lemma SliceInit(rows: seq<Row>, from: nat, to: nat)
    requires from < to <= |rows|
    ensures rows[from..to][..to - from - 1] == rows[from..to - 1] && rows[from..to][to - from - 1] == rows[to - 1]
  {
  }

  /** Merging the rows `from` to `to`, of which those before `k` are known. */
  lemma {:induction false} MergeSlice(all: seq<Row>, k: nat, from: nat, to: nat)
    requires Descending(all) && k <= |all| && from <= k && from <= to <= |all|
    ensures var m := Merge(Merged(all[..k], Markers(all[..k]), None), all[from..to]);
      && m == Merged(all[..Max(k, to)], Markers(all[..Max(k, to)]), if to > k then all[to - 1].marker else None)
  {
    hide MergeRow, Markers, Descending;
    if from < to {
      MergeSlice(all, k, from, to - 1);
      SliceInit(all, from, to);
      MergeOne(all, k, to - 1);
    }
  }

  lemma MergeOne(all: seq<Row>, k: nat, i: nat)
    requires Descending(all) && k <= |all| && i < |all|
    ensures MergeRow(Merged(all[..Max(k, i)], Markers(all[..Max(k, i)]), if i > k then all[i - 1].marker else None),
                     all[i])
         == Merged(all[..Max(k, i + 1)], Markers(all[..Max(k, i + 1)]), if i + 1 > k then all[i].marker else None)
  {
    if i < k {
      assert all[..k][i] == all[i];
      assert all[i].marker.value in Markers(all[..k]);
    } else {
      assert all[i].marker.value !in Markers(all[..i]) by {
        assert forall j :: 0 <= j < i ==> all[..i][j] == all[j];
      }
      assert all[..i + 1] == all[..i] + [all[i]];
      MarkersMore(all[..i], all[i]);
    }
  }

  lemma MarkersMore(rows: seq<Row>, row: Row)
    requires row.marker.Some?
    ensures Markers(rows + [row]) == Markers(rows) + {row.marker.value}
  {
    var more := rows + [row];
    assert more[|rows|] == row;
    assert forall i :: 0 <= i < |rows| ==> more[i] == rows[i];
  }

  /** Where the server's page starts, in terms of the rows to bring: at the last known row, or after it. */
  function From(s: Server, k: nat): nat {
    if k > 0 && s.inclusive then k - 1 else k
  }

  lemma PageIs(s: Server, first: Option<int>, w: Walk, k: nat)
    requires Descending(s.list) && At(s, All(s, first), first, w, k)
    ensures All(s, w.cursor) == All(s, first)[From(s, k)..]
  {
    hide Start, Markers;
    if k > 0 {
      var n := Start(s.list, s.inclusive, first);
      Reached(s.list, s.inclusive, first);
      assert w.cursor == s.list[n + k - 1].marker;
      StartAt(s.list, s.inclusive, n + k - 1);
    }
  }

  /** The page that starts at a row of the list, or after it. */
  lemma StartAt(list: seq<Row>, inclusive: bool, i: nat)
    requires Descending(list) && i < |list|
    ensures Start(list, inclusive, list[i].marker) == if inclusive then i else i + 1
  {
    StartIs(list, inclusive, list[i].marker, if inclusive then i else i + 1);
  }

  lemma {:induction false} Reached(list: seq<Row>, inclusive: bool, cursor: Option<int>)
    ensures var k := Start(list, inclusive, cursor); k < |list| ==> Reaches(list[k], inclusive, cursor)
  {
    if list != [] && !Reaches(list[0], inclusive, cursor) {
      Reached(list[1..], inclusive, cursor);
    }
  }

  /** How many rows so many pages hold: an inclusive page after the first repeats one. */
  function Hold(s: Server, pages: nat): int {
    if pages == 0 then 0 else s.size + (pages - 1) * (if s.inclusive then s.size - 1 else s.size)
  }

  lemma HoldMore(s: Server, pages: nat)
    requires s.size >= 1
    ensures pages == 0 ==> Hold(s, 1) == s.size
    ensures pages > 0 ==> Hold(s, pages + 1) == Hold(s, pages) + if s.inclusive then s.size - 1 else s.size
    ensures pages > 0 ==> Hold(s, pages) > 0
  {
    if pages > 0 {
      var more := if s.inclusive then s.size - 1 else s.size;
      assert pages * more == (pages - 1) * more + more;
      assert (pages - 1) * more >= 0;
    }
  }

  lemma {:induction false} HoldGrows(s: Server, pages: nat, more: nat)
    requires s.size >= 1 && pages <= more
    ensures 0 <= Hold(s, pages) <= Hold(s, more)
  {
    hide Hold;
    if pages < more {
      HoldGrows(s, pages, more - 1);
      HoldMore(s, more - 1);
      NoneHeld(s);
    } else if pages > 0 {
      HoldMore(s, pages);
    } else {
      NoneHeld(s);
    }
  }

  lemma NoneHeld(s: Server)
    ensures Hold(s, 0) == 0
  {
  }

  /** As many of `n` rows as so many pages hold. */
  function Brought(s: Server, n: nat, pages: nat): (k: int)
    ensures k <= n
  {
    if Hold(s, pages) <= n then Hold(s, pages) else n
  }

  /** How many rows are known after one page more. */
  function Next(s: Server, n: nat, k: nat): (k': nat)
    requires k <= n
    ensures k <= k' <= n
  {
    Max(k, if From(s, k) + s.size <= n then From(s, k) + s.size else n)
  }

  lemma BroughtNext(s: Server, n: nat, pages: nat)
    requires s.size >= 1
    ensures 0 <= Brought(s, n, pages) && Brought(s, n, pages + 1) == Next(s, n, Brought(s, n, pages))
  {
    hide Hold;
    NoneHeld(s);
    HoldMore(s, pages);
    HoldGrows(s, pages, pages + 1);
  }

  ghost predicate Faithful(w: Walk, all: seq<Row>) {
    w.data <= all && (!w.truncated ==> w.data == all)
  }

  /** What a step does to the rows from `from` to `to`, in terms of how many are known afterwards. */
  lemma StepMerges(all: seq<Row>, w: Walk, k: nat, from: nat, to: nat, last: bool)
    requires Descending(all) && k <= |all| && w.data == all[..k] && w.seen == Markers(all[..k])
    requires from <= k && from < to <= |all|
    ensures var r := StepWith(w, all[from..to], last);
      && r.walk.data == all[..Max(k, to)] && r.walk.seen == Markers(all[..Max(k, to)])
      && r.walk.batch == Max(w.batch, to - from)
      && (r.walk.truncated <==> w.truncated || (to - from >= w.batch && last))
      && (r.goesOn <==>
          && to - from >= w.batch && !last && to > k
          && (w.cursor.Some? ==> all[to - 1].marker.value < w.cursor.value))
      && r.walk.cursor == (if r.goesOn then all[to - 1].marker else w.cursor)
  {
    hide Merge, Markers;
    MergeSlice(all, k, from, to);
  }

  /** One page brings the next rows; if the walk ends there without saying so, there were no more. */
  lemma StepIs(s: Server, all: seq<Row>, first: Option<int>, w: Walk, k: nat, last: bool)
    requires At(s, all, first, w, k) && (s.inclusive ==> s.size >= 2)
    requires forall i :: 0 <= i < |all| ==> Reaches(all[i], s.inclusive, first)
    ensures var r := StepWith(w, Prefix(all[From(s, k)..], s.size), last);
      && r.walk.data == all[..Next(s, |all|, k)]
      && (w.batch == s.size ==>
          && r.walk.batch == s.size && (r.walk.truncated <==> last && From(s, k) + s.size <= |all|)
          && (r.goesOn <==> !last && From(s, k) + s.size <= |all|))
      && if r.goesOn then At(s, all, first, r.walk, Next(s, |all|, k)) else Faithful(r.walk, all)
  {
    hide Merge, Markers, StepWith;
    var from := From(s, k);
    var to := if from + s.size <= |all| then from + s.size else |all|;
    assert Prefix(all[from..], s.size) == all[from..to] && Next(s, |all|, k) == Max(k, to);
    Ends(all, k, from, to);
    if from == to {
      EmptyPage(w, last);
      assert all[from..to] == [] && k == |all|;
    } else {
      StepMerges(all, w, k, from, to, last);
      var r := StepWith(w, all[from..to], last);
      if r.goesOn {
        assert k < to && At(s, all, first, r.walk, to);
      } else if !r.walk.truncated && to - from >= w.batch && to > k {
        assert Reaches(all[to - 1], s.inclusive, first) && Reaches(all[0], s.inclusive, first);
        assert k == 0 && to == 1;
      }
    }
  }

  lemma Uncut(s: Server, all: seq<Row>, first: Option<int>, w: Walk, k: nat)
    requires At(s, all, first, w, k)
    ensures !w.truncated && k <= |all|
  {
  }

  lemma NotCut(w: Walk, rows: seq<Row>)
    ensures StepWith(w, rows, false).walk.truncated == w.truncated
  {
  }

  lemma LastEnds(w: Walk, rows: seq<Row>)
    ensures !StepWith(w, rows, true).goesOn
  {
  }

  lemma EmptyPage(w: Walk, last: bool)
    ensures StepWith(w, [], last) == Stepped(w.(fetched := w.fetched + 1), false)
  {
  }

  lemma Ends(all: seq<Row>, k: nat, from: nat, to: nat)
    requires k <= |all| && from <= k && to <= |all|
    ensures all[..k] <= all && all[..Max(k, to)] <= all
    ensures to == |all| ==> all[..Max(k, to)] == all
    ensures k == |all| ==> all[..k] == all
  {
  }

  /** A full page is to be had exactly when the rows go as far as one page more holds. */
  lemma FullPage(s: Server, n: nat, pages: nat)
    requires s.size >= 1 && (s.inclusive ==> s.size >= 2)
    ensures var k := Brought(s, n, pages);
      k >= 0 && (From(s, k) + s.size <= n <==> Hold(s, pages + 1) <= n)
  {
    hide Hold;
    NoneHeld(s);
    HoldMore(s, pages);
    HoldGrows(s, pages, pages + 1);
  }

  /** A walk whose batch is the server's page says that it was cut exactly when its pages were full. */
  lemma {:induction false} CutWhenFull(s: Server, first: Option<int>, w: Walk, k: nat, index: nat, maxPages: nat)
    requires Descending(s.list) && At(s, All(s, first), first, w, k) && (s.inclusive ==> s.size >= 2)
    requires index < maxPages && s.size >= 1 && k == Brought(s, |All(s, first)|, index) && w.batch == s.size
    ensures WalkFrom(s, w, index, maxPages).truncated <==> Hold(s, maxPages) <= |All(s, first)|
    decreases maxPages - index
  {
    hide StepWith, All, At, Faithful, Descending, From, Prefix, Hold, Next;
    var all, last := All(s, first), index == maxPages - 1;
    PageIs(s, first, w, k);
    AllBelow(s, first);
    StepIs(s, all, first, w, k, last);
    var r := StepWith(w, Page(s, w.cursor), last);
    BroughtNext(s, |all|, index);
    FullPage(s, |all|, index);
    HoldGrows(s, index + 1, maxPages);
    if r.goesOn {
      CutWhenFull(s, first, r.walk, Next(s, |all|, k), index + 1, maxPages);
    }
  }

  /** When the caller knows the server's page, the walk says that it was cut exactly when the list goes at least as far
      as the pages asked for. */
  lemma CutExact(s: Server, first: Option<int>, batchSize: int, maxPages: int)
    requires Descending(s.list) && Max(batchSize, 1) == s.size && (s.inclusive ==> s.size >= 2)
    ensures Walked(s, first, batchSize, maxPages).truncated
       <==> |All(s, first)| >= Hold(s, if maxPages >= 1 then maxPages else 1)
  {
    hide StepWith, WalkFrom, Hold, All, At, Descending;
    NoneHeld(s);
    Starts(s, first, batchSize);
    CutWhenFull(s, first, NewWalk(first, batchSize), 0, 0, Max(maxPages, 1));
  }

  lemma {:induction false} WalkIsFaithful(s: Server, first: Option<int>, w: Walk, k: nat, index: nat, maxPages: nat)
    requires Descending(s.list) && At(s, All(s, first), first, w, k) && (s.inclusive ==> s.size >= 2)
    requires index < maxPages && s.size >= 1 && k == Brought(s, |All(s, first)|, index)
    ensures var all, r := All(s, first), WalkFrom(s, w, index, maxPages);
      && Faithful(r, all)
      && 0 <= Brought(s, |all|, maxPages) && r.data == all[..Brought(s, |all|, maxPages)]
    decreases maxPages - index
  {
    hide StepWith, All, At, Descending, From, Prefix, Hold, Next;
    var all := All(s, first);
    PageIs(s, first, w, k);
    AllBelow(s, first);
    LastEnds(w, Page(s, w.cursor));
    StepIs(s, all, first, w, k, index == maxPages - 1);
    var r := StepWith(w, Page(s, w.cursor), index == maxPages - 1);
    BroughtNext(s, |all|, index);
    HoldGrows(s, index + 1, maxPages);
    if r.goesOn {
      WalkIsFaithful(s, first, r.walk, Next(s, |all|, k), index + 1, maxPages);
    } else if index + 1 < maxPages {
      NotCut(w, Page(s, w.cursor));
      Uncut(s, all, first, w, k);
      assert r.walk.data == all && Next(s, |all|, k) == |all|;
      assert all[..|all|] == all;
    }
  }

  lemma AllBelow(s: Server, first: Option<int>)
    requires Descending(s.list)
    ensures forall i :: 0 <= i < |All(s, first)| ==> Reaches(All(s, first)[i], s.inclusive, first)
  {
    var n := Start(s.list, s.inclusive, first);
    Reached(s.list, s.inclusive, first);
    assert forall i :: n <= i < |s.list| ==> s.list[i].marker.value <= s.list[n].marker.value;
  }

  /** Against a server whose pages hold no fewer rows than the caller says, the rows are a prefix of the list, in its
      order, all of it unless the walk says that it was cut, and as many of them as the pages asked for hold. */
  lemma WalkedIsFaithful(s: Server, first: Option<int>, batchSize: int, maxPages: int)
    requires Descending(s.list) && Max(batchSize, 1) <= s.size && (s.inclusive ==> s.size >= 2)
    ensures var all, w := All(s, first), Walked(s, first, batchSize, maxPages);
      && Faithful(w, all)
      && w.data == Prefix(all, Hold(s, if maxPages >= 1 then maxPages else 1))
  {
    hide StepWith, WalkFrom, Hold, All, At, Descending, Faithful;
    var all, pages := All(s, first), Max(maxPages, 1);
    NoneHeld(s);
    Starts(s, first, batchSize);
    HoldGrows(s, 0, pages);
    WalkIsFaithful(s, first, NewWalk(first, batchSize), 0, 0, pages);
    assert Prefix(all, Hold(s, pages)) == all[..Brought(s, |all|, pages)] by {
      assert all[..|all|] == all;
    }
  }

  lemma Starts(s: Server, first: Option<int>, batchSize: int)
    requires Descending(s.list) && Max(batchSize, 1) <= s.size
    ensures At(s, All(s, first), first, NewWalk(first, batchSize), 0)
  {
    hide Start;
    assert All(s, first)[..0] == [];
    NoMarkers();
  }

  function Countdown(n: nat): (rows: seq<Row>)
    ensures |rows| == n && forall i :: 0 <= i < n ==> rows[i] == Row(Some(n - i), 0)
  {
    seq(n, i requires 0 <= i < n => Row(Some(n - i), 0))
  }

  /** The server's page is smaller than the caller believes: the first page is taken for the last. */
  lemma ShortPages(inclusive: bool, size: nat, batchSize: int)
    requires 1 <= size < batchSize
    ensures var s := Server(Countdown(size + 1), inclusive, size);
      Descending(s.list) && !Faithful(Walked(s, None, batchSize, 2), All(s, None))
  {
    hide Merge, Markers, StepWith, Start, Countdown;
    var s := Server(Countdown(size + 1), inclusive, size);
    var all, w := All(s, None), NewWalk(None, batchSize);
    StartIs(s.list, inclusive, None, 0);
    assert all == s.list && Page(s, None) == all[0..size];
    assert all[..0] == [] && Markers([]) == {} by { NoMarkers(); }
    StepMerges(all, w, 0, 0, size, false);
    var r := StepWith(w, Page(s, None), false);
    assert !r.goesOn && !r.walk.truncated && |r.walk.data| == size;
    assert Walked(s, None, batchSize, 2) == r.walk;
  }

  lemma NoMarkers()
    ensures Markers([]) == {}
  {
  }

  lemma NoPages(inclusive: bool, batchSize: int)
    ensures var s := Server(Countdown(1), inclusive, 0);
      Descending(s.list) && !Faithful(Walked(s, None, batchSize, 1), All(s, None))
  {
    var s := Server(Countdown(1), inclusive, 0);
    StartIs(s.list, inclusive, None, 0);
    assert Page(s, None) == [] && |All(s, None)| == 1;
  }

  /** Pages of one row, at the cursor and below, bring the same row for ever: the walk stops, and does not say so. */
  lemma OneRowPages(batchSize: int)
    requires batchSize <= 1
    ensures var s := Server(Countdown(2), true, 1);
      Descending(s.list) && !Faithful(Walked(s, None, batchSize, 3), All(s, None))
  {
    var s := Server(Countdown(2), true, 1);
    var all := All(s, None);
    var w := NewWalk(None, batchSize);
    assert At(s, all, None, w, 0) && all == s.list;
    MergeSlice(all, 0, 0, 1);
    assert Page(s, None) == all[0..1] && all[..0] == [] && Markers([]) == {};
    var one := StepWith(w, Page(s, None), false);
    assert one.goesOn && At(s, all, None, one.walk, 1);
    PageIs(s, None, one.walk, 1);
    assert Page(s, Some(2)) == all[0..1];
    MergeSlice(all, 1, 0, 1);
    var two := StepWith(one.walk, Page(s, Some(2)), false);
    assert !two.goesOn && two.walk.data == all[..1] && !two.walk.truncated;
    assert WalkFrom(s, one.walk, 1, 3) == two.walk;
  }

  ghost predicate AlwaysFaithful(inclusive: bool, size: nat, batchSize: int) {
    forall list, first, maxPages ::
      Descending(list) ==> Faithful(Walked(Server(list, inclusive, size), first, batchSize, maxPages),
                                    All(Server(list, inclusive, size), first))
  }

  /** Exactly then. */
  lemma FaithfulExact(inclusive: bool, size: nat, batchSize: int)
    ensures AlwaysFaithful(inclusive, size, batchSize) <==> Max(batchSize, 1) <= size && (inclusive ==> size >= 2)
  {
    if size == 0 {
      NoPages(inclusive, batchSize);
      assert !Faithful(Walked(Server(Countdown(1), inclusive, 0), None, batchSize, 1),
                       All(Server(Countdown(1), inclusive, 0), None));
    } else if batchSize > size {
      ShortPages(inclusive, size, batchSize);
      assert !Faithful(Walked(Server(Countdown(size + 1), inclusive, size), None, batchSize, 2),
                       All(Server(Countdown(size + 1), inclusive, size), None));
    } else if inclusive && size < 2 {
      OneRowPages(batchSize);
      assert !Faithful(Walked(Server(Countdown(2), true, 1), None, batchSize, 3),
                       All(Server(Countdown(2), true, 1), None));
    } else {
      forall list, first, maxPages | Descending(list)
        ensures Faithful(Walked(Server(list, inclusive, size), first, batchSize, maxPages),
                         All(Server(list, inclusive, size), first))
      {
        WalkedIsFaithful(Server(list, inclusive, size), first, batchSize, maxPages);
      }
    }
  }

  lemma WalkNext(s: Server, w: Walk, index: nat, maxPages: nat)
    requires index < maxPages
    ensures var r := StepWith(w, Page(s, w.cursor), index == maxPages - 1);
      WalkFrom(s, w, index, maxPages) == if r.goesOn then WalkFrom(s, r.walk, index + 1, maxPages) else r.walk
  {
  }

  lemma WalkDone(s: Server, w: Walk, maxPages: nat)
    ensures WalkFrom(s, w, maxPages, maxPages) == w
  {
  }

  lemma StepCounts(w: Walk, rows: seq<Row>, last: bool)
    ensures var r := StepWith(w, rows, last);
      && r.walk.fetched == w.fetched + 1 && (r.walk.truncated ==> w.truncated || last)
      && (r.goesOn ==> r.walk.truncated == w.truncated && !last)
  {
  }

  class Walker {
    var cursor: Option<int>
    var data: seq<Row>
    var seen: set<int>
    var batch: nat
    var fetched: nat
    var truncated: bool

    function Value(): Walk
      reads this
    {
      Walk(cursor, data, seen, batch, fetched, truncated)
    }

    constructor (cursor: Option<int>, batchSize: int)
      ensures Value() == NewWalk(cursor, batchSize)
    {
      this.cursor, data, seen, batch, fetched, truncated := cursor, [], {}, Max(batchSize, 1), 0, false;
    }

    method MergeCursorRows(rows: seq<Row>) returns (next: Option<int>)
      modifies this`data, this`seen
      ensures Merged(data, seen, next) == Merge(Merged(old(data), old(seen), None), rows)
    {
      next := None;
      var i := 0;
      while i < |rows|
        invariant 0 <= i <= |rows|
        invariant Merged(data, seen, next) == Merge(Merged(old(data), old(seen), None), rows[..i])
      {
        var row := rows[i];
        assert rows[..i + 1][..i] == rows[..i];
        i := i + 1;
        if row.marker.Some? {
          if row.marker.value in seen {
            continue;
          }
          seen := seen + {row.marker.value};
          if next.None? || row.marker.value < next.value {
            next := row.marker;
          }
        }
        data := data + [row];
      }
      assert rows[..i] == rows;
    }

    method StepCursor(rows: seq<Row>, last: bool) returns (goesOn: bool)
      modifies this
      ensures Stepped(Value(), goesOn) == StepWith(old(Value()), rows, last)
      ensures goesOn ==> cursor.Some? && (old(cursor).Some? ==> cursor.value < old(cursor).value)
    {
      fetched := fetched + 1;
      if |rows| == 0 {
        return false;
      }
      if |rows| > batch {
        batch := |rows|;
      }
      var next := MergeCursorRows(rows);
      if |rows| < batch {
        return false;
      }
      if last {
        truncated := true;
        return false;
      }
      if next.None? || (cursor.Some? && next.value >= cursor.value) {
        return false;
      }
      cursor := next;
      goesOn := true;
    }
  }

  /** The walk itself, over a server that may fail: a failed page fails the walk. */
  method GetCursorPages(s: Server, first: Option<int>, batchSize: int, maxPages: int) returns (failed: bool, w: Walk)
    ensures !failed ==> w == Walked(s, first, batchSize, maxPages)
    // it says that it was cut only after all the pages that were asked for
    ensures w.fetched <= if maxPages >= 1 then maxPages else 1
    ensures !failed && w.truncated ==> w.fetched == if maxPages >= 1 then maxPages else 1
    // and from a server with pages as long as the caller says, those pages are full as far as there are rows
    ensures !failed && Descending(s.list) && Max(batchSize, 1) <= s.size && (s.inclusive ==> s.size >= 2) ==>
      && Faithful(w, All(s, first)) && w.data == Prefix(All(s, first), Hold(s, if maxPages >= 1 then maxPages else 1))
      && (Max(batchSize, 1) == s.size ==>
          (w.truncated <==> |All(s, first)| >= Hold(s, if maxPages >= 1 then maxPages else 1)))
  {
    hide StepWith, WalkFrom, Page, All, Faithful, Descending, Hold, Prefix;
    if Descending(s.list) && Max(batchSize, 1) <= s.size && (s.inclusive ==> s.size >= 2) {
      WalkedIsFaithful(s, first, batchSize, maxPages);
      if Max(batchSize, 1) == s.size {
        CutExact(s, first, batchSize, maxPages);
      }
    }
    var walk := new Walker(first, batchSize);
    var pages := Max(maxPages, 1);
    var index := 0;
    while index < pages
      invariant 0 <= index <= pages
      invariant walk.fetched == index && !walk.truncated
      invariant WalkFrom(s, walk.Value(), index, pages) == Walked(s, first, batchSize, maxPages)
    {
      failed := *;
      if failed {
        return true, walk.Value();
      }
      WalkNext(s, walk.Value(), index, pages);
      StepCounts(walk.Value(), Page(s, walk.cursor), index == pages - 1);
      var goesOn := walk.StepCursor(Page(s, walk.cursor), index == pages - 1);
      if !goesOn {
        return false, walk.Value();
      }
      index := index + 1;
    }
    WalkDone(s, walk.Value(), pages);
    return false, walk.Value();
  }
}
