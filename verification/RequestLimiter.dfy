/** The limiter of the public endpoints: 60 requests a minute from one address. */
module RequestLimiter {
  import opened TimeWindow

  const LIMIT: nat := 60

  /** One address: the slice the limiter keeps, and every request it has admitted, in the order of the lock. */
  datatype Client = Client(hits: seq<int>, admitted: seq<int>)

  const NEW: Client := Client([], [])

  predicate Admits(hits: seq<int>, now: int) {
    |Recent(hits, now)| < LIMIT
  }

  function Hit(hits: seq<int>, now: int): seq<int> {
    Recent(hits, now) + if Admits(hits, now) then [now] else []
  }

  function Retry(hits: seq<int>, now: int): int
    requires !Admits(hits, now)
  {
    Max(WINDOW - (now - Recent(hits, now)[0]), SECOND)
  }

  function Request(c: Client, now: int): Client {
    Client(Hit(c.hits, now), c.admitted + if Admits(c.hits, now) then [now] else [])
  }

  /** `nows` are the clock readings of the calls, in the order in which they get the lock. */
  function After(c: Client, nows: seq<int>): Client {
    if nows == [] then c else Request(After(c, nows[..|nows| - 1]), nows[|nows| - 1])
  }

  /** The clock is read before the lock is taken: a call may come with a reading up to `d` older than an earlier one. */
  ghost predicate Late(nows: seq<int>, d: int) {
    forall i, j :: 0 <= i < j < |nows| ==> nows[i] - nows[j] <= d
  }

  function Newest(nows: seq<int>): int
    requires nows != []
  {
    if |nows| == 1 then nows[0] else Max(Newest(nows[..|nows| - 1]), nows[|nows| - 1])
  }

  lemma {:induction false} NewestIn(nows: seq<int>)
    requires nows != []
    ensures Newest(nows) in nows && forall i :: 0 <= i < |nows| ==> nows[i] <= Newest(nows)
  {
    if |nows| > 1 {
      NewestIn(nows[..|nows| - 1]);
    }
  }

  lemma OneMore(c: Client, newest: int, now: int)
    requires c.hits == Recent(c.admitted, newest) && newest - now < WINDOW
    ensures var r := Request(c, now); r.hits == Recent(r.admitted, Max(newest, now))
  {
    hide Recent;
    RecentTwice(c.admitted, newest, now);
    RecentSnoc(c.admitted, now, Max(newest, now));
    assert c.admitted + [] == c.admitted && Recent(c.hits, now) + [] == Recent(c.hits, now);
  }

  lemma NewestLate(nows: seq<int>, d: int)
    requires Late(nows, d) && |nows| > 1
    ensures Late(nows[..|nows| - 1], d) && Newest(nows[..|nows| - 1]) - nows[|nows| - 1] <= d
  {
    var init := nows[..|nows| - 1];
    NewestIn(init);
    var i :| 0 <= i < |init| && init[i] == Newest(init);
    assert nows[i] - nows[|init|] <= d;
  }

  /** The slice is exactly the admitted requests of the last minute, counted from the newest reading so far. */
  lemma {:induction false} HitsAreRecent(nows: seq<int>, d: int)
    requires Late(nows, d) && d < WINDOW && nows != []
    ensures var c := After(NEW, nows); c.hits == Recent(c.admitted, Newest(nows))
  {
    var init, now := nows[..|nows| - 1], nows[|nows| - 1];
    if init == [] {
      assert After(NEW, init) == NEW;
      OneMore(NEW, now, now);
    } else {
      hide Recent, Request;
      HitsAreRecent(init, d);
      NewestLate(nows, d);
      OneMore(After(NEW, init), Newest(init), now);
    }
  }

  /** How many of the times lie in (w, w + width]. */
  function Inside(times: seq<int>, w: int, width: int): nat {
    if times == [] then 0 else
    var n := |times| - 1;
    Inside(times[..n], w, width) + if w < times[n] <= w + width then 1 else 0
  }

  lemma {:induction false} InsideIsRecent(times: seq<int>, w: int, width: int, now: int)
    requires w >= now - WINDOW
    ensures Inside(times, w, width) <= |Recent(times, now)|
  {
    if times != [] {
      InsideIsRecent(times[..|times| - 1], w, width, now);
    }
  }

  lemma InsideSnoc(times: seq<int>, x: int, w: int, width: int)
    ensures Inside(times + [x], w, width) == Inside(times, w, width) + if w < x <= w + width then 1 else 0
  {
    assert (times + [x])[..|times|] == times;
  }

  lemma OneMoreInside(c: Client, newest: int, now: int, d: int, w: int)
    requires c.hits == Recent(c.admitted, newest) && newest - now <= d && d >= 0
    requires Inside(c.admitted, w, WINDOW - d) <= LIMIT
    ensures Inside(Request(c, now).admitted, w, WINDOW - d) <= LIMIT
  {
    hide Recent, Inside;
    assert c.admitted + [] == c.admitted;
    RecentTwice(c.admitted, newest, now);
    InsideSnoc(c.admitted, now, w, WINDOW - d);
    if w < now <= w + WINDOW - d {
      InsideIsRecent(c.admitted, w, WINDOW - d, Max(newest, now));
    }
  }

  /** Over the whole history, any window shorter than a minute by the lateness of the readings has at most 60 admitted
      requests.  When readings come in order, `d` is 0 and the window is a full minute. */
  lemma {:induction false} WindowBound(nows: seq<int>, d: int, w: int)
    requires Late(nows, d) && d >= 0
    ensures Inside(After(NEW, nows).admitted, w, WINDOW - d) <= LIMIT
  {
    hide Recent, Request;
    if d >= WINDOW {
      NoneInside(After(NEW, nows).admitted, w, WINDOW - d);
    } else if nows != [] {
      var init, now := nows[..|nows| - 1], nows[|nows| - 1];
      WindowBound(init, d, w);
      if init == [] {
        assert After(NEW, init) == NEW && Recent([], now) == [] by { RecentShorter([], now); }
        OneMoreInside(NEW, now, now, d, w);
      } else {
        HitsAreRecent(init, d);
        NewestLate(nows, d);
        OneMoreInside(After(NEW, init), Newest(init), now, d, w);
      }
    }
  }

  lemma {:induction false} NoneInside(times: seq<int>, w: int, width: int)
    requires width <= 0
    ensures Inside(times, w, width) == 0
  {
    if times != [] {
      NoneInside(times[..|times| - 1], w, width);
    }
  }

  function Times(n: nat, x: int): (s: seq<int>)
    ensures |s| == n && forall i :: 0 <= i < n ==> s[i] == x
  {
    seq(n, _ => x)
  }

  lemma {:induction false} Burst(n: nat)
    requires n <= LIMIT
    ensures After(NEW, Times(n, 1)) == Client(Times(n, 1), Times(n, 1))
    ensures Inside(Times(n, 1), 0, WINDOW) == n
  {
    hide Recent, Times;
    if n > 0 {
      var t := Times(n - 1, 1);
      Burst(n - 1);
      assert Times(n, 1)[..n - 1] == t && t + [1] == Times(n, 1);
      RecentAll(t, 1);
      assert Request(Client(t, t), 1) == Client(t + [1], t + [1]);
    }
  }

  lemma OneRequest(c: Client, now: int, kept: seq<int>)
    requires Recent(c.hits, now) == kept && |kept| < LIMIT
    ensures Request(c, now) == Client(kept + [now], c.admitted + [now])
  {
  }

  lemma AfterSnoc(nows: seq<int>, now: int)
    ensures After(NEW, nows + [now]) == Request(After(NEW, nows), now)
  {
    assert (nows + [now])[..|nows|] == nows;
  }

  lemma LateNows(burst: seq<int>)
    requires forall i :: 0 <= i < |burst| ==> burst[i] == 1
    ensures Late(burst + [WINDOW + 1] + [WINDOW], 1)
  {
  }

  /** A full burst, a request of a minute later, and one whose reading is older by a nanosecond but that waited for the
      lock: 61 in a minute. */
  lemma LateRequest()
    ensures var nows := Times(LIMIT, 1) + [WINDOW + 1] + [WINDOW];
      Late(nows, 1) && Inside(After(NEW, nows).admitted, 0, WINDOW) == LIMIT + 1
  {
    hide Recent, Request, Inside, After, Late, Times;
    var burst := Times(LIMIT, 1);
    LateNows(burst);
    Burst(LIMIT);
    AfterSnoc(burst, WINDOW + 1);
    AfterSnoc(burst + [WINDOW + 1], WINDOW);
    RecentNone(burst, WINDOW + 1);
    var one := Client(burst, burst);
    OneRequest(one, WINDOW + 1, []);
    assert [] + [WINDOW + 1] == [WINDOW + 1];
    RecentAll([WINDOW + 1], WINDOW);
    OneRequest(Client([WINDOW + 1], burst + [WINDOW + 1]), WINDOW, [WINDOW + 1]);
    InsideSnoc(burst, WINDOW + 1, 0, WINDOW);
    InsideSnoc(burst + [WINDOW + 1], WINDOW, 0, WINDOW);
  }

  lemma {:induction false} RecentNone(times: seq<int>, now: int)
    requires forall i :: 0 <= i < |times| ==> times[i] <= now - WINDOW
    ensures Recent(times, now) == []
  {
    if times != [] {
      RecentNone(times[..|times| - 1], now);
    }
  }

  /** A full minute is kept to 60 requests exactly when no reading comes late. */
  lemma FullMinuteExact(d: int)
    requires d >= 0
    ensures (forall nows, w :: Late(nows, d) ==> Inside(After(NEW, nows).admitted, w, WINDOW) <= LIMIT) <==> d == 0
  {
    if d == 0 {
      forall nows, w | Late(nows, d)
        ensures Inside(After(NEW, nows).admitted, w, WINDOW) <= LIMIT
      {
        WindowBound(nows, d, w);
      }
    } else {
      LateRequest();
      var nows := Times(LIMIT, 1) + [WINDOW + 1] + [WINDOW];
      assert Late(nows, d);
      assert Inside(After(NEW, nows).admitted, 0, WINDOW) > LIMIT;
    }
  }

  lemma RefusalForgets(c: Client, now: int, t: int)
    requires Request(c, now).admitted == c.admitted
    ensures |Recent(Request(c, now).hits, t)| <= |Recent(c.hits, t)|
  {
    hide Recent;
    assert !Admits(c.hits, now);
    assert Recent(c.hits, now) + [] == Recent(c.hits, now);
    RecentTwice(c.hits, now, t);
    RecentTwice(c.hits, t, now);
    RecentShorter(Recent(c.hits, t), now);
  }

  lemma {:induction false} RefusedOnlyForget(c: Client, nows: seq<int>, t: int)
    requires After(c, nows).admitted == c.admitted
    ensures |Recent(After(c, nows).hits, t)| <= |Recent(c.hits, t)|
  {
    hide Recent, Request;
    if nows != [] {
      var init, now := nows[..|nows| - 1], nows[|nows| - 1];
      AdmittedGrows(c, init);
      AdmittedGrows(After(c, init), [now]);
      assert After(After(c, init), []) == After(c, init) && [now][..0] == [];
      RefusedOnlyForget(c, init, t);
      RefusalForgets(After(c, init), now, t);
    }
  }

  lemma {:induction false} AdmittedGrows(c: Client, nows: seq<int>)
    ensures c.admitted <= After(c, nows).admitted
  {
    if nows != [] {
      AdmittedGrows(c, nows[..|nows| - 1]);
    }
  }

  lemma {:induction false} NeverOver(c: Client, nows: seq<int>)
    requires |c.hits| <= LIMIT
    ensures |After(c, nows).hits| <= LIMIT
  {
    if nows != [] {
      NeverOver(c, nows[..|nows| - 1]);
      RecentShorter(After(c, nows[..|nows| - 1]).hits, nows[|nows| - 1]);
    }
  }

  /** After a refusal, a request made `retry` later is admitted, however many refused calls come in between. */
  lemma RetryAdmits(nows: seq<int>, now: int, more: seq<int>)
    requires var c := After(NEW, nows);
      !Admits(c.hits, now) && After(Request(c, now), more).admitted == c.admitted
    ensures var c := After(NEW, nows);
      Admits(After(Request(c, now), more).hits, now + Retry(c.hits, now))
  {
    hide Recent, After;
    var c := After(NEW, nows);
    NeverOver(NEW, nows);
    var kept, t := Recent(c.hits, now), now + Retry(c.hits, now);
    assert kept + [] == kept;
    RecentShorter(c.hits, now);
    RecentShorter(kept, t);
    RefusedOnlyForget(Request(c, now), more, t);
  }

  lemma {:induction false} StillFull(c: Client, kept: seq<int>, more: seq<int>)
    requires c.hits == kept && |kept| >= LIMIT
    requires forall i, k :: 0 <= i < |more| && 0 <= k < |kept| ==> kept[k] > more[i] - WINDOW
    ensures After(c, more) == c
  {
    hide Recent;
    if more != [] {
      StillFull(c, kept, more[..|more| - 1]);
      RecentAll(kept, more[|more| - 1]);
      assert kept + [] == kept && c.admitted + [] == c.admitted;
    }
  }

  /** And `retry`, when it is more than its least second, is not too long: with readings in order, every request made
      sooner is refused too, however many there are, and one made then is admitted. */
  lemma RetryLeast(nows: seq<int>, now: int, more: seq<int>)
    requires Late(nows, 0) && !Admits(After(NEW, nows).hits, now)
    requires Retry(After(NEW, nows).hits, now) > 1_000_000_000
    requires forall i :: 0 <= i < |more| ==> more[i] < now + Retry(After(NEW, nows).hits, now)
    ensures var c := After(NEW, nows); var d := After(Request(c, now), more);
      d.admitted == c.admitted && Admits(d.hits, now + Retry(c.hits, now))
  {
    hide Recent, After;
    var c := After(NEW, nows);
    HitsInOrder(nows);
    RecentSorted(c.hits, now);
    var kept := Recent(c.hits, now);
    assert kept + [] == kept && c.admitted + [] == c.admitted;
    StillFull(Request(c, now), kept, more);
    RetryAdmits(nows, now, more);
  }

  /** What the Retry-After header says: the seconds, cut off. */
  function Header(hits: seq<int>, now: int): int
    requires !Admits(hits, now)
  {
    Retry(hits, now) / SECOND
  }

  lemma WaitHeader(hits: seq<int>, now: int)
    requires !Admits(hits, now) && |hits| <= LIMIT && Sorted(hits)
    ensures Admits(Hit(hits, now), now + Header(hits, now) * SECOND) <==> Retry(hits, now) % SECOND == 0
  {
    hide Recent;
    var kept, t := Recent(hits, now), now + Header(hits, now) * SECOND;
    assert kept + [] == kept;
    RecentShorter(hits, now);
    RecentSorted(hits, now);
    RecentShorter(kept, t);
    if kept[0] > t - WINDOW {
      RecentAll(kept, t);
    }
  }

  lemma {:induction false} HitsInOrder(nows: seq<int>)
    requires Late(nows, 0)
    ensures Sorted(After(NEW, nows).hits) && forall x :: x in After(NEW, nows).hits ==> x in nows
  {
    hide Recent;
    if nows != [] {
      var init, now := nows[..|nows| - 1], nows[|nows| - 1];
      HitsInOrder(init);
      var h := After(NEW, init).hits;
      RecentSorted(h, now);
      RecentOnly(h, now);
      var r := Recent(h, now);
      forall i | 0 <= i < |r|
        ensures r[i] <= now
      {
        assert r[i] in r && r[i] in h && r[i] in init;
        var k :| 0 <= k < |init| && init[k] == r[i];
        assert nows[k] - nows[|init|] <= 0;
      }
    }
  }

  /** With readings in order, a client that waits what the header says is admitted exactly when the wait was a whole
      number of seconds: the fraction that the header cuts off is missing otherwise. */
  lemma HeaderExact(nows: seq<int>, now: int)
    requires Late(nows, 0) && !Admits(After(NEW, nows).hits, now)
    ensures var hits := After(NEW, nows).hits;
      Admits(Hit(hits, now), now + Header(hits, now) * SECOND) <==> Retry(hits, now) % SECOND == 0
  {
    HitsInOrder(nows);
    NeverOver(NEW, nows);
    WaitHeader(After(NEW, nows).hits, now);
  }

  /** A Go slice: a prefix of a backing array. */
  datatype Slice = Slice(data: array<int>, len: nat)

  /** Filtering a slice into its own backing array: what is read has not been overwritten yet. */
  method Compact(s: Slice, now: int) returns (kept: nat)
    requires s.len <= s.data.Length
    modifies s.data
    ensures kept <= s.len && s.data[..kept] == Recent(old(s.data[..s.len]), now)
  {
    kept := 0;
    var i := 0;
    ghost var hits := s.data[..s.len];
    while i < s.len
      invariant 0 <= kept <= i <= s.len
      invariant |hits| == s.len && forall k :: i <= k < s.len ==> s.data[k] == hits[k]
      invariant s.data[..kept] == Recent(hits[..i], now)
    {
      var at := s.data[i];
      assert hits[..i + 1][..i] == hits[..i];
      if at > now - WINDOW {
        s.data[kept] := at;
        kept := kept + 1;
      }
      i := i + 1;
    }
    assert hits[..i] == hits;
  }

  class Limiter {
    var hits: map<string, Slice>

    /** Slices are within their arrays, and no two addresses share one. */
    ghost predicate Valid()
      reads this
    {
      && (forall ip :: ip in hits ==> hits[ip].len <= hits[ip].data.Length)
      && (forall a, b :: a in hits && b in hits && a != b ==> hits[a].data != hits[b].data)
    }

    ghost function Kept(ip: string): seq<int>
      requires Valid()
      reads this, if ip in hits then {hits[ip].data} else {}
    {
      if ip in hits then hits[ip].data[..hits[ip].len] else []
    }

    constructor ()
      ensures Valid() && hits == map[]
    {
      hits := map[];
    }

    /** append(kept, now): into the same array when there is room, else into a copy. */
    method Append(s: Slice, now: int) returns (r: Slice)
      requires s.len <= s.data.Length
      modifies s.data
      ensures r.len == s.len + 1 <= r.data.Length && r.data[..r.len] == old(s.data[..s.len]) + [now]
      ensures r.data == s.data || fresh(r.data)
    {
      if s.len < s.data.Length {
        s.data[s.len] := now;
        r := Slice(s.data, s.len + 1);
      } else {
        var grown := new int[2 * s.len + 1];
        for i := 0 to s.len
          invariant forall k :: 0 <= k < i ==> grown[k] == s.data[k]
          invariant s.data[..] == old(s.data[..])
        {
          grown[i] := s.data[i];
        }
        grown[s.len] := now;
        assert grown[..s.len] == s.data[..s.len];
        r := Slice(grown, s.len + 1);
      }
    }

    method Allow(ip: string, now: int) returns (retry: int, ok: bool)
      requires Valid()
      modifies this, if ip in hits then {hits[ip].data} else {}
      ensures Valid() && Kept(ip) == Hit(old(Kept(ip)), now)
      ensures ok <==> Admits(old(Kept(ip)), now)
      ensures retry == if ok then 0 else Retry(old(Kept(ip)), now)
      ensures forall other :: other != ip && other in old(hits) ==> other in hits && hits[other] == old(hits)[other]
      ensures forall other :: other != ip ==> Kept(other) == old(Kept(other))
    {
      var s: Slice;
      if ip in hits {
        s := hits[ip];
      } else {
        var none := new int[0];
        s := Slice(none, 0);
      }
      assert old(Kept(ip)) == s.data[..s.len];
      var kept := Compact(s, now);
      if kept >= LIMIT {
        retry := Max(WINDOW - (now - s.data[0]), SECOND);
        hits := hits[ip := Slice(s.data, kept)];
        return retry, false;
      }
      var appended := Append(Slice(s.data, kept), now);
      hits := hits[ip := appended];
      return 0, true;
    }
  }
}
