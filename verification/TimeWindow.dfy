/** The last minute, in nanoseconds: the window of the error budget and of the request limiter alike. */
module TimeWindow {
  const SECOND: int := 1_000_000_000
  const WINDOW: int := 60 * SECOND

  function Max(a: int, b: int): int {
    if a >= b then a else b
  }

  /** The times of the last minute, in their order. */
  function Recent(times: seq<int>, now: int): seq<int> {
    if times == [] then [] else
    var n := |times| - 1;
    Recent(times[..n], now) + if times[n] > now - WINDOW then [times[n]] else []
  }

  lemma RecentSnoc(times: seq<int>, x: int, now: int)
    ensures Recent(times + [x], now) == Recent(times, now) + if x > now - WINDOW then [x] else []
  {
    assert (times + [x])[..|times|] == times;
  }

  /** Forgetting at two moments is forgetting at the later one. */
  lemma {:induction false} RecentTwice(times: seq<int>, t1: int, t2: int)
    ensures Recent(Recent(times, t1), t2) == Recent(times, Max(t1, t2))
  {
    if times != [] {
      var n := |times| - 1;
      RecentTwice(times[..n], t1, t2);
      var r := Recent(times[..n], t1);
      if times[n] > t1 - WINDOW {
        RecentSnoc(r, times[n], t2);
      } else {
        assert r + [] == r;
        assert Recent(times[..n], Max(t1, t2)) + [] == Recent(times[..n], Max(t1, t2));
      }
    }
  }

  /** Exactly the times less than a minute old, each as often as it was. */
  lemma {:induction false} RecentIs(times: seq<int>, now: int, x: int)
    ensures multiset(Recent(times, now))[x] == if x > now - 60_000_000_000 then multiset(times)[x] else 0
  {
    if times != [] {
      var n := |times| - 1;
      RecentIs(times[..n], now, x);
      assert times == times[..n] + [times[n]];
    }
  }

  lemma {:induction false} RecentShorter(times: seq<int>, now: int)
    ensures |Recent(times, now)| <= |times|
    ensures times != [] && times[0] <= now - WINDOW ==> |Recent(times, now)| < |times|
  {
    if times != [] {
      RecentShorter(times[..|times| - 1], now);
    }
  }

  lemma {:induction false} RecentAll(times: seq<int>, now: int)
    requires forall i :: 0 <= i < |times| ==> times[i] > now - WINDOW
    ensures Recent(times, now) == times
  {
    if times != [] {
      var n := |times| - 1;
      RecentAll(times[..n], now);
      assert times[..n] + [times[n]] == times;
    }
  }

  lemma {:induction false} RecentOnly(times: seq<int>, now: int)
    ensures forall x :: x in Recent(times, now) ==> x > now - WINDOW && x in times
  {
    if times != [] {
      RecentOnly(times[..|times| - 1], now);
    }
  }

  ghost predicate Sorted(s: seq<int>) {
    forall i, j :: 0 <= i < j < |s| ==> s[i] <= s[j]
  }

  lemma {:induction false} RecentSorted(times: seq<int>, now: int)
    requires Sorted(times)
    ensures Sorted(Recent(times, now))
  {
    if times != [] {
      var n := |times| - 1;
      RecentSorted(times[..n], now);
      RecentOnly(times[..n], now);
      var r := Recent(times[..n], now);
      forall i | 0 <= i < |r|
        ensures r[i] <= times[n]
      {
        assert r[i] in r;
      }
    }
  }
}
