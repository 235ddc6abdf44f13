/** The error budget of one character: at most a share of CCP's remaining errors in any minute. */
module ErrorBudget {
  import opened Options
  import opened TimeWindow

  const CAP: int := 20
  const SHARE: int := 5

  datatype Refusal = Refusal(retryAt: int, retrySec: int)

  /** How many errors of the last minute are too many, given what CCP says remains. */
  function Limit(remain: int): int {
    var left := if remain < 0 then 0 else remain;
    if left / SHARE < CAP then left / SHARE else CAP
  }

  /** The limit is the greatest number that is at most 20 and of which five make no more than what remains. */
  lemma LimitIs(remain: int, n: int)
    ensures 0 <= n <= Limit(remain) <==> 0 <= n <= 20 && 5 * n <= Max(remain, 0)
  {
  }

  function Ceil(ns: int): int {
    (ns + SECOND - 1) / SECOND
  }

  /** In a sorted history the recent charges are a suffix. */
  lemma {:induction false} RecentIsSuffix(charges: seq<int>, now: int, k: nat)
    requires k <= |charges| && (forall i :: 0 <= i < k ==> charges[i] <= now - WINDOW)
    requires forall i :: k <= i < |charges| ==> charges[i] > now - WINDOW
    ensures Recent(charges, now) == charges[k..]
  {
    if charges != [] {
      var n := |charges| - 1;
      RecentIsSuffix(charges[..n], now, if k <= n then k else n);
      if k <= n {
        assert charges[..n][k..] + [charges[n]] == charges[k..];
      }
    }
  }

  lemma Cut(charges: seq<int>, now: int) returns (k: nat)
    requires Sorted(charges)
    ensures k <= |charges| && Recent(charges, now) == charges[k..]
    ensures forall i :: 0 <= i < k ==> charges[i] <= now - WINDOW
    ensures forall i :: k <= i < |charges| ==> charges[i] > now - WINDOW
  {
    k := 0;
    while k < |charges| && charges[k] <= now - WINDOW
      invariant k <= |charges| && forall i :: 0 <= i < k ==> charges[i] <= now - WINDOW
    {
      k := k + 1;
    }
    RecentIsSuffix(charges, now, k);
  }

  /** Forgetting what is old at one moment loses nothing at a later one. */
  lemma PruneTwice(charges: seq<int>, t1: int, t2: int)
    requires Sorted(charges) && t1 <= t2
    ensures Sorted(Recent(charges, t1)) && Recent(Recent(charges, t1), t2) == Recent(charges, t2)
  {
    RecentSorted(charges, t1);
    RecentTwice(charges, t1, t2);
  }

  /** The moment from which, if nothing is charged, the budget with this remainder is open again. */
  function OpensAt(charges: seq<int>, now: int, remain: int): int
    requires 0 < Limit(remain) <= |Recent(charges, now)|
  {
    var recent := Recent(charges, now);
    recent[|recent| - Limit(remain)] + WINDOW
  }

  predicate Refused(charges: seq<int>, now: int, remain: int) {
    |Recent(charges, now)| >= Limit(remain)
  }

  /** A budget that is open stays open until something is charged. */
  lemma OpenStays(charges: seq<int>, now: int, remain: int, t: int)
    requires !Refused(charges, now, remain) && t >= now
    ensures !Refused(charges, t, remain)
  {
    RecentTwice(charges, now, t);
    RecentShorter(Recent(charges, now), t);
  }

  lemma OpenExact(charges: seq<int>, now: int, remain: int, t: int)
    requires Sorted(charges) && 0 < Limit(remain) <= |Recent(charges, now)| && t >= now
    ensures Refused(charges, t, remain) <==> t < OpensAt(charges, now, remain)
  {
    var recent, limit := Recent(charges, now), Limit(remain);
    PruneTwice(charges, now, t);
    var k := Cut(recent, t);
    assert |Recent(charges, t)| == |recent| - k;
    if k <= |recent| - limit {
      assert recent[|recent| - limit] > t - WINDOW;
    } else {
      assert recent[|recent| - limit] <= t - WINDOW;
    }
  }

  /** RetryAt, which is when the oldest charge expires, is the moment the budget opens exactly when the charges that
      have to expire first are no younger.  With as many charges as the limit that is the oldest alone; with more,
      because CCP's remainder has dropped since, RetryAt may come too early. */
  lemma RetryAtExact(charges: seq<int>, now: int, remain: int)
    requires Sorted(charges) && 0 < Limit(remain) <= |Recent(charges, now)|
    ensures var recent := Recent(charges, now); var retryAt := recent[0] + WINDOW;
      && (forall t :: now <= t < retryAt ==> Refused(charges, t, remain))
      && (!Refused(charges, retryAt, remain) <==> recent[|recent| - Limit(remain)] == recent[0])
      && (|recent| == Limit(remain) ==> !Refused(charges, retryAt, remain))
  {
    hide Recent;
    var recent := Recent(charges, now);
    var k := Cut(charges, now);
    var retryAt := recent[0] + WINDOW;
    assert retryAt > now;
    assert recent[0] <= recent[|recent| - Limit(remain)];
    forall t | now <= t < retryAt
      ensures Refused(charges, t, remain)
    {
      OpenExact(charges, now, remain, t);
    }
    OpenExact(charges, now, remain, retryAt);
  }

  /** With nothing left of CCP's remainder every request is refused, at all times. */
  lemma NothingLeft(charges: seq<int>, t: int, remain: int)
    ensures (forall now :: Refused(charges, now, remain)) <==> remain < SHARE
    ensures remain < SHARE ==> Refused(charges, t, remain)
  {
    if remain >= SHARE {
      var late := LateEnough(charges);
      assert !Refused(charges, late, remain);
    }
  }

  lemma {:induction false} LateEnough(charges: seq<int>) returns (late: int)
    ensures forall now :: now >= late ==> Recent(charges, now) == []
  {
    late := 0;
    if charges != [] {
      var n := |charges| - 1;
      var before := LateEnough(charges[..n]);
      late := Max(before, charges[n] + WINDOW);
    }
  }

  class Budget {
    var stamps: seq<int>
    ghost var charges: seq<int>  // every charge ever made
    ghost var latest: int        // the time of the last call: calls read the clock under the lock

    ghost predicate Valid()
      reads this
    {
      && Sorted(charges) && (forall i :: 0 <= i < |charges| ==> charges[i] <= latest)
      && stamps == Recent(charges, latest)
    }

    constructor (ghost now: int)
      ensures Valid() && charges == [] && latest == now
    {
      stamps, charges, latest := [], [], now;
    }

    /** Dropping the old prefix is filtering the whole history. */
    method PruneLocked(now: int)
      requires Valid() && now >= latest
      modifies this
      ensures Valid() && charges == old(charges) && latest == now && stamps == Recent(charges, now)
    {
      PruneTwice(charges, latest, now);
      var cutoff := now - WINDOW;
      var i := 0;
      while i < |stamps| && stamps[i] <= cutoff
        invariant 0 <= i <= |stamps| && forall k :: 0 <= k < i ==> stamps[k] <= cutoff
      {
        i := i + 1;
      }
      RecentIsSuffix(stamps, now, i);
      if i > 0 {
        stamps := stamps[i..];
      }
      latest := now;
    }

    /** `until` is the clock as read again for the wait. */
    method Check(remain: int, now: int, until: int) returns (refused: Option<Refusal>)
      requires Valid() && latest <= now <= until
      modifies this
      ensures Valid() && charges == old(charges) && latest == now
      ensures refused.Some? <==> Refused(charges, now, remain)
      ensures refused.Some? ==> var recent := Recent(charges, now);
        && refused.value.retryAt == (if recent == [] then now else recent[0]) + WINDOW
        && refused.value.retrySec == Ceil(Max(refused.value.retryAt - until, SECOND))
    {
      PruneLocked(now);
      var limit := Limit(remain);
      if |stamps| < limit {
        return None;
      }
      var retryAt := now + WINDOW;
      if |stamps| > 0 {
        retryAt := stamps[0] + WINDOW;
      }
      var wait := Max(retryAt - until, SECOND);
      return Some(Refusal(retryAt, Max(Ceil(wait), 1)));
    }

    method Charge(now: int)
      requires Valid() && now >= latest
      modifies this
      ensures Valid() && charges == old(charges) + [now] && latest == now
    {
      PruneLocked(now);
      stamps := stamps + [now];
      charges := charges + [now];
      assert charges[..|charges| - 1] == old(charges);
    }

    method Count(now: int) returns (n: nat)
      requires Valid() && now >= latest
      modifies this
      ensures Valid() && charges == old(charges) && latest == now && n == |Recent(charges, now)|
    {
      PruneLocked(now);
      n := |stamps|;
    }
  }
}
