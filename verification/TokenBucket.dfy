/**
 The request allowance of one user: 400 tokens, refilled at 2 a second.

 Times are nanoseconds and tokens are counted in grains, half a billion to the token, so that one grain comes back
 per nanosecond and every quantity is a whole number.
 */
module TokenBucket {
  import opened Options

  const SECOND: int := 1_000_000_000
  const ONE: int := 500_000_000
  const CAPACITY: int := 400 * ONE

  datatype Bucket = Bucket(tokens: int, last: Option<int>)
  datatype Refusal = Refusal(retryAt: int, retrySec: int)
  datatype Op = Take(at: int) | Remaining(at: int) | Refund

  const FULL: Bucket := Bucket(CAPACITY, None)

  ghost predicate Sound(b: Bucket) {
    0 <= b.tokens <= CAPACITY && (b.last.None? ==> b.tokens == CAPACITY)
  }

  function Min(a: int, b: int): int {
    if a <= b then a else b
  }

  function Refill(b: Bucket, now: int): Bucket {
    match b.last
    case None => Bucket(b.tokens, Some(now))
    case Some(last) => if now <= last then b else Bucket(Min(b.tokens + (now - last), CAPACITY), Some(now))
  }

  function Taken(b: Bucket): Bucket {
    if b.tokens < ONE then b else b.(tokens := b.tokens - ONE)
  }

  function Refunded(b: Bucket): Bucket {
    b.(tokens := Min(b.tokens + ONE, CAPACITY))
  }

  function Apply(b: Bucket, op: Op): Bucket {
    match op
    case Take(at) => Taken(Refill(b, at))
    case Remaining(at) => Refill(b, at)
    case Refund => Refunded(b)
  }

  /** Does the operation take a token out? */
  predicate Succeeds(b: Bucket, op: Op) {
    op.Take? && Refill(b, op.at).tokens >= ONE
  }

  function After(b: Bucket, ops: seq<Op>): Bucket {
    if ops == [] then b else Apply(After(b, ops[..|ops| - 1]), ops[|ops| - 1])
  }

  function Takes(b: Bucket, ops: seq<Op>): nat {
    if ops == [] then 0 else
    var init := ops[..|ops| - 1];
    Takes(b, init) + if Succeeds(After(b, init), ops[|ops| - 1]) then 1 else 0
  }

  function Refunds(ops: seq<Op>): nat {
    if ops == [] then 0 else Refunds(ops[..|ops| - 1]) + if ops[|ops| - 1].Refund? then 1 else 0
  }

  /** The times of the operations lie in [lo, hi], in any order. */
  ghost predicate Within(ops: seq<Op>, lo: int, hi: int) {
    forall i :: 0 <= i < |ops| && !ops[i].Refund? ==> lo <= ops[i].at <= hi
  }

  lemma {:induction false} StaysSound(b: Bucket, ops: seq<Op>)
    requires Sound(b)
    ensures Sound(After(b, ops))
  {
    if ops != [] {
      StaysSound(b, ops[..|ops| - 1]);
    }
  }

  /** A refund gives one token back, up to 400. */
  lemma RefundGivesBack(b: Bucket)
    requires Sound(b)
    ensures Apply(b, Refund).last == b.last
    ensures Apply(b, Refund).tokens
         == if b.tokens + 500_000_000 <= 200_000_000_000 then b.tokens + 500_000_000 else 200_000_000_000
  {
  }

  /** A take takes one token out of what the refill has left, when there is one, and otherwise nothing. */
  lemma TakeCostsOne(b: Bucket, now: int)
    requires Sound(b)
    ensures Succeeds(b, Take(now)) <==> Refill(b, now).tokens >= 500_000_000
    ensures Apply(b, Take(now)).last == Refill(b, now).last
    ensures Apply(b, Take(now)).tokens
         == Refill(b, now).tokens - if Succeeds(b, Take(now)) then 500_000_000 else 0
  {
  }

  /** Two tokens come back in a second, up to 400; a clock that goes back gives nothing and takes nothing. */
  lemma RefillRate(b: Bucket, now: int)
    requires Sound(b)
    ensures Refill(b, now).last.Some?
    ensures b.last.Some? && now >= b.last.value ==>
      Refill(b, now) == Bucket(Min(b.tokens + (now - b.last.value), 200_000_000_000), Some(now))
    ensures b.last.Some? && now < b.last.value ==> Refill(b, now) == b
    ensures b.last.None? ==> Refill(b, now) == Bucket(200_000_000_000, Some(now))
  {
  }

  /** A token taken and given back is a token not taken. */
  lemma RefundUndoesTake(b: Bucket, now: int)
    requires Sound(b) && Succeeds(b, Take(now))
    ensures Apply(Apply(b, Take(now)), Refund) == Refill(b, now)
  {
  }

  /** Out of a full bucket 400 takes succeed, whenever they are made. */
  lemma {:induction false} FullAllowance(ops: seq<Op>)
    requires |ops| <= 400 && forall i :: 0 <= i < |ops| ==> ops[i].Take?
    ensures Takes(FULL, ops) == |ops|
    ensures Sound(After(FULL, ops)) && After(FULL, ops).tokens >= (400 - |ops|) * ONE
  {
    if ops != [] {
      FullAllowance(ops[..|ops| - 1]);
    }
  }

  /** Looking at the bucket on the way does not change what is in it later. */
  lemma RefillTwice(b: Bucket, t1: int, t2: int)
    requires Sound(b) && t1 <= t2
    ensures Refill(Refill(b, t1), t2) == Refill(b, t2)
  {
  }

  /** What the operations so far have credited and spent: the balance behind the bound. */
  ghost predicate Balanced(b: Bucket, ops: seq<Op>, lo: int, hi: int) {
    var e := After(b, ops);
    && Sound(e)
    && (Started(ops) ==>
        && e.last.Some? && lo <= e.last.value
        && (e.last.value <= hi || e.last == b.last)
        && e.tokens + Takes(b, ops) * ONE
           <= CAPACITY + (if e.last.value <= hi then e.last.value - lo else 0) + Refunds(ops) * ONE)
    && (!Started(ops) ==> Takes(b, ops) == 0 && e.last == b.last)
  }

  ghost predicate Started(ops: seq<Op>) {
    exists i :: 0 <= i < |ops| && !ops[i].Refund?
  }

  lemma {:induction false} Balance(b: Bucket, ops: seq<Op>, lo: int, hi: int)
    requires Sound(b) && Within(ops, lo, hi)
    ensures Balanced(b, ops, lo, hi)
  {
    if ops != [] {
      var init, op := ops[..|ops| - 1], ops[|ops| - 1];
      Balance(b, init, lo, hi);
      assert forall i :: 0 <= i < |init| ==> init[i] == ops[i];
      assert Started(ops) <==> Started(init) || !op.Refund?;
    }
  }

  /** Whatever the bucket held before, the takes that succeed in an interval are at most 400, plus 2 for each second of
      it, plus the refunds made in it. */
  lemma IntervalBound(b: Bucket, ops: seq<Op>, lo: int, hi: int)
    requires Sound(b) && Within(ops, lo, hi) && lo <= hi
    ensures Takes(b, ops) * ONE <= CAPACITY + (hi - lo) + Refunds(ops) * ONE
  {
    Balance(b, ops, lo, hi);
  }

  /** When a refused take may be made again: the deficit comes back one grain per nanosecond. */
  function RetryAt(b: Bucket, now: int): int {
    now + (ONE - Refill(b, now).tokens)
  }

  /** Seconds to wait, rounded up, at least one. */
  function RetrySec(b: Bucket, now: int): int {
    var deficit := ONE - Refill(b, now).tokens;
    var sec := (deficit + SECOND - 1) / SECOND;
    if sec < 1 then 1 else sec
  }

  lemma {:induction false} LooksKeep(b: Bucket, ops: seq<Op>, retryAt: int)
    requires Sound(b) && b.last.Some? && b.tokens + (retryAt - b.last.value) == ONE && b.tokens < ONE
    requires forall i :: 0 <= i < |ops| ==> !ops[i].Refund? && ops[i].at < retryAt
    ensures var e := After(b, ops);
      Sound(e) && e.last.Some? && e.tokens + (retryAt - e.last.value) == ONE && e.tokens < ONE && Takes(b, ops) == 0
  {
    if ops != [] {
      LooksKeep(b, ops[..|ops| - 1], retryAt);
    }
  }

  /** After a refusal, as long as nothing is refunded, every take before RetryAt is refused, in any number and order and
      with any looks between them, and a take succeeds exactly from RetryAt on. */
  lemma RetryAtExact(b: Bucket, now: int, ops: seq<Op>, t: int)
    requires Sound(b) && !Succeeds(b, Take(now)) && (b.last.Some? ==> b.last.value <= now)
    requires forall i :: 0 <= i < |ops| ==> !ops[i].Refund? && ops[i].at < RetryAt(b, now)
    ensures Takes(Apply(b, Take(now)), ops) == 0
    ensures Succeeds(After(Apply(b, Take(now)), ops), Take(t)) <==> t >= RetryAt(b, now)
  {
    LooksKeep(Apply(b, Take(now)), ops, RetryAt(b, now));
  }

  /** Waiting the rounded seconds is waiting long enough, and never a second too long beyond the minimum of one. */
  lemma RetrySecEnough(b: Bucket, now: int)
    requires Sound(b) && !Succeeds(b, Take(now))
    ensures RetrySec(b, now) >= 1
    ensures now + RetrySec(b, now) * 1_000_000_000 >= RetryAt(b, now)
    ensures RetrySec(b, now) > 1 ==> now + (RetrySec(b, now) - 1) * 1_000_000_000 < RetryAt(b, now)
  {
  }

  class UserBucket {
    var tokens: int
    var last: Option<int>

    function Value(): Bucket
      reads this
    {
      Bucket(tokens, last)
    }

    constructor ()
      ensures Value() == FULL && Sound(Value())
    {
      tokens, last := CAPACITY, None;
    }

    method RefillLocked(now: int)
      modifies this
      ensures Value() == Refill(old(Value()), now)
    {
      if last.None? {
        last := Some(now);
        return;
      }
      var elapsed := now - last.value;
      if elapsed <= 0 {
        return;
      }
      tokens := tokens + elapsed;
      if tokens > CAPACITY {
        tokens := CAPACITY;
      }
      last := Some(now);
    }

    method Take(now: int) returns (refused: Option<Refusal>)
      requires Sound(Value())
      modifies this
      ensures Value() == Apply(old(Value()), Op.Take(now)) && Sound(Value())
      ensures refused.None? <==> Succeeds(old(Value()), Op.Take(now))
      ensures refused.Some? ==> refused.value == Refusal(RetryAt(old(Value()), now), RetrySec(old(Value()), now))
    {
      RefillLocked(now);
      if tokens < ONE {
        var deficit := ONE - tokens;
        var retrySec := (deficit + SECOND - 1) / SECOND;
        if retrySec < 1 {
          retrySec := 1;
        }
        return Some(Refusal(now + deficit, retrySec));
      }
      tokens := tokens - ONE;
      refused := None;
    }

    method Refund()
      requires Sound(Value())
      modifies this
      ensures Value() == Apply(old(Value()), Op.Refund) && Sound(Value())
    {
      tokens := tokens + ONE;
      if tokens > CAPACITY {
        tokens := CAPACITY;
      }
    }

    method Remaining(now: int) returns (left: int)
      requires Sound(Value())
      modifies this
      ensures Value() == Apply(old(Value()), Op.Remaining(now)) && Sound(Value()) && left == tokens
    {
      RefillLocked(now);
      left := tokens;
    }
  }
}
