/** Requests to ESI: the attempts of a call and what each costs, and what a cached get does with the reply. */
module EsiClient {
  import opened Options
  import TokenBucket
  import ErrorBudget
  import opened Resending
  import opened ResponseCache
  import Revalidation
  import TimeWindow

  const ERROR_FLOOR: int := 15
  const ERROR_LIMIT_BUDGET: int := 100
  datatype Call = Call(verb: Verb, wellFormed: bool)

  datatype Result = Reply(http: Http) | NearlySpent | AllowanceSpent | Malformed | NetFailed | Limited | DrainFailed

  /** The client itself refused, and did not ask. */
  predicate Refusal(r: Result) {
    r == NearlySpent || r == AllowanceSpent || r == Malformed
  }

  /** What the last attempt is answered with. */
  predicate AnswerTo(o: Outcome, r: Result) {
    match o
    case NetError(_, _) => r == NetFailed
    case Status(http) =>
      if http.code == 420 || http.code == 429 then r == if http.drained then Limited else DrainFailed
      else r == Reply(http) || (r == DrainFailed && !http.drained)
  }

  /** What a call comes to over what the network has in store: all its attempts, and the answer to the last; or fewer,
      when the client refused to make the next. */
  ghost predicate Outcomes(verb: Verb, attempt: nat, net: seq<Outcome>, os: seq<Outcome>, r: Result) {
    var all := Sent(EVERY_OP, verb, attempt, net);
    if Refusal(r) then os < all else os == all && os != [] && AnswerTo(os[|os| - 1], r)
  }

  /** The attempts after the first are the attempts of a call that starts at the next one. */
  lemma OneMoreAttempt(verb: Verb, attempt: nat, net: seq<Outcome>, os: seq<Outcome>, r: Result)
    requires net != [] && MayResend(EVERY_OP, verb, attempt, net[0])
    requires Outcomes(verb, attempt + 1, net[1..], os, r)
    ensures Outcomes(verb, attempt, net, [net[0]] + os, r)
  {
  }

  lemma LastAttempt(verb: Verb, attempt: nat, net: seq<Outcome>, r: Result)
    requires net != [] && !MayResend(EVERY_OP, verb, attempt, net[0]) && !Refusal(r) && AnswerTo(net[0], r)
    ensures Outcomes(verb, attempt, net, [net[0]], r)
  {
  }

  lemma NoAttempt(verb: Verb, attempt: nat, net: seq<Outcome>, r: Result)
    requires net != [] && Refusal(r)
    ensures Outcomes(verb, attempt, net, [], r)
  {
  }

  lemma AnsweredLast(verb: Verb, attempt: nat, net: seq<Outcome>, os: seq<Outcome>, r: Result)
    requires Outcomes(verb, attempt, net, os, r) && r.Reply?
    ensures os == Sent(EVERY_OP, verb, attempt, net) && os != [] && os[|os| - 1] == Status(r.http)
  {
  }

  /** A call makes at most three attempts, and each but the last had an outcome that may be followed by another. */
  lemma AtMostThree(verb: Verb, net: seq<Outcome>, os: seq<Outcome>, r: Result)
    requires Enough(0, net) && Outcomes(verb, 0, net, os, r)
    ensures |os| <= LAST_ATTEMPT + 1 && os <= net
    ensures forall i :: 0 <= i < |os| - 1 ==> MayResend(EVERY_OP, verb, i, os[i])
    ensures os != [] && !Refusal(r) ==> !MayResend(EVERY_OP, verb, |os| - 1, os[|os| - 1])
    ensures os != [] && Refusal(r) ==> MayResend(EVERY_OP, verb, |os| - 1, os[|os| - 1])
  {
    hide MayResend, Sent, AnswerTo;
    NotEmpty(verb, 0, net);
    var all := Sent(EVERY_OP, verb, 0, net);
    SentIs(EVERY_OP, verb, 0, net, 0);
    forall i | 0 <= i < |os|
      ensures i + 1 < |all| <==> MayResend(EVERY_OP, verb, i, os[i])
    {
      SentIs(EVERY_OP, verb, 0, net, i);
      assert all[i] == os[i];
    }
  }

  lemma NotEmpty(verb: Verb, attempt: nat, net: seq<Outcome>)
    requires net != []
    ensures Sent(EVERY_OP, verb, attempt, net) != []
  {
  }

  lemma NoOps()
    ensures TokenBucket.After(TokenBucket.FULL, []) == TokenBucket.FULL
  {
  }

  lemma TakesSnoc(ops: seq<TokenBucket.Op>, op: TokenBucket.Op)
    ensures TokenBucket.After(TokenBucket.FULL, ops + [op])
         == TokenBucket.Apply(TokenBucket.After(TokenBucket.FULL, ops), op)
    ensures TokenBucket.Takes(TokenBucket.FULL, ops + [op])
         == TokenBucket.Takes(TokenBucket.FULL, ops)
            + if TokenBucket.Succeeds(TokenBucket.After(TokenBucket.FULL, ops), op) then 1 else 0
    ensures TokenBucket.Refunds(ops + [op]) == TokenBucket.Refunds(ops) + if op.Refund? then 1 else 0
  {
    assert (ops + [op])[..|ops|] == ops;
  }

  /** How a get is answered. */
  datatype GetResult =
    | FromCache(val: Response)
    | Validated(body: Body)
    | Fetched(body: Body)
    | StaleCache(val: Response)
    | Failed(why: Result)
    | HttpError(code: int)
    | BudgetSpent
    | ReadFailed

  function ExpiresAt(http: Http, fallback: Option<real>, now: int): int {
    Revalidation.ExpiresAt(Revalidation.Ttl(http.expires, http.maxAge, fallback), now)
  }

  /** What is stored of a response, whose freshness was reckoned at `at`. */
  function Kept(http: Http, fallback: Option<real>, at: int, now: int): Response {
    Response(Body(http.content, http.size), http.etag, ExpiresAt(http, fallback, at), now, http.pages)
  }

  /** What a response makes of a get and of the cache: which body the caller gets, and what the cache holds then. */
  ghost predicate Finished(got: GetResult, http: Http, key: Key, fallback: Option<real>, cached: Option<Response>,
                           before: seq<Entry>, after: seq<Entry>, at: int, now: int)
  {
    if http.code == 304 && cached.Some? then
      got == Validated(cached.value.body) && after == Touched(before, key, ExpiresAt(http, fallback, at), now)
    else if http.code >= 400 then
      && after == before
      && got == if cached.Some? && 500 <= http.code < 600 then StaleCache(cached.value) else HttpError(http.code)
    else
      got == Fetched(Body(http.content, http.size)) && after == Stored(before, key, Kept(http, fallback, at, now))
  }

  /** What the key holds after an answer, and what the caller gets: after a 304 the copy it had, to be kept as long as
      the reply says; after a success the reply's own body, with its ETag and pages, if it is not too large; after an
      error what it held before, which the caller gets only for a server error.  No other key comes to hold anything
      new. */
  lemma WhatIsKept(got: GetResult, http: Http, key: Key, fallback: Option<real>, cached: Option<Response>,
                   before: seq<Entry>, after: seq<Entry>, at: int, now: int, other: Key)
    requires Finished(got, http, key, fallback, cached, before, after, at, now) && Distinct(before)
    ensures var until := Revalidation.ExpiresAt(Revalidation.Ttl(http.expires, http.maxAge, fallback), at);
      var was, holds := Find(before, key), Find(after, key);
      && (http.code == 304 && cached.Some? ==>
          && got == Validated(cached.value.body)
          && holds == if was.None? then None else
             Some(Response(was.value.body, was.value.etag, until, now, was.value.pages)))
      && (http.code < 400 && !(http.code == 304 && cached.Some?) ==>
          && got == Fetched(Body(http.content, http.size))
          && holds == if http.size > 8_388_608 then was else
             Some(Response(Body(http.content, http.size), http.etag, until, now, http.pages)))
      && (http.code >= 400 ==>
          && holds == was
          && got == if cached.Some? && 500 <= http.code < 600 then StaleCache(cached.value) else HttpError(http.code))
    ensures other != key ==> Find(after, other) == Find(before, other) || Find(after, other) == None
  {
    hide Find, Stored, Touched, Distinct;
    TouchedIs(before, key, ExpiresAt(http, fallback, at), now, other);
    var val := Kept(http, fallback, at, now);
    PutIsFirst(before, key, val);
    if val.body.size <= MAX_BODY {
      StoredIs(before, key, val, other);
    }
  }

  /** No token is given back. */
  ghost predicate NoRefund(ops: seq<TokenBucket.Op>) {
    forall i :: 0 <= i < |ops| ==> !ops[i].Refund?
  }

  /** One token more, up to 400. */
  function OneMore(tokens: int): int {
    if tokens + 500_000_000 <= 200_000_000_000 then tokens + 500_000_000 else 200_000_000_000
  }

  class Client {
    const bucket: TokenBucket.UserBucket
    const budget: ErrorBudget.Budget
    const cache: Cache
    var errorRemain: int
    var errorResetAt: int
    var clock: int                        // the last reading of the clock
    ghost var ops: seq<TokenBucket.Op>    // every operation on the bucket
    ghost var sent: seq<Outcome>          // the outcome of every attempt

    /** The bucket is where its operations have brought it, and the error budget is up to date. */
    ghost predicate Metered()
      reads this, bucket, budget
    {
      && bucket.Value() == TokenBucket.After(TokenBucket.FULL, ops) && TokenBucket.Sound(bucket.Value())
      && budget.Valid() && budget.latest <= clock
    }

    ghost predicate Valid()
      reads this, bucket, budget, cache, cache.ll
    {
      Metered() && cache.Valid()
    }

    /** Tokens taken, less tokens given back, since the start. */
    ghost function Spent(): int
      reads this
    {
      TokenBucket.Takes(TokenBucket.FULL, ops) - TokenBucket.Refunds(ops)
    }

    /** Why the client did not ask: CCP's remainder is under the floor until the reset, this user has less than a
        token, or there is no request to make. */
    ghost predicate Declined(call: Call, why: Result)
      reads this, bucket
    {
      match why
      case NearlySpent => errorRemain < 15 && clock < errorResetAt
      case AllowanceSpent => bucket.tokens < 500_000_000
      case Malformed => !call.wellFormed
      case _ => false
    }

    constructor (cache: Cache, now: int)
      requires cache.Valid()
      ensures Valid() && fresh(bucket) && fresh(budget) && this.cache == cache && ops == [] && sent == []
      ensures bucket.tokens == 200_000_000_000 && errorRemain == 100 && budget.charges == []
    {
      hide Contents, Bytes, Fits, Linked, TimeWindow.Recent, TokenBucket.After;
      this.cache, clock, errorRemain, errorResetAt := cache, now, ERROR_LIMIT_BUDGET, 0;
      ops, sent := [], [];
      bucket := new TokenBucket.UserBucket();
      budget := new ErrorBudget.Budget(now);
      NoOps();
    }

    method Now() returns (now: int)
      modifies this`clock
      ensures now == clock >= old(clock)
    {
      var elapsed: int := *;
      if elapsed > 0 {
        clock := clock + elapsed;
      }
      now := clock;
    }

    /** CCP's error limit, which all share: below the floor nothing goes out until the reset. */
    method AwaitErrorBudget() returns (refused: bool)
      modifies this`clock, this`errorRemain
      ensures clock >= old(clock)
      ensures refused <==> old(errorRemain) < 15 && clock < errorResetAt
      ensures errorRemain == if old(errorRemain) < 15 && !refused then 100 else old(errorRemain)
    {
      if errorRemain >= ERROR_FLOOR {
        return false;
      }
      var now := Now();
      if errorResetAt - now <= 0 {
        errorRemain := ERROR_LIMIT_BUDGET;
        return false;
      }
      refused := true;
    }

    method Take() returns (refused: bool)
      requires Metered()
      modifies this`clock, this`ops, bucket
      ensures Metered() && clock >= old(clock)
      ensures TokenBucket.Takes(TokenBucket.FULL, ops)
           == old(TokenBucket.Takes(TokenBucket.FULL, ops)) + if refused then 0 else 1
      ensures TokenBucket.Refunds(ops) == old(TokenBucket.Refunds(ops))
      ensures ops == old(ops) + [TokenBucket.Op.Take(clock)]
      ensures refused <==> TokenBucket.Refill(old(bucket.Value()), clock).tokens < 500_000_000
      ensures refused ==> bucket.tokens < 500_000_000
    {
      hide TokenBucket.Takes, TokenBucket.Refunds, TokenBucket.After, TokenBucket.Sound, TokenBucket.Apply;
      hide TokenBucket.Succeeds;
      var now := Now();
      TakesSnoc(ops, TokenBucket.Op.Take(now));
      TokenBucket.TakeCostsOne(bucket.Value(), now);
      var limited := bucket.Take(now);
      ops := ops + [TokenBucket.Op.Take(now)];
      refused := limited.Some?;
    }

    method Refund()
      requires Metered()
      modifies this`ops, bucket
      ensures Metered() && TokenBucket.Takes(TokenBucket.FULL, ops) == old(TokenBucket.Takes(TokenBucket.FULL, ops))
      ensures TokenBucket.Refunds(ops) == old(TokenBucket.Refunds(ops)) + 1
      ensures ops == old(ops) + [TokenBucket.Op.Refund] && bucket.tokens == OneMore(old(bucket.tokens))
    {
      TakesSnoc(ops, TokenBucket.Op.Refund);
      bucket.Refund();
      ops := ops + [TokenBucket.Op.Refund];
    }

    /** The error headers of a response: the shared remainder is noted, and an error is charged to this user. */
    method NoteErrorHeaders(http: Http)
      requires Metered()
      modifies this`clock, this`errorRemain, this`errorResetAt, budget
      ensures Metered() && clock >= old(clock)
      ensures http.remain.None? ==>
        && budget.charges == old(budget.charges)
        && errorRemain == old(errorRemain) && errorResetAt == old(errorResetAt)
      ensures http.remain.Some? ==>
        && errorRemain == http.remain.value
        && errorResetAt == clock + (if http.reset.Some? then http.reset.value else 0) * TimeWindow.SECOND
        && budget.charges == old(budget.charges) + if http.code >= 400 then [clock] else []
    {
      hide TokenBucket.After, TokenBucket.Sound, TimeWindow.Recent;
      if http.remain.None? {
        return;
      }
      errorRemain := http.remain.value;
      var sec := if http.reset.Some? then http.reset.value else 0;
      var now := Now();
      errorResetAt := now + sec * TimeWindow.SECOND;
      if http.code >= 400 {
        budget.Charge(now);
      }
    }

    /** One attempt on the wire. */
    method Attempt(o: Outcome)
      requires Metered()
      modifies this`clock, this`errorRemain, this`errorResetAt, this`sent, budget
      ensures Metered() && clock >= old(clock) && sent == old(sent) + [o]
      ensures o.NetError? ==> budget.charges == old(budget.charges) && errorRemain == old(errorRemain)
    {
      sent := sent + [o];
      if o.Status? {
        NoteErrorHeaders(o.http);
      }
    }

    /** What comes before an attempt: the shared limit, one token, and the making of the request. */
    method Prepare(call: Call) returns (why: Option<Result>)
      requires Metered()
      modifies this`clock, this`ops, this`errorRemain, bucket
      ensures Metered() && clock >= old(clock)
      ensures TokenBucket.Refunds(ops) == old(TokenBucket.Refunds(ops))
      ensures why.Some? ==> Refusal(why.value) && Declined(call, why.value)
      ensures old(errorRemain) < 15 && clock < errorResetAt ==> why == Some(NearlySpent)
      ensures old(ops) <= ops && NoRefund(ops[|old(ops)|..])
      ensures call.wellFormed ==>
        TokenBucket.Takes(TokenBucket.FULL, ops)
          == old(TokenBucket.Takes(TokenBucket.FULL, ops)) + if why.Some? then 0 else 1
      ensures !call.wellFormed ==> why.Some?
    {
      hide TokenBucket.Takes, TokenBucket.Refunds, TokenBucket.After, TokenBucket.Sound;
      hide TokenBucket.Refill;
      var refused := AwaitErrorBudget();
      if refused {
        return Some(NearlySpent);
      }
      refused := Take();
      if refused {
        return Some(AllowanceSpent);
      }
      return if call.wellFormed then None else Some(Malformed);
    }

    /** A request and its attempts, over what the network has in store for them.  A well-formed one takes exactly one
      token for each attempt it makes. */
    method Request(call: Call, attempt: nat, net: seq<Outcome>) returns (r: Result, ghost os: seq<Outcome>)
      requires Metered() && Enough(attempt, net)
      modifies this`clock, this`ops, this`sent, this`errorRemain, this`errorResetAt, bucket, budget
      ensures Metered() && clock >= old(clock) && sent == old(sent) + os
      ensures Outcomes(call.verb, attempt, net, os, r)
      ensures Refusal(r) ==> Declined(call, r)
      ensures old(ops) <= ops && NoRefund(ops[|old(ops)|..])
      ensures call.wellFormed ==>
        TokenBucket.Takes(TokenBucket.FULL, ops) == old(TokenBucket.Takes(TokenBucket.FULL, ops)) + |os|
      ensures !call.wellFormed ==> os == []
      ensures TokenBucket.Refunds(ops) == old(TokenBucket.Refunds(ops))
      decreases LAST_ATTEMPT - attempt
    {
      hide TokenBucket.Takes, TokenBucket.Refunds, TokenBucket.After, TokenBucket.Sound, Outcomes, Sent, Classed;
      var why := Prepare(call);
      if why.Some? {
        NoAttempt(call.verb, attempt, net, why.value);
        return why.value, [];
      }
      Attempt(net[0]);
      var resend;
      resend, r := AfterAttempt(call.verb, attempt, net[0]);
      if !resend {
        LastAttempt(call.verb, attempt, net, r);
        return r, [net[0]];
      }
      ghost var rest;
      r, rest := Request(call, attempt + 1, net[1..]);
      OneMoreAttempt(call.verb, attempt, net, rest, r);
      os := [net[0]] + rest;
    }

    /** The branches that follow a response or a network error, in their order. */
    method AfterAttempt(verb: Verb, attempt: nat, o: Outcome) returns (resend: bool, r: Result)
      ensures resend <==> MayResend(EVERY_OP, verb, attempt, o)
      ensures !resend ==> AnswerTo(o, r) && !Refusal(r)
    {
      hide Classed;
      r := NetFailed;
      match o {
        case NetError(err, _) =>
          if attempt < 2 {
            resend := SafeToRetry(verb, err);
            return resend, NetFailed;
          }
          return false, NetFailed;
        case Status(http) =>
          if http.code == 420 || http.code == 429 {
            if http.code == 429 && attempt < 1 {
              return http.drained, DrainFailed;
            }
            return false, if http.drained then Limited else DrainFailed;
          }
          if attempt < 2 && verb == Get && ServerBusy(http.code) {
            return http.drained, DrainFailed;
          }
          return false, Reply(http);
      }
    }

    /** A get through the cache.  A fresh copy costs nothing; every attempt costs a token, and an answer of 304 to a
      conditional request gives exactly one back.  What is answered and kept comes of the last attempt's response. */
    method CachedGet(key: Key, fallback: Option<real>, net: seq<Outcome>)
      returns (got: GetResult, ghost os: seq<Outcome>, ghost at: int)
      requires Valid() && Enough(0, net)
      modifies this`clock, this`ops, this`sent, this`errorRemain, this`errorResetAt, bucket, budget, cache, cache.ll
      ensures Valid() && sent == old(sent) + os && os <= Sent(EVERY_OP, Get, 0, net)
      ensures Spent() == old(Spent()) + |os| - if got.Validated? then 1 else 0
      // a 304 gives back one token, which is there afterwards
      ensures got.Validated? ==>
        && ops != [] && ops[|ops| - 1] == TokenBucket.Op.Refund
        && bucket.tokens == OneMore(TokenBucket.After(TokenBucket.FULL, ops[..|ops| - 1]).tokens)
      // a copy is served without asking exactly when it has not expired
      ensures got.FromCache? ==>
        && os == [] && ops == old(ops) && bucket.tokens == old(bucket.tokens)
        && Find(old(Contents(cache.ll)), key) == Some(got.val) && clock < got.val.expiresAt
      ensures !got.FromCache? ==>
        var found := Find(old(Contents(cache.ll)), key); found.None? || found.value.expiresAt <= clock
      // each failure has its own cause
      ensures got.BudgetSpent? ==> os == [] && ErrorBudget.Refused(budget.charges, clock, errorRemain)
      ensures got.Failed? ==> Outcomes(Get, 0, net, os, got.why) && !got.why.Reply?
      ensures got.Failed? && Refusal(got.why) ==> Declined(Call(Get, true), got.why)
      ensures got.ReadFailed? ==> os != [] && os[|os| - 1].Status? && !os[|os| - 1].http.readable
      ensures ErrorBudget.Refused(old(budget.charges), clock, old(errorRemain)) ==> got.FromCache? || got.BudgetSpent?
      ensures got.FromCache? || got.BudgetSpent? || got.Failed? || got.ReadFailed? ==>
        Contents(cache.ll) == Got(old(Contents(cache.ll)), key)
      ensures got.Validated? || got.Fetched? || got.StaleCache? || got.HttpError? ==>
        && os == Sent(EVERY_OP, Get, 0, net) && os != [] && os[|os| - 1].Status? && os[|os| - 1].http.readable
        && old(clock) <= at <= clock
        && Finished(got, os[|os| - 1].http, key, fallback, Find(old(Contents(cache.ll)), key),
                    Got(old(Contents(cache.ll)), key), Contents(cache.ll), at, clock)
    {
      hide TokenBucket.Takes, TokenBucket.Refunds, TokenBucket.After, TokenBucket.Sound, TimeWindow.Recent;
      hide Contents, Bytes, Fits, Linked, Got, Find, Sent, Finished, Outcomes, ErrorBudget.Refused;
      var cached := cache.Get(key);
      var now := Now();
      os, at := [], now;
      if cached.Some? && now < cached.value.expiresAt {
        return FromCache(cached.value), os, at;
      }
      ghost var kept := Contents(cache.ll);
      var failure, http;
      failure, http, os := Fetch(net);
      assert Contents(cache.ll) == kept;
      if failure.Some? {
        return failure.value, os, at;
      }
      ghost var asked := clock;
      got, at := FinishGet(http, key, fallback, cached);
      ErrorBudget.OpenStays(old(budget.charges), asked, old(errorRemain), clock);
    }

    /** The error budget, the request, and the reading of the body: a failure, or the response of the last attempt. */
    method Fetch(net: seq<Outcome>) returns (failure: Option<GetResult>, http: Http, ghost os: seq<Outcome>)
      requires Metered() && Enough(0, net)
      modifies this`clock, this`ops, this`sent, this`errorRemain, this`errorResetAt, bucket, budget
      ensures Metered() && clock >= old(clock) && sent == old(sent) + os && os <= Sent(EVERY_OP, Get, 0, net)
      ensures Spent() == old(Spent()) + |os|
      ensures old(ops) <= ops && NoRefund(ops[|old(ops)|..])
      ensures failure.Some? ==> failure.value.BudgetSpent? || failure.value.Failed? || failure.value.ReadFailed?
      ensures failure.None? || failure == Some(ReadFailed) ==>
        && os == Sent(EVERY_OP, Get, 0, net) && os != [] && os[|os| - 1] == Status(http)
        && (failure.None? <==> http.readable)
      ensures failure == Some(BudgetSpent) ==> os == [] && ErrorBudget.Refused(budget.charges, clock, errorRemain)
      ensures ErrorBudget.Refused(old(budget.charges), clock, old(errorRemain)) ==> failure == Some(BudgetSpent)
      ensures failure.Some? && failure.value.Failed? ==> var why := failure.value.why;
        && Outcomes(Get, 0, net, os, why) && !why.Reply? && (Refusal(why) ==> Declined(Call(Get, true), why))
    {
      hide TokenBucket.Takes, TokenBucket.Refunds, TokenBucket.After, TokenBucket.Sound, TimeWindow.Recent;
      hide Sent, AnswerTo, ErrorBudget.Refused, Declined;
      http, os := Answer(0).http, [];
      var now := Now();
      ghost var charges, remain := budget.charges, errorRemain;
      var limited := budget.Check(errorRemain, now, now);
      if limited.Some? {
        return Some(BudgetSpent), http, os;
      }
      var r;
      r, os := Request(Call(Get, true), 0, net);
      ErrorBudget.OpenStays(charges, now, remain, clock);
      if !r.Reply? {
        return Some(Failed(r)), http, os;
      }
      AnsweredLast(Get, 0, net, os, r);
      return if r.http.readable then None else Some(ReadFailed), r.http, os;
    }

    method FinishGet(http: Http, key: Key, fallback: Option<real>, cached: Option<Response>)
      returns (got: GetResult, ghost at: int)
      requires Valid()
      modifies this`clock, this`ops, bucket, cache, cache.ll
      ensures Valid() && old(clock) <= at <= clock
      ensures got.Validated? || got.Fetched? || got.StaleCache? || got.HttpError?
      ensures Spent() == old(Spent()) - if got.Validated? then 1 else 0
      ensures ops == old(ops) + if got.Validated? then [TokenBucket.Op.Refund] else []
      ensures bucket.tokens == if got.Validated? then OneMore(old(bucket.tokens)) else old(bucket.tokens)
      ensures Finished(got, http, key, fallback, cached, old(Contents(cache.ll)), Contents(cache.ll), at, clock)
    {
      hide TokenBucket.Takes, TokenBucket.Refunds, TokenBucket.After, TokenBucket.Sound, TimeWindow.Recent;
      hide Contents, Bytes, Fits, Linked, Touched, Stored, ExpiresAt;
      at := clock;
      if http.code == 304 && cached.Some? {
        Refund();
        var now := Now();
        at := now;
        var expires := ExpiresAt(http, fallback, now);
        now := Now();
        cache.Touch(key, expires, now);
        return Validated(cached.value.body), at;
      }
      if http.code >= 400 {
        if cached.Some? && http.code >= 500 && http.code < 600 {
          return StaleCache(cached.value), at;
        }
        return HttpError(http.code), at;
      }
      var now := Now();
      at := now;
      var expires := ExpiresAt(http, fallback, now);
      now := Now();
      var body := Body(http.content, http.size);
      cache.Put(key, Response(body, http.etag, expires, now, http.pages));
      return Fetched(body), at;
    }
  }
}
