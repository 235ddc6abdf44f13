/**
 Conditional requests against an origin whose answers change: lookups, replies and writes to the cache of any number
 of requests, in any interleaving, with evictions and changes at the origin at any time.

 An ETag identifies a body, so it is modelled by the body it stands for.
 */
module Revalidation {
  import opened Options

  const SECOND: int := 1_000_000_000
  const DAY: int := 86_400 * SECOND
  const MAX_TTL: real := 86_400.0

  type Key = nat
  type Body = nat
  type ReqId = nat

  /** What a reply says about freshness, each part as parsed, in seconds: Expires less Date, max-age, and the caller's
      fallback. */
  datatype Ttl = Ttl(expires: Option<real>, maxAge: Option<real>, fallback: Option<real>)

  /** `put` is when the body was stored. */
  datatype Entry = Entry(body: Body, etag: Option<Body>, expires: int, put: int)

  datatype Reply = Full(body: Body, etag: Option<Body>, at: int) | NotModified(at: int) | ServerError | ClientError

  datatype Req = Req(key: Key, started: int, cached: Option<Entry>, reply: Option<Reply>)

  /** Fresh: without asking.  FromOrigin: the reply of the origin at `asked`.  Stale: instead of a server error. */
  datatype How = Fresh | FromOrigin(asked: int) | Stale
  datatype Served = Served(key: Key, body: Body, at: int, how: How)

  /** The origin's answer to a conditional or a full request: this was its body then. */
  datatype Answer = Answer(key: Key, body: Body, at: int)

  datatype State = State(
    clock: int,
    origin: map<Key, Body>,
    cache: map<Key, Entry>,
    reqs: map<ReqId, Req>,
    answers: set<Answer>,
    served: set<Served>,
    slowest: int  // the longest a request has been open between its lookup and its write to the cache
  )

  datatype Status = Ok(etag: bool) | Down | Refused

  datatype Event =
    | Lookup(r: ReqId, key: Key)
    | Replies(r: ReqId, status: Status)
    | Finish(r: ReqId, ttl: Ttl, small: bool)  // small: the body is within the cache's bound for bodies
    | GiveUp(r: ReqId)
    | Evict(keys: set<Key>)
    | Change(key: Key, body: Body)
    | Tick(d: int)

  const INIT: State := State(0, map[], map[], map[], {}, {}, 0)

  function Max(a: int, b: int): int {
    if a >= b then a else b
  }

  function OriginBody(s: State, key: Key): Body {
    if key in s.origin then s.origin[key] else 0
  }

  function Clamp(ttl: real): real {
    if ttl < 0.0 then 0.0 else if ttl > MAX_TTL then MAX_TTL else ttl
  }

  /** Expires before max-age before the fallback before a minute; between nothing and a day; in whole seconds. */
  function ExpiresAt(ttl: Ttl, now: int): int {
    var seconds :=
      if ttl.expires.Some? then ttl.expires.value
      else if ttl.maxAge.Some? then ttl.maxAge.value
      else if ttl.fallback.Some? then ttl.fallback.value
      else 60.0;
    (now / SECOND + Clamp(seconds).Floor) * SECOND
  }

  lemma ExpiresWithinADay(ttl: Ttl, now: int)
    ensures now - SECOND < ExpiresAt(ttl, now) <= now + DAY
    ensures (ttl.expires.Some? && ttl.expires.value <= 0.0) ==> ExpiresAt(ttl, now) <= now
  {
    var n := Clamp(if ttl.expires.Some? then ttl.expires.value else if ttl.maxAge.Some? then ttl.maxAge.value
                   else if ttl.fallback.Some? then ttl.fallback.value else 60.0).Floor;
    assert 0 <= n <= 86_400;
  }

  /** Expires decides alone where there is one; else max-age, whatever the caller's fallback; else the fallback; and
      without any of them it is a minute. */
  lemma FirstDecides(ttl: Ttl, now: int)
    ensures ttl.expires.Some? ==> ExpiresAt(ttl, now) == ExpiresAt(Ttl(ttl.expires, None, None), now)
    ensures ttl.expires.None? && ttl.maxAge.Some? ==>
      ExpiresAt(ttl, now) == ExpiresAt(Ttl(ttl.maxAge, None, None), now)
    ensures ttl.expires.None? && ttl.maxAge.None? && ttl.fallback.Some? ==>
      ExpiresAt(ttl, now) == ExpiresAt(Ttl(ttl.fallback, None, None), now)
    ensures ttl.expires.None? && ttl.maxAge.None? && ttl.fallback.None? ==>
      ExpiresAt(ttl, now) == ExpiresAt(Ttl(Some(60.0), None, None), now)
  {
  }

  /** So many whole seconds after the current one, no less than none and no more than a day's; of a fraction, the
      seconds that it is past. */
  lemma LastsFor(seconds: real, n: int, now: int)
    requires n as real <= seconds < (n + 1) as real
    ensures ExpiresAt(Ttl(Some(seconds), None, None), now)
         == (now / 1_000_000_000 + if n < 0 then 0 else if n > 86_400 then 86_400 else n) * 1_000_000_000
  {
  }

  function DoLookup(s: State, r: ReqId, key: Key): Option<State> {
    if r in s.reqs then None
    else if key in s.cache && s.clock < s.cache[key].expires
    then Some(s.(served := s.served + {Served(key, s.cache[key].body, s.clock, Fresh)}))
    else Some(s.(reqs := s.reqs[r := Req(key, s.clock, if key in s.cache then Some(s.cache[key]) else None, None)]))
  }

  /** The origin answers 304 exactly to the ETag of its current body. */
  function DoReply(s: State, r: ReqId, q: Req, status: Status): State {
    var body := OriginBody(s, q.key);
    match status
    case Down => s.(reqs := s.reqs[r := q.(reply := Some(ServerError))])
    case Refused => s.(reqs := s.reqs[r := q.(reply := Some(ClientError))])
    case Ok(etag) =>
      var reply :=
        if q.cached.Some? && q.cached.value.etag == Some(body) then NotModified(s.clock)
        else Full(body, if etag then Some(body) else None, s.clock);
      s.(reqs := s.reqs[r := q.(reply := Some(reply))], answers := s.answers + {Answer(q.key, body, s.clock)})
  }

  function Touch(cache: map<Key, Entry>, key: Key, expires: int): map<Key, Entry> {
    if key in cache then cache[key := cache[key].(expires := expires)] else cache
  }

  function DoFinish(s: State, r: ReqId, q: Req, ttl: Ttl, small: bool): State
    requires q.reply.Some?
  {
    var done := s.(reqs := s.reqs - {r});
    var open := Max(s.slowest, s.clock - q.started);
    match q.reply.value
    case NotModified(at) =>
      if q.cached.None? then done else
      done.(cache := Touch(s.cache, q.key, ExpiresAt(ttl, s.clock)), slowest := open,
            served := s.served + {Served(q.key, q.cached.value.body, s.clock, FromOrigin(at))})
    case Full(body, etag, at) =>
      done.(cache := if small then s.cache[q.key := Entry(body, etag, ExpiresAt(ttl, s.clock), s.clock)] else s.cache,
            slowest := open, served := s.served + {Served(q.key, body, s.clock, FromOrigin(at))})
    case ServerError =>
      if q.cached.None? then done else done.(served := s.served + {Served(q.key, q.cached.value.body, s.clock, Stale)})
    case ClientError => done
  }

  function Step(s: State, e: Event): Option<State> {
    match e
    case Lookup(r, key) => DoLookup(s, r, key)
    case Replies(r, status) =>
      if r in s.reqs && s.reqs[r].reply.None? then Some(DoReply(s, r, s.reqs[r], status)) else None
    case Finish(r, ttl, small) =>
      if r in s.reqs && s.reqs[r].reply.Some? then Some(DoFinish(s, r, s.reqs[r], ttl, small)) else None
    case GiveUp(r) => if r in s.reqs then Some(s.(reqs := s.reqs - {r})) else None
    case Evict(keys) => Some(s.(cache := s.cache - keys))
    case Change(key, body) => Some(s.(origin := s.origin[key := body]))
    case Tick(d) => if d > 0 then Some(s.(clock := s.clock + d)) else None
  }

  function Run(es: seq<Event>): Option<State> {
    if es == [] then Some(INIT) else
    match Run(es[..|es| - 1])
    case None => None
    case Some(s) => Step(s, es[|es| - 1])
  }

  /** A stored ETag is the ETag of the stored body. */
  ghost predicate Tagged(e: Entry) {
    e.etag.Some? ==> e.etag.value == e.body
  }

  /** The stored body is one the origin gave out, no longer ago than `lag` before it was put. */
  ghost predicate Backed(answers: set<Answer>, key: Key, e: Entry, lag: int) {
    exists u :: Answer(key, e.body, u) in answers && e.put - lag <= u
  }

  /** And its freshness ends within a day of such an answer, and twice the lag. */
  ghost predicate Dated(answers: set<Answer>, key: Key, e: Entry, lag: int) {
    exists u :: Answer(key, e.body, u) in answers && e.expires <= u + DAY + 2 * lag
  }

  ghost predicate CacheSound(cache: map<Key, Entry>, answers: set<Answer>, lag: int, clock: int) {
    forall k :: k in cache ==>
      && Tagged(cache[k]) && cache[k].put <= clock
      && Backed(answers, k, cache[k], lag) && Dated(answers, k, cache[k], lag)
  }

  /** If the entry of the key has been there since before the request looked, its body is the one the request saw. */
  ghost predicate SawIt(q: Req, cache: map<Key, Entry>) {
    q.key in cache && cache[q.key].put < q.started ==> q.cached.Some? && q.cached.value.body == cache[q.key].body
  }

  ghost predicate ReqSound(q: Req, cache: map<Key, Entry>, answers: set<Answer>, clock: int) {
    && q.started <= clock && SawIt(q, cache) && (q.cached.Some? ==> Tagged(q.cached.value))
    && (q.reply.Some? ==>
        match q.reply.value
        case NotModified(at) => q.cached.Some? && Answer(q.key, q.cached.value.body, at) in answers && q.started <= at
        case Full(body, etag, at) => Answer(q.key, body, at) in answers && q.started <= at && (etag.Some? ==>
          etag.value == body)
        case _ => true)
  }

  ghost predicate ReqsSound(reqs: map<ReqId, Req>, cache: map<Key, Entry>, answers: set<Answer>, clock: int) {
    forall r :: r in reqs ==> ReqSound(reqs[r], cache, answers, clock)
  }

  ghost predicate ServedOk(v: Served, answers: set<Answer>, lag: int) {
    match v.how
    case FromOrigin(at) => Answer(v.key, v.body, at) in answers
    case Fresh => exists u :: Answer(v.key, v.body, u) in answers && v.at < u + DAY + 2 * lag
    case Stale => true
  }

  ghost predicate ServedSound(served: set<Served>, answers: set<Answer>, lag: int) {
    forall v :: v in served ==> ServedOk(v, answers, lag)
  }

  ghost predicate Inv(s: State) {
    && s.slowest >= 0 && CacheSound(s.cache, s.answers, s.slowest, s.clock)
    && ReqsSound(s.reqs, s.cache, s.answers, s.clock) && ServedSound(s.served, s.answers, s.slowest)
  }

  lemma MoreIsSound(s: State, answers: set<Answer>, lag: int, clock: int)
    requires Inv(s) && s.answers <= answers && s.slowest <= lag && s.clock <= clock
    ensures CacheSound(s.cache, answers, lag, clock) && ReqsSound(s.reqs, s.cache, answers, clock)
    ensures ServedSound(s.served, answers, lag)
  {
    forall k | k in s.cache
      ensures Backed(answers, k, s.cache[k], lag) && Dated(answers, k, s.cache[k], lag)
    {
      var u :| Answer(k, s.cache[k].body, u) in s.answers && s.cache[k].put - s.slowest <= u;
      assert Answer(k, s.cache[k].body, u) in answers;
      var v :| Answer(k, s.cache[k].body, v) in s.answers && s.cache[k].expires <= v + DAY + 2 * s.slowest;
      assert Answer(k, s.cache[k].body, v) in answers;
    }
    forall r | r in s.reqs
      ensures ReqSound(s.reqs[r], s.cache, answers, clock)
    {
      assert ReqSound(s.reqs[r], s.cache, s.answers, s.clock);
    }
    forall v | v in s.served
      ensures ServedOk(v, answers, lag)
    {
      assert ServedOk(v, s.answers, s.slowest);
    }
  }

  lemma LookupKeeps(s: State, r: ReqId, key: Key, s': State)
    requires Inv(s) && DoLookup(s, r, key) == Some(s')
    ensures Inv(s')
  {
    if key in s.cache && s.clock < s.cache[key].expires {
      assert Dated(s.answers, key, s.cache[key], s.slowest);
    }
  }

  lemma ReplyKeeps(s: State, r: ReqId, q: Req, status: Status)
    requires Inv(s) && r in s.reqs && q == s.reqs[r] && q.reply.None?
    ensures Inv(DoReply(s, r, q, status))
  {
    hide CacheSound, ServedSound, SawIt, Tagged;
    var s' := DoReply(s, r, q, status);
    MoreIsSound(s, s'.answers, s.slowest, s.clock);
    assert ReqSound(q, s.cache, s.answers, s.clock);
    ReplySound(s, r, q, status);
  }

  lemma ReplySound(s: State, r: ReqId, q: Req, status: Status)
    requires ReqSound(q, s.cache, s.answers, s.clock)
    ensures var s' := DoReply(s, r, q, status); ReqSound(s'.reqs[r], s.cache, s'.answers, s.clock)
  {
  }

  /** The body that a touch finds in the cache is the one that was validated, unless it was put while the request was
      open: an answer for it is then nearly as recent. */
  lemma TouchKeeps(s: State, q: Req, expires: int, lag: int)
    requires CacheSound(s.cache, s.answers, s.slowest, s.clock) && s.slowest <= lag && s.clock - q.started <= lag
    requires ReqSound(q, s.cache, s.answers, s.clock) && q.reply.Some? && q.reply.value.NotModified?
    requires expires <= s.clock + DAY
    ensures CacheSound(Touch(s.cache, q.key, expires), s.answers, lag, s.clock)
  {
    var cache' := Touch(s.cache, q.key, expires);
    forall k | k in cache'
      ensures Backed(s.answers, k, cache'[k], lag) && Dated(s.answers, k, cache'[k], lag)
    {
      var u :| Answer(k, s.cache[k].body, u) in s.answers && s.cache[k].put - s.slowest <= u;
      var v :| Answer(k, s.cache[k].body, v) in s.answers && s.cache[k].expires <= v + DAY + 2 * s.slowest;
      if k == q.key {
        if s.cache[k].put < q.started {
          assert Answer(k, cache'[k].body, q.reply.value.at) in s.answers;
        } else {
          assert Answer(k, cache'[k].body, u) in s.answers && expires <= u + DAY + 2 * lag;
        }
      } else {
        assert Answer(k, cache'[k].body, v) in s.answers;
      }
      assert Answer(k, cache'[k].body, u) in s.answers && cache'[k].put - lag <= u;
    }
  }

  lemma PutKeeps(s: State, q: Req, expires: int, lag: int)
    requires CacheSound(s.cache, s.answers, lag, s.clock) && lag >= 0 && s.clock - q.started <= lag
    requires ReqSound(q, s.cache, s.answers, s.clock) && q.reply.Some? && q.reply.value.Full?
    requires expires <= s.clock + DAY
    ensures CacheSound(s.cache[q.key := Entry(q.reply.value.body, q.reply.value.etag, expires, s.clock)], s.answers,
                       lag, s.clock)
  {
    var e := Entry(q.reply.value.body, q.reply.value.etag, expires, s.clock);
    assert Answer(q.key, e.body, q.reply.value.at) in s.answers && e.put - lag <= q.reply.value.at;
    assert Backed(s.answers, q.key, e, lag) && Dated(s.answers, q.key, e, lag);
  }

  lemma FinishKeeps(s: State, r: ReqId, q: Req, ttl: Ttl, small: bool)
    requires Inv(s) && r in s.reqs && q == s.reqs[r] && q.reply.Some?
    ensures Inv(DoFinish(s, r, q, ttl, small))
  {
    hide CacheSound, ExpiresAt, Tagged, ServedSound;
    var s' := DoFinish(s, r, q, ttl, small);
    var lag := Max(s.slowest, s.clock - q.started);
    ExpiresWithinADay(ttl, s.clock);
    MoreIsSound(s, s.answers, lag, s.clock);
    assert ReqSound(q, s.cache, s.answers, s.clock);
    if q.reply.value.NotModified? {
      TouchKeeps(s, q, ExpiresAt(ttl, s.clock), lag);
    } else if q.reply.value.Full? {
      PutKeeps(s, q, ExpiresAt(ttl, s.clock), lag);
    }
    ServeKeeps(s, q, s'.served, s'.slowest);
  }

  lemma ServeKeeps(s: State, q: Req, served: set<Served>, lag: int)
    requires ServedSound(s.served, s.answers, lag) && ReqSound(q, s.cache, s.answers, s.clock) && q.reply.Some?
    requires forall v :: v in served && v !in s.served ==>
      match q.reply.value
      case NotModified(at) => q.cached.Some? && v == Served(q.key, q.cached.value.body, s.clock, FromOrigin(at))
      case Full(body, _, at) => v == Served(q.key, body, s.clock, FromOrigin(at))
      case _ => v.how.Stale?
    ensures ServedSound(served, s.answers, lag)
  {
    forall v | v in served
      ensures ServedOk(v, s.answers, lag)
    {
      if v in s.served {
        assert ServedOk(v, s.answers, lag);
      }
    }
  }

  lemma StepKeeps(s: State, e: Event, s': State)
    requires Inv(s) && Step(s, e) == Some(s')
    ensures Inv(s')
  {
    match e
    case Lookup(r, key) => hide Inv; LookupKeeps(s, r, key, s');
    case Replies(r, status) => hide Inv; ReplyKeeps(s, r, s.reqs[r], status);
    case Finish(r, ttl, small) => hide Inv; FinishKeeps(s, r, s.reqs[r], ttl, small);
    case Tick(_) => MoreIsSound(s, s.answers, s.slowest, s'.clock);
    case _ =>
  }

  lemma {:induction false} ReachableInv(es: seq<Event>, s: State)
    requires Run(es) == Some(s)
    ensures Inv(s)
  {
    hide Step, Inv;
    if es == [] {
      InitInv();
    } else {
      var r := Run(es[..|es| - 1]).value;
      ReachableInv(es[..|es| - 1], r);
      StepKeeps(r, es[|es| - 1], s);
    }
  }

  lemma InitInv()
    ensures Inv(INIT)
  {
  }

  /** Every get that reaches the origin and is not answered by a server error returns the body that the origin had when
      it replied, whatever happened to the cache between the lookup and the reply. */
  lemma OriginResult(es: seq<Event>, s: State, v: Served)
    requires Run(es) == Some(s) && v in s.served && v.how.FromOrigin?
    ensures Answer(v.key, v.body, v.how.asked) in s.answers
  {
    ReachableInv(es, s);
    assert ServedOk(v, s.answers, s.slowest);
  }

  /** An answer on record was the origin's body at its time. */
  lemma AnswersAreTrue(s: State, e: Event, s': State, a: Answer)
    requires Step(s, e) == Some(s') && a in s'.answers && a !in s.answers
    ensures a.at == s.clock && a.body == OriginBody(s, a.key)
  {
  }

  /** A body served without asking was the origin's within the last day, give or take twice the time that the slowest
      request has been open: once for the request that put it, once for one that extended it. */
  lemma FreshIsRecent(es: seq<Event>, s: State, v: Served)
    requires Run(es) == Some(s) && v in s.served && v.how.Fresh?
    ensures exists u :: Answer(v.key, v.body, u) in s.answers && v.at < u + DAY + 2 * s.slowest
  {
    ReachableInv(es, s);
    assert ServedOk(v, s.answers, s.slowest);
  }

  lemma Extend(es: seq<Event>, s: State, e: Event) returns (es': seq<Event>, s': State)
    requires Run(es) == Some(s) && Step(s, e).Some?
    ensures Run(es') == Some(s') && Step(s, e) == Some(s')
  {
    es', s' := es + [e], Step(s, e).value;
    assert es'[..|es|] == es;
  }

  const NO_TTL: Ttl := Ttl(Some(0.0), None, None)
  const DAY_TTL: Ttl := Ttl(Some(86_400.0), None, None)
  const OLD: Entry := Entry(0, Some(0), SECOND, SECOND)
  const NEWER: Entry := Entry(1, Some(1), 0, 0)

  lemma NoTtl(now: int)
    ensures ExpiresAt(NO_TTL, now) == now / SECOND * SECOND && ExpiresAt(DAY_TTL, now) == now / SECOND * SECOND + DAY
  {
    assert Clamp(0.0).Floor == 0 && Clamp(86_400.0).Floor == 86_400;
  }

  /** A slow request holds body 0; meanwhile the origin has moved on to body 1, which is stored. */
  lemma SlowRequest() returns (es: seq<Event>, s: State)
    ensures Run(es) == Some(s) && s.clock == 0 && s.slowest == 0 && s.origin == map[0 := 1]
    ensures s.cache == map[0 := NEWER]
    ensures s.reqs == map[0 := Req(0, 0, None, Some(Full(0, Some(0), 0)))]
    ensures s.answers == {Answer(0, 0, 0), Answer(0, 1, 0)}
  {
    hide ExpiresAt, Run;
    NoTtl(0);
    assert Run([]) == Some(INIT) by { RunEmpty(); }
    es, s := Extend([], INIT, Lookup(0, 0));
    es, s := Extend(es, s, Replies(0, Ok(true)));
    es, s := Extend(es, s, Change(0, 1));
    es, s := Extend(es, s, Lookup(1, 0));
    es, s := Extend(es, s, Replies(1, Ok(true)));
    es, s := Extend(es, s, Finish(1, NO_TTL, true));
  }

  lemma RunEmpty()
    ensures Run([]) == Some(INIT)
  {
  }

  /** A third request looks up body 1, and the slow one then puts body 0 over it. */
  lemma SlowPut() returns (es: seq<Event>, s: State)
    ensures Run(es) == Some(s) && s.clock == SECOND && s.slowest == SECOND && s.origin == map[0 := 1]
    ensures s.cache == map[0 := OLD]
    ensures s.reqs == map[2 := Req(0, SECOND, Some(NEWER), None)]
    ensures s.answers == {Answer(0, 0, 0), Answer(0, 1, 0)}
  {
    hide ExpiresAt, Run;
    NoTtl(SECOND);
    es, s := SlowRequest();
    es, s := Extend(es, s, Tick(SECOND));
    es, s := Extend(es, s, Lookup(2, 0));
    es, s := Extend(es, s, Finish(0, NO_TTL, true));
  }

  /** The 304 for body 1 now extends body 0. */
  lemma TouchOfAnother() returns (es: seq<Event>, s: State)
    ensures Run(es) == Some(s) && s.slowest == SECOND
    ensures Served(0, 0, 2 * SECOND + DAY - 1, Fresh) in s.served
    ensures forall u :: Answer(0, 0, u) in s.answers ==> u == 0
  {
    hide ExpiresAt, Run;
    NoTtl(2 * SECOND);
    es, s := SlowPut();
    es, s := Extend(es, s, Replies(2, Ok(true)));
    es, s := Extend(es, s, Tick(SECOND));
    es, s := Extend(es, s, Finish(2, DAY_TTL, true));
    es, s := Extend(es, s, Tick(DAY - 1));
    es, s := Extend(es, s, Lookup(3, 0));
  }

  ghost predicate FreshWithin(es: seq<Event>, k: int) {
    Run(es).Some? ==> forall v :: v in Run(es).value.served && v.how.Fresh? ==>
      exists u :: Answer(v.key, v.body, u) in Run(es).value.answers && v.at < u + DAY + k * Run(es).value.slowest
  }

  /** Twice, and no less: a 304 extends whatever body the key has by then. */
  lemma TwiceExact(k: int)
    ensures (forall es :: FreshWithin(es, k)) <==> k >= 2
  {
    hide Run;
    if k >= 2 {
      forall es
        ensures FreshWithin(es, k)
      {
        if Run(es).Some? {
          WithinMore(es, k);
        }
      }
    } else {
      var es, s := TouchOfAnother();
      assert !FreshWithin(es, k) by {
        assert Served(0, 0, 2 * SECOND + DAY - 1, Fresh) in s.served;
        assert k * SECOND <= SECOND;
      }
    }
  }

  lemma WithinMore(es: seq<Event>, k: int)
    requires Run(es).Some? && k >= 2
    ensures FreshWithin(es, k)
  {
    hide Run, Step;
    var s := Run(es).value;
    forall v | v in s.served && v.how.Fresh?
      ensures exists u :: Answer(v.key, v.body, u) in s.answers && v.at < u + DAY + k * s.slowest
    {
      FreshIsRecent(es, s, v);
      ReachableInv(es, s);
      var u :| Answer(v.key, v.body, u) in s.answers && v.at < u + DAY + 2 * s.slowest;
      assert 2 * s.slowest <= k * s.slowest;
    }
  }
}
