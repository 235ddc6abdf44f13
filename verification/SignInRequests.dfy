/**
 The requests of one character around a new sign-in: the liveness check, the choice of the runtime that the process
 keeps for the character, and the preview tokens spent through its guard.

 A request is served by the runtime of its process, which is rebuilt in place when a request of another session comes;
 what a preview is minted under, and what it can be spent under, is the session of the guard that is there by then.
 */
module SignInRequests {
  import opened Options

  type Sid = nat
  type ReqId = nat
  type Proc = nat
  type Token = nat

  datatype Stage = Checked | Resolved
  /** `quiet`: no request of an earlier session was still on its way to the runtime when this one got there. */
  datatype Req = Req(proc: Proc, sid: Sid, stage: Stage, quiet: bool)

  /** A preview spent: by a request of session `sid`, minted under session `minted`. */
  datatype Spend = Spend(r: ReqId, sid: Sid, minted: Sid, quiet: bool)

  datatype State = State(
    live: Option<Sid>,            // the unrevoked session, if there is one
    next: Sid,
    guard: map<Proc, Sid>,        // the session of the guard in each process
    reqs: map<ReqId, Req>,
    confirms: map<Token, Sid>,    // the session each preview was minted under
    spends: seq<Spend>
  )

  datatype Event =
    | SignIn
    | Revoke
    | Check(r: ReqId, proc: Proc, sid: Sid)
    | Resolve(r: ReqId)
    | Preview(r: ReqId, token: Token)
    | SpendToken(r: ReqId, token: Token)
    | End(r: ReqId)

  const INIT: State := State(None, 0, map[], map[], map[], [])

  /** No request of an earlier session has passed its check and not yet reached the runtime. */
  predicate Quiet(reqs: map<ReqId, Req>, proc: Proc, sid: Sid) {
    forall q :: q in reqs && reqs[q].proc == proc && reqs[q].stage == Checked ==> reqs[q].sid >= sid
  }

  function Step(s: State, e: Event): Option<State> {
    match e
    case SignIn => Some(s.(live := Some(s.next), next := s.next + 1))
    case Revoke => Some(s.(live := None))
    case Check(r, proc, sid) =>
      if r !in s.reqs && s.live == Some(sid)
      then Some(s.(reqs := s.reqs[r := Req(proc, sid, Checked, false)])) else None
    case Resolve(r) =>
      if r in s.reqs && s.reqs[r].stage == Checked then
        var q := s.reqs[r];
        Some(s.(guard := s.guard[q.proc := q.sid],
                reqs := s.reqs[r := Req(q.proc, q.sid, Resolved, Quiet(s.reqs, q.proc, q.sid))]))
      else None
    case Preview(r, token) =>
      if r in s.reqs && s.reqs[r].stage == Resolved && s.reqs[r].proc in s.guard && token !in s.confirms
      then Some(s.(confirms := s.confirms[token := s.guard[s.reqs[r].proc]])) else None
    case SpendToken(r, token) =>
      if r in s.reqs && s.reqs[r].stage == Resolved && s.reqs[r].proc in s.guard
         && token in s.confirms && s.confirms[token] == s.guard[s.reqs[r].proc]
      then Some(s.(confirms := s.confirms - {token},
                   spends := s.spends + [Spend(r, s.reqs[r].sid, s.confirms[token], s.reqs[r].quiet)]))
      else None
    case End(r) => if r in s.reqs then Some(s.(reqs := s.reqs - {r})) else None
  }

  function Run(es: seq<Event>): Option<State> {
    if es == [] then Some(INIT) else
    match Run(es[..|es| - 1])
    case None => None
    case Some(s) => Step(s, es[|es| - 1])
  }

  /** A request that came to the runtime in quiet finds a guard of its own session there, or of a later one; and every
      request still on its way there is of its session or a later one. */
  ghost predicate Settled(s: State, q: Req) {
    q.stage == Resolved && q.quiet ==> q.proc in s.guard && s.guard[q.proc] >= q.sid && Quiet(s.reqs, q.proc, q.sid)
  }

  ghost predicate Inv(s: State) {
    && (s.live.Some? ==> s.live.value < s.next)
    && (forall r :: r in s.reqs ==> s.reqs[r].sid < s.next && (s.live.Some? ==> s.reqs[r].sid <= s.live.value))
    && (s.live.Some? ==> s.live.value + 1 == s.next)
    && (forall r :: r in s.reqs && s.reqs[r].stage == Resolved ==> s.reqs[r].proc in s.guard)
    && (forall r :: r in s.reqs ==> Settled(s, s.reqs[r]))
    && (forall i :: 0 <= i < |s.spends| && s.spends[i].quiet ==> s.spends[i].minted >= s.spends[i].sid)
  }

  lemma CheckKeeps(s: State, r: ReqId, proc: Proc, sid: Sid, s': State)
    requires Inv(s) && Step(s, Check(r, proc, sid)) == Some(s')
    ensures Inv(s')
  {
    forall q | q in s'.reqs
      ensures Settled(s', s'.reqs[q])
    {
      if q in s.reqs && q != r {
        assert Settled(s, s.reqs[q]);
      }
    }
  }

  lemma ResolveKeeps(s: State, r: ReqId, s': State)
    requires Inv(s) && Step(s, Resolve(r)) == Some(s')
    ensures Inv(s')
  {
    forall q | q in s'.reqs
      ensures Settled(s', s'.reqs[q])
    {
      if q != r {
        assert Settled(s, s.reqs[q]);
      }
    }
  }

  lemma SpendKeeps(s: State, r: ReqId, token: Token, s': State)
    requires Inv(s) && Step(s, SpendToken(r, token)) == Some(s')
    ensures Inv(s')
  {
    assert Settled(s, s.reqs[r]);
    forall q | q in s'.reqs
      ensures Settled(s', s'.reqs[q])
    {
      assert Settled(s, s.reqs[q]);
    }
  }

  lemma StepKeeps(s: State, e: Event, s': State)
    requires Inv(s) && Step(s, e) == Some(s')
    ensures Inv(s')
  {
    match e
    case Check(r, proc, sid) => CheckKeeps(s, r, proc, sid, s');
    case Resolve(r) => ResolveKeeps(s, r, s');
    case SpendToken(r, token) => SpendKeeps(s, r, token, s');
    case _ =>
      forall q | q in s'.reqs
        ensures Settled(s', s'.reqs[q])
      {
        assert Settled(s, s.reqs[q]);
      }
  }

  lemma {:induction false} ReachableInv(es: seq<Event>, s: State)
    requires Run(es) == Some(s)
    ensures Inv(s)
  {
    if es != [] {
      var r := Run(es[..|es| - 1]).value;
      ReachableInv(es[..|es| - 1], r);
      StepKeeps(r, es[|es| - 1], s);
    }
  }

  /** A request can begin only under the newest session: the others are not live any more. */
  lemma BeginsUnderNewest(es: seq<Event>, s: State, r: ReqId, proc: Proc, sid: Sid)
    requires Run(es) == Some(s) && Step(s, Check(r, proc, sid)).Some?
    ensures sid + 1 == s.next && forall q :: q in s.reqs ==> s.reqs[q].sid <= sid
  {
    ReachableInv(es, s);
  }

  /** A request that reaches the runtime when no request of an earlier session is on its way there never spends a
      preview of an earlier session, whatever comes later. */
  lemma NoEarlierPreview(es: seq<Event>, s: State, v: Spend)
    requires Run(es) == Some(s) && v in s.spends && v.quiet
    ensures v.minted >= v.sid
  {
    ReachableInv(es, s);
  }

  /** A laggard: a request of an earlier session that passed its check before the sign-in puts the guard of that session
      back, and the later request can then spend what was minted under it. */
  lemma LaggardSpends(s: State, r: ReqId, q: ReqId, token: Token)
    requires r in s.reqs && s.reqs[r].stage == Resolved && q in s.reqs && s.reqs[q].stage == Checked
    requires s.reqs[q].proc == s.reqs[r].proc && s.reqs[q].sid < s.reqs[r].sid
    requires token in s.confirms && s.confirms[token] == s.reqs[q].sid
    ensures var s1 := Step(s, Resolve(q)); s1.Some? && var s2 := Step(s1.value, SpendToken(r, token));
      s2.Some? && |s2.value.spends| == |s.spends| + 1 && var v := s2.value.spends[|s.spends|];
      v.r == r && v.sid == s.reqs[r].sid && v.minted < v.sid
  {
  }

  lemma Extend(es: seq<Event>, s: State, e: Event) returns (es': seq<Event>, s': State)
    requires Run(es) == Some(s) && Step(s, e).Some?
    ensures Run(es') == Some(s') && Step(s, e) == Some(s')
  {
    es', s' := es + [e], Step(s, e).value;
    assert es'[..|es|] == es;
  }

  /** Session 0 previews and has another request on its way when session 1 begins. */
  lemma Laggard() returns (es: seq<Event>, s: State)
    ensures Run(es) == Some(s) && exists v :: v in s.spends && v.minted < v.sid
  {
    hide Run;
    assert Run([]) == Some(INIT) by { RunEmpty(); }
    es, s := Extend([], INIT, SignIn);
    es, s := Extend(es, s, Check(0, 0, 0));
    es, s := Extend(es, s, Resolve(0));
    es, s := Extend(es, s, Preview(0, 0));
    es, s := Extend(es, s, Check(1, 0, 0));
    es, s := Extend(es, s, SignIn);
    es, s := Extend(es, s, Check(2, 0, 1));
    es, s := Extend(es, s, Resolve(2));
    LaggardSpends(s, 2, 1, 0);
    ghost var n := |s.spends|;
    es, s := Extend(es, s, Resolve(1));
    es, s := Extend(es, s, SpendToken(2, 0));
    assert s.spends[n] in s.spends;
  }

  lemma RunEmpty()
    ensures Run([]) == Some(INIT)
  {
  }

  function RunFrom(s: State, es: seq<Event>): Option<State> {
    if es == [] then Some(s) else
    match RunFrom(s, es[..|es| - 1])
    case None => None
    case Some(m) => Step(m, es[|es| - 1])
  }

  /** The guard that the request would find now is of its own session or a later one, and no laggard of an earlier one
      can put another there. */
  ghost predicate Safe(s: State, proc: Proc, sid: Sid) {
    proc in s.guard && s.guard[proc] >= sid && Quiet(s.reqs, proc, sid)
  }

  /** From here on, before the request ends, it spends a preview of an earlier session. */
  ghost predicate SpendsEarlier(s: State, r: ReqId, es: seq<Event>) {
    && RunFrom(s, es).Some? && End(r) !in es
    && exists i :: |s.spends| <= i < |RunFrom(s, es).value.spends|
                   && var v := RunFrom(s, es).value.spends[i]; v.r == r && v.minted < v.sid
  }

  /** A step keeps an open request, keeps what is safe for it, and adds to its spends only what is not earlier. */
  lemma SafeStays(s: State, e: Event, s': State, r: ReqId)
    requires Inv(s) && Step(s, e) == Some(s') && e != End(r)
    requires r in s.reqs && s.reqs[r].stage == Resolved && Safe(s, s.reqs[r].proc, s.reqs[r].sid)
    ensures r in s'.reqs && s'.reqs[r] == s.reqs[r] && Safe(s', s.reqs[r].proc, s.reqs[r].sid)
    ensures s.spends <= s'.spends
    ensures forall i :: |s.spends| <= i < |s'.spends| && s'.spends[i].r == r ==> s'.spends[i].minted >= s'.spends[i].sid
  {
  }

  lemma {:induction false} SafeForEver(s: State, r: ReqId, es: seq<Event>)
    requires Inv(s) && r in s.reqs && s.reqs[r].stage == Resolved && Safe(s, s.reqs[r].proc, s.reqs[r].sid)
    requires RunFrom(s, es).Some? && End(r) !in es
    ensures var t := RunFrom(s, es).value;
      && Inv(t) && r in t.reqs && t.reqs[r] == s.reqs[r] && Safe(t, s.reqs[r].proc, s.reqs[r].sid)
      && s.spends <= t.spends
      && forall i :: |s.spends| <= i < |t.spends| && t.spends[i].r == r ==> t.spends[i].minted >= t.spends[i].sid
  {
    hide Step, Inv, Safe;
    if es != [] {
      var n := |es| - 1;
      var m := RunFrom(s, es[..n]).value;
      SafeForEver(s, r, es[..n]);
      SafeStays(m, es[n], RunFrom(s, es).value, r);
      StepKeeps(m, es[n], RunFrom(s, es).value);
    }
  }

  lemma Later(s: State, es: seq<Event>, m: State, e: Event, t: State)
    requires RunFrom(s, es) == Some(m) && Step(m, e) == Some(t)
    ensures RunFrom(s, es + [e]) == Some(t)
  {
    hide Step;
    assert (es + [e])[..|es|] == es;
  }

  lemma {:induction false} NewToken(used: set<Token>) returns (token: Token)
    ensures token !in used && forall t :: t in used ==> t < token
    decreases |used|
  {
    if |used| == 0 {
      token := 0;
    } else {
      var t :| t in used;
      var rest := NewToken(used - {t});
      token := if t < rest then rest else t + 1;
      assert forall u :: u in used ==> u == t || u in used - {t};
    }
  }

  /** Under a guard of an earlier session, a preview and its confirm are enough. */
  lemma SpendUnder(s: State, es: seq<Event>, m: State, r: ReqId) returns (es': seq<Event>)
    requires RunFrom(s, es) == Some(m) && End(r) !in es && m.spends == s.spends
    requires r in m.reqs && m.reqs[r].stage == Resolved && m.reqs[r].proc in m.guard
    requires m.guard[m.reqs[r].proc] < m.reqs[r].sid
    ensures SpendsEarlier(s, r, es')
  {
    hide RunFrom;
    var token := NewToken(m.confirms.Keys);
    var e1, e2 := Preview(r, token), SpendToken(r, token);
    var m1 := Step(m, e1).value;
    Later(s, es, m, e1, m1);
    var m2 := Step(m1, e2).value;
    Later(s, es + [e1], m1, e2, m2);
    es' := es + [e1] + [e2];
    assert m2.spends[|s.spends|].r == r;
  }

  /** Exactly when a request that has reached its runtime may still spend a preview of an earlier session before it
      ends: the guard there is of an earlier session by now, or a request of an earlier session is on its way to it. */
  lemma VoidExact(before: seq<Event>, s: State, r: ReqId)
    requires Run(before) == Some(s) && r in s.reqs && s.reqs[r].stage == Resolved
    ensures (exists es :: SpendsEarlier(s, r, es)) <==>
      || (s.reqs[r].proc in s.guard && s.guard[s.reqs[r].proc] < s.reqs[r].sid)
      || (exists q :: q in s.reqs && s.reqs[q].proc == s.reqs[r].proc
                      && s.reqs[q].stage == Checked && s.reqs[q].sid < s.reqs[r].sid)
  {
    ReachableInv(before, s);
    var proc, sid := s.reqs[r].proc, s.reqs[r].sid;
    assert RunFrom(s, []) == Some(s);
    if s.guard[proc] < sid {
      var es := SpendUnder(s, [], s, r);
    } else if q :| q in s.reqs && s.reqs[q].proc == proc && s.reqs[q].stage == Checked && s.reqs[q].sid < sid {
      var m := Step(s, Resolve(q)).value;
      Later(s, [], s, Resolve(q), m);
      var es := SpendUnder(s, [] + [Resolve(q)], m, r);
    } else {
      forall es
        ensures !SpendsEarlier(s, r, es)
      {
        if RunFrom(s, es).Some? && End(r) !in es {
          SafeForEver(s, r, es);
        }
      }
    }
  }

  /** Of a request that reaches the runtime: it may come to spend an earlier preview exactly when it was not quiet. */
  lemma QuietExact(before: seq<Event>, s: State, r: ReqId, s': State)
    requires Run(before) == Some(s) && Step(s, Resolve(r)) == Some(s')
    ensures (exists es :: SpendsEarlier(s', r, es)) <==> !s'.reqs[r].quiet
  {
    hide Run, SpendsEarlier;
    var after, t := Extend(before, s, Resolve(r));
    VoidExact(after, s', r);
    if !s'.reqs[r].quiet {
      var proc, sid := s.reqs[r].proc, s.reqs[r].sid;
      var q :| q in s.reqs && s.reqs[q].proc == proc && s.reqs[q].stage == Checked && s.reqs[q].sid < sid;
      assert s'.reqs[q] == s.reqs[q];
    }
  }

  /** A request of the live session that goes about its business undisturbed can spend what it previews: it passes its
      check, finds a guard of its own session, and its preview is minted and spent under that session. */
  lemma LiveSpends(s: State, r: ReqId, proc: Proc, sid: Sid, token: Token)
    requires s.live == Some(sid) && r !in s.reqs && token !in s.confirms
    ensures var s1 := Step(s, Check(r, proc, sid));
      && s1.Some?
      && var s2 := Step(s1.value, Resolve(r));
      && s2.Some? && proc in s2.value.guard && s2.value.guard[proc] == sid
      && var s3 := Step(s2.value, Preview(r, token));
      && s3.Some? && token in s3.value.confirms && s3.value.confirms[token] == sid
      && var s4 := Step(s3.value, SpendToken(r, token));
      && s4.Some? && token !in s4.value.confirms
      && |s4.value.spends| == |s.spends| + 1
      && s4.value.spends[|s.spends|].sid == sid && s4.value.spends[|s.spends|].minted == sid
  {
  }
}
