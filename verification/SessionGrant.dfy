/** Exchange of a code, logout, and the refresh of an EVE access token, statement by statement over the store. */
module SessionGrant {
  import opened Options
  import opened SessionProtocol
  import opened GrantCustody
  import opened CustodySteps
  import opened SessionTheorems
  import opened SessionStore

  const REFRESH_MARGIN: int := 60 * SECOND

  /** The two guards of the exchange: the redirect address, when the client sends one, and PKCE (section 4.6 of
      RFC 7636). */
  predicate BindingOk(binding: Binding, redirect: Option<nat>, verifier: Option<nat>, s256: nat -> nat) {
    && (redirect.Some? ==> redirect.value == binding.redirect)
    && binding.challenge.Some? && verifier.Some? && s256(verifier.value) == binding.challenge.value
  }

  /** What the rows it names have handed back is exactly its tokens, row by row, and nothing else has been handed back
      since `was`. */
  ghost predicate HandedOver(out: Revoked, was: map<Origin, Token>, handed: map<Origin, Token>) {
    && |out.ids| == |out.tokens|
    && (forall i :: 0 <= i < |out.ids| ==>
        FromSession(out.ids[i]) in handed && handed[FromSession(out.ids[i])] == out.tokens[i])
    && (forall o :: o in handed && o !in was ==> o.FromSession? && o.sid in out.ids)
  }

  lemma AnswersHandedOver(out: Revoked, ids: set<Sid>, sess: Rows, was: map<Origin, Token>, handed: map<Origin, Token>)
    requires Answers(out, ids, sess) && HandedFrom(was, handed, sess, ids)
    ensures HandedOver(out, was, handed)
  {
    assert forall i :: 0 <= i < |out.ids| ==> out.ids[i] in ids;
  }

  /** The answer is the unrevoked sessions of the character, each once, and beside each the token its row held. */
  ghost predicate Superseded(out: Revoked, sess: Rows, character: int) {
    && (forall i, j :: 0 <= i < j < |out.ids| ==> out.ids[i] != out.ids[j])
    && (forall id :: id in out.ids <==>
        id in sess && sess[id].revokedAt.None? && sess[id].character == character)
    && |out.tokens| == |out.ids|
    && (forall i :: 0 <= i < |out.ids| ==> out.ids[i] in sess && sess[out.ids[i]].token == Some(out.tokens[i]))
  }

  lemma AnswersSupersede(out: Revoked, sess: Rows, character: int)
    requires Answers(out, UnrevokedOf(sess, character), sess)
    ensures Superseded(out, sess, character)
  {
  }

  /** The sessions named were revoked between `lo` and `hi` and hold no token any more; every other one is as it was. */
  ghost predicate Retired(sess: Rows, sess': Rows, ids: seq<Sid>, lo: int, hi: int) {
    forall id :: id in sess ==>
      && id in sess'
      && (id !in ids ==> sess'[id] == sess[id])
      && (id in ids ==>
          && sess'[id].character == sess[id].character && sess'[id].validTil == sess[id].validTil
          && sess'[id].token.None? && sess'[id].revokedAt.Some? && lo <= sess'[id].revokedAt.value <= hi)
  }

  lemma AnswersRetire(out: Revoked, ids: set<Sid>, sess: Rows, sess': Rows, at: int)
    requires Answers(out, ids, sess) && RevokedAt(sess, sess', ids, at)
    ensures Retired(sess, sess', out.ids, at, at)
  {
  }

  lemma RetiredWithin(sess: Rows, sess': Rows, ids: seq<Sid>, lo: int, hi: int, lo': int, hi': int)
    requires Retired(sess, sess', ids, lo, hi) && lo' <= lo && hi <= hi'
    ensures Retired(sess, sess', ids, lo', hi')
  {
  }

  /** Where refresh tokens are revoked at CCP.  Its answer is ignored. */
  class Revocations {
    var asked: seq<Token>

    constructor ()
      ensures asked == []
    {
      asked := [];
    }

    method Revoke(token: Token)
      modifies this
      ensures asked == old(asked) + [token]
    {
      asked := asked + [token];
    }

    method RevokeAll(tokens: seq<Token>)
      modifies this
      ensures asked == old(asked) + tokens
    {
      for i := 0 to |tokens|
        invariant asked == old(asked) + tokens[..i]
      {
        Revoke(tokens[i]);
        assert tokens[..i + 1] == tokens[..i] + [tokens[i]];
      }
      assert tokens[..|tokens|] == tokens;
    }
  }

  method EndCall(store: Store, t: TxId)
    requires store.Valid() && t in store.txs
    modifies store
    ensures store.Valid() && t !in store.txs && old(store.trace) <= store.trace && old(store.clock) <= store.clock
    ensures store.nextId >= old(store.nextId)
    ensures t in store.committed <==> t in old(store.committed)
    ensures store.SameFor(t)
  {
    hide Run, Step;
    store.Yield(t);
    store.RollbackTx(t);
  }

  /** BEGIN and LockCharacter, with whatever the others do in between. */
  method BeginLocked(store: Store, t: TxId) returns (failed: bool)
    requires store.Valid() && t in store.txs && store.txs[t].Redeeming? && store.txs[t].stage == Fetched
    modifies store
    ensures store.Valid() && (t in store.committed <==> t in old(store.committed))
    ensures old(store.trace) <= store.trace && old(store.clock) <= store.clock
    ensures if failed then t !in store.txs else
      && t in store.txs && store.txs[t].Redeeming?
      && store.txs[t] == old(store.txs)[t].To(Locked, store.txs[t].began, {})
      && old(store.clock) <= store.txs[t].began <= store.clock
    ensures store.FaultsOf(t) == old(store.FaultsOf(t)) + if failed then 1 else 0
  {
    hide Run, Step;
    store.Yield(t);
    store.BeginRedeem(t);
    store.Yield(t);
    failed := store.LockCharacter(t);
    if failed {
      EndCall(store, t);
    }
  }

  /** Take under that lock; `looked` is the database in which it looked for the code. */
  method LockAndTake(store: Store, t: TxId) returns (failure: Option<Failure>, ghost looked: State)
    requires store.Valid() && t in store.txs && store.txs[t].Redeeming? && store.txs[t].stage == Fetched
    modifies store
    ensures store.Valid() && (t in store.committed <==> t in old(store.committed))
    ensures old(store.trace) <= store.trace
    ensures failure.Some? ==> t !in store.txs
    ensures failure.None? ==>
      && t in store.txs && store.txs[t].Redeeming? && store.txs[t].stage == Taken
      && store.txs[t].code == old(store.txs)[t].code && store.txs[t].parked == old(store.txs)[t].parked
      && old(store.clock) <= store.txs[t].began <= store.clock
    ensures failure.Some? ==> failure == Some(Unavailable) || failure == Some(NotFound)
    ensures failure != Some(Unavailable) ==>
      && Passed(old(store.trace), store.trace, looked)
      && var code := old(store.txs)[t].code;
        failure.None? <==> code in looked.codes && looked.clock <= looked.codes[code].expires
    ensures store.FaultsOf(t) == old(store.FaultsOf(t)) + if failure == Some(Unavailable) then 1 else 0
  {
    hide Run, Step, Passed;
    looked := store.Snapshot();
    var failed := BeginLocked(store, t);
    if failed {
      failure := Some(Unavailable);
      return;
    }
    store.Yield(t);
    looked := store.Snapshot();
    ghost var es := store.trace;
    PassesNow(old(store.trace), es, looked);
    var found;
    failed, found := store.Take(t);
    if failed || !found {
      EndCall(store, t);
      failure := Some(if failed then Unavailable else NotFound);
    } else {
      failure := None;
    }
    StaysPassed(old(store.trace), old(store.trace), es, store.trace, looked);
  }

  /** The end of the exchange: the predecessors revoked, the new session created, and the commit, which finds `pre`. */
  method Replace(store: Store, t: TxId) returns (failed: bool, session: Sid, revoked: Revoked, ghost pre: State)
    requires store.Valid() && t in store.txs && store.txs[t].Redeeming? && store.txs[t].stage == Taken
    modifies store
    ensures store.Valid() && t !in store.txs && old(store.trace) <= store.trace && old(store.clock) <= store.clock
    ensures store.FaultsOf(t) == old(store.FaultsOf(t)) + if failed then 1 else 0
    ensures failed ==> (t in store.committed <==> t in old(store.committed))
    ensures !failed ==> EndsWithCommit(old(store.trace), store.trace, t, pre) && session == pre.nextId
    ensures !failed ==> var tx := old(store.txs)[t];
      && tx.code in store.fate && store.fate[tx.code] == Redeemed(session) && tx.code !in store.codes
      && SucceedsTo(store.sess, session, tx.parked) && session in store.sess
      && store.sess[session].validTil == tx.began + LIFETIME
      && Superseded(revoked, pre.sess, tx.parked.character) && HandedOver(revoked, pre.handed, store.handed)
      && Retired(pre.sess, store.sess, revoked.ids, tx.began, tx.began)
  {
    hide Run, Step, HandedOver, Superseded, Answers, HandedFrom, UnrevokedOf, RevokedAt, Retired;
    pre, session := store.Snapshot(), 0;
    store.Yield(t);
    failed, revoked := store.Revoke(t);
    if failed {
      EndCall(store, t);
      return;
    }
    ghost var doomed, sess := store.txs[t].doomed, store.sess;
    store.Yield(t);
    AnswersStay(revoked, doomed, sess, store.sess);
    pre := store.Snapshot();
    ghost var es := store.trace;
    session := store.nextId;
    failed := store.CommitTx(t);
    if !failed {
      CommitRedeems(es, pre, t, store.Snapshot());
      CommitRetires(es, pre, t, store.Snapshot());
      AnswersSupersede(revoked, pre.sess, pre.txs[t].parked.character);
      AnswersHandedOver(revoked, doomed, pre.sess, pre.handed, store.handed);
      AnswersRetire(revoked, doomed, pre.sess, store.sess, pre.txs[t].began);
    }
  }

  lemma StartsEarlier(from: seq<Event>, from': seq<Event>, es: seq<Event>, t: TxId, pre: State)
    requires from <= from' && EndsWithCommit(from', es, t, pre)
    ensures EndsWithCommit(from, es, t, pre)
  {
  }

  /** The last event since `from` is the commit of `t`, and `pre` is the database it meets. */
  ghost predicate EndsWithCommit(from: seq<Event>, es: seq<Event>, t: TxId, pre: State) {
    var n := |es| - 1;
    |from| <= n && es[n] == Commit(t) && Run(es[..n]) == Some(pre)
  }

  /** The code can be exchanged: it is parked and in date, it was bound to this redirect address if the client names
      one, and to the hash of this verifier. */
  ghost predicate Exchangeable(
      codes: Codes, now: int, code: Code, redirect: Option<nat>, verifier: Option<nat>, s256: nat -> nat)
  {
    && code in codes && now <= codes[code].expires
    && (redirect.None? || redirect == Some(codes[code].binding.redirect))
    && verifier.Some? && codes[code].binding.challenge == Some(s256(verifier.value))
  }

  /** The SELECT of the code, and the two guards. */
  method FetchBound(store: Store, t: TxId, code: Code, redirect: Option<nat>, verifier: Option<nat>, s256: nat -> nat)
    returns (failed: bool, row: Option<CodeRow>)
    requires store.Valid() && t !in store.txs
    modifies store
    ensures store.Valid() && old(store.trace) <= store.trace && (t in store.committed <==> t in old(store.committed))
    ensures old(store.clock) <= store.clock
    ensures store.FaultsOf(t) == old(store.FaultsOf(t)) + if failed then 1 else 0
    ensures failed ==> row.None?
    ensures row.None? ==> t !in store.txs
    ensures !failed ==>
      (row.Some? <==> Exchangeable(old(store.codes), old(store.clock), code, redirect, verifier, s256))
    ensures row.Some? ==>
      && old(store.codes)[code] == row.value
      && t in store.txs && store.txs[t] == Redeeming(Fetched, code, row.value, 0, {})
  {
    hide Run, Step;
    failed, row := store.GetCode(t, code);
    if row.Some? && !BindingOk(row.value.binding, redirect, verifier, s256) {
      EndCall(store, t);
      row := None;
    }
  }

  /** The exchange of a code the client has presented.  `pre` is the database its commit meets, or, when the code was
      not found any more, the one in which it was looked for. */
  method ExchangeCode(
      store: Store, ccp: Revocations, t: TxId, code: Code, redirect: Option<nat>, verifier: Option<nat>,
      s256: nat -> nat)
    returns (r: Result<Exchanged>, ghost pre: State)
    requires store.Valid() && t !in store.txs
    modifies store, ccp
    ensures store.Valid() && t !in store.txs && old(store.trace) <= store.trace
    // it fails for the code, the binding or the database alone, and then nothing of it is committed
    ensures r.Err? ==> (t in store.committed <==> t in old(store.committed)) && ccp.asked == old(ccp.asked)
    ensures r == Err(Unavailable) <==> store.FaultsOf(t) > old(store.FaultsOf(t))
    ensures r != Err(Unavailable) ==>
      (r == Err(InvalidGrant) <==>
       !Exchangeable(old(store.codes), old(store.clock), code, redirect, verifier, s256))
    ensures r == Err(NotFound) ==>
      && Passed(old(store.trace), store.trace, pre)
      && !(code in pre.codes && pre.clock <= pre.codes[code].expires)
    // it succeeds by one commit
    ensures r.Ok? ==>
      && EndsWithCommit(old(store.trace), store.trace, t, pre)
      && r.value.session == pre.nextId && code in old(store.codes) && r.value.parked == old(store.codes)[code]
    // the code is spent on the new session, the only one of its character from here on, for thirty days
    ensures r.Ok? ==>
      && code in store.fate && store.fate[code] == Redeemed(r.value.session) && code !in store.codes
      && SucceedsTo(store.sess, r.value.session, r.value.parked)
      && old(store.clock) <= store.sess[r.value.session].validTil - 2_592_000_000_000 <= store.clock
    // its predecessors are answered with the tokens they held, and each of these is revoked at CCP
    ensures r.Ok? ==>
      && Superseded(r.value.revoked, pre.sess, r.value.parked.character)
      && Retired(pre.sess, store.sess, r.value.revoked.ids, old(store.clock), store.clock)
      && HandedOver(r.value.revoked, pre.handed, store.handed)
      && ccp.asked == old(ccp.asked) + r.value.revoked.tokens
  {
    hide Run, Step, SucceedsTo, HandedOver, Superseded, Passed, EndsWithCommit, Retired;
    pre := store.Snapshot();
    var failed, row := FetchBound(store, t, code, redirect, verifier, s256);
    if row.None? {
      r := Err(if failed then Unavailable else InvalidGrant);
      return;
    }
    var failure;
    ghost var fetched := store.trace;
    failure, pre := LockAndTake(store, t);
    if failure.Some? {
      if failure == Some(NotFound) {
        StaysPassed(old(store.trace), fetched, store.trace, store.trace, pre);
      }
      r := Err(failure.value);
      return;
    }
    var session, revoked;
    ghost var taken, began := store.trace, store.txs[t].began;
    failed, session, revoked, pre := Replace(store, t);
    if failed {
      r := Err(Unavailable);
      return;
    }
    StartsEarlier(old(store.trace), taken, store.trace, t, pre);
    RetiredWithin(pre.sess, store.sess, revoked.ids, began, began, old(store.clock), store.clock);
    ccp.RevokeAll(revoked.tokens);
    r := Ok(Exchanged(session, row.value, revoked));
  }

  /** Logout of session `sid`.  `pre` is the database its commit meets. */
  method Logout(store: Store, ccp: Revocations, t: TxId, sid: Sid, character: int)
    returns (r: Result<Revoked>, ghost pre: State)
    requires store.Valid() && t !in store.txs
    modifies store, ccp
    ensures store.Valid() && t !in store.txs && old(store.trace) <= store.trace
    ensures r.Err? ==> (t in store.committed <==> t in old(store.committed)) && ccp.asked == old(ccp.asked)
    ensures if r.Err? then r == Err(Unavailable) && store.FaultsOf(t) > old(store.FaultsOf(t))
            else store.FaultsOf(t) == old(store.FaultsOf(t))
    ensures r.Ok? ==> EndsWithCommit(old(store.trace), store.trace, t, pre)
    // the session is revoked, whoever revoked it, and every other one is as it was
    ensures r.Ok? && sid < old(store.nextId) ==> !Unrevoked(store.sess, sid)
    ensures r.Ok? ==> Retired(pre.sess, store.sess, r.value.ids, old(store.clock), store.clock)
    // its token is answered, handed back and revoked at CCP exactly when this call revoked it
    ensures r.Ok? && sid < old(store.nextId) ==> AnswersOne(r.value, pre.sess, sid)
    ensures r.Ok? ==>
      HandedOver(r.value, pre.handed, store.handed) && ccp.asked == old(ccp.asked) + r.value.tokens
  {
    hide Run, Step, HandedOver, EndsWithCommit, AnswersOne, Retired;
    pre := store.Snapshot();
    var failed, revoked := BeginAndRevoke(store, t, sid, character);
    if failed {
      r := Err(Unavailable);
      return;
    }
    ghost var answered, began := store.trace, store.txs[t].began;
    failed, pre := CommitLogout(store, t, revoked);
    if failed {
      r := Err(Unavailable);
      return;
    }
    StartsEarlier(old(store.trace), answered, store.trace, t, pre);
    RetiredWithin(pre.sess, store.sess, revoked.ids, began, began, old(store.clock), store.clock);
    ccp.RevokeAll(revoked.tokens);
    r := Ok(revoked);
  }

  /** The session and its token, if it was unrevoked, and nothing otherwise. */
  ghost predicate AnswersOne(out: Revoked, sess: Rows, sid: Sid) {
    if sid in sess && sess[sid].revokedAt.None? then
      out.ids == [sid] && |out.tokens| == 1 && sess[sid].token == Some(out.tokens[0])
    else out == Revoked([], [])
  }

  method BeginLogoutLocked(store: Store, t: TxId, sid: Sid, character: int) returns (failed: bool)
    requires store.Valid() && t !in store.txs
    modifies store
    ensures store.Valid() && old(store.trace) <= store.trace && (t in store.committed <==> t in old(store.committed))
    ensures store.nextId >= old(store.nextId)
    ensures store.FaultsOf(t) == old(store.FaultsOf(t)) + if failed then 1 else 0
    ensures if failed then t !in store.txs else
      && t in store.txs && store.txs[t].LoggingOut? && store.txs[t].sid == sid && store.txs[t].stage == Locked
      && old(store.clock) <= store.txs[t].began <= store.clock
  {
    hide Run, Step;
    store.BeginLogout(t, sid, character);
    store.Yield(t);
    failed := store.LockCharacter(t);
    if failed {
      EndCall(store, t);
    }
  }

  /** BEGIN, LockCharacter and the revoke of a logout: the row is revoked and its token read, or it is revoked
      already. */
  method BeginAndRevoke(store: Store, t: TxId, sid: Sid, character: int) returns (failed: bool, revoked: Revoked)
    requires store.Valid() && t !in store.txs
    modifies store
    ensures store.Valid() && old(store.trace) <= store.trace && (t in store.committed <==> t in old(store.committed))
    ensures store.nextId >= old(store.nextId)
    ensures store.FaultsOf(t) == old(store.FaultsOf(t)) + if failed then 1 else 0
    ensures if failed then t !in store.txs else
      && t in store.txs && LogoutAnswered(store, t, sid, revoked)
      && old(store.clock) <= store.txs[t].began <= store.clock
  {
    hide Run, Step, Answers, UnrevokedOf;
    revoked := Revoked([], []);
    failed := BeginLogoutLocked(store, t, sid, character);
    if failed {
      return;
    }
    store.Yield(t);
    failed, revoked := store.Revoke(t);
    if failed {
      EndCall(store, t);
    }
  }

  /** The logout of `sid` has revoked its row, if it was not revoked, and `revoked` answers for it. */
  ghost predicate LogoutAnswered(store: Store, t: TxId, sid: Sid, revoked: Revoked)
    reads store
    requires t in store.txs
  {
    var tx := store.txs[t];
    && tx.LoggingOut? && tx.stage == Doomed && tx.sid == sid && Answers(revoked, tx.doomed, store.sess)
    && tx.doomed == if Unrevoked(store.sess, sid) then {sid} else {}
  }

  method CommitLogout(store: Store, t: TxId, revoked: Revoked) returns (failed: bool, ghost pre: State)
    requires store.Valid() && t in store.txs && store.txs[t].LoggingOut?
    requires LogoutAnswered(store, t, store.txs[t].sid, revoked)
    modifies store
    ensures store.Valid() && t !in store.txs && old(store.trace) <= store.trace && old(store.clock) <= store.clock
    ensures store.FaultsOf(t) == old(store.FaultsOf(t)) + if failed then 1 else 0
    ensures failed ==> (t in store.committed <==> t in old(store.committed))
    ensures !failed ==> var sid, began := old(store.txs)[t].sid, old(store.txs)[t].began;
      && EndsWithCommit(old(store.trace), store.trace, t, pre)
      && Retired(pre.sess, store.sess, revoked.ids, began, began) && HandedOver(revoked, pre.handed, store.handed)
      && (sid < old(store.nextId) ==> !Unrevoked(store.sess, sid) && AnswersOne(revoked, pre.sess, sid))
  {
    hide Run, Step, HandedOver, HandedFrom, Answers, AnswersOne, RevokedAt, Retired;
    ghost var sid, doomed, sess := store.txs[t].sid, store.txs[t].doomed, store.sess;
    assert sid < store.nextId ==> sid in doomed || Gone(store.sess, store.nextId, sid);
    store.Yield(t);
    AnswersStay(revoked, doomed, sess, store.sess);
    pre := store.Snapshot();
    ghost var es := store.trace;
    failed := store.CommitTx(t);
    if !failed {
      CommitLogsOut(es, pre, t, store.Snapshot());
      AnswersHandedOver(revoked, doomed, pre.sess, pre.handed, store.handed);
      AnswersRetire(revoked, doomed, pre.sess, store.sess, pre.txs[t].began);
      if sid < old(store.nextId) {
        AnswerOfOne(revoked, sid, pre.sess, doomed);
      }
    }
  }

  lemma AnswerOfOne(out: Revoked, sid: Sid, sess: Rows, ids: set<Sid>)
    requires Answers(out, ids, sess) && ids <= {sid} && (sid in ids <==> Unrevoked(sess, sid))
    ensures AnswersOne(out, sess, sid)
  {
    forall i | 0 <= i < |out.ids|
      ensures out.ids[i] == sid
    {
      assert out.ids[i] in ids;
    }
    assert sid in ids ==> sid in out.ids;
    if out.ids != [] {
      assert out.ids[0] in ids && out.ids[|out.ids| - 1] == out.ids[0];
    }
  }

  /** What the process remembers of a session's grant. */
  class GrantState {
    var refresh: Option<Token>
    var access: Option<nat>
    var expiry: int

    constructor ()
      ensures refresh.None? && access.None?
    {
      refresh, access, expiry := None, None, 0;
    }

    /** There is an access token with a minute to go. */
    predicate Live(now: int)
      reads this
    {
      access.Some? && now <= expiry - REFRESH_MARGIN
    }

    /** The token of a minute and more to live is live, and no other. */
    lemma LiveIs(now: int)
      ensures Live(now) <==> access.Some? && now + 60_000_000 <= expiry
    {
    }

    method Set(token: Token, access: nat, expiry: int)
      modifies this
      ensures refresh == Some(token) && this.access == Some(access) && this.expiry == expiry
    {
      refresh, this.access, this.expiry := Some(token), Some(access), expiry;
    }
  }

  /** An access token for the session.  A cached one with a minute to go costs no statement.  After a refresh the
      process remembers exactly the token the row holds.  A failed call leaves no transaction open, and the session is
      revoked when CCP says invalid_grant, and for nothing else. */
  method EveAccess(store: Store, grant: GrantState, t: TxId, sid: Sid) returns (r: Result<nat>)
    requires store.Valid() && t !in store.txs
    modifies store, grant
    ensures store.Valid() && t !in store.txs && old(store.trace) <= store.trace
    ensures r.Ok? ==> grant.access == Some(r.value)
    ensures old(grant.access).Some? && old(store.clock) + 60_000_000 <= old(grant.expiry) ==>
      r == Ok(old(grant.access).value) && store.trace == old(store.trace) && grant.refresh == old(grant.refresh)
    ensures r.Ok? && !(old(grant.access).Some? && old(store.clock) + 60_000_000 <= old(grant.expiry)) ==>
      && grant.refresh.Some? && sid in store.sess && store.sess[sid].token == grant.refresh
      && store.sess[sid].revokedAt.None? && old(store.clock) < store.sess[sid].validTil
      && store.trace != [] && store.trace[|store.trace| - 1] == Commit(t)
    ensures r.Err? ==> (t in store.committed <==> t in old(store.committed))
    ensures r == Err(NotFound) ==>
      !(sid in store.sess && store.sess[sid].revokedAt.None? && store.clock < store.sess[sid].validTil)
    ensures r == Err(Unavailable) ==> store.FaultsOf(t) > old(store.FaultsOf(t))
    ensures t in store.denied <==> t in old(store.denied) || r == Err(InvalidGrant)
    ensures t in store.revokers <==> t in old(store.revokers) || r == Err(InvalidGrant)
    ensures r == Err(InvalidGrant) ==> !Unrevoked(store.sess, sid) || store.FaultsOf(t) > old(store.FaultsOf(t))
  {
    hide Run, Step, Gone, UnrevokedOf, SameRow;
    if grant.Live(store.clock) {
      return Ok(grant.access.value);
    }
    var expected := grant.refresh;
    if expected.None? && Unrevoked(store.sess, sid) && store.clock < store.sess[sid].validTil {
      expected := store.sess[sid].token;
    }
    var failed, row := LockRow(store, t, sid);
    if row.None? {
      return Err(if failed then Unavailable else NotFound);
    }
    var access, invalid := UnderLock(store, grant, t, expected);
    if access.None? {
      Drop(store, t, sid, invalid);
      return Err(if invalid then InvalidGrant else Unavailable);
    }
    failed := CommitRefresh(store, t);
    return if failed then Err(Unavailable) else Ok(access.value);
  }

  /** BEGIN, and the row locked and read again, some time later. */
  method LockRow(store: Store, t: TxId, sid: Sid) returns (failed: bool, row: Option<Token>)
    requires store.Valid() && t !in store.txs
    modifies store
    ensures store.Valid() && old(store.trace) <= store.trace && (t in store.committed <==> t in old(store.committed))
    ensures (t in store.denied <==> t in old(store.denied)) && (t in store.revokers <==> t in old(store.revokers))
    ensures store.FaultsOf(t) == old(store.FaultsOf(t)) + if failed then 1 else 0
    ensures failed ==> row.None?
    ensures row.None? ==> t !in store.txs
    ensures row.None? && !failed ==> !Live(store.sess, sid, store.clock)
    ensures row.Some? ==> t in store.txs && store.txs[t] == Refreshing(sid, row.value, None)
    ensures row.Some? ==> Live(store.sess, sid, old(store.clock))
  {
    hide Run, Step, Gone, UnrevokedOf;
    store.Yield(t);
    var began := store.clock;
    store.Yield(t);
    failed, row := store.LockForRefresh(t, sid, began);
    if row.Some? {
      store.Yield(t);
    }
  }

  /** The refresh has failed: nothing stays open, and on invalid_grant the session is revoked. */
  method Drop(store: Store, t: TxId, sid: Sid, invalid: bool)
    requires store.Valid() && t in store.txs
    modifies store
    ensures store.Valid() && t !in store.txs && old(store.trace) <= store.trace
    ensures (t in store.committed <==> t in old(store.committed)) && (t in store.denied <==> t in old(store.denied))
    ensures t in store.revokers <==> t in old(store.revokers) || invalid
    ensures store.FaultsOf(t) >= old(store.FaultsOf(t))
    ensures invalid ==> !Unrevoked(store.sess, sid) || store.FaultsOf(t) > old(store.FaultsOf(t))
  {
    hide Run, Step, Gone, UnrevokedOf, SameRow;
    EndCall(store, t);
    if invalid {
      store.Yield(t);
      var _ := store.RevokeOne(t, sid);
    }
  }

  method CommitRefresh(store: Store, t: TxId) returns (failed: bool)
    requires store.Valid() && t in store.txs && store.txs[t].Refreshing? && store.txs[t].next.Some?
    modifies store
    ensures store.Valid() && t !in store.txs && old(store.trace) <= store.trace
    ensures (t in store.denied <==> t in old(store.denied)) && (t in store.revokers <==> t in old(store.revokers))
    ensures store.FaultsOf(t) == old(store.FaultsOf(t)) + if failed then 1 else 0
    ensures failed ==> (t in store.committed <==> t in old(store.committed))
    ensures !failed ==> var tx := old(store.txs)[t];
      && tx.sid in old(store.sess) && tx.sid in store.sess
      && store.sess[tx.sid] == old(store.sess)[tx.sid].(token := tx.next)
      && store.trace != [] && store.trace[|store.trace| - 1] == Commit(t)
  {
    hide Run, Step, Gone, UnrevokedOf;
    RefreshingRow(store.trace, store.Snapshot(), t);
    store.Yield(t);
    RefreshingRow(store.trace, store.Snapshot(), t);
    failed := store.CommitTx(t);
  }

  /** The callback that runs under the row lock.  When another replica has rotated the token meanwhile, the row's token
      is taken over, and an access token that is still good is enough; else the SSO is asked. */
  method UnderLock(store: Store, grant: GrantState, t: TxId, expected: Option<Token>)
    returns (access: Option<nat>, invalid: bool)
    requires store.Valid() && t in store.txs && store.txs[t].Refreshing? && store.txs[t].next.None?
    modifies store, grant
    ensures store.Valid() && t in store.txs && (t in store.committed <==> t in old(store.committed))
    ensures old(store.trace) <= store.trace
    ensures access.None? ==> store.txs[t] == old(store.txs)[t]
    ensures access.Some? ==>
      && grant.access == access && grant.refresh.Some?
      && store.txs[t] == old(store.txs)[t].Answered(grant.refresh.value)
    ensures store.clock == old(store.clock) && store.revokers == old(store.revokers) && store.sess == old(store.sess)
    ensures invalid ==> access.None?
    ensures store.denied == old(store.denied) + if invalid then {t} else {}
    ensures store.FaultsOf(t) == old(store.FaultsOf(t)) + if access.None? && !invalid then 1 else 0
    // another replica's token, and an access token with a minute to go: nothing is asked
    ensures expected.Some? && expected.value != old(store.txs)[t].read
            && old(grant.access).Some? && old(store.clock) + 60_000_000 <= old(grant.expiry) ==>
      access == old(grant.access) && grant.refresh == Some(old(store.txs)[t].read)
  {
    hide Run, Step;
    var row := store.txs[t].read;
    if expected.Some? && row != expected.value {
      grant.refresh := Some(row);
      if grant.Live(store.clock) {
        store.Answered(t, Cached);
        return grant.access, false;
      }
    }
    var reply, token, expiry := AccessToken(store, t);
    if !reply.Given? {
      return None, reply.Denied?;
    }
    grant.Set(reply.token, token, expiry);
    return Some(token), false;
  }

  /** The SSO client: a cached access token of this very refresh token, or an exchange with CCP. */
  method AccessToken(store: Store, t: TxId) returns (reply: Reply, access: nat, expiry: int)
    requires store.Valid() && t in store.txs && store.txs[t].Refreshing? && store.txs[t].next.None?
    modifies store
    ensures store.Valid() && store.sess == old(store.sess) && t in store.txs && store.clock == old(store.clock)
    ensures old(store.trace) <= store.trace
    ensures t in store.committed <==> t in old(store.committed)
    ensures store.txs[t] == if reply.Given? then old(store.txs)[t].Answered(reply.token) else old(store.txs)[t]
    ensures store.denied == old(store.denied) + if reply.Denied? then {t} else {}
    ensures store.revokers == old(store.revokers)
    ensures store.FaultsOf(t) == old(store.FaultsOf(t)) + if reply.Down? then 1 else 0
  {
    hide Run, Step;
    access, expiry := *, *;
    var cached: bool := *;
    if cached {
      reply := Given(store.txs[t].read);
      store.Answered(t, Cached);
    } else {
      reply := store.AskCcp(t);
    }
  }
}
