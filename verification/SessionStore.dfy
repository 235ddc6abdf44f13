/**
 The session and authorization-code tables as the use cases see them: one method per statement, each a
 step of the session protocol, and the exchange, the logout and the refresh written over them.

 Valid says that the contents are reached by a run of the protocol, so everything proved of runs holds here.
 */
module SessionStore {
  import opened Options
  import opened SessionProtocol
  import opened GrantCustody
  import opened CustodySteps
  import opened SessionTheorems

  function Actor(e: Event): Option<TxId> {
    match e
    case Fetch(t, _) => Some(t)
    case Begin(t) => Some(t)
    case BeginLogout(t, _, _) => Some(t)
    case LockCharacter(t) => Some(t)
    case Take(t) => Some(t)
    case Doom(t) => Some(t)
    case Commit(t) => Some(t)
    case Rollback(t) => Some(t)
    case LockForRefresh(t, _, _) => Some(t)
    case Exchange(t, _) => Some(t)
    case _ => None
  }

  /** None of the events of `es` from `n` on belongs to transaction `t`. */
  ghost predicate Others(t: TxId, es: seq<Event>, n: nat) {
    forall i :: n <= i < |es| ==> Actor(es[i]) != Some(t)
  }

  /** The row is locked by `t` and as it was before. */
  ghost predicate SameRow(sess: Rows, sess': Rows, id: Sid) {
    id in sess && id in sess' && sess'[id] == sess[id]
  }

  /** Transaction `t` is where it was. */
  ghost predicate SameTx(txs: Txs, txs': Txs, t: TxId) {
    (t in txs <==> t in txs') && (t in txs ==> txs'[t] == txs[t])
  }

  lemma OtherStatement(s: State, e: Event, s': State, t: TxId)
    requires Step(s, e) == Some(s') && Actor(e) != Some(t)
    ensures SameTx(s.txs, s'.txs, t)
  {
    hide TxStep, DoSweep, DoPark, RowFree, Live;
    if Actor(e).Some? && Actor(e).value in s.txs && !e.Fetch? && !e.BeginLogout? && !e.LockForRefresh? {
      OtherTx(s, Actor(e).value, e, s', t);
    } else if e.SweepCodes? {
      SweepState(s, e.cs, s');
    } else if e.Park? {
      StatementIs(s, e, s');
    }
  }

  lemma OtherTx(s: State, u: TxId, e: Event, s': State, t: TxId)
    requires u in s.txs && TxStep(s, u, e) == Some(s') && u != t
    ensures SameTx(s.txs, s'.txs, t)
  {
    hide CharacterFree, CodeFree, DoCommit, DoDoom, DoExchange;
    OtherDoom(s, u, s.txs[u], t);
    OtherCommit(s, u, s.txs[u], t);
    OtherExchange(s, u, s.txs[u], if e.Exchange? then e.answer else Cached, t);
  }

  lemma OtherDoom(s: State, u: TxId, tx: Tx, t: TxId)
    requires u != t
    ensures DoDoom(s, u, tx).Some? ==> SameTx(s.txs, DoDoom(s, u, tx).value.txs, t)
  {
    hide RowFree, UnrevokedOf, Unrevoked;
  }

  lemma OtherExchange(s: State, u: TxId, tx: Tx, answer: Answer, t: TxId)
    requires u != t
    ensures DoExchange(s, u, tx, answer).Some? ==> SameTx(s.txs, DoExchange(s, u, tx, answer).value.txs, t)
  {
  }

  lemma OtherCommit(s: State, u: TxId, tx: Tx, t: TxId)
    requires u != t
    ensures DoCommit(s, u, tx).Some? ==> SameTx(s.txs, DoCommit(s, u, tx).value.txs, t)
  {
    hide RevokedRows, HandBack, Rehomed;
  }

  /** A session row locked by an open transaction is changed by nobody else. */
  lemma LockedRowStays(s: State, e: Event, s': State, t: TxId, id: Sid)
    requires Inv(s) && Step(s, e) == Some(s') && t in s.txs && Actor(e) != Some(t)
    requires id in s.txs[t].RowLocks() && Unrevoked(s.sess, id)
    ensures SameRow(s.sess, s'.sess, id)
  {
    hide Inv, Step, DoRedeem, RevokeRows;
    if Plain(e) {
      StepFrame(s, e, s');
    } else if e.Commit? {
      TxOf(s, t);
      CommitIs(s, e.t, s');
      CommitSpares(s, e.t, s', id);
    } else if e.SweepCodes? {
      SweepState(s, e.cs, s');
    } else {
      StatementSpares(s, e, s', t, id);
    }
  }

  lemma StatementSpares(s: State, e: Event, s': State, t: TxId, id: Sid)
    requires Step(s, e) == Some(s') && (e.RevokeNow? || e.PurgeRevoked? || e.Park?)
    requires t in s.txs && id in s.txs[t].RowLocks() && Unrevoked(s.sess, id)
    ensures SameRow(s.sess, s'.sess, id)
  {
    hide HandBack, Rehomed, TxStep;
    assert !RowFree(s.txs, None, id);
  }

  lemma CommitSpares(s: State, u: TxId, s': State, id: Sid)
    requires Inv(s) && Step(s, Commit(u)) == Some(s') && u in s.txs && id in s.sess && id !in s.txs[u].RowLocks()
    ensures SameRow(s.sess, s'.sess, id)
  {
    hide Inv, HandBack, Rehomed, Unrevoked, UnrevokedOf;
    BornBefore(s);
    assert DoCommit(s, u, s.txs[u]) == Some(s');
  }

  lemma BornBefore(s: State)
    requires Inv(s)
    ensures forall id :: id in s.sess ==> id < s.nextId
  {
    hide CodesHeld, RowsHeld, HandedHeld, OriginsSpent, GrantsPlaced, OneLive, LocksApart, TxsSound, RotationSound;
  }

  /** What the others do leaves an open transaction where it was, and the rows it has locked as they were. */
  lemma {:induction false} OthersLeave(before: seq<Event>, after: seq<Event>, t: TxId)
    requires before <= after && Run(before).Some? && Run(after).Some? && Others(t, after, |before|)
    ensures var s, s' := Run(before).value, Run(after).value;
      && SameTx(s.txs, s'.txs, t)
      && (t in s.txs ==> forall id :: id in s.txs[t].RowLocks() && Unrevoked(s.sess, id) ==>
          SameRow(s.sess, s'.sess, id))
    decreases |after|
  {
    hide Step;
    if |before| < |after| {
      var init, e := after[..|after| - 1], after[|after| - 1];
      assert before <= init;
      var s, m, s' := Run(before).value, Run(init).value, Run(after).value;
      OthersLeave(before, init, t);
      OtherStatement(m, e, s', t);
      if t in s.txs {
        forall id | id in s.txs[t].RowLocks() && Unrevoked(s.sess, id)
          ensures SameRow(s.sess, s'.sess, id)
        {
          ReachableInv(init, m);
          LockedRowStays(m, e, s', t, id);
        }
      }
    } else {
      assert before == after;
    }
  }

  datatype Revoked = Revoked(ids: seq<Sid>, tokens: seq<Token>)
  datatype Exchanged = Exchanged(session: Sid, parked: CodeRow, revoked: Revoked)
  datatype Reply = Given(token: Token) | Denied | Down
  datatype Failure = NotFound | InvalidGrant | Unavailable
  datatype Result<+T> = Ok(value: T) | Err(failure: Failure)

  /** What the RETURNING clause answers: every doomed row once, in some order, with the token it held. */
  ghost predicate Returned(rows: seq<(Sid, Option<Token>)>, ids: set<Sid>, sess: Rows) {
    && (forall i, j :: 0 <= i < j < |rows| ==> rows[i].0 != rows[j].0)
    && (forall i :: 0 <= i < |rows| ==> rows[i].0 in ids && rows[i].0 in sess && rows[i].1 == sess[rows[i].0].token)
    && (forall id :: id in ids ==> exists i :: 0 <= i < |rows| && rows[i].0 == id)
  }

  /** The tokens among the rows, in their order. */
  function TokensOf(rows: seq<(Sid, Option<Token>)>): seq<Token> {
    if rows == [] then [] else
    var n := |rows| - 1;
    TokensOf(rows[..n]) + if rows[n].1.Some? then [rows[n].1.value] else []
  }

  lemma {:induction false} TokensIn(rows: seq<(Sid, Option<Token>)>, token: Token)
    ensures token in TokensOf(rows) <==> exists i :: 0 <= i < |rows| && rows[i].1 == Some(token)
  {
    if rows != [] {
      var n := |rows| - 1;
      TokensIn(rows[..n], token);
      assert forall i :: 0 <= i < n ==> rows[..n][i] == rows[i];
    }
  }

  /** The loop of a revoke over the returned rows. */
  method Collect(rows: seq<(Sid, Option<Token>)>) returns (out: Revoked)
    ensures |out.ids| == |rows| && forall i :: 0 <= i < |rows| ==> out.ids[i] == rows[i].0
    ensures out.tokens == TokensOf(rows)
  {
    var ids, tokens := [], [];
    var i := 0;
    while i < |rows|
      invariant 0 <= i <= |rows| && |ids| == i
      invariant forall k :: 0 <= k < i ==> ids[k] == rows[k].0
      invariant tokens == TokensOf(rows[..i])
    {
      var (id, token) := rows[i];
      ids := ids + [id];
      if token.Some? {
        tokens := tokens + [token.value];
      }
      i := i + 1;
      assert rows[..i][..i - 1] == rows[..i - 1];
    }
    assert rows[..i] == rows;
    out := Revoked(ids, tokens);
  }

  /** The answer names each of the rows once, and beside it the token the row held. */
  ghost predicate Answers(out: Revoked, ids: set<Sid>, sess: Rows) {
    && (forall i, j :: 0 <= i < j < |out.ids| ==> out.ids[i] != out.ids[j])
    && (forall id :: id in out.ids <==> id in ids)
    && |out.tokens| == |out.ids|
    && (forall i :: 0 <= i < |out.ids| ==> out.ids[i] in sess && sess[out.ids[i]].token == Some(out.tokens[i]))
  }

  lemma {:induction false} NoneMissing(rows: seq<(Sid, Option<Token>)>)
    requires forall i :: 0 <= i < |rows| ==> rows[i].1.Some?
    ensures |TokensOf(rows)| == |rows| && forall i :: 0 <= i < |rows| ==> rows[i].1 == Some(TokensOf(rows)[i])
  {
    if rows != [] {
      NoneMissing(rows[..|rows| - 1]);
    }
  }

  lemma TokensBeside(rows: seq<(Sid, Option<Token>)>, ids: set<Sid>, sess: Rows)
    requires Returned(rows, ids, sess) && forall id :: id in ids ==> id in sess && sess[id].token.Some?
    ensures |TokensOf(rows)| == |rows|
    ensures forall i :: 0 <= i < |rows| ==> rows[i].0 in sess && sess[rows[i].0].token == Some(TokensOf(rows)[i])
  {
    hide TokensOf;
    assert forall i :: 0 <= i < |rows| ==> rows[i].0 in ids && rows[i].1.Some?;
    NoneMissing(rows);
  }

  lemma NamesEach(rows: seq<(Sid, Option<Token>)>, ids: set<Sid>, sess: Rows, named: seq<Sid>)
    requires Returned(rows, ids, sess)
    requires |named| == |rows| && forall i :: 0 <= i < |rows| ==> named[i] == rows[i].0
    ensures forall id :: id in named <==> id in ids
  {
    forall id | id in ids
      ensures id in named
    {
      var i :| 0 <= i < |rows| && rows[i].0 == id;
      assert named[i] == id;
    }
  }

  lemma AnswersAll(rows: seq<(Sid, Option<Token>)>, ids: set<Sid>, sess: Rows, out: Revoked)
    requires Returned(rows, ids, sess) && out.tokens == TokensOf(rows)
    requires |out.ids| == |rows| && forall i :: 0 <= i < |rows| ==> out.ids[i] == rows[i].0
    requires forall id :: id in ids ==> id in sess && sess[id].token.Some?
    ensures Answers(out, ids, sess)
  {
    hide TokensOf;
    TokensBeside(rows, ids, sess);
    NamesEach(rows, ids, sess, out.ids);
  }

  lemma AnswersStay(out: Revoked, ids: set<Sid>, sess: Rows, sess': Rows)
    requires Answers(out, ids, sess) && forall id :: id in ids ==> SameRow(sess, sess', id)
    ensures Answers(out, ids, sess')
  {
    assert forall i :: 0 <= i < |out.ids| ==> out.ids[i] in ids;
  }

  /** The rows a revoke selects. */
  function DoomedBy(sess: Rows, tx: Tx): set<Sid> {
    match tx
    case Redeeming(_, _, parked, _, _) => UnrevokedOf(sess, parked.character)
    case LoggingOut(_, sid, _, _, _) => if Unrevoked(sess, sid) then {sid} else {}
    case Refreshing(_, _, _) => {}
  }

  lemma DoomedStand(sess: Rows, tx: Tx)
    ensures forall id :: id in DoomedBy(sess, tx) ==> Unrevoked(sess, id)
  {
  }

  lemma DoomIs(s: State, t: TxId)
    requires t in s.txs
    requires (s.txs[t].Redeeming? && s.txs[t].stage == Taken) || (s.txs[t].LoggingOut? && s.txs[t].stage == Locked)
    requires forall id :: id in DoomedBy(s.sess, s.txs[t]) ==> RowFree(s.txs, Some(t), id)
    ensures var tx := s.txs[t];
      Step(s, Doom(t)) == Some(s.(txs := s.txs[t := tx.To(Doomed, tx.began, DoomedBy(s.sess, tx))]))
  {
    hide RowFree, UnrevokedOf, Unrevoked;
  }

  lemma ExchangeIs(s: State, t: TxId)
    requires t in s.txs
    ensures forall answer :: Step(s, Exchange(t, answer)) == DoExchange(s, t, s.txs[t], answer)
  {
    hide DoExchange;
  }

  /** What the look at the code makes of the exchange. */
  function StageOf(codes: Codes, code: Code, now: int): Stage {
    if code !in codes then Missing else if now <= codes[code].expires then Taken else Expired
  }

  lemma TakeIs(s: State, t: TxId)
    requires t in s.txs && s.txs[t].Redeeming? && s.txs[t].stage == Locked && CodeFree(s.txs, Some(t), s.txs[t].code)
    ensures var tx := s.txs[t];
      Step(s, Take(t)) == Some(s.(txs := s.txs[t := tx.To(StageOf(s.codes, tx.code, s.clock), tx.began, {})]))
  {
  }

  lemma RevokeIs(s: State, sid: Sid)
    requires Unrevoked(s.sess, sid) && RowFree(s.txs, None, sid)
    ensures Step(s, RevokeNow({sid})) == Some(RevokeRows(s, {sid}, s.clock))
  {
    hide RevokeRows, RowFree;
  }

  lemma RolledBack(s: State, t: TxId)
    requires t in s.txs
    ensures Step(s, Rollback(t)) == Some(s.(ccp := Lose(s.ccp, s.txs[t]), txs := s.txs - {t}))
  {
    hide Lose;
  }

  /** The session rows after `tx` has committed. */
  function RowsAfter(sess: Rows, nextId: Sid, tx: Tx): Rows {
    match tx
    case Redeeming(_, _, parked, began, doomed) =>
      RevokedRows(sess, doomed, began)[
        nextId := SessRow(parked.character, Some(parked.token), began + LIFETIME, None)]
    case LoggingOut(_, _, _, began, doomed) => RevokedRows(sess, doomed, began)
    case Refreshing(sid, _, next) => if sid in sess then sess[sid := sess[sid].(token := next)] else sess
  }

  lemma RedeemEnds(s: State, t: TxId, tx: Tx)
    requires tx.Redeeming?
    ensures var s' := DoRedeem(s, t, tx);
      && s'.clock == s.clock && s'.ccp == s.ccp && s'.txs == s.txs - {t} && s'.codes == s.codes - {tx.code}
      && s'.nextId == s.nextId + 1 && s'.sess == RowsAfter(s.sess, s.nextId, tx)
  {
    hide RevokedRows, HandBack, Rehomed;
  }

  lemma RevokeEnds(s: State, ids: set<Sid>, at: int)
    ensures RevokeRows(s, ids, at) == s.(
      sess := RevokedRows(s.sess, ids, at), handed := s.handed + HandBack(s.sess, ids),
      home := Rehomed(s.home, ids, {}))
  {
    hide RevokedRows, HandBack, Rehomed;
  }

  lemma CommitsBy(s: State, t: TxId)
    requires t in s.txs
    ensures Step(s, Commit(t)) == DoCommit(s, t, s.txs[t])
  {
    hide DoCommit;
  }

  lemma Ended(s: State, t: TxId)
    requires t in s.txs
    requires if s.txs[t].Refreshing? then s.txs[t].next.Some? && s.txs[t].sid in s.sess else s.txs[t].stage == Doomed
    ensures var tx := s.txs[t];
      && Step(s, Commit(t)).Some?
      && var s' := Step(s, Commit(t)).value;
      && s'.clock == s.clock && s'.ccp == s.ccp && s'.txs == s.txs - {t}
      && s'.codes == (if tx.Redeeming? then s.codes - {tx.code} else s.codes)
      && s'.nextId == (if tx.Redeeming? then s.nextId + 1 else s.nextId)
      && s'.sess == RowsAfter(s.sess, s.nextId, tx)
  {
    hide Step, DoRedeem, RevokeRows, RevokedRows;
    CommitsBy(s, t);
    match s.txs[t]
    case Redeeming(_, _, _, _, _) => RedeemEnds(s, t, s.txs[t]);
    case LoggingOut(_, _, _, began, doomed) => RevokeEnds(Forget(s, t), doomed, began);
    case Refreshing(_, _, _) =>
  }

  lemma SameIssuer(ccp: Ccp, token: Token)
    ensures token in ccp.issuer ==> Presented(ccp, token).issuer == ccp.issuer
  {
  }

  /** These rows are revoked at `at` and hold no token any more, and every other one is as it was. */
  ghost predicate RevokedAt(sess: Rows, sess': Rows, ids: set<Sid>, at: int) {
    forall id :: id in sess ==>
      && id in sess'
      && sess'[id] == if id in ids then SessRow(sess[id].character, None, sess[id].validTil, Some(at)) else sess[id]
  }

  lemma RevokedInto(sess: Rows, ids: set<Sid>, at: int, added: Sid, sess': Rows)
    requires added !in sess && added in sess' && sess' == RevokedRows(sess, ids, at)[added := sess'[added]]
    ensures RevokedAt(sess, sess', ids, at)
  {
  }

  /** What the commit of an exchange leaves: the code redeemed, its session the only one, its predecessors' tokens
      handed back. */
  lemma CommitRedeems(es: seq<Event>, s: State, t: TxId, s': State)
    requires Run(es) == Some(s) && t in s.txs && s.txs[t].Redeeming? && s.txs[t].stage == Doomed
    requires Step(s, Commit(t)) == Some(s')
    ensures var tx := s.txs[t];
      && tx.code in s'.fate && s'.fate[tx.code] == Redeemed(s.nextId) && tx.code !in s'.codes
      && SucceedsTo(s'.sess, s.nextId, tx.parked) && HandedFrom(s.handed, s'.handed, s.sess, tx.doomed)
      && s'.sess[s.nextId].validTil == tx.began + LIFETIME
      && tx.doomed == UnrevokedOf(s.sess, tx.parked.character)
  {
    hide Inv, Step, DoRedeem, SucceedsTo, Run, UnrevokedOf;
    ReachableInv(es, s);
    CommitIs(s, t, s');
    RedeemIs(s, t, s.txs[t]);
    RedeemSound(s, t);
    CodeLeaves(es, s, Commit(t), s', s.txs[t].code);
  }

  lemma CommitRetires(es: seq<Event>, s: State, t: TxId, s': State)
    requires Run(es) == Some(s) && t in s.txs && s.txs[t].Redeeming? && s.txs[t].stage == Doomed
    requires Step(s, Commit(t)) == Some(s')
    ensures RevokedAt(s.sess, s'.sess, s.txs[t].doomed, s.txs[t].began)
  {
    hide Inv, Step, DoRedeem, Run, RevokedRows, RevokedAt;
    ReachableInv(es, s);
    CommitIs(s, t, s');
    RedeemEnds(s, t, s.txs[t]);
    BornBefore(s);
    RevokedInto(s.sess, s.txs[t].doomed, s.txs[t].began, s.nextId, s'.sess);
  }

  lemma RefreshingRow(es: seq<Event>, s: State, t: TxId)
    requires Run(es) == Some(s) && t in s.txs && s.txs[t].Refreshing?
    ensures Unrevoked(s.sess, s.txs[t].sid)
  {
    hide Inv, Run, Step;
    ReachableInv(es, s);
    TxOf(s, t);
  }

  /** Everything the rows held has been handed back, and nothing else has. */
  ghost predicate HandedFrom(was: map<Origin, Token>, handed: map<Origin, Token>, sess: Rows, ids: set<Sid>) {
    && (forall id :: id in ids && id in sess && sess[id].token.Some? ==>
        FromSession(id) in handed && handed[FromSession(id)] == sess[id].token.value)
    && (forall o :: o in handed && o !in was ==> o.FromSession? && o.sid in ids)
  }

  lemma CommitLogsOut(es: seq<Event>, s: State, t: TxId, s': State)
    requires Run(es) == Some(s) && t in s.txs && s.txs[t].LoggingOut? && s.txs[t].stage == Doomed
    requires Step(s, Commit(t)) == Some(s')
    ensures HandedFrom(s.handed, s'.handed, s.sess, s.txs[t].doomed)
    ensures forall id :: id in s.txs[t].doomed ==> !Unrevoked(s'.sess, id)
    ensures RevokedAt(s.sess, s'.sess, s.txs[t].doomed, s.txs[t].began)
    ensures forall id :: Unrevoked(s'.sess, id) ==> Unrevoked(s.sess, id)
    ensures s'.nextId == s.nextId
  {
    hide Inv, Step, Run, Rehomed;
    CommitIs(s, t, s');
  }

  /** Between the runs `from` and `es` the database was `s` at some moment. */
  ghost predicate Passed(from: seq<Event>, es: seq<Event>, s: State) {
    exists n :: |from| <= n <= |es| && Run(es[..n]) == Some(s)
  }

  lemma PassesNow(from: seq<Event>, es: seq<Event>, s: State)
    requires from <= es && Run(es) == Some(s)
    ensures Passed(from, es, s)
  {
    assert es[..|es|] == es;
  }

  lemma StaysPassed(from: seq<Event>, from': seq<Event>, es: seq<Event>, es': seq<Event>, s: State)
    requires from <= from' && es <= es' && Passed(from', es, s)
    ensures Passed(from, es', s)
  {
    var n :| |from'| <= n <= |es| && Run(es[..n]) == Some(s);
    assert es'[..n] == es[..n];
  }

  method Returning(ids: set<Sid>, sess: Rows) returns (rows: seq<(Sid, Option<Token>)>)
    requires forall id :: id in ids ==> id in sess
    ensures Returned(rows, ids, sess)
  {
    rows := [];
    var rest := ids;
    while rest != {}
      invariant rest <= ids && Returned(rows, ids - rest, sess)
      decreases |rest|
    {
      var id :| id in rest;
      ghost var before, done := rows, ids - rest;
      rows := rows + [(id, sess[id].token)];
      rest := rest - {id};
      assert ids - rest == done + {id};
      forall k | k in done
        ensures exists i :: 0 <= i < |rows| && rows[i].0 == k
      {
        var i :| 0 <= i < |before| && before[i].0 == k;
        assert rows[i] == before[i];
      }
      assert rows[|before|].0 == id;
    }
    assert ids - rest == ids;
  }

  class Store {
    var clock: int
    var codes: Codes
    var sess: Rows
    var nextId: Sid
    var txs: Txs
    var ccp: Ccp  // CCP's own books: only its answers consult them
    ghost var handed: map<Origin, Token>
    ghost var home: Homes
    ghost var fate: map<Code, Fate>
    ghost var born: map<Sid, Code>
    ghost var trace: seq<Event>
    ghost var committed: set<TxId>
    ghost var denied: set<TxId>    // the transactions CCP has answered invalid_grant
    ghost var revokers: set<TxId>  // the transactions whose call went on to revoke the session
    ghost var faults: map<TxId, nat>  // how many statements and answers of each the database or CCP has failed

    ghost function FaultsOf(t: TxId): nat
      reads this
    {
      if t in faults then faults[t] else 0
    }

    /** One more statement of `t` has failed, or none. */
    ghost method Fault(t: TxId, failed: bool)
      modifies this`faults
      ensures FaultsOf(t) == old(FaultsOf(t)) + if failed then 1 else 0
    {
      if failed {
        faults := faults[t := FaultsOf(t) + 1];
      }
    }

    ghost function Snapshot(): State
      reads this
    {
      State(clock, codes, sess, nextId, txs, ccp, handed, home, fate, born)
    }

    ghost predicate Valid()
      reads this
    {
      Run(trace) == Some(Snapshot()) && forall t :: t in committed <==> Commit(t) in trace
    }

    /** The one statement `e` has been executed, as the protocol says, and nothing else. */
    twostate predicate Did(e: Event)
      reads this
    {
      && trace == old(trace) + [e] && Step(old(Snapshot()), e) == Some(Snapshot())
      && committed == old(committed) + (if e.Commit? then {e.t} else {})
      && denied == old(denied) && revokers == old(revokers)
    }

    twostate predicate Unmoved()
      reads this
    {
      && trace == old(trace) && Snapshot() == old(Snapshot()) && committed == old(committed)
      && denied == old(denied) && revokers == old(revokers)
    }

    constructor ()
      ensures Valid() && trace == []
    {
      clock, codes, sess, nextId, txs, ccp := 0, map[], map[], 0, map[], Ccp(map[], map[], {}, {}, {});
      handed, home, fate, born, trace, committed := map[], map[], map[], map[], [], {};
      denied, revokers, faults := {}, {}, map[];
    }

    /** Record that the tables have moved from `before` by the statement `e`. */
    ghost method Note(before: State, e: Event)
      requires Run(trace) == Some(before) && Step(before, e).Some? && forall t :: t in committed <==> Commit(t) in trace
      requires var s := Step(before, e).value;
        s.clock == clock && s.codes == codes && s.sess == sess && s.nextId == nextId && s.txs == txs && s.ccp == ccp
      modifies this`handed, this`home, this`fate, this`born, this`trace, this`committed
      ensures Valid() && trace == old(trace) + [e] && Step(before, e) == Some(Snapshot())
      ensures committed == old(committed) + if e.Commit? then {e.t} else {}
    {
      hide Step;
      RunSnoc(trace, e);
      var s := Step(before, e).value;
      handed, home, fate, born := s.handed, s.home, s.fate, s.born;
      trace := trace + [e];
      committed := committed + if e.Commit? then {e.t} else {};
      assert Snapshot() == s;
    }

    /** What is noted of the call of `t` alone. */
    twostate predicate SameFor(t: TxId)
      reads this
    {
      && FaultsOf(t) == old(FaultsOf(t))
      && (t in denied <==> t in old(denied)) && (t in revokers <==> t in old(revokers))
    }

    /** Any number of statements of other transactions, sweeps, sign-ins and ticks may come here.  The body is one way
        to meet that: nothing happens.  Callers may rely only on the contract. */
    method Interfere(ghost t: TxId)
      requires Valid()
      modifies this
      ensures Valid() && old(trace) <= trace && Others(t, trace, |old(trace)|) && SameFor(t)
    {
    }

    method Yield(ghost t: TxId)
      requires Valid()
      modifies this
      ensures clock >= old(clock) && old(trace) <= trace && SameFor(t)
      ensures Valid() && (t in committed <==> t in old(committed))
      ensures SameTx(old(txs), txs, t)
      ensures t in txs ==> forall id :: id in txs[t].RowLocks() && Unrevoked(old(sess), id) ==>
        SameRow(old(sess), sess, id)
      ensures nextId >= old(nextId) && forall id :: Gone(old(sess), old(nextId), id) ==> Gone(sess, nextId, id)
    {
      hide Run, Gone;
      Interfere(t);
      OthersLeave(old(trace), trace, t);
      forall id: Sid
        ensures nextId >= old(nextId) && (Gone(old(sess), old(nextId), id) ==> Gone(sess, nextId, id))
      {
        RevokedIsFinal(old(trace), trace, id);
      }
      RevokedIsFinal(old(trace), trace, 0);
      assert Commit(t) in trace ==> Commit(t) in old(trace) by {
        assert Actor(Commit(t)) == Some(t);
      }
    }

    /** The SELECT of a code, which a client may present; an expired row is not found. */
    method GetCode(t: TxId, code: Code) returns (failed: bool, row: Option<CodeRow>)
      requires Valid() && t !in txs
      modifies this
      ensures Valid() && FaultsOf(t) == old(FaultsOf(t)) + if failed then 1 else 0
      ensures failed ==> row.None?
      ensures !failed ==>
        row == if code in old(codes) && old(clock) <= old(codes)[code].expires then Some(old(codes)[code]) else None
      ensures clock == old(clock)
      ensures if row.Some? then Did(Fetch(t, code)) else Unmoved()
      ensures row.Some? ==> t in txs && txs[t] == Redeeming(Fetched, code, row.value, 0, {})
    {
      hide Run, TxStep;
      failed, row := *, None;
      Fault(t, failed);
      if !failed && code in codes && clock <= codes[code].expires {
        ghost var before := Snapshot();
        row := Some(codes[code]);
        txs := txs[t := Redeeming(Fetched, code, codes[code], 0, {})];
        Note(before, Fetch(t, code));
      }
    }

    method BeginRedeem(t: TxId)
      requires Valid() && t in txs && txs[t].Redeeming? && txs[t].stage == Fetched
      modifies this
      ensures Valid() && Did(Begin(t)) && t in txs && txs[t] == old(txs)[t].To(Begun, old(clock), {})
      ensures clock == old(clock) && faults == old(faults)
    {
      hide Run;
      ghost var before := Snapshot();
      txs := txs[t := txs[t].To(Begun, clock, {})];
      Note(before, Begin(t));
    }

    method BeginLogout(t: TxId, sid: Sid, character: int)
      requires Valid() && t !in txs
      modifies this
      ensures Valid() && Did(Event.BeginLogout(t, sid, character))
      ensures t in txs && txs[t] == LoggingOut(Begun, sid, character, old(clock), {})
      ensures sess == old(sess) && nextId == old(nextId) && clock == old(clock) && faults == old(faults)
    {
      hide Run, TxStep;
      ghost var before := Snapshot();
      txs := txs[t := LoggingOut(Begun, sid, character, clock, {})];
      Note(before, Event.BeginLogout(t, sid, character));
    }

    /** pg_advisory_xact_lock on the character; `failed` when the statement gave up waiting. */
    method LockCharacter(t: TxId) returns (failed: bool)
      requires Valid() && t in txs && !txs[t].Refreshing? && txs[t].stage == Begun
      modifies this
      ensures Valid() && t in txs && sess == old(sess) && nextId == old(nextId) && clock == old(clock)
      ensures FaultsOf(t) == old(FaultsOf(t)) + if failed then 1 else 0
      ensures if failed then Unmoved() else
        Did(Event.LockCharacter(t)) && txs[t] == old(txs)[t].To(Locked, old(txs)[t].began, {})
    {
      hide Run;
      failed := *;
      failed := failed
        || !CharacterFree(txs, t, if txs[t].Redeeming? then txs[t].parked.character else txs[t].character);
      Fault(t, failed);
      if !failed {
        ghost var before := Snapshot();
        txs := txs[t := txs[t].To(Locked, txs[t].began, {})];
        Note(before, Event.LockCharacter(t));
      }
    }

    /** DELETE of the code row, and the look at its expiry.  The row is out of the table only with the commit. */
    method Take(t: TxId) returns (failed: bool, found: bool)
      requires Valid() && t in txs && txs[t].Redeeming? && txs[t].stage == Locked
      modifies this
      ensures Valid() && t in txs && codes == old(codes) && clock == old(clock)
      ensures FaultsOf(t) == old(FaultsOf(t)) + if failed then 1 else 0
      ensures if failed then Unmoved() else Did(Event.Take(t))
      ensures !failed ==>
        && (found <==> old(txs)[t].code in old(codes) && old(clock) <= old(codes)[old(txs)[t].code].expires)
        && (if found then txs[t] == old(txs)[t].To(Taken, old(txs)[t].began, {}) else Failed(txs[t]))
    {
      hide Run, Step, CodeFree;
      failed, found := *, false;
      failed := failed || !CodeFree(txs, Some(t), txs[t].code);
      Fault(t, failed);
      if !failed {
        ghost var before := Snapshot();
        TakeIs(before, t);
        var stage := StageOf(codes, txs[t].code, clock);
        found := stage == Taken;
        txs := txs[t := txs[t].To(stage, txs[t].began, {})];
        Note(before, Event.Take(t));
      }
    }

    /** The UPDATE that revokes: every unrevoked session of the character, or the one session of a logout. */
    method Revoke(t: TxId) returns (failed: bool, out: Revoked)
      requires Valid() && t in txs
      requires (txs[t].Redeeming? && txs[t].stage == Taken) || (txs[t].LoggingOut? && txs[t].stage == Locked)
      modifies this
      ensures Valid() && t in txs && sess == old(sess) && nextId == old(nextId) && clock == old(clock)
      ensures FaultsOf(t) == old(FaultsOf(t)) + if failed then 1 else 0
      ensures if failed then Unmoved() else Did(Doom(t)) && Answers(out, txs[t].doomed, sess)
      ensures !failed ==> txs[t] == old(txs)[t].To(Doomed, old(txs)[t].began, txs[t].doomed)
      ensures !failed ==> forall id :: id in txs[t].doomed ==> Unrevoked(sess, id)
      ensures !failed && txs[t].LoggingOut? ==>
        txs[t].doomed == if Unrevoked(sess, txs[t].sid) then {txs[t].sid} else {}
    {
      hide Run, Step, RowFree, Answers, UnrevokedOf, Unrevoked;
      DoomedStand(sess, txs[t]);
      var ids := DoomedBy(sess, txs[t]);
      failed := *;
      failed := failed || !forall id :: id in ids ==> RowFree(txs, Some(t), id);
      Fault(t, failed);
      if !failed {
        ghost var before := Snapshot();
        txs := txs[t := txs[t].To(Doomed, txs[t].began, ids)];
        DoomIs(before, t);
        Note(before, Doom(t));
        out := AnswerRows(ids);
      } else {
        out := Revoked([], []);
      }
    }

    /** The RETURNING clause of unrevoked rows, collected. */
    method AnswerRows(ids: set<Sid>) returns (out: Revoked)
      requires Valid() && forall id :: id in ids ==> Unrevoked(sess, id)
      ensures Answers(out, ids, sess)
    {
      hide Run, Answers;
      var rows := Returning(ids, sess);
      out := Collect(rows);
      forall id | id in ids
        ensures sess[id].token.Some?
      {
        RevokedHoldsNothing(trace, Snapshot(), id);
      }
      AnswersAll(rows, ids, sess, out);
    }

    /** What the statements of the transaction have written becomes visible. */
    method WriteRows(tx: Tx)
      requires tx.Refreshing? ==> tx.sid in sess
      modifies this`codes, this`sess, this`nextId
      ensures sess == RowsAfter(old(sess), old(nextId), tx)
      ensures codes == if tx.Redeeming? then old(codes) - {tx.code} else old(codes)
      ensures nextId == if tx.Redeeming? then old(nextId) + 1 else old(nextId)
    {
      match tx {
        case Redeeming(_, code, parked, began, doomed) =>
          var row := SessRow(parked.character, Some(parked.token), began + LIFETIME, None);
          codes, sess, nextId := codes - {code}, RevokedRows(sess, doomed, began)[nextId := row], nextId + 1;
        case LoggingOut(_, _, _, began, doomed) => sess := RevokedRows(sess, doomed, began);
        case Refreshing(sid, _, next) => sess := sess[sid := sess[sid].(token := next)];
      }
    }

    /** COMMIT; when it fails the transaction is rolled back. */
    method CommitTx(t: TxId) returns (failed: bool)
      requires Valid() && t in txs
      requires if txs[t].Refreshing? then txs[t].next.Some? && txs[t].sid in sess else txs[t].stage == Doomed
      modifies this
      ensures Valid() && (if failed then Did(Event.Rollback(t)) else Did(Commit(t)))
      ensures t !in txs && FaultsOf(t) == old(FaultsOf(t)) + (if failed then 1 else 0) && clock == old(clock)
      ensures !failed && old(txs)[t].Refreshing? ==>
        sess == old(sess)[old(txs)[t].sid := old(sess)[old(txs)[t].sid].(token := old(txs)[t].next)]
    {
      hide Run, Step;
      failed := *;
      Fault(t, failed);
      if failed {
        RollbackTx(t);
        return;
      }
      ghost var before := Snapshot();
      Ended(before, t);
      WriteRows(txs[t]);
      txs := txs - {t};
      Note(before, Commit(t));
    }

    /** ROLLBACK: the rows are as they were. */
    method RollbackTx(t: TxId)
      requires Valid() && t in txs
      modifies this
      ensures Valid() && Did(Event.Rollback(t)) && t !in txs && faults == old(faults)
      ensures codes == old(codes) && sess == old(sess) && nextId == old(nextId) && clock == old(clock)
    {
      hide Run, Step, Lose;
      ghost var before := Snapshot();
      RolledBack(before, t);
      ccp := Lose(ccp, txs[t]);
      txs := txs - {t};
      Note(before, Event.Rollback(t));
    }

    /** SELECT … FOR UPDATE of a row that was live at `now`, the begin of the transaction, and its token read again
        under the lock. */
    method LockForRefresh(t: TxId, sid: Sid, now: int) returns (failed: bool, row: Option<Token>)
      requires Valid() && t !in txs && now <= clock
      modifies this
      ensures Valid() && sess == old(sess) && clock == old(clock)
      ensures FaultsOf(t) == old(FaultsOf(t)) + if failed then 1 else 0
      ensures row.None? ==> Unmoved()
      ensures failed ==> row.None?
      ensures row.None? && !failed ==> !Live(sess, sid, now)
      ensures row.Some? ==>
        && Did(Event.LockForRefresh(t, sid, now)) && Live(sess, sid, now) && sess[sid].token == row
        && t in txs && txs[t] == Refreshing(sid, row.value, None)
    {
      hide Run, TxStep;
      failed, row := *, None;
      failed := failed || !RowFree(txs, None, sid);
      Fault(t, failed);
      if !failed && Live(sess, sid, now) {
        RevokedHoldsNothing(trace, Snapshot(), sid);
        ghost var before := Snapshot();
        row := sess[sid].token;
        txs := txs[t := Refreshing(sid, sess[sid].token.value, None)];
        Note(before, Event.LockForRefresh(t, sid, now));
      }
    }

    /** The answer to a refresh, as the transaction and CCP's books keep it. */
    method Answered(t: TxId, answer: Answer)
      requires Valid() && t in txs && txs[t].Refreshing? && txs[t].next.None?
      requires !answer.Cached? ==> txs[t].read in ccp.issuer
      requires answer.Rotated? ==> answer.token !in ccp.issuer
      modifies this
      ensures Valid() && Did(Exchange(t, answer)) && sess == old(sess) && clock == old(clock) && faults == old(faults)
      ensures t in txs && txs[t] == old(txs)[t].Answered(if answer.Rotated? then answer.token else old(txs)[t].read)
    {
      hide Run, Step, Rotate, Presented;
      ghost var before := Snapshot();
      ExchangeIs(before, t);
      var tx := txs[t];
      SameIssuer(ccp, tx.read);
      match answer {
        case Cached =>
        case Kept => ccp := Presented(ccp, tx.read);
        case Rotated(token) => ccp := Rotate(Presented(ccp, tx.read), tx.read, token);
      }
      txs := txs[t := tx.Answered(if answer.Rotated? then answer.token else tx.read)];
      Note(before, Exchange(t, answer));
    }

    /** CCP answers a refresh: the same token, or one it has never issued before; or it refuses, or does not answer. */
    method AskCcp(t: TxId) returns (reply: Reply)
      requires Valid() && t in txs && txs[t].Refreshing? && txs[t].next.None?
      modifies this
      ensures Valid() && sess == old(sess) && clock == old(clock) && t in txs
      ensures committed == old(committed) && revokers == old(revokers)
      ensures denied == old(denied) + if reply.Denied? then {t} else {}
      ensures FaultsOf(t) == old(FaultsOf(t)) + if reply.Down? then 1 else 0
      ensures if reply.Given? then
          && txs[t] == old(txs)[t].Answered(reply.token)
          && (Did(Exchange(t, Kept)) || Did(Exchange(t, Rotated(reply.token))))
        else trace == old(trace) && txs == old(txs)
    {
      hide Run, Step;
      var refused: bool, down: bool, rotates: bool, token: Token := *, *, *, *;
      if txs[t].read !in ccp.issuer {
        refused := true;
      }
      if refused {
        denied := denied + {t};
        return Denied;
      }
      if down || (rotates && token in ccp.issuer) {
        Fault(t, true);
        return Down;
      }
      reply := Given(if rotates then token else txs[t].read);
      Answered(t, if rotates then Rotated(token) else Kept);
    }

    /** The revoke after invalid_grant, a statement of its own. */
    method RevokeOne(ghost t: TxId, sid: Sid) returns (failed: bool)
      requires Valid()
      modifies this
      ensures Valid() && txs == old(txs) && committed == old(committed) && denied == old(denied)
      ensures revokers == old(revokers) + {t} && FaultsOf(t) == old(FaultsOf(t)) + if failed then 1 else 0
      ensures failed ==> trace == old(trace)
      ensures !failed ==>
        && (Unrevoked(old(sess), sid) ==> RevokedAt(old(sess), sess, {sid}, clock))
        && !Unrevoked(sess, sid) && trace == old(trace) + if Unrevoked(old(sess), sid) then [RevokeNow({sid})] else []
    {
      hide Run, Step, Rehomed, HandBack;
      failed := *;
      failed := failed || !RowFree(txs, None, sid);
      Fault(t, failed);
      if !failed && Unrevoked(sess, sid) {
        ghost var before := Snapshot();
        RevokeIs(before, sid);
        sess := RevokedRows(sess, {sid}, clock);
        Note(before, RevokeNow({sid}));
      }
      revokers := revokers + {t};
    }
  }
}
