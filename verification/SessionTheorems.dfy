/** What the session protocol promises about every reachable state, over every interleaving of its steps. */
module SessionTheorems {
  import opened Options
  import opened SessionProtocol
  import opened GrantCustody
  import opened CustodySteps

  ghost predicate OnlyTxs(s: State, s': State) {
    s.clock <= s'.clock && s' == s.(clock := s'.clock, txs := s'.txs, ccp := s'.ccp)
  }

  lemma DoomFrame(s: State, t: TxId, tx: Tx)
    ensures var r := DoDoom(s, t, tx); r.Some? ==> OnlyTxs(s, r.value) && r.value.ccp == s.ccp
  {
    hide UnrevokedOf, Unrevoked, RowFree;
  }

  lemma TakeFrame(s: State, t: TxId, tx: Tx)
    requires tx.Redeeming?
    ensures var r := DoTake(s, t, tx); r.Some? ==> OnlyTxs(s, r.value) && r.value.ccp == s.ccp
  {
    hide CodeFree;
  }

  lemma ExchangeFrame(s: State, t: TxId, tx: Tx, answer: Answer)
    ensures var r := DoExchange(s, t, tx, answer); r.Some? ==> OnlyTxs(s, r.value) && r.value.ccp.lost == s.ccp.lost
  {
  }

  /** What the statements of an open transaction leave alone before it commits. */
  lemma TxFrame(s: State, t: TxId, e: Event, s': State)
    requires t in s.txs && TxStep(s, t, e) == Some(s') && !e.Commit?
    ensures OnlyTxs(s, s') && (!e.Rollback? ==> s'.ccp.lost == s.ccp.lost)
  {
    hide CharacterFree, DoTake, DoDoom, DoExchange, DoCommit;
    if s.txs[t].Redeeming? {
      TakeFrame(s, t, s.txs[t]);
    }
    DoomFrame(s, t, s.txs[t]);
    ExchangeFrame(s, t, s.txs[t], if e.Exchange? then e.answer else Cached);
  }

  ghost predicate Plain(e: Event) {
    !e.Park? && !e.Commit? && !e.SweepCodes? && !e.RevokeNow? && !e.PurgeRevoked?
  }

  lemma StepFrame(s: State, e: Event, s': State)
    requires Step(s, e) == Some(s') && Plain(e)
    ensures OnlyTxs(s, s') && (!e.Rollback? ==> s'.ccp.lost == s.ccp.lost)
  {
    hide Live, RowFree, TxStep, OnlyTxs, RevokeRows, DoSweep, DoPark;
    match e
    case Begin(t) => TxFrame(s, t, e, s');
    case LockCharacter(t) => TxFrame(s, t, e, s');
    case Take(t) => TxFrame(s, t, e, s');
    case Doom(t) => TxFrame(s, t, e, s');
    case Rollback(t) => TxFrame(s, t, e, s');
    case Exchange(t, _) => TxFrame(s, t, e, s');
    case _ => Opens(s, e, s');
  }

  lemma Opens(s: State, e: Event, s': State)
    requires Step(s, e) == Some(s') && (e.Tick? || e.Fetch? || e.BeginLogout? || e.LockForRefresh?)
    ensures OnlyTxs(s, s') && s'.ccp == s.ccp
  {
    hide RowFree, TxStep, RevokeRows, DoSweep, DoPark;
  }

  lemma RollbackIs(s: State, t: TxId, s': State)
    requires Step(s, Rollback(t)) == Some(s')
    ensures t in s.txs && s' == DoRollback(s, t, s.txs[t])
  {
    hide DoRollback;
  }

  lemma CommitIs(s: State, t: TxId, s': State)
    requires Step(s, Commit(t)) == Some(s')
    ensures t in s.txs
    ensures s.txs[t].Redeeming? ==> s.txs[t].stage == Doomed && s' == DoRedeem(s, t, s.txs[t])
    ensures s.txs[t].LoggingOut? ==>
      s.txs[t].stage == Doomed && s' == RevokeRows(Forget(s, t), s.txs[t].doomed, s.txs[t].began)
    ensures s.txs[t].Refreshing? ==> s' == s.(txs := s'.txs, sess := s'.sess)
  {
    hide DoRedeem, RevokeRows;
  }

  /** The rows after an exchange has committed, part by part. */
  lemma RedeemIs(s: State, t: TxId, tx: Tx)
    requires tx.Redeeming?
    ensures var r := DoRedeem(s, t, tx);
      && r.codes == s.codes - {tx.code} && r.fate == s.fate[tx.code := Redeemed(s.nextId)]
      && r.handed == s.handed + HandBack(s.sess, tx.doomed) && r.ccp == s.ccp && r.nextId == s.nextId + 1
      && r.clock == s.clock && r.txs == s.txs - {t}
      && s.nextId in r.sess
      && r.sess[s.nextId] == SessRow(tx.parked.character, Some(tx.parked.token), tx.began + LIFETIME, None)
  {
    hide RevokedRows, HandBack, Rehomed;
  }

  lemma StatementIs(s: State, e: Event, s': State)
    requires Step(s, e) == Some(s')
    ensures e.Park? ==> s' == s.(codes := s'.codes, ccp := s'.ccp, home := s'.home)
    ensures e.Park? ==> s'.codes == s.codes[e.code := s'.codes[e.code]] && e.code !in s.fate && e.code !in s.codes
    ensures e.Park? ==> s'.ccp.lost == s.ccp.lost
    ensures e.RevokeNow? ==> s' == RevokeRows(s, e.ids, s.clock) && forall id :: id in e.ids ==> Unrevoked(s.sess, id)
    ensures e.PurgeRevoked? ==> s' == s.(sess := s'.sess)
  {
    hide RevokeRows, Unrevoked, RowFree, TxStep, DoSweep, Live, DoLockForRefresh;
  }

  /** A step other than a commit rolls nothing forward: tokens handed back and fates only grow. */
  lemma HistoryGrows(s: State, e: Event, s': State)
    requires Inv(s) && Step(s, e) == Some(s') && !e.Commit?
    ensures forall o :: o in s.handed ==> o in s'.handed && s'.handed[o] == s.handed[o]
    ensures forall c :: c in s.fate ==> c in s'.fate && s'.fate[c] == s.fate[c] && c !in s'.codes
  {
    hide Inv, Step, Rehomed, RevokedRows;
    Spent(s);
    if Plain(e) {
      StepFrame(s, e, s');
    } else if e.SweepCodes? {
      SweepState(s, e.cs, s');
    } else {
      StatementIs(s, e, s');
    }
  }

  lemma Spent(s: State)
    requires Inv(s)
    ensures forall id: Sid :: FromSession(id) in s.handed ==> id < s.nextId && !Unrevoked(s.sess, id)
    ensures forall c: Code :: FromCode(c) in s.handed ==> c in s.fate
    ensures forall c :: c in s.codes ==> c !in s.fate
  {
    hide CodesHeld, RowsHeld, HandedHeld, GrantsPlaced, OneLive, LocksApart, TxsSound, RotationSound;
  }

  lemma HandsOver(handed: map<Origin, Token>, sess: Rows, ids: set<Sid>)
    requires forall id: Sid :: FromSession(id) in handed ==> !Unrevoked(sess, id)
    requires forall id :: id in ids ==> Unrevoked(sess, id)
    ensures forall o :: o in handed ==> (handed + HandBack(sess, ids))[o] == handed[o]
  {
  }

  lemma RedeemGrows(s: State, t: TxId)
    requires Inv(s) && t in s.txs && s.txs[t].Redeeming? && s.txs[t].stage == Doomed
    ensures var s' := DoRedeem(s, t, s.txs[t]);
      && (forall o :: o in s.handed ==> o in s'.handed && s'.handed[o] == s.handed[o])
      && (forall c :: c in s.fate ==> c in s'.fate && s'.fate[c] == s.fate[c] && c !in s'.codes)
  {
    hide Inv, DoRedeem, UnrevokedOf, HandBack;
    Spent(s);
    RedeemSound(s, t);
    RedeemIs(s, t, s.txs[t]);
    HandsOver(s.handed, s.sess, s.txs[t].doomed);
  }

  lemma LogoutGrows(s: State, t: TxId)
    requires Inv(s) && t in s.txs && s.txs[t].LoggingOut? && s.txs[t].stage == Doomed
    ensures var s' := RevokeRows(Forget(s, t), s.txs[t].doomed, s.txs[t].began);
      && (forall o :: o in s.handed ==> o in s'.handed && s'.handed[o] == s.handed[o])
      && s'.fate == s.fate && s'.codes == s.codes
  {
    hide Inv, Rehomed, RevokedRows, UnrevokedOf, Apart, HandBack;
    Spent(s);
    TxOf(s, t);
    HandsOver(s.handed, s.sess, s.txs[t].doomed);
  }

  lemma {:induction false} ReachableInv(es: seq<Event>, s: State)
    requires Run(es) == Some(s)
    ensures Inv(s)
  {
    if es != [] {
      hide Inv;
      var r := Run(es[..|es| - 1]).value;
      ReachableInv(es[..|es| - 1], r);
      StepKeeps(r, es[|es| - 1], s);
    }
  }

  /** A character never has two unrevoked sessions. */
  lemma OneSessionPerCharacter(es: seq<Event>, s: State, a: Sid, b: Sid)
    requires Run(es) == Some(s)
    requires Unrevoked(s.sess, a) && Unrevoked(s.sess, b) && s.sess[a].character == s.sess[b].character
    ensures a == b
  {
    hide CodesHeld, RowsHeld, HandedHeld, OriginsSpent, GrantsPlaced, FatesSound, LocksApart, TxsSound, RotationSound;
    ReachableInv(es, s);
  }

  ghost predicate HeldAt(s: State, g: Grant, p: Place) {
    Holds(TokenAt(p, s.codes, s.sess, s.handed), g, s.ccp)
  }

  /** A place with a token of `g` is the place recorded for `g`. */
  lemma HolderIsHome(s: State, g: Grant, p: Place)
    requires Inv(s) && HeldAt(s, g, p)
    ensures g in s.home && s.home[g] == p
  {
    hide OriginsSpent, GrantsPlaced, OneLive, FatesSound, LocksApart, TxsSound, RotationSound, Works, Settled;
    match p
    case InCode(_) =>
    case InSession(id) => assert RowHeld(s.sess[id], id, s.txs, s.ccp, s.home);
    case HandedBack(_) =>
  }

  /** Every grant is kept in exactly one place: a parked code, an unrevoked session, or what was handed back. */
  lemma GrantInOnePlace(es: seq<Event>, s: State, g: Grant)
    requires Run(es) == Some(s) && g in s.ccp.current
    ensures exists p :: HeldAt(s, g, p)
    ensures forall p, q :: HeldAt(s, g, p) && HeldAt(s, g, q) ==> p == q
  {
    hide Inv, HeldAt;
    ReachableInv(es, s);
    assert HeldAt(s, g, s.home[g]) by { Placed(s, g); }
    forall p | HeldAt(s, g, p)
      ensures g in s.home && s.home[g] == p
    {
      HolderIsHome(s, g, p);
    }
  }

  lemma Placed(s: State, g: Grant)
    requires Inv(s) && g in s.ccp.current
    ensures g in s.home && HeldAt(s, g, s.home[g])
  {
    hide CodesHeld, RowsHeld, HandedHeld, OriginsSpent, OneLive, FatesSound, LocksApart, TxsSound, RotationSound;
  }

  /** No revoked row keeps a token, and no unrevoked row is without one. */
  lemma RevokedHoldsNothing(es: seq<Event>, s: State, id: Sid)
    requires Run(es) == Some(s) && id in s.sess
    ensures s.sess[id].token.None? <==> s.sess[id].revokedAt.Some?
  {
    hide CodesHeld, HandedHeld, OriginsSpent, GrantsPlaced, OneLive, FatesSound, LocksApart, TxsSound, RotationSound;
    ReachableInv(es, s);
    assert RowHeld(s.sess[id], id, s.txs, s.ccp, s.home);
  }

  /** What a revoke or a sweep hands back is the token that works now, so that revoking it at CCP ends the grant; only
      for a grant that a rollback cost its token may it be one that was rotated out.  The row it came from holds it no
      longer. */
  lemma HandedBackWorks(es: seq<Event>, s: State, o: Origin)
    requires Run(es) == Some(s) && o in s.handed
    ensures s.handed[o] in s.ccp.issuer && s.ccp.issuer[s.handed[o]] in s.ccp.current
    ensures
      || s.ccp.current[s.ccp.issuer[s.handed[o]]] == s.handed[o]
      || (s.ccp.issuer[s.handed[o]] in s.ccp.lost && s.handed[o] in s.ccp.retired)
    ensures o.FromSession? ==> !Unrevoked(s.sess, o.sid)
    ensures o.FromCode? ==> o.code !in s.codes
  {
    hide CodesHeld, RowsHeld, GrantsPlaced, OneLive, LocksApart, TxsSound, RotationSound;
    ReachableInv(es, s);
  }

  /** A token once handed back, and the fate of a code, are final: no origin hands back twice, and no code is parked,
      redeemed or swept again. */
  lemma FatesAreFinal(es: seq<Event>, s: State, e: Event, s': State)
    requires Run(es) == Some(s) && Step(s, e) == Some(s')
    ensures forall o :: o in s.handed ==> o in s'.handed && s'.handed[o] == s.handed[o]
    ensures forall c :: c in s.fate ==> c in s'.fate && s'.fate[c] == s.fate[c] && c !in s'.codes
  {
    hide Inv, Step, DoRedeem, RevokeRows, Run;
    ReachableInv(es, s);
    Spent(s);
    if e.Commit? {
      CommitIs(s, e.t, s');
      match s.txs[e.t]
      case Redeeming(_, _, _, _, _) => RedeemGrows(s, e.t);
      case LoggingOut(_, _, _, _, _) => LogoutGrows(s, e.t);
      case Refreshing(_, _, _) =>
    } else {
      HistoryGrows(s, e, s');
    }
  }

  /** A refresh presents the token that works now, unless an earlier rollback has lost that one. */
  lemma PresentsCurrent(es: seq<Event>, s: State, t: TxId)
    requires Run(es) == Some(s) && t in s.txs && s.txs[t].Refreshing? && s.txs[t].next.None?
    ensures s.txs[t].read in s.ccp.issuer && s.ccp.issuer[s.txs[t].read] in s.ccp.current
    ensures
      || s.ccp.current[s.ccp.issuer[s.txs[t].read]] == s.txs[t].read
      || (s.ccp.issuer[s.txs[t].read] in s.ccp.lost && s.txs[t].read in s.ccp.retired)
  {
    ReachableInv(es, s);
    ReadWorks(s, t);
  }

  /** A rotated-out token is presented only for a grant that lost its token to a rollback. */
  lemma NothingStale(es: seq<Event>, s: State)
    requires Run(es) == Some(s)
    ensures s.ccp.stale <= s.ccp.lost
  {
    ReachableInv(es, s);
    StaleLost(s);
  }

  /** And such a token is presented: by the next refresh of the row that is not served from a cached access token. */
  lemma StalePresented(s: State, t: TxId, sid: Sid)
    requires t !in s.txs && Live(s.sess, sid, s.clock) && RowFree(s.txs, None, sid)
    requires s.sess[sid].token.Some? && s.sess[sid].token.value in s.ccp.issuer
    requires s.sess[sid].token.value in s.ccp.retired
    ensures var m := Step(s, LockForRefresh(t, sid, s.clock)); m.Some? && var n := Step(m.value, Exchange(t, Kept));
      n.Some? && s.ccp.issuer[s.sess[sid].token.value] in n.value.ccp.stale
  {
    hide RowFree, CharacterFree, CodeFree, DoTake, DoDoom, DoCommit, DoRollback, DoPark, DoSweep, RevokeRows;
    var m := Step(s, LockForRefresh(t, sid, s.clock)).value;
    assert m.txs[t] == Refreshing(sid, s.sess[sid].token.value, None) && m.ccp == s.ccp;
  }

  /** A rollback loses a token exactly when CCP had answered the refresh with another one. */
  lemma RollbackExact(es: seq<Event>, s: State, t: TxId, s': State)
    requires Run(es) == Some(s) && t in s.txs && Step(s, Rollback(t)) == Some(s')
    requires s.txs[t].HasAnswer() && s.txs[t].read in s.ccp.issuer && s.ccp.issuer[s.txs[t].read] !in s.ccp.lost
    ensures var sid, g := s.txs[t].sid, s.ccp.issuer[s.txs[t].read];
      && sid in s'.sess && g in s'.ccp.current
      && (s'.sess[sid].token == Some(s'.ccp.current[g]) <==> s.txs[t].next.value == s.txs[t].read)
      && (g in s'.ccp.lost <==> s.txs[t].next.value != s.txs[t].read)
  {
    hide Inv, Step, Apart, Run;
    ReachableInv(es, s);
    TxOf(s, t);
    RollbackIs(s, t, s');
  }

  /** Nothing but such a rollback ever loses one. */
  lemma OnlyRollbacksLose(s: State, e: Event, s': State, g: Grant)
    requires Step(s, e) == Some(s') && g in s'.ccp.lost && g !in s.ccp.lost
    ensures e.Rollback? && e.t in s.txs && s.txs[e.t].HasAnswer() && s.txs[e.t].next.value != s.txs[e.t].read
  {
    hide Step, DoRedeem, RevokeRows, Rehomed;
    if Plain(e) {
      StepFrame(s, e, s');
      if e.Rollback? {
        RollbackCause(s, e.t, s');
      }
    } else if e.Commit? {
      CommitIs(s, e.t, s');
      match s.txs[e.t]
      case Redeeming(_, _, _, _, _) => RedeemIs(s, e.t, s.txs[e.t]);
      case LoggingOut(_, _, _, began, doomed) => RevokeLeaves(Forget(s, e.t), doomed, began);
      case Refreshing(_, _, _) =>
    } else if e.SweepCodes? {
      SweepState(s, e.cs, s');
    } else if e.RevokeNow? {
      StatementIs(s, e, s');
      RevokeLeaves(s, e.ids, s.clock);
    } else {
      StatementIs(s, e, s');
    }
  }

  lemma RevokeLeaves(s: State, ids: set<Sid>, at: int)
    ensures RevokeRows(s, ids, at).ccp == s.ccp
  {
  }

  lemma RollbackCause(s: State, t: TxId, s': State)
    requires Step(s, Rollback(t)) == Some(s') && s'.ccp.lost != s.ccp.lost
    ensures t in s.txs && s.txs[t].HasAnswer() && s.txs[t].next.value != s.txs[t].read
  {
    hide Step;
    RollbackIs(s, t, s');
  }

  /** Two refreshes in flight are of different sessions and of different grants. */
  lemma OneRefreshPerGrant(es: seq<Event>, s: State, t: TxId, u: TxId)
    requires Run(es) == Some(s) && t in s.txs && u in s.txs && t != u && s.txs[t].Refreshing? && s.txs[u].Refreshing?
    ensures s.txs[t].sid != s.txs[u].sid
    ensures s.txs[t].read in s.ccp.issuer && s.txs[u].read in s.ccp.issuer
    ensures s.ccp.issuer[s.txs[t].read] != s.ccp.issuer[s.txs[u].read]
  {
    hide CodesHeld, HandedHeld, OriginsSpent, GrantsPlaced, OneLive, FatesSound, LocksApart, TxsSound, RotationSound;
    hide Works;
    ReachableInv(es, s);
    TxOf(s, t);
    TxOf(s, u);
    assert s.txs[t].sid in s.txs[t].RowLocks();
    assert RowHeld(s.sess[s.txs[t].sid], s.txs[t].sid, s.txs, s.ccp, s.home);
    assert RowHeld(s.sess[s.txs[u].sid], s.txs[u].sid, s.txs, s.ccp, s.home);
  }

  /** A code is parked, or redeemed, or swept; redeemed means that exactly one session was created from it. */
  lemma CodeFate(es: seq<Event>, s: State, c: Code)
    requires Run(es) == Some(s)
    ensures c in s.codes ==> c !in s.fate
    ensures forall id :: (c in s.fate && s.fate[c] == Redeemed(id)) <==> (id in s.born && s.born[id] == c)
    ensures forall a, b :: a in s.born && b in s.born && s.born[a] == s.born[b] ==> a == b
  {
    hide CodesHeld, RowsHeld, HandedHeld, OriginsSpent, GrantsPlaced, OneLive, LocksApart, TxsSound, RotationSound;
    ReachableInv(es, s);
  }

  /** How a code can leave the table.  Either an exchange commits: the new session takes over the grant, and it is the
      only unrevoked session of its character; or a sweep finds it expired, and hands its token back. */
  lemma CodeLeaves(es: seq<Event>, s: State, e: Event, s': State, c: Code)
    requires Run(es) == Some(s) && Step(s, e) == Some(s') && c in s.codes && c !in s'.codes
    ensures e.Commit? || e.SweepCodes?
    ensures e.Commit? ==> c in s'.fate && s'.fate[c] == Redeemed(s.nextId) && SucceedsTo(s'.sess, s.nextId, s.codes[c])
    ensures e.SweepCodes? ==>
      && c in s'.fate && s'.fate[c] == Swept && s.codes[c].expires < s.clock
      && FromCode(c) in s'.handed && s'.handed[FromCode(c)] == s.codes[c].token
  {
    hide Inv, DoRedeem, Run, Step, RevokedRows, HandBack, Rehomed, SucceedsTo;
    ReachableInv(es, s);
    StepKeeps(s, e, s');
    if Plain(e) {
      StepFrame(s, e, s');
    } else if e.Commit? {
      CommitIs(s, e.t, s');
      if s.txs[e.t].Redeeming? {
        RedeemLeaves(s, e.t, c);
      }
    } else if e.SweepCodes? {
      SweepState(s, e.cs, s');
      SweepExpired(s, e.cs, s');
    } else {
      StatementIs(s, e, s');
    }
  }

  lemma SweepExpired(s: State, cs: set<Code>, s': State)
    requires Step(s, SweepCodes(cs)) == Some(s')
    ensures forall c :: c in cs ==> c in s.codes && s.codes[c].expires < s.clock
  {
    hide CodeFree, Rehomed;
  }

  /** The session has taken over the grant of the code, and is the only unrevoked one of its character. */
  ghost predicate SucceedsTo(sess: Rows, id: Sid, row: CodeRow) {
    && Unrevoked(sess, id) && sess[id].token == Some(row.token) && sess[id].character == row.character
    && forall other :: Unrevoked(sess, other) && sess[other].character == row.character ==> other == id
  }

  lemma RedeemLeaves(s: State, t: TxId, c: Code)
    requires Inv(s) && t in s.txs && s.txs[t].Redeeming? && s.txs[t].stage == Doomed
    requires Inv(DoRedeem(s, t, s.txs[t])) && c in s.codes && c !in DoRedeem(s, t, s.txs[t]).codes
    ensures var s' := DoRedeem(s, t, s.txs[t]);
      c in s'.fate && s'.fate[c] == Redeemed(s.nextId) && SucceedsTo(s'.sess, s.nextId, s.codes[c])
  {
    hide Inv, DoRedeem, HandBack, UnrevokedOf;
    OneLiveOf(DoRedeem(s, t, s.txs[t]));
    RedeemSound(s, t);
    RedeemIs(s, t, s.txs[t]);
  }

  lemma OneLiveOf(s: State)
    requires Inv(s)
    ensures forall a, b ::
      Unrevoked(s.sess, a) && Unrevoked(s.sess, b) && s.sess[a].character == s.sess[b].character ==> a == b
  {
    hide CodesHeld, RowsHeld, HandedHeld, OriginsSpent, GrantsPlaced, FatesSound, LocksApart, TxsSound, RotationSound;
  }

  /** What a take finds, and that it takes no row out of the table. */
  lemma TakeFinds(s: State, t: TxId, s': State)
    requires Step(s, Take(t)) == Some(s')
    ensures t in s.txs && s.txs[t].Redeeming? && t in s'.txs && s'.txs[t].Redeeming?
    ensures s'.txs[t].stage == Taken <==> s.txs[t].code in s.codes && s.clock <= s.codes[s.txs[t].code].expires
    ensures s'.txs[t].stage == Expired <==> s.txs[t].code in s.codes && s.clock > s.codes[s.txs[t].code].expires
    ensures s'.codes == s.codes
  {
    hide CharacterFree, CodeFree, RowFree, Live, DoDoom, DoCommit, DoExchange, DoRollback, DoPark, DoSweep, RevokeRows;
  }

  ghost predicate Failed(tx: Tx) {
    tx.Redeeming? && (tx.stage == Missing || tx.stage == Expired)
  }

  /** An exchange whose take failed has nothing left but its rollback: no other step of its own is possible, and until
      then nobody else can touch the row it has deleted; so the row is there afterwards as it was. */
  lemma FailedTakeLeaves(es: seq<Event>, s: State, e: Event, s': State, t: TxId)
    requires Run(es) == Some(s) && Step(s, e) == Some(s') && t in s.txs && Failed(s.txs[t])
    ensures e == Rollback(t) || (t in s'.txs && s'.txs[t] == s.txs[t])
    ensures e == Rollback(t) ==> t !in s'.txs
    ensures s.txs[t].stage == Expired ==>
      var c := s.txs[t].code; c in s.codes && c in s'.codes && s'.codes[c] == s.codes[c]
  {
    hide Run, Inv, Step, DoRedeem, RevokeRows;
    ReachableInv(es, s);
    TxOf(s, t);
    if Plain(e) {
      StepFrame(s, e, s');
      FailedMoves(s, e, s', t);
    } else if e.Commit? {
      CommitIs(s, e.t, s');
      CommitOthers(s, e.t, s', t);
    } else if e.SweepCodes? {
      SweepState(s, e.cs, s');
    } else {
      StatementIs(s, e, s');
      RevokeTables(s, if e.RevokeNow? then e.ids else {}, s.clock);
    }
  }

  lemma RevokeTables(s: State, ids: set<Sid>, at: int)
    ensures RevokeRows(s, ids, at).txs == s.txs && RevokeRows(s, ids, at).codes == s.codes
  {
    hide RevokedRows, HandBack, Rehomed;
  }

  lemma CommitOthers(s: State, u: TxId, s': State, t: TxId)
    requires Inv(s) && Step(s, Commit(u)) == Some(s') && u in s.txs && t in s.txs && Failed(s.txs[t])
    ensures t in s'.txs && s'.txs[t] == s.txs[t]
    ensures s.txs[t].stage == Expired && s.txs[t].code in s.codes ==>
      s.txs[t].code in s'.codes && s'.codes[s.txs[t].code] == s.codes[s.txs[t].code]
  {
    hide Inv, Step, DoRedeem, RevokeRows;
    CommitIs(s, u, s');
    assert u != t;
    TxOf(s, u);
    match s.txs[u]
    case Redeeming(_, _, _, _, _) => RedeemIs(s, u, s.txs[u]);
    case LoggingOut(_, _, _, began, doomed) => RevokeTables(Forget(s, u), doomed, began);
    case Refreshing(_, _, _) => RefreshTables(s, u, s');
  }

  lemma RefreshTables(s: State, t: TxId, s': State)
    requires Step(s, Commit(t)) == Some(s') && t in s.txs && s.txs[t].Refreshing?
    ensures s'.txs == s.txs - {t} && s'.codes == s.codes
  {
    hide DoRedeem, RevokeRows;
    assert DoCommit(s, t, s.txs[t]) == Some(s');
  }

  lemma FailedMoves(s: State, e: Event, s': State, t: TxId)
    requires Step(s, e) == Some(s') && Plain(e) && t in s.txs && Failed(s.txs[t])
    ensures e == Rollback(t) || (t in s'.txs && s'.txs[t] == s.txs[t])
    ensures e == Rollback(t) ==> t !in s'.txs
  {
    hide CharacterFree, CodeFree, RowFree, Live, UnrevokedOf, Unrevoked, DoCommit, DoPark, DoSweep, RevokeRows, Rotate;
    hide Presented;
  }

  /** A session that has existed and is not unrevoked. */
  ghost predicate Gone(sess: Rows, nextId: Sid, id: Sid) {
    id < nextId && !Unrevoked(sess, id)
  }

  lemma StaysGone(s: State, e: Event, s': State, id: Sid)
    requires Step(s, e) == Some(s') && Gone(s.sess, s.nextId, id)
    ensures Gone(s'.sess, s'.nextId, id)
  {
    hide Step, DoRedeem, RevokeRows;
    if Plain(e) {
      StepFrame(s, e, s');
    } else if e.Commit? {
      CommitIs(s, e.t, s');
      match s.txs[e.t]
      case Redeeming(_, _, _, _, _) => RedeemStaysGone(s, e.t, id);
      case LoggingOut(_, _, _, began, doomed) => RevokeStaysGone(Forget(s, e.t), doomed, began, id);
      case Refreshing(_, _, _) => RefreshStaysGone(s, e.t, s', id);
    } else if e.SweepCodes? {
      SweepState(s, e.cs, s');
    } else {
      StatementIs(s, e, s');
      if e.RevokeNow? {
        RevokeStaysGone(s, e.ids, s.clock, id);
      } else if e.PurgeRevoked? {
        PurgeStaysGone(s, e, s', id);
      }
    }
  }

  lemma PurgeStaysGone(s: State, e: Event, s': State, id: Sid)
    requires e.PurgeRevoked? && Step(s, e) == Some(s') && Gone(s.sess, s.nextId, id)
    ensures Gone(s'.sess, s'.nextId, id)
  {
    hide TxStep;
  }

  lemma RevokeStaysGone(s: State, ids: set<Sid>, at: int, id: Sid)
    requires Gone(s.sess, s.nextId, id)
    ensures Gone(RevokeRows(s, ids, at).sess, RevokeRows(s, ids, at).nextId, id)
  {
    hide HandBack, Rehomed;
  }

  lemma RedeemStaysGone(s: State, t: TxId, id: Sid)
    requires t in s.txs && s.txs[t].Redeeming? && Gone(s.sess, s.nextId, id)
    ensures var r := DoRedeem(s, t, s.txs[t]); Gone(r.sess, r.nextId, id)
  {
    hide HandBack, Rehomed, Gone, RevokeRows;
    RevokeStaysGone(Forget(s, t), s.txs[t].doomed, s.txs[t].began, id);
    var r := RevokeRows(Forget(s, t), s.txs[t].doomed, s.txs[t].began);
    AddStaysGone(r.sess, r.nextId, s.nextId,
                 SessRow(s.txs[t].parked.character, Some(s.txs[t].parked.token), s.txs[t].began + LIFETIME, None), id);
    assert r.nextId == s.nextId by { RevokeNext(Forget(s, t), s.txs[t].doomed, s.txs[t].began); }
  }

  lemma RevokeNext(s: State, ids: set<Sid>, at: int)
    ensures RevokeRows(s, ids, at).nextId == s.nextId && RevokeRows(s, ids, at).clock == s.clock
  {
  }

  lemma AddStaysGone(sess: Rows, nextId: Sid, added: Sid, row: SessRow, id: Sid)
    requires Gone(sess, nextId, id)
    ensures added == nextId ==> Gone(sess[added := row], nextId + 1, id)
  {
  }

  lemma RefreshStaysGone(s: State, t: TxId, s': State, id: Sid)
    requires Step(s, Commit(t)) == Some(s') && t in s.txs && s.txs[t].Refreshing? && Gone(s.sess, s.nextId, id)
    ensures Gone(s'.sess, s'.nextId, id)
  {
    hide DoRedeem, RevokeRows;
    assert DoCommit(s, t, s.txs[t]) == Some(s');
  }

  lemma NextGrows(s: State, e: Event, s': State)
    requires Step(s, e) == Some(s')
    ensures s.nextId <= s'.nextId && s.clock <= s'.clock
  {
    hide Step, DoRedeem, RevokeRows;
    if Plain(e) {
      StepFrame(s, e, s');
    } else if e.Commit? {
      CommitIs(s, e.t, s');
      match s.txs[e.t]
      case Redeeming(_, _, _, _, _) => RedeemIs(s, e.t, s.txs[e.t]);
      case LoggingOut(_, _, _, began, doomed) => RevokeNext(Forget(s, e.t), doomed, began);
      case Refreshing(_, _, _) =>
    } else if e.SweepCodes? {
      SweepState(s, e.cs, s');
    } else {
      StatementIs(s, e, s');
      if e.RevokeNow? {
        RevokeNext(s, e.ids, s.clock);
      }
    }
  }

  /** A revoked session never comes back, whatever happens. */
  lemma {:induction false} RevokedIsFinal(before: seq<Event>, after: seq<Event>, id: Sid)
    requires before <= after && Run(before).Some? && Run(after).Some?
    ensures var s, s' := Run(before).value, Run(after).value;
      && s.nextId <= s'.nextId && s.clock <= s'.clock
      && (Gone(s.sess, s.nextId, id) ==> Gone(s'.sess, s'.nextId, id))
    decreases |after|
  {
    hide Step, Gone;
    if |before| < |after| {
      var init := after[..|after| - 1];
      assert before <= init;
      RevokedIsFinal(before, init, id);
      NextGrows(Run(init).value, after[|after| - 1], Run(after).value);
      if Gone(Run(init).value.sess, Run(init).value.nextId, id) {
        StaysGone(Run(init).value, after[|after| - 1], Run(after).value, id);
      }
    } else {
      assert before == after;
    }
  }
}
