/** Every step of the session protocol keeps custody: the remaining steps, and all of them together. */
module CustodySteps {
  import opened Options
  import opened SessionProtocol
  import opened GrantCustody

  lemma UnlockedMoves(s: State, t: TxId, tx: Tx)
    requires Inv(s) && TxSound(tx, s.codes, s.fate, s.sess, s.ccp)
    requires t in s.txs ==> !s.txs[t].HasAnswer()
    requires tx.CharacterLock().None? && tx.CodeLock().None? && tx.RowLocks() == {}
    ensures Inv(s.(txs := s.txs[t := tx]))
  {
    hide Inv;
    TxMoves(s, t, tx);
  }

  lemma TxOf(s: State, t: TxId)
    requires Inv(s) && t in s.txs
    ensures TxSound(s.txs[t], s.codes, s.fate, s.sess, s.ccp)
    ensures forall u :: u in s.txs && u != t ==> Apart(s.txs[t], s.txs[u]) && Apart(s.txs[u], s.txs[t])
  {
    hide CodesHeld, RowsHeld, HandedHeld, OriginsSpent, GrantsPlaced, OneLive, RotationSound, FatesSound, Apart;
    hide TxSound;
  }

  lemma LockCharacterKeeps(s: State, t: TxId, s': State)
    requires Inv(s) && Step(s, LockCharacter(t)) == Some(s')
    ensures Inv(s')
  {
    hide Inv;
    TxOf(s, t);
    TxMoves(s, t, s'.txs[t]);
  }

  lemma TakeSound(tx: Tx, stage: Stage, codes: Codes, fate: map<Code, Fate>, sess: Rows, ccp: Ccp)
    requires TxSound(tx, codes, fate, sess, ccp) && tx.Redeeming? && tx.stage == Locked
    requires stage == Missing || (tx.code in codes && (stage == Taken || stage == Expired))
    ensures TxSound(tx.To(stage, tx.began, {}), codes, fate, sess, ccp)
  {
  }

  lemma TakeApart(txs: Txs, t: TxId, u: TxId, stage: Stage)
    requires t in txs && u in txs && u != t && txs[t].Redeeming? && txs[t].stage == Locked
    requires Apart(txs[t], txs[u]) && Apart(txs[u], txs[t]) && CodeFree(txs, Some(t), txs[t].code)
    requires stage == Missing || stage == Taken || stage == Expired
    ensures var tx := txs[t].To(stage, txs[t].began, {}); Apart(tx, txs[u]) && Apart(txs[u], tx)
  {
  }

  lemma TakeKeeps(s: State, t: TxId, s': State)
    requires Inv(s) && t in s.txs && s.txs[t].Redeeming? && s.txs[t].stage == Locked
    requires DoTake(s, t, s.txs[t]) == Some(s')
    ensures Inv(s')
  {
    hide Inv, TxSound, Apart, CodeFree;
    TxOf(s, t);
    var stage := s'.txs[t].stage;
    TakeSound(s.txs[t], stage, s.codes, s.fate, s.sess, s.ccp);
    forall u | u in s.txs && u != t
      ensures Apart(s'.txs[t], s.txs[u]) && Apart(s.txs[u], s'.txs[t])
    {
      TakeApart(s.txs, t, u, stage);
    }
    TxMoves(s, t, s'.txs[t]);
  }

  lemma DoomKeeps(s: State, t: TxId, s': State)
    requires Inv(s) && Step(s, Doom(t)) == Some(s')
    ensures Inv(s')
  {
    hide Inv;
    TxOf(s, t);
    var tx := s'.txs[t];
    forall u | u in s.txs && u != t
      ensures Apart(tx, s.txs[u]) && Apart(s.txs[u], tx)
    {
      assert Apart(s.txs[t], s.txs[u]) && Apart(s.txs[u], s.txs[t]);
      assert forall id :: id in tx.RowLocks() ==> RowFree(s.txs, Some(t), id);
      assert forall id :: id in tx.RowLocks() ==> id !in s.txs[u].RowLocks();
    }
    TxMoves(s, t, tx);
  }

  lemma ReadySound(s: State, sid: Sid)
    requires Inv(s) && sid in s.sess && s.sess[sid].token.Some?
    ensures TxSound(Refreshing(sid, s.sess[sid].token.value, None), s.codes, s.fate, s.sess, s.ccp)
  {
    hide CodesHeld, HandedHeld, OriginsSpent, OneLive, FatesSound, LocksApart, TxsSound;
    assert RowHeld(s.sess[sid], sid, s.txs, s.ccp, s.home);
  }

  lemma LockForRefreshKeeps(s: State, t: TxId, sid: Sid, now: int, s': State)
    requires Inv(s) && Step(s, LockForRefresh(t, sid, now)) == Some(s')
    ensures Inv(s')
  {
    hide Inv;
    ReadySound(s, sid);
    TxMoves(s, t, s'.txs[t]);
  }

  /** Before its answer, a refresh reads a token that works: the row was settled when it was locked. */
  lemma ReadWorks(s: State, t: TxId)
    requires Inv(s) && t in s.txs && s.txs[t].Refreshing? && s.txs[t].next.None?
    ensures Works(s.ccp, s.txs[t].read)
    ensures Keeps(s.ccp, s.home, s.txs[t].read, InSession(s.txs[t].sid)) && Settled(s.txs, s.txs[t].sid)
  {
    hide CodesHeld, HandedHeld, OriginsSpent, GrantsPlaced, OneLive, FatesSound, RotationSound, Works, Keeps;
    var sid := s.txs[t].sid;
    TxOf(s, t);
    forall u | u in s.txs && s.txs[u].HasAnswer()
      ensures s.txs[u].sid != sid
    {
      assert sid in s.txs[t].RowLocks();
    }
    assert RowHeld(s.sess[sid], sid, s.txs, s.ccp, s.home);
  }

  lemma SameAnswerKeeps(s: State, t: TxId)
    requires Inv(s) && t in s.txs && s.txs[t].Refreshing? && s.txs[t].next.None?
    ensures Inv(s.(txs := s.txs[t := s.txs[t].Answered(s.txs[t].read)]))
  {
    hide Inv, Works;
    ReadWorks(s, t);
    TxOf(s, t);
    TxMoves(s, t, s.txs[t].Answered(s.txs[t].read));
  }

  /** What is presented, and what is lost, is history: nobody's token stops working by it. */
  lemma HistoryRows(codes: Codes, sess: Rows, txs: Txs, handed: map<Origin, Token>, ccp: Ccp, ccp': Ccp, home: Homes)
    requires CodesHeld(codes, ccp, home) && RowsHeld(sess, txs, ccp, home) && HandedHeld(handed, ccp, home)
    requires GrantsPlaced(codes, sess, handed, ccp, home)
    requires ccp' == ccp.(lost := ccp'.lost, stale := ccp'.stale) && ccp.lost <= ccp'.lost
    ensures CodesHeld(codes, ccp', home) && RowsHeld(sess, txs, ccp', home) && HandedHeld(handed, ccp', home)
    ensures GrantsPlaced(codes, sess, handed, ccp', home)
  {
    assert forall token, p :: Keeps(ccp, home, token, p) ==> Keeps(ccp', home, token, p);
    assert forall token :: Works(ccp, token) ==> Works(ccp', token);
    forall id | id in sess
      ensures RowHeld(sess[id], id, txs, ccp', home)
    {
      assert RowHeld(sess[id], id, txs, ccp, home);
    }
    forall g | g in home
      ensures Holds(TokenAt(home[g], codes, sess, handed), g, ccp')
    {
      assert Holds(TokenAt(home[g], codes, sess, handed), g, ccp);
    }
  }

  lemma HistoryTxs(txs: Txs, codes: Codes, fate: map<Code, Fate>, sess: Rows, ccp: Ccp, ccp': Ccp)
    requires TxsSound(txs, codes, fate, sess, ccp)
    requires ccp' == ccp.(lost := ccp'.lost, stale := ccp'.stale) && ccp.lost <= ccp'.lost
    ensures TxsSound(txs, codes, fate, sess, ccp')
  {
    forall t | t in txs
      ensures TxSound(txs[t], codes, fate, sess, ccp')
    {
      assert TxSound(txs[t], codes, fate, sess, ccp);
    }
  }

  lemma HistoryKeeps(s: State, ccp': Ccp)
    requires Inv(s) && ccp' == s.ccp.(lost := ccp'.lost, stale := ccp'.stale) && s.ccp.lost <= ccp'.lost
    requires ccp'.stale <= ccp'.lost
    ensures Inv(s.(ccp := ccp'))
  {
    hide CodesHeld, RowsHeld, HandedHeld, OriginsSpent, GrantsPlaced, OneLive, FatesSound, LocksApart, TxsSound;
    HistoryRows(s.codes, s.sess, s.txs, s.handed, s.ccp, ccp', s.home);
    HistoryTxs(s.txs, s.codes, s.fate, s.sess, s.ccp, ccp');
  }

  /** A rotated-out token is presented only for a grant whose rotation was rolled back. */
  lemma PresentedKeeps(s: State, token: Token)
    requires Inv(s) && Works(s.ccp, token)
    ensures Inv(s.(ccp := Presented(s.ccp, token)))
  {
    hide CodesHeld, RowsHeld, HandedHeld, OriginsSpent, GrantsPlaced, OneLive, FatesSound, LocksApart, TxsSound;
    HistoryKeeps(s, Presented(s.ccp, token));
  }

  /** Only the holder of the rotated grant is touched. */
  lemma OthersWork(ccp: Ccp, home: Homes, read: Token, next: Token, sid: Sid, token: Token, p: Place)
    requires Keeps(ccp, home, read, InSession(sid)) && next !in ccp.issuer
    requires Keeps(ccp, home, token, p)
    ensures Keeps(Rotate(ccp, read, next), home, token, p)
    ensures p != InSession(sid) && Works(ccp, token) ==> Works(Rotate(ccp, read, next), token)
  {
  }

  lemma RotateHomes(codes: Codes, sess: Rows, txs: Txs, txs': Txs, handed: map<Origin, Token>, ccp: Ccp, home: Homes,
                    read: Token, next: Token, sid: Sid)
    requires CodesHeld(codes, ccp, home) && RowsHeld(sess, txs, ccp, home) && HandedHeld(handed, ccp, home)
    requires Keeps(ccp, home, read, InSession(sid)) && next !in ccp.issuer && !Settled(txs', sid)
    requires forall id :: id != sid && Settled(txs', id) ==> Settled(txs, id)
    ensures var ccp' := Rotate(ccp, read, next);
      CodesHeld(codes, ccp', home) && RowsHeld(sess, txs', ccp', home) && HandedHeld(handed, ccp', home)
  {
    hide Keeps, Works, Settled, Rotate;
    assert read in ccp.issuer by { Issued(ccp, home, read, InSession(sid)); }
    forall c | c in codes
      ensures Keeps(Rotate(ccp, read, next), home, codes[c].token, InCode(c))
      ensures Works(Rotate(ccp, read, next), codes[c].token)
    {
      OthersWork(ccp, home, read, next, sid, codes[c].token, InCode(c));
    }
    forall o | o in handed
      ensures Keeps(Rotate(ccp, read, next), home, handed[o], HandedBack(o))
      ensures Works(Rotate(ccp, read, next), handed[o])
    {
      OthersWork(ccp, home, read, next, sid, handed[o], HandedBack(o));
    }
    forall id | id in sess
      ensures RowHeld(sess[id], id, txs', Rotate(ccp, read, next), home)
    {
      assert RowHeld(sess[id], id, txs, ccp, home);
      if sess[id].token.Some? {
        OthersWork(ccp, home, read, next, sid, sess[id].token.value, InSession(id));
      }
    }
  }

  lemma Issued(ccp: Ccp, home: Homes, token: Token, p: Place)
    requires Keeps(ccp, home, token, p)
    ensures token in ccp.issuer
  {
  }

  lemma RotateTxs(txs: Txs, t: TxId, codes: Codes, fate: map<Code, Fate>, sess: Rows, ccp: Ccp, home: Homes,
                  next: Token)
    requires LocksApart(txs) && TxsSound(txs, codes, fate, sess, ccp) && RowsHeld(sess, txs, ccp, home)
    requires t in txs && txs[t].Refreshing? && next !in ccp.issuer
    requires Keeps(ccp, home, txs[t].read, InSession(txs[t].sid))
    requires RotationSound(ccp)
    ensures var ccp' := Rotate(ccp, txs[t].read, next);
      LocksApart(txs[t := txs[t].Answered(next)])
      && TxsSound(txs[t := txs[t].Answered(next)], codes, fate, sess, ccp')
  {
    var ccp' := Rotate(ccp, txs[t].read, next);
    forall u | u in txs && u != t
      ensures TxSound(txs[u], codes, fate, sess, ccp')
    {
      assert TxSound(txs[u], codes, fate, sess, ccp);
      if txs[u].Refreshing? {
        var id := txs[u].sid;
        assert Apart(txs[t], txs[u]);
        assert id in txs[u].RowLocks();
        assert RowHeld(sess[id], id, txs, ccp, home);
      }
    }
    assert TxSound(txs[t], codes, fate, sess, ccp);
    forall u | u in txs && u != t
      ensures Apart(txs[t].Answered(next), txs[u]) && Apart(txs[u], txs[t].Answered(next))
    {
      assert Apart(txs[t], txs[u]) && Apart(txs[u], txs[t]);
    }
    LocksApartUpdate(txs, t, txs[t].Answered(next));
  }

  lemma RotateRest(codes: Codes, sess: Rows, handed: map<Origin, Token>, ccp: Ccp, home: Homes, read: Token,
                   next: Token)
    requires GrantsPlaced(codes, sess, handed, ccp, home) && RotationSound(ccp)
    requires read in ccp.issuer && next !in ccp.issuer
    ensures GrantsPlaced(codes, sess, handed, Rotate(ccp, read, next), home)
    ensures RotationSound(Rotate(ccp, read, next))
  {
    forall g | g in home
      ensures Holds(TokenAt(home[g], codes, sess, handed), g, Rotate(ccp, read, next))
    {
      assert Holds(TokenAt(home[g], codes, sess, handed), g, ccp);
    }
  }

  lemma AnswerUnsettles(txs: Txs, t: TxId, next: Token)
    requires t in txs && txs[t].Refreshing? && txs[t].next.None?
    ensures var txs' := txs[t := txs[t].Answered(next)];
      !Settled(txs', txs[t].sid) && forall id :: id != txs[t].sid && Settled(txs', id) ==> Settled(txs, id)
  {
    var txs' := txs[t := txs[t].Answered(next)];
    assert txs'[t].HasAnswer();
    assert forall u :: u in txs && txs[u].HasAnswer() ==> txs'[u] == txs[u];
  }

  lemma RotatedKeeps(s: State, t: TxId, next: Token)
    requires Inv(s) && t in s.txs && s.txs[t].Refreshing? && s.txs[t].next.None? && next !in s.ccp.issuer
    requires s.txs[t].read in s.ccp.issuer
    ensures Inv(s.(txs := s.txs[t := s.txs[t].Answered(next)], ccp := Rotate(s.ccp, s.txs[t].read, next)))
  {
    hide CodesHeld, RowsHeld, HandedHeld, OriginsSpent, GrantsPlaced, OneLive, FatesSound, LocksApart, TxsSound;
    hide RotationSound, Works, Keeps, Settled, Rotate;
    ReadWorks(s, t);
    var tx := s.txs[t];
    var txs' := s.txs[t := tx.Answered(next)];
    AnswerUnsettles(s.txs, t, next);
    RotateHomes(s.codes, s.sess, s.txs, txs', s.handed, s.ccp, s.home, tx.read, next, tx.sid);
    RotateTxs(s.txs, t, s.codes, s.fate, s.sess, s.ccp, s.home, next);
    RotateRest(s.codes, s.sess, s.handed, s.ccp, s.home, tx.read, next);
  }

  lemma ExchangeKeeps(s: State, t: TxId, answer: Answer, s': State)
    requires Inv(s) && Step(s, Exchange(t, answer)) == Some(s')
    ensures Inv(s')
  {
    hide Inv, Works, Keeps, Rotate;
    var tx := s.txs[t];
    if answer.Cached? {
      SameAnswerKeeps(s, t);
    } else {
      ReadWorks(s, t);
      PresentedKeeps(s, tx.read);
      var p := s.(ccp := Presented(s.ccp, tx.read));
      if answer.Kept? {
        SameAnswerKeeps(p, t);
      } else {
        RotatedKeeps(p, t, answer.token);
      }
    }
  }

  /** A rollback costs a grant its token only when CCP had rotated it. */
  lemma RollbackKeeps(s: State, t: TxId)
    requires Inv(s) && t in s.txs
    ensures Inv(DoRollback(s, t, s.txs[t]))
  {
    hide Inv;
    var tx := s.txs[t];
    var r := DoRollback(s, t, tx);
    TxOf(s, t);
    StaleLost(s);
    if r.ccp != s.ccp {
      HistoryKeeps(s, r.ccp);
      assert Works(r.ccp, tx.read) && s.sess[tx.sid].token == Some(tx.read);
    }
    ForgetKeeps(s.(ccp := r.ccp), t);
  }

  lemma StaleLost(s: State)
    requires Inv(s)
    ensures s.ccp.stale <= s.ccp.lost
  {
    hide CodesHeld, RowsHeld, HandedHeld, OriginsSpent, GrantsPlaced, OneLive, FatesSound, LocksApart, TxsSound;
  }

  function WithToken(sess: Rows, sid: Sid, token: Token): Rows
    requires sid in sess
  {
    sess[sid := sess[sid].(token := Some(token))]
  }

  lemma WriteHomes(sess: Rows, txs: Txs, ccp: Ccp, home: Homes, t: TxId)
    requires RowsHeld(sess, txs, ccp, home) && t in txs && txs[t].HasAnswer() && Unrevoked(sess, txs[t].sid)
    requires Keeps(ccp, home, txs[t].next.value, InSession(txs[t].sid)) && Works(ccp, txs[t].next.value)
    ensures RowsHeld(WithToken(sess, txs[t].sid, txs[t].next.value), txs - {t}, ccp, home)
  {
    var sess' := WithToken(sess, txs[t].sid, txs[t].next.value);
    forall id | id in sess
      ensures RowHeld(sess'[id], id, txs - {t}, ccp, home)
    {
      assert RowHeld(sess[id], id, txs, ccp, home);
      if id != txs[t].sid && Settled(txs - {t}, id) {
        assert forall u :: u in txs && txs[u].HasAnswer() && u != t ==> u in txs - {t};
        assert Settled(txs, id);
      }
    }
  }

  lemma WriteTxs(txs: Txs, codes: Codes, fate: map<Code, Fate>, sess: Rows, ccp: Ccp, t: TxId, token: Token)
    requires LocksApart(txs) && TxsSound(txs, codes, fate, sess, ccp) && t in txs && txs[t].Refreshing?
    requires txs[t].sid in sess
    ensures LocksApart(txs - {t}) && TxsSound(txs - {t}, codes, fate, WithToken(sess, txs[t].sid, token), ccp)
  {
    var sess' := WithToken(sess, txs[t].sid, token);
    assert forall c :: UnrevokedOf(sess', c) == UnrevokedOf(sess, c);
    forall u | u in txs && u != t
      ensures TxSound(txs[u], codes, fate, sess', ccp)
    {
      assert TxSound(txs[u], codes, fate, sess, ccp);
      assert Apart(txs[t], txs[u]);
      assert txs[t].sid in txs[t].RowLocks();
    }
  }

  lemma WritePlaces(codes: Codes, sess: Rows, handed: map<Origin, Token>, ccp: Ccp, home: Homes, sid: Sid, token: Token)
    requires GrantsPlaced(codes, sess, handed, ccp, home) && sid in sess
    requires token in ccp.issuer && sess[sid].token.Some? && sess[sid].token.value in ccp.issuer
    requires ccp.issuer[sess[sid].token.value] == ccp.issuer[token]
    ensures GrantsPlaced(codes, WithToken(sess, sid, token), handed, ccp, home)
  {
    forall g | g in home
      ensures Holds(TokenAt(home[g], codes, WithToken(sess, sid, token), handed), g, ccp)
    {
      assert Holds(TokenAt(home[g], codes, sess, handed), g, ccp);
    }
  }

  lemma WriteRest(codes: Codes, sess: Rows, nextId: Sid, handed: map<Origin, Token>, fate: map<Code, Fate>,
                  born: map<Sid, Code>,
                  sid: Sid, token: Token)
    requires OriginsSpent(handed, sess, nextId, fate) && OneLive(sess) && FatesSound(codes, fate, born, sess, nextId)
    requires sid in sess
    ensures var sess' := WithToken(sess, sid, token);
      OriginsSpent(handed, sess', nextId, fate) && OneLive(sess') && FatesSound(codes, fate, born, sess', nextId)
  {
    assert forall id :: Unrevoked(WithToken(sess, sid, token), id) == Unrevoked(sess, id);
  }

  lemma CommitRefreshKeeps(s: State, t: TxId)
    requires Inv(s) && t in s.txs && s.txs[t].HasAnswer()
    ensures s.txs[t].sid in s.sess
    ensures Inv(Forget(s, t).(sess := WithToken(s.sess, s.txs[t].sid, s.txs[t].next.value)))
  {
    hide CodesHeld, HandedHeld, OriginsSpent, GrantsPlaced, OneLive, FatesSound, LocksApart;
    var tx := s.txs[t];
    assert TxSound(tx, s.codes, s.fate, s.sess, s.ccp);
    assert RowHeld(s.sess[tx.sid], tx.sid, s.txs, s.ccp, s.home);
    WriteHomes(s.sess, s.txs, s.ccp, s.home, t);
    WriteTxs(s.txs, s.codes, s.fate, s.sess, s.ccp, t, tx.next.value);
    WritePlaces(s.codes, s.sess, s.handed, s.ccp, s.home, tx.sid, tx.next.value);
    WriteRest(s.codes, s.sess, s.nextId, s.handed, s.fate, s.born, tx.sid, tx.next.value);
  }

  lemma CommitKeeps(s: State, t: TxId, s': State)
    requires Inv(s) && Step(s, Commit(t)) == Some(s')
    ensures Inv(s')
  {
    hide Inv, DoRedeem, RevokeRows;
    match s.txs[t]
    case Redeeming(_, _, _, _, _) => RedeemKeeps(s, t);
    case LoggingOut(_, _, _, _, _) => LogoutKeeps(s, t);
    case Refreshing(_, _, _) => CommitRefreshKeeps(s, t);
  }

  function SweptTokens(codes: Codes, cs: set<Code>): map<Origin, Token> {
    map c | c in cs && c in codes :: FromCode(c) := codes[c].token
  }

  function SweptFates(cs: set<Code>): map<Code, Fate> {
    map c | c in cs :: Swept
  }

  lemma SweepHomes(codes: Codes, sess: Rows, txs: Txs, handed: map<Origin, Token>, ccp: Ccp, home: Homes, cs: set<Code>)
    requires CodesHeld(codes, ccp, home) && RowsHeld(sess, txs, ccp, home) && HandedHeld(handed, ccp, home)
    ensures var home' := Rehomed(home, {}, cs);
      && CodesHeld(codes - cs, ccp, home') && RowsHeld(sess, txs, ccp, home')
      && HandedHeld(handed + SweptTokens(codes, cs), ccp, home')
  {
    forall id | id in sess
      ensures RowHeld(sess[id], id, txs, ccp, Rehomed(home, {}, cs))
    {
      assert RowHeld(sess[id], id, txs, ccp, home);
    }
  }

  lemma SweptHolds(p: Place, g: Grant, codes: Codes, sess: Rows, handed: map<Origin, Token>, fate: map<Code, Fate>,
                   nextId: Sid,
                   ccp: Ccp, cs: set<Code>)
    requires OriginsSpent(handed, sess, nextId, fate) && Holds(TokenAt(p, codes, sess, handed), g, ccp)
    requires forall c :: c in codes ==> c !in fate
    ensures Holds(TokenAt(Moved(p, {}, cs), codes - cs, sess, handed + SweptTokens(codes, cs)), g, ccp)
  {
    if p.HandedBack? {
      assert p.origin !in SweptTokens(codes, cs);
    }
  }

  lemma SweepPlaces(codes: Codes, sess: Rows, handed: map<Origin, Token>, fate: map<Code, Fate>, nextId: Sid, ccp: Ccp,
                    home: Homes, cs: set<Code>)
    requires GrantsPlaced(codes, sess, handed, ccp, home) && OriginsSpent(handed, sess, nextId, fate)
    requires forall c :: c in codes ==> c !in fate
    ensures GrantsPlaced(codes - cs, sess, handed + SweptTokens(codes, cs), ccp, Rehomed(home, {}, cs))
  {
    hide OriginsSpent, SweptTokens, Moved, TokenAt;
    forall g | g in home
      ensures Holds(TokenAt(Rehomed(home, {}, cs)[g], codes - cs, sess, handed + SweptTokens(codes, cs)), g, ccp)
    {
      SweptHolds(home[g], g, codes, sess, handed, fate, nextId, ccp, cs);
    }
  }

  lemma SweepTxs(txs: Txs, codes: Codes, fate: map<Code, Fate>, sess: Rows, ccp: Ccp, cs: set<Code>)
    requires TxsSound(txs, codes, fate, sess, ccp) && forall c :: c in cs ==> CodeFree(txs, None, c)
    ensures TxsSound(txs, codes - cs, fate + SweptFates(cs), sess, ccp)
  {
    forall t | t in txs
      ensures TxSound(txs[t], codes - cs, fate + SweptFates(cs), sess, ccp)
    {
      assert TxSound(txs[t], codes, fate, sess, ccp);
    }
  }

  lemma SweepRest(codes: Codes, sess: Rows, nextId: Sid, handed: map<Origin, Token>, fate: map<Code, Fate>,
                  born: map<Sid, Code>,
                  cs: set<Code>)
    requires OriginsSpent(handed, sess, nextId, fate) && FatesSound(codes, fate, born, sess, nextId)
    requires forall c :: c in cs ==> c in codes
    ensures OriginsSpent(handed + SweptTokens(codes, cs), sess, nextId, fate + SweptFates(cs))
    ensures FatesSound(codes - cs, fate + SweptFates(cs), born, sess, nextId)
  {
  }

  lemma SweepState(s: State, cs: set<Code>, s': State)
    requires Step(s, SweepCodes(cs)) == Some(s')
    ensures s' == s.(codes := s.codes - cs, handed := s.handed + SweptTokens(s.codes, cs),
                     home := Rehomed(s.home, {}, cs),
                     fate := s.fate + SweptFates(cs))
    ensures forall c :: c in cs ==> c in s.codes && CodeFree(s.txs, None, c)
  {
    hide Rehomed, CodeFree, TxStep, DoLockForRefresh, DoPark, RevokeRows;
  }

  lemma SweepKeeps(s: State, cs: set<Code>, s': State)
    requires Inv(s) && Step(s, SweepCodes(cs)) == Some(s')
    ensures Inv(s')
  {
    hide CodesHeld, RowsHeld, HandedHeld, OriginsSpent, GrantsPlaced, OneLive, LocksApart, TxsSound, RotationSound;
    hide Rehomed, Step, SweptTokens, SweptFates;
    SweepState(s, cs, s');
    SweepHomes(s.codes, s.sess, s.txs, s.handed, s.ccp, s.home, cs);
    SweepPlaces(s.codes, s.sess, s.handed, s.fate, s.nextId, s.ccp, s.home, cs);
    SweepTxs(s.txs, s.codes, s.fate, s.sess, s.ccp, cs);
    SweepRest(s.codes, s.sess, s.nextId, s.handed, s.fate, s.born, cs);
  }

  /** Deleting revoked rows takes nothing anyone relies on. */
  ghost predicate Purges(sess: Rows, sess': Rows) {
    && (forall id :: id in sess' ==> id in sess && sess'[id] == sess[id])
    && (forall id :: Unrevoked(sess, id) ==> id in sess')
  }

  lemma PurgeRows(codes: Codes, sess: Rows, sess': Rows, txs: Txs, handed: map<Origin, Token>, ccp: Ccp, home: Homes)
    requires Purges(sess, sess') && RowsHeld(sess, txs, ccp, home) && GrantsPlaced(codes, sess, handed, ccp, home)
    ensures RowsHeld(sess', txs, ccp, home) && GrantsPlaced(codes, sess', handed, ccp, home)
  {
    forall id | id in sess
      ensures RowHeld(sess[id], id, txs, ccp, home)
    {
    }
    forall g | g in home
      ensures Holds(TokenAt(home[g], codes, sess', handed), g, ccp)
    {
      assert Holds(TokenAt(home[g], codes, sess, handed), g, ccp);
    }
  }

  lemma PurgeTxs(txs: Txs, codes: Codes, fate: map<Code, Fate>, sess: Rows, sess': Rows, ccp: Ccp)
    requires Purges(sess, sess') && TxsSound(txs, codes, fate, sess, ccp)
    ensures TxsSound(txs, codes, fate, sess', ccp)
  {
    assert forall c :: UnrevokedOf(sess', c) == UnrevokedOf(sess, c) by {
      assert forall id :: id in sess && sess[id].revokedAt.None? ==> Unrevoked(sess, id);
    }
    forall t | t in txs
      ensures TxSound(txs[t], codes, fate, sess', ccp)
    {
      assert TxSound(txs[t], codes, fate, sess, ccp);
    }
  }

  lemma PurgeRest(codes: Codes, sess: Rows, sess': Rows, nextId: Sid, handed: map<Origin, Token>, fate: map<Code, Fate>,
                  born: map<Sid, Code>)
    requires Purges(sess, sess') && OriginsSpent(handed, sess, nextId, fate) && OneLive(sess)
    requires FatesSound(codes, fate, born, sess, nextId)
    ensures OriginsSpent(handed, sess', nextId, fate) && OneLive(sess') && FatesSound(codes, fate, born, sess', nextId)
  {
    assert forall id :: Unrevoked(sess', id) ==> Unrevoked(sess, id);
  }

  lemma PurgeKeeps(s: State, now: int, s': State)
    requires Inv(s) && Step(s, PurgeRevoked(now)) == Some(s')
    ensures Inv(s')
  {
    hide CodesHeld, RowsHeld, HandedHeld, OriginsSpent, GrantsPlaced, OneLive, LocksApart, TxsSound, RotationSound;
    hide FatesSound;
    assert Purges(s.sess, s'.sess);
    PurgeRows(s.codes, s.sess, s'.sess, s.txs, s.handed, s.ccp, s.home);
    PurgeTxs(s.txs, s.codes, s.fate, s.sess, s'.sess, s.ccp);
    PurgeRest(s.codes, s.sess, s'.sess, s.nextId, s.handed, s.fate, s.born);
  }

  lemma RevokeNowKeeps(s: State, ids: set<Sid>, s': State)
    requires Inv(s) && Step(s, RevokeNow(ids)) == Some(s')
    ensures Inv(s')
  {
    hide Inv, RevokeRows;
    assert forall id, t :: id in ids && t in s.txs ==> id !in s.txs[t].RowLocks();
    RevokeKeeps(s, ids, s.clock);
  }

  lemma OpenKeeps(s: State, e: Event, s': State)
    requires Inv(s) && Step(s, e) == Some(s') && (e.Fetch? || e.Begin? || e.BeginLogout?)
    ensures Inv(s')
  {
    hide CodesHeld, RowsHeld, HandedHeld, OriginsSpent, GrantsPlaced, OneLive, LocksApart, RotationSound, FatesSound;
    if e.Begin? {
      assert TxSound(s.txs[e.t], s.codes, s.fate, s.sess, s.ccp);
    }
    UnlockedMoves(s, e.t, s'.txs[e.t]);
  }

  /** Whatever happens next, custody holds. */
  lemma StepKeeps(s: State, e: Event, s': State)
    requires Inv(s) && Step(s, e) == Some(s')
    ensures Inv(s')
  {
    match e
    case Tick(_) =>
    case Park(code, character, token, grant, binding) =>
      hide Inv;
      ParkKeeps(s, code, character, token, grant, binding, s');
    case Fetch(_, _) => hide Inv; OpenKeeps(s, e, s');
    case Begin(_) => hide Inv; OpenKeeps(s, e, s');
    case BeginLogout(_, _, _) => hide Inv; OpenKeeps(s, e, s');
    case LockCharacter(t) => hide Inv; LockCharacterKeeps(s, t, s');
    case Take(t) => hide Inv; TakeKeeps(s, t, s');
    case Doom(t) => hide Inv; DoomKeeps(s, t, s');
    case Commit(t) => hide Inv; CommitKeeps(s, t, s');
    case Rollback(t) => hide Inv; RollbackKeeps(s, t);
    case LockForRefresh(t, sid, now) => hide Inv; LockForRefreshKeeps(s, t, sid, now, s');
    case Exchange(t, answer) => hide Inv; ExchangeKeeps(s, t, answer, s');
    case RevokeNow(ids) => hide Inv; RevokeNowKeeps(s, ids, s');
    case SweepCodes(cs) => hide Inv; SweepKeeps(s, cs, s');
    case PurgeRevoked(now) => hide Inv; PurgeKeeps(s, now, s');
  }
}
