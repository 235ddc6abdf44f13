/** Custody of EVE grants, one live session per character, and the life of an authorization code. */
module GrantCustody {
  import opened Options
  import opened SessionProtocol

  type Txs = map<TxId, Tx>
  type Rows = map<Sid, SessRow>
  type Codes = map<Code, CodeRow>
  type Homes = map<Grant, Place>

  ghost predicate Apart(a: Tx, b: Tx) {
    && (a.CharacterLock().Some? ==> a.CharacterLock() != b.CharacterLock())
    && (a.CodeLock().Some? ==> a.CodeLock() != b.CodeLock())
    && a.RowLocks() !! b.RowLocks()
  }

  /** No two open transactions hold the same lock. */
  ghost predicate LocksApart(txs: Txs) {
    forall t, u :: t in txs && u in txs && t != u ==> Apart(txs[t], txs[u])
  }

  /** What an open transaction may rely on about the rows it has locked. */
  ghost predicate TxSound(tx: Tx, codes: Codes, fate: map<Code, Fate>, sess: Rows, ccp: Ccp) {
    match tx
    case Redeeming(stage, code, parked, _, doomed) =>
      && (code in codes || code in fate)
      && (code in codes ==> codes[code] == parked)
      && (tx.CodeLock().Some? ==> code in codes)
      && (stage == Doomed ==> doomed == UnrevokedOf(sess, parked.character))
    case LoggingOut(stage, _, _, _, doomed) =>
      stage == Doomed ==> forall id :: id in doomed ==> Unrevoked(sess, id)
    case Refreshing(sid, read, next) =>
      && Unrevoked(sess, sid) && sess[sid].token == Some(read)
      && read in ccp.issuer && ccp.issuer[read] in ccp.current
      && (next.Some? ==>
          && Works(ccp, next.value) && ccp.issuer[next.value] == ccp.issuer[read]
          && (next.value == read || read in ccp.retired))
  }

  ghost predicate TxsSound(txs: Txs, codes: Codes, fate: map<Code, Fate>, sess: Rows, ccp: Ccp) {
    forall t :: t in txs ==> TxSound(txs[t], codes, fate, sess, ccp)
  }

  /** No refresh of the row has had its answer without having committed it. */
  ghost predicate Settled(txs: Txs, id: Sid) {
    forall t :: t in txs && txs[t].HasAnswer() ==> txs[t].sid != id
  }

  ghost predicate Keeps(ccp: Ccp, home: Homes, token: Token, p: Place) {
    token in ccp.issuer && ccp.issuer[token] in home && home[ccp.issuer[token]] == p
  }

  /** The token is the one of its grant that works now; or it has been rotated out, and a rollback has lost the one that
      works. */
  ghost predicate Works(ccp: Ccp, token: Token) {
    && token in ccp.issuer && ccp.issuer[token] in ccp.current
    && (ccp.current[ccp.issuer[token]] == token || (ccp.issuer[token] in ccp.lost && token in ccp.retired))
  }

  ghost predicate CodesHeld(codes: Codes, ccp: Ccp, home: Homes) {
    forall c :: c in codes ==> Keeps(ccp, home, codes[c].token, InCode(c)) && Works(ccp, codes[c].token)
  }

  /** A row holds a token exactly when it is unrevoked. */
  ghost predicate RowHeld(row: SessRow, id: Sid, txs: Txs, ccp: Ccp, home: Homes) {
    match row.token
    case None => row.revokedAt.Some?
    case Some(token) =>
      && row.revokedAt.None? && Keeps(ccp, home, token, InSession(id))
      && (Settled(txs, id) ==> Works(ccp, token))
  }

  ghost predicate RowsHeld(sess: Rows, txs: Txs, ccp: Ccp, home: Homes) {
    forall id :: id in sess ==> RowHeld(sess[id], id, txs, ccp, home)
  }

  ghost predicate HandedHeld(handed: map<Origin, Token>, ccp: Ccp, home: Homes) {
    forall o :: o in handed ==> Keeps(ccp, home, handed[o], HandedBack(o)) && Works(ccp, handed[o])
  }

  /** Every origin has handed back at most once: what it held is gone from the table. */
  ghost predicate OriginsSpent(handed: map<Origin, Token>, sess: Rows, nextId: Sid, fate: map<Code, Fate>) {
    && (forall id: Sid :: FromSession(id) in handed ==> id < nextId && !Unrevoked(sess, id))
    && (forall c: Code :: FromCode(c) in handed ==> c in fate)
  }

  /** The token the place `p` really holds. */
  ghost function TokenAt(p: Place, codes: Codes, sess: Rows, handed: map<Origin, Token>): Option<Token> {
    match p
    case InCode(c) => if c in codes then Some(codes[c].token) else None
    case InSession(id) => if id in sess then sess[id].token else None
    case HandedBack(o) => if o in handed then Some(handed[o]) else None
  }

  ghost predicate Holds(t: Option<Token>, g: Grant, ccp: Ccp) {
    t.Some? && t.value in ccp.issuer && ccp.issuer[t.value] == g
  }

  ghost predicate GrantsPlaced(codes: Codes, sess: Rows, handed: map<Origin, Token>, ccp: Ccp, home: Homes) {
    && home.Keys == ccp.current.Keys
    && (forall g :: g in home ==> Holds(TokenAt(home[g], codes, sess, handed), g, ccp))
  }

  ghost predicate RotationSound(ccp: Ccp) {
    && ccp.stale <= ccp.lost
    && (forall token :: token in ccp.retired ==> token in ccp.issuer)
    && (forall token :: token in ccp.issuer ==> ccp.issuer[token] in ccp.current)
    && (forall g :: g in ccp.current ==>
          ccp.current[g] in ccp.issuer && ccp.issuer[ccp.current[g]] == g && ccp.current[g] !in ccp.retired)
  }

  ghost predicate OneLive(sess: Rows) {
    forall a, b :: Unrevoked(sess, a) && Unrevoked(sess, b) && sess[a].character == sess[b].character ==> a == b
  }

  /** A code is parked, or it became one session, or it was swept: one of the three, once. */
  ghost predicate FatesSound(codes: Codes, fate: map<Code, Fate>, born: map<Sid, Code>, sess: Rows, nextId: Sid) {
    && (forall c :: c in codes ==> c !in fate)
    && (forall c :: c in fate && fate[c].Redeemed? ==> fate[c].sid in born && born[fate[c].sid] == c)
    && (forall id :: id in born ==> id < nextId && born[id] in fate && fate[born[id]] == Redeemed(id))
    && (forall id :: id in sess ==> id in born)
  }

  ghost predicate Custody(s: State) {
    && CodesHeld(s.codes, s.ccp, s.home)
    && RowsHeld(s.sess, s.txs, s.ccp, s.home)
    && HandedHeld(s.handed, s.ccp, s.home)
    && OriginsSpent(s.handed, s.sess, s.nextId, s.fate)
    && GrantsPlaced(s.codes, s.sess, s.handed, s.ccp, s.home)
  }

  ghost predicate Inv(s: State) {
    && LocksApart(s.txs) && TxsSound(s.txs, s.codes, s.fate, s.sess, s.ccp)
    && Custody(s) && RotationSound(s.ccp) && OneLive(s.sess)
    && FatesSound(s.codes, s.fate, s.born, s.sess, s.nextId)
  }

  ghost function Issue(ccp: Ccp, token: Token, grant: Grant): Ccp {
    ccp.(issuer := ccp.issuer[token := grant], current := ccp.current[grant := token])
  }

  /** A fresh grant and its first token change nothing for the others. */
  lemma FreshGrantHomes(codes: Codes, sess: Rows, txs: Txs, handed: map<Origin, Token>, ccp: Ccp, home: Homes,
                        code: Code, row: CodeRow, grant: Grant)
    requires CodesHeld(codes, ccp, home) && RowsHeld(sess, txs, ccp, home) && HandedHeld(handed, ccp, home)
    requires row.token !in ccp.issuer && grant !in home
    ensures var ccp', home' := Issue(ccp, row.token, grant), home[grant := InCode(code)];
      CodesHeld(codes[code := row], ccp', home') && RowsHeld(sess, txs, ccp', home') && HandedHeld(handed, ccp', home')
  {
    var ccp', home' := Issue(ccp, row.token, grant), home[grant := InCode(code)];
    forall id | id in sess
      ensures RowHeld(sess[id], id, txs, ccp', home')
    {
      assert RowHeld(sess[id], id, txs, ccp, home);
    }
  }

  lemma FreshGrantPlaces(codes: Codes, sess: Rows, handed: map<Origin, Token>, ccp: Ccp, home: Homes,
                         code: Code, row: CodeRow, grant: Grant)
    requires GrantsPlaced(codes, sess, handed, ccp, home) && code !in codes
    requires row.token !in ccp.issuer && grant !in home
    ensures GrantsPlaced(codes[code := row], sess, handed, Issue(ccp, row.token, grant), home[grant := InCode(code)])
  {
    forall g | g in home
      ensures Holds(TokenAt(home[g], codes[code := row], sess, handed), g, Issue(ccp, row.token, grant))
    {
      assert Holds(TokenAt(home[g], codes, sess, handed), g, ccp);
    }
  }

  lemma FreshGrantTxs(txs: Txs, codes: Codes, fate: map<Code, Fate>, sess: Rows, ccp: Ccp, code: Code, row: CodeRow,
                      grant: Grant)
    requires TxsSound(txs, codes, fate, sess, ccp) && code !in codes && code !in fate
    requires row.token !in ccp.issuer && grant !in ccp.current
    ensures TxsSound(txs, codes[code := row], fate, sess, Issue(ccp, row.token, grant))
  {
    forall t | t in txs
      ensures TxSound(txs[t], codes[code := row], fate, sess, Issue(ccp, row.token, grant))
    {
      assert TxSound(txs[t], codes, fate, sess, ccp);
    }
  }

  lemma ParkKeeps(s: State, code: Code, character: int, token: Token, grant: Grant, binding: Binding, s': State)
    requires Inv(s) && DoPark(s, code, character, token, grant, binding) == Some(s')
    ensures Inv(s')
  {
    hide CodesHeld, RowsHeld, HandedHeld, OriginsSpent, OneLive, LocksApart, TxsSound;
    var row := s'.codes[code];
    FreshGrantHomes(s.codes, s.sess, s.txs, s.handed, s.ccp, s.home, code, row, grant);
    FreshGrantPlaces(s.codes, s.sess, s.handed, s.ccp, s.home, code, row, grant);
    FreshGrantTxs(s.txs, s.codes, s.fate, s.sess, s.ccp, code, row, grant);
  }

  /** A row is settled or not by the answered refreshes alone. */
  lemma SameAnswers(sess: Rows, txs: Txs, txs': Txs, ccp: Ccp, home: Homes)
    requires RowsHeld(sess, txs, ccp, home)
    requires forall t :: t in txs && txs[t].HasAnswer() ==>
      || (t in txs' && txs'[t] == txs[t])
      || (txs[t].sid in sess && sess[txs[t].sid].token.Some? && Works(ccp, sess[txs[t].sid].token.value))
    ensures RowsHeld(sess, txs', ccp, home)
  {
    forall id | id in sess
      ensures RowHeld(sess[id], id, txs', ccp, home)
    {
      assert RowHeld(sess[id], id, txs, ccp, home);
    }
  }

  lemma TxsChange(s: State, txs': Txs)
    requires Inv(s) && LocksApart(txs') && TxsSound(txs', s.codes, s.fate, s.sess, s.ccp)
    requires RowsHeld(s.sess, txs', s.ccp, s.home)
    ensures Inv(s.(txs := txs'))
  {
  }

  lemma LocksApartUpdate(txs: Txs, t: TxId, tx: Tx)
    requires LocksApart(txs)
    requires forall u :: u in txs && u != t ==> Apart(tx, txs[u]) && Apart(txs[u], tx)
    ensures LocksApart(txs[t := tx])
  {
  }

  /** A transaction that opens or moves on without an answer from CCP, holding only locks that were free. */
  lemma TxMoves(s: State, t: TxId, tx: Tx)
    requires Inv(s) && TxSound(tx, s.codes, s.fate, s.sess, s.ccp)
    requires t in s.txs ==> !s.txs[t].HasAnswer()
    requires forall u :: u in s.txs && u != t ==> Apart(tx, s.txs[u]) && Apart(s.txs[u], tx)
    ensures Inv(s.(txs := s.txs[t := tx]))
  {
    hide CodesHeld, HandedHeld, OriginsSpent, GrantsPlaced, RotationSound, OneLive, FatesSound;
    LocksApartUpdate(s.txs, t, tx);
    SameAnswers(s.sess, s.txs, s.txs[t := tx], s.ccp, s.home);
    TxsChange(s, s.txs[t := tx]);
  }

  /** A transaction that ends without a trace: a rollback, or a Take that found no usable code. */
  lemma ForgetKeeps(s: State, t: TxId)
    requires Inv(s) && t in s.txs
    requires s.txs[t].HasAnswer() ==> s.txs[t].next.value == s.txs[t].read || Works(s.ccp, s.txs[t].read)
    ensures Inv(Forget(s, t))
  {
    hide CodesHeld, HandedHeld, OriginsSpent, GrantsPlaced, RotationSound, OneLive, FatesSound;
    assert TxSound(s.txs[t], s.codes, s.fate, s.sess, s.ccp);
    SameAnswers(s.sess, s.txs, s.txs - {t}, s.ccp, s.home);
    TxsChange(s, s.txs - {t});
  }

  /** Revoking rows nobody has locked moves their grants, and nothing else, to the tokens handed back. */
  lemma RevokeHomes(codes: Codes, sess: Rows, txs: Txs, handed: map<Origin, Token>, ccp: Ccp, home: Homes,
                    ids: set<Sid>, at: int)
    requires CodesHeld(codes, ccp, home) && RowsHeld(sess, txs, ccp, home) && HandedHeld(handed, ccp, home)
    requires forall id :: id in ids ==> Unrevoked(sess, id) && Settled(txs, id)
    ensures var home' := Rehomed(home, ids, {});
      CodesHeld(codes, ccp, home') && RowsHeld(RevokedRows(sess, ids, at), txs, ccp, home')
      && HandedHeld(handed + HandBack(sess, ids), ccp, home')
  {
    var home' := Rehomed(home, ids, {});
    forall id | id in sess
      ensures RowHeld(RevokedRows(sess, ids, at)[id], id, txs, ccp, home')
    {
      assert RowHeld(sess[id], id, txs, ccp, home);
    }
    forall o | o in HandBack(sess, ids)
      ensures Keeps(ccp, home', HandBack(sess, ids)[o], HandedBack(o)) && Works(ccp, HandBack(sess, ids)[o])
    {
      assert RowHeld(sess[o.sid], o.sid, txs, ccp, home);
    }
  }

  lemma MovedHolds(p: Place, g: Grant, codes: Codes, sess: Rows, nextId: Sid, handed: map<Origin, Token>,
                   fate: map<Code, Fate>,
                   ccp: Ccp, ids: set<Sid>, at: int)
    requires OriginsSpent(handed, sess, nextId, fate) && Holds(TokenAt(p, codes, sess, handed), g, ccp)
    requires forall id :: id in ids ==> Unrevoked(sess, id)
    ensures Holds(TokenAt(Moved(p, ids, {}), codes, RevokedRows(sess, ids, at), handed + HandBack(sess, ids)), g, ccp)
  {
    if p.HandedBack? {
      assert p.origin !in HandBack(sess, ids);
    }
  }

  lemma RevokePlaces(codes: Codes, sess: Rows, nextId: Sid, handed: map<Origin, Token>, fate: map<Code, Fate>, ccp: Ccp,
                     home: Homes,
                     ids: set<Sid>, at: int)
    requires GrantsPlaced(codes, sess, handed, ccp, home) && OriginsSpent(handed, sess, nextId, fate)
    requires forall id :: id in ids ==> Unrevoked(sess, id)
    ensures GrantsPlaced(codes, RevokedRows(sess, ids, at), handed + HandBack(sess, ids), ccp, Rehomed(home, ids, {}))
  {
    hide OriginsSpent, Unrevoked, RevokedRows, HandBack, Moved, TokenAt;
    forall g | g in home
      ensures Holds(TokenAt(Rehomed(home, ids, {})[g], codes, RevokedRows(sess, ids, at), handed + HandBack(sess, ids)),
                    g, ccp)
    {
      MovedHolds(home[g], g, codes, sess, nextId, handed, fate, ccp, ids, at);
    }
  }

  lemma RevokeTxs(txs: Txs, codes: Codes, fate: map<Code, Fate>, sess: Rows, ccp: Ccp, ids: set<Sid>, at: int)
    requires TxsSound(txs, codes, fate, sess, ccp)
    requires forall t :: t in txs ==> ids !! txs[t].RowLocks()
    ensures TxsSound(txs, codes, fate, RevokedRows(sess, ids, at), ccp)
  {
    forall t | t in txs
      ensures TxSound(txs[t], codes, fate, RevokedRows(sess, ids, at), ccp)
    {
      assert TxSound(txs[t], codes, fate, sess, ccp);
      assert forall c :: UnrevokedOf(RevokedRows(sess, ids, at), c) == UnrevokedOf(sess, c) - ids;
    }
  }

  lemma RevokeRest(codes: Codes, sess: Rows, nextId: Sid, handed: map<Origin, Token>, fate: map<Code, Fate>,
                   born: map<Sid, Code>,
                   ids: set<Sid>, at: int)
    requires OriginsSpent(handed, sess, nextId, fate) && OneLive(sess) && FatesSound(codes, fate, born, sess, nextId)
    requires forall id :: id in ids ==> Unrevoked(sess, id)
    ensures OriginsSpent(handed + HandBack(sess, ids), RevokedRows(sess, ids, at), nextId, fate)
    ensures OneLive(RevokedRows(sess, ids, at)) && FatesSound(codes, fate, born, RevokedRows(sess, ids, at), nextId)
  {
    var sess' := RevokedRows(sess, ids, at);
    assert forall id :: Unrevoked(sess', id) ==> Unrevoked(sess, id) && sess'[id] == sess[id] && id !in ids;
  }

  lemma FreeIsSettled(txs: Txs, ids: set<Sid>)
    requires forall t :: t in txs ==> ids !! txs[t].RowLocks()
    ensures forall id :: id in ids ==> Settled(txs, id)
  {
    forall id, t | id in ids && t in txs && txs[t].HasAnswer()
      ensures txs[t].sid != id
    {
      assert txs[t].RowLocks() == {txs[t].sid};
    }
  }

  lemma RevokeKeeps(s: State, ids: set<Sid>, at: int)
    requires Inv(s) && forall id :: id in ids ==> Unrevoked(s.sess, id)
    requires forall t :: t in s.txs ==> ids !! s.txs[t].RowLocks()
    ensures Inv(RevokeRows(s, ids, at))
  {
    FreeIsSettled(s.txs, ids);
    RevokeHomes(s.codes, s.sess, s.txs, s.handed, s.ccp, s.home, ids, at);
    RevokePlaces(s.codes, s.sess, s.nextId, s.handed, s.fate, s.ccp, s.home, ids, at);
    RevokeTxs(s.txs, s.codes, s.fate, s.sess, s.ccp, ids, at);
    RevokeRest(s.codes, s.sess, s.nextId, s.handed, s.fate, s.born, ids, at);
  }

  /** The new session takes over the grant its code held. */
  lemma CreateHomes(codes: Codes, sess: Rows, nextId: Sid, txs: Txs, handed: map<Origin, Token>, ccp: Ccp, home: Homes,
                    code: Code, row: SessRow)
    requires CodesHeld(codes, ccp, home) && RowsHeld(sess, txs, ccp, home) && HandedHeld(handed, ccp, home)
    requires code in codes && row.token == Some(codes[code].token) && row.revokedAt.None? && nextId !in sess
    ensures var home' := home[ccp.issuer[codes[code].token] := InSession(nextId)];
      && CodesHeld(codes - {code}, ccp, home') && RowsHeld(sess[nextId := row], txs, ccp, home')
      && HandedHeld(handed, ccp, home')
  {
    var home' := home[ccp.issuer[codes[code].token] := InSession(nextId)];
    forall id | id in sess
      ensures RowHeld(sess[id], id, txs, ccp, home')
    {
      assert RowHeld(sess[id], id, txs, ccp, home);
    }
  }

  lemma CreatePlaces(codes: Codes, sess: Rows, nextId: Sid, handed: map<Origin, Token>, ccp: Ccp, home: Homes,
                     code: Code, row: SessRow)
    requires GrantsPlaced(codes, sess, handed, ccp, home) && CodesHeld(codes, ccp, home) && nextId !in sess
    requires code in codes && row.token == Some(codes[code].token)
    ensures GrantsPlaced(codes - {code}, sess[nextId := row], handed, ccp,
                         home[ccp.issuer[codes[code].token] := InSession(nextId)])
  {
    forall g | g in home && g != ccp.issuer[codes[code].token]
      ensures Holds(TokenAt(home[g], codes - {code}, sess[nextId := row], handed), g, ccp)
    {
      assert Holds(TokenAt(home[g], codes, sess, handed), g, ccp);
    }
  }

  lemma CreateTxs(txs: Txs, codes: Codes, fate: map<Code, Fate>, sess: Rows, ccp: Ccp, code: Code, nextId: Sid,
                  row: SessRow)
    requires TxsSound(txs, codes, fate, sess, ccp) && nextId !in sess
    requires forall t :: t in txs ==> txs[t].CharacterLock() != Some(row.character) && txs[t].CodeLock() != Some(code)
    ensures TxsSound(txs, codes - {code}, fate[code := Redeemed(nextId)], sess[nextId := row], ccp)
  {
    forall t | t in txs
      ensures TxSound(txs[t], codes - {code}, fate[code := Redeemed(nextId)], sess[nextId := row], ccp)
    {
      assert TxSound(txs[t], codes, fate, sess, ccp);
      assert forall c :: c != row.character ==> UnrevokedOf(sess[nextId := row], c) == UnrevokedOf(sess, c);
    }
  }

  lemma CreateOneLive(sess: Rows, nextId: Sid, row: SessRow)
    requires OneLive(sess) && UnrevokedOf(sess, row.character) == {}
    ensures OneLive(sess[nextId := row])
  {
    assert forall id :: Unrevoked(sess, id) && sess[id].character == row.character ==>
      id in UnrevokedOf(sess, row.character);
  }

  lemma CreateRest(codes: Codes, sess: Rows, nextId: Sid, handed: map<Origin, Token>, fate: map<Code, Fate>,
                   born: map<Sid, Code>,
                   code: Code, row: SessRow)
    requires OriginsSpent(handed, sess, nextId, fate) && FatesSound(codes, fate, born, sess, nextId) && code in codes
    ensures OriginsSpent(handed, sess[nextId := row], nextId + 1, fate[code := Redeemed(nextId)])
    ensures FatesSound(codes - {code}, fate[code := Redeemed(nextId)], born[nextId := code], sess[nextId := row],
                       nextId + 1)
  {
  }

  lemma CreateKeeps(s: State, code: Code, row: SessRow)
    requires Inv(s) && code in s.codes && row.token == Some(s.codes[code].token) && row.revokedAt.None?
    requires UnrevokedOf(s.sess, row.character) == {}
    requires forall t :: t in s.txs ==>
      s.txs[t].CharacterLock() != Some(row.character) && s.txs[t].CodeLock() != Some(code)
    ensures Inv(s.(codes := s.codes - {code}, sess := s.sess[s.nextId := row], nextId := s.nextId + 1,
                   home := s.home[s.ccp.issuer[s.codes[code].token] := InSession(s.nextId)],
                   fate := s.fate[code := Redeemed(s.nextId)], born := s.born[s.nextId := code]))
  {
    hide CodesHeld, RowsHeld, HandedHeld, OriginsSpent, GrantsPlaced, RotationSound, OneLive, LocksApart, TxsSound;
    assert s.nextId !in s.sess;
    CreateHomes(s.codes, s.sess, s.nextId, s.txs, s.handed, s.ccp, s.home, code, row);
    CreatePlaces(s.codes, s.sess, s.nextId, s.handed, s.ccp, s.home, code, row);
    CreateTxs(s.txs, s.codes, s.fate, s.sess, s.ccp, code, s.nextId, row);
    CreateOneLive(s.sess, s.nextId, row);
    CreateRest(s.codes, s.sess, s.nextId, s.handed, s.fate, s.born, code, row);
  }

  lemma UnrevokedGone(sess: Rows, c: int, at: int)
    ensures UnrevokedOf(RevokedRows(sess, UnrevokedOf(sess, c), at), c) == {}
  {
  }

  lemma RedeemSound(s: State, t: TxId)
    requires Inv(s) && t in s.txs && s.txs[t].Redeeming? && s.txs[t].stage == Doomed
    ensures s.txs[t].doomed == UnrevokedOf(s.sess, s.txs[t].parked.character)
    ensures forall id :: id in s.txs[t].doomed ==> Unrevoked(s.sess, id)
    ensures s.txs[t].code in s.codes && s.codes[s.txs[t].code] == s.txs[t].parked
    ensures s.txs[t].parked.token in s.ccp.issuer
    ensures forall u :: u in s.txs && u != t ==>
      && s.txs[t].doomed !! s.txs[u].RowLocks()
      && s.txs[u].CharacterLock() != Some(s.txs[t].parked.character) && s.txs[u].CodeLock() != Some(s.txs[t].code)
  {
    hide RowsHeld, HandedHeld, OriginsSpent, GrantsPlaced, RotationSound, OneLive, FatesSound;
    assert forall u :: u in s.txs && u != t ==> Apart(s.txs[t], s.txs[u]);
    assert TxSound(s.txs[t], s.codes, s.fate, s.sess, s.ccp);
    assert Keeps(s.ccp, s.home, s.codes[s.txs[t].code].token, InCode(s.txs[t].code));
  }

  /** The exchange leaves one live session of its character: the predecessors it doomed were all there were, and
      while it held the lock nobody could add to them. */
  lemma RedeemKeeps(s: State, t: TxId)
    requires Inv(s) && t in s.txs && s.txs[t].Redeeming? && s.txs[t].stage == Doomed
    ensures Inv(DoRedeem(s, t, s.txs[t]))
  {
    hide Inv, RevokedRows, HandBack, Rehomed, UnrevokedOf, Unrevoked;
    var tx := s.txs[t];
    RedeemSound(s, t);
    ForgetKeeps(s, t);
    RevokeKeeps(Forget(s, t), tx.doomed, tx.began);
    UnrevokedGone(s.sess, tx.parked.character, tx.began);
    var r := RevokeRows(Forget(s, t), tx.doomed, tx.began);
    CreateKeeps(r, tx.code, SessRow(tx.parked.character, Some(tx.parked.token), tx.began + LIFETIME, None));
  }

  lemma LogoutKeeps(s: State, t: TxId)
    requires Inv(s) && t in s.txs && s.txs[t].LoggingOut? && s.txs[t].stage == Doomed
    ensures Inv(RevokeRows(Forget(s, t), s.txs[t].doomed, s.txs[t].began))
  {
    assert TxSound(s.txs[t], s.codes, s.fate, s.sess, s.ccp);
    ForgetKeeps(s, t);
    RevokeKeeps(Forget(s, t), s.txs[t].doomed, s.txs[t].began);
  }
}
