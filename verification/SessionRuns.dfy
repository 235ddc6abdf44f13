/** Two runs of the session protocol: a revoke that finds a rotated token, and a rollback that loses one. */
module SessionRuns {
  import opened Options
  import opened SessionProtocol
  import opened SessionTheorems

  const BINDING: Binding := Binding(0, None)

  lemma Extend(es: seq<Event>, s: State, e: Event) returns (es': seq<Event>, s': State)
    requires Run(es) == Some(s) && Step(s, e).Some?
    ensures Run(es') == Some(s') && Step(s, e) == Some(s')
  {
    hide Step;
    es', s' := es + [e], Step(s, e).value;
    RunSnoc(es, e);
  }

  lemma RunEmpty()
    ensures Run([]) == Some(INIT)
  {
  }

  /** The code 0 of character 9, parked with token 5 of grant 3, and its exchange up to the deletion of the code. */
  lemma TakenOnce() returns (es: seq<Event>, s: State)
    ensures Run(es) == Some(s) && s.clock == 0 && s.nextId == 0 && s.sess == map[]
    ensures s.codes == map[0 := CodeRow(9, 5, BINDING, CODE_TTL)]
    ensures s.txs == map[0 := Redeeming(Taken, 0, CodeRow(9, 5, BINDING, CODE_TTL), 0, {})]
    ensures s.ccp == Ccp(map[5 := 3], map[3 := 5], {}, {}, {}) && s.handed == map[] && s.home == map[3 := InCode(0)]
  {
    hide Run;
    RunEmpty();
    es, s := Extend([], INIT, Park(0, 9, 5, 3, BINDING));
    es, s := Extend(es, s, Fetch(0, 0));
    es, s := Extend(es, s, Begin(0));
    es, s := Extend(es, s, LockCharacter(0));
    es, s := Extend(es, s, Take(0));
  }

  /** No session to revoke. */
  lemma Ready() returns (es: seq<Event>, s: State)
    ensures Run(es) == Some(s) && s.clock == 0 && s.nextId == 0 && s.sess == map[]
    ensures s.txs == map[0 := Redeeming(Doomed, 0, CodeRow(9, 5, BINDING, CODE_TTL), 0, {})]
    ensures s.ccp == Ccp(map[5 := 3], map[3 := 5], {}, {}, {}) && s.handed == map[]
  {
    hide Run;
    es, s := TakenOnce();
    assert UnrevokedOf(s.sess, 9) == {};
    es, s := Extend(es, s, Doom(0));
  }

  lemma MayCommit(s: State, t: TxId)
    requires t in s.txs && s.txs[t].Redeeming? && s.txs[t].stage == Doomed
    ensures Step(s, Commit(t)).Some?
  {
    hide DoRedeem;
  }

  lemma Committed(s: State, tx: Tx)
    requires tx == Redeeming(Doomed, 0, CodeRow(9, 5, BINDING, CODE_TTL), 0, {}) && s.txs == map[0 := tx]
    requires s.nextId == 0
    requires s.handed == map[]
    ensures var r := DoRedeem(s, 0, tx);
      r.clock == s.clock && r.txs == map[] && r.ccp == s.ccp && r.handed == map[]
      && 0 in r.sess && r.sess[0] == SessRow(9, Some(5), LIFETIME, None)
  {
    hide DoRedeem, HandBack;
    RedeemIs(s, 0, tx);
    NoneBack(s.sess);
    assert s.txs - {0} == map[];
  }

  lemma NoneBack(sess: map<Sid, SessRow>)
    ensures HandBack(sess, {}) == map[]
  {
  }

  /** Session 0 then holds token 5. */
  lemma SignedIn() returns (es: seq<Event>, s: State)
    ensures Run(es) == Some(s) && s.clock == 0 && s.txs == map[]
    ensures 0 in s.sess && s.sess[0] == SessRow(9, Some(5), LIFETIME, None)
    ensures s.ccp == Ccp(map[5 := 3], map[3 := 5], {}, {}, {}) && s.handed == map[]
  {
    hide Run, Step, DoRedeem;
    es, s := Ready();
    ghost var before := s;
    MayCommit(s, 0);
    es, s := Extend(es, s, Commit(0));
    CommitIs(before, 0, s);
    Committed(before, before.txs[0]);
  }

  /** A refresh locks the row, and CCP rotates token 5 out for token 6. */
  lemma Rotating() returns (es: seq<Event>, s: State)
    ensures Run(es) == Some(s) && s.clock == 0 && s.txs == map[1 := Refreshing(0, 5, Some(6))]
    ensures 0 in s.sess && s.sess[0] == SessRow(9, Some(5), LIFETIME, None)
    ensures s.ccp == Ccp(map[5 := 3, 6 := 3], map[3 := 6], {5}, {}, {}) && s.handed == map[]
  {
    hide Run;
    es, s := SignedIn();
    es, s := Extend(es, s, LockForRefresh(1, 0, 0));
    es, s := Extend(es, s, Exchange(1, Rotated(6)));
  }

  /** While the refresh is open no revoke can have the row; once it has committed, a revoke hands back the rotated
      token. */
  lemma RevokeAfterRotation() returns (es: seq<Event>, s: State)
    ensures Run(es) == Some(s) && FromSession(0) in s.handed && s.handed[FromSession(0)] == 6
    ensures s.ccp.current == map[3 := 6]
    ensures exists before, r :: Run(before) == Some(r) && 0 in r.sess && Step(r, RevokeNow({0})) == None
  {
    hide Run;
    es, s := Rotating();
    assert 0 in s.txs[1].RowLocks() && !RowFree(s.txs, None, 0);
    assert Step(s, RevokeNow({0})) == None;
    ghost var before, r := es, s;
    es, s := Extend(es, s, Commit(1));
    assert s.sess[0] == SessRow(9, Some(6), LIFETIME, None);
    es, s := Extend(es, s, RevokeNow({0}));
    assert Run(before) == Some(r);
  }

  /** When the refresh is rolled back instead, the next one presents the token that was rotated out. */
  lemma PresentedAgain() returns (es: seq<Event>, s: State)
    ensures Run(es) == Some(s) && s.ccp.stale == s.ccp.lost == {3}
  {
    hide Run;
    es, s := Rotating();
    es, s := Extend(es, s, Rollback(1));
    es, s := Extend(es, s, LockForRefresh(2, 0, 0));
    es, s := Extend(es, s, Exchange(2, Kept));
  }
}
