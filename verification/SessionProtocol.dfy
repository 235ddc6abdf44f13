/**
 Sign-in, refresh and revocation as steps over one database, shared by any number of replicas.

 One event is one statement, or one answer of the SSO.  What a transaction has written is kept in
 its Tx until it commits, so rolling back is forgetting the Tx; the rows it has written are locked
 against every other writer meanwhile.  The fields from `home` on are history.
 */
module SessionProtocol {
  import opened Options

  const SECOND: int := 1_000_000
  const CODE_TTL: int := 120 * SECOND
  const DAY: int := 86_400 * SECOND
  const LIFETIME: int := 30 * DAY
  const RETENTION: int := 90 * DAY
  const REVOKE_CEILING: nat := 100

  type Token = nat    // a refresh token
  type Grant = nat    // what CCP's sign-in created: one stream of refresh tokens
  type Code = nat
  type Sid = nat
  type TxId = nat

  /** What the client bound the code to: its redirect address and its PKCE challenge (None when it sent none). */
  datatype Binding = Binding(redirect: nat, challenge: Option<nat>)
  datatype CodeRow = CodeRow(character: int, token: Token, binding: Binding, expires: int)
  datatype SessRow = SessRow(character: int, token: Option<Token>, validTil: int, revokedAt: Option<int>)

  /** Fetched: the code was read.  Begun: BEGIN.  Locked: the character's advisory lock.  Taken: the code row is
      deleted.  Missing, Expired: there was none to delete, or the one deleted was out of date, and the transaction
      fails.  Doomed: the predecessors are revoked. */
  datatype Stage = Fetched | Begun | Locked | Taken | Missing | Expired | Doomed

  datatype Tx =
    | Redeeming(stage: Stage, code: Code, parked: CodeRow, began: int, doomed: set<Sid>)
    | LoggingOut(stage: Stage, sid: Sid, character: int, began: int, doomed: set<Sid>)
    | Refreshing(sid: Sid, read: Token, next: Option<Token>)
  {
    /** The same transaction further on. */
    function To(stage: Stage, began: int, doomed: set<Sid>): Tx {
      match this
      case Redeeming(_, code, parked, _, _) => Redeeming(stage, code, parked, began, doomed)
      case LoggingOut(_, sid, character, _, _) => LoggingOut(stage, sid, character, began, doomed)
      case Refreshing(_, _, _) => this
    }

    function Answered(token: Token): Tx {
      match this
      case Refreshing(sid, read, _) => Refreshing(sid, read, Some(token))
      case _ => this
    }

    /** The character whose advisory lock the transaction holds. */
    function CharacterLock(): Option<int> {
      match this
      case Redeeming(stage, _, parked, _, _) =>
        if stage == Fetched || stage == Begun then None else Some(parked.character)
      case LoggingOut(stage, _, character, _, _) => if stage == Fetched || stage == Begun then None else Some(character)
      case Refreshing(_, _, _) => None
    }

    /** The code row it has deleted. */
    function CodeLock(): Option<Code> {
      if Redeeming? && (stage == Taken || stage == Expired || stage == Doomed) then Some(code) else None
    }

    /** The session rows it has locked. */
    function RowLocks(): set<Sid> {
      match this
      case Redeeming(stage, _, _, _, doomed) => if stage == Doomed then doomed else {}
      case LoggingOut(stage, _, _, _, doomed) => if stage == Doomed then doomed else {}
      case Refreshing(sid, _, _) => {sid}
    }

    predicate HasAnswer() {
      Refreshing? && next.Some?
    }
  }

  datatype Origin = FromCode(code: Code) | FromSession(sid: Sid)
  datatype Place = InCode(code: Code) | InSession(sid: Sid) | HandedBack(origin: Origin)
  datatype Fate = Redeemed(sid: Sid) | Swept

  /** The SSO's side: the grant of every refresh token ever issued, the token of each grant that works now, and
      the tokens rotated out.  History: the grants that lost a rotated token to a rollback, and the grants for
      which a rotated-out token was ever presented. */
  datatype Ccp = Ccp(issuer: map<Token, Grant>, current: map<Grant, Token>, retired: set<Token>, lost: set<Grant>,
                     stale: set<Grant>)

  datatype State = State(
    clock: int,
    codes: map<Code, CodeRow>,
    sess: map<Sid, SessRow>,
    nextId: Sid,
    txs: map<TxId, Tx>,
    ccp: Ccp,
    handed: map<Origin, Token>,   // tokens handed back by a committed revoke or sweep, by the row they came from
    home: map<Grant, Place>,    // who keeps the grant
    fate: map<Code, Fate>,        // what became of codes that are no longer parked
    born: map<Sid, Code>          // the code each session was created from
  )

  datatype Answer = Cached | Kept | Rotated(token: Token)

  datatype Event =
    | Tick(d: int)
    | Park(code: Code, character: int, token: Token, grant: Grant, binding: Binding)
    | Fetch(t: TxId, code: Code)
    | Begin(t: TxId)
    | BeginLogout(t: TxId, sid: Sid, character: int)
    | LockCharacter(t: TxId)
    | Take(t: TxId)
    | Doom(t: TxId)
    | Commit(t: TxId)
    | Rollback(t: TxId)
    | LockForRefresh(t: TxId, sid: Sid, now: int)
    | Exchange(t: TxId, answer: Answer)
    | RevokeNow(ids: set<Sid>)
    | SweepCodes(cs: set<Code>)
    | PurgeRevoked(now: int)

  const INIT: State :=
    State(0, map[], map[], 0, map[], Ccp(map[], map[], {}, {}, {}), map[], map[], map[], map[])

  predicate CharacterFree(txs: map<TxId, Tx>, t: TxId, c: int) {
    forall u :: u in txs && u != t ==> txs[u].CharacterLock() != Some(c)
  }

  predicate CodeFree(txs: map<TxId, Tx>, t: Option<TxId>, c: Code) {
    forall u :: u in txs && Some(u) != t ==> txs[u].CodeLock() != Some(c)
  }

  predicate RowFree(txs: map<TxId, Tx>, t: Option<TxId>, id: Sid) {
    forall u :: u in txs && Some(u) != t ==> id !in txs[u].RowLocks()
  }

  predicate Unrevoked(sess: map<Sid, SessRow>, id: Sid) {
    id in sess && sess[id].revokedAt.None?
  }

  predicate Live(sess: map<Sid, SessRow>, id: Sid, now: int) {
    Unrevoked(sess, id) && now < sess[id].validTil
  }

  /** The unrevoked rows of a character: what revokeAllSQL selects. */
  function UnrevokedOf(sess: map<Sid, SessRow>, c: int): set<Sid> {
    set id | id in sess && sess[id].revokedAt.None? && sess[id].character == c
  }

  function RevokedRows(sess: map<Sid, SessRow>, ids: set<Sid>, at: int): map<Sid, SessRow> {
    map id | id in sess :: if id in ids then sess[id].(token := None, revokedAt := Some(at)) else sess[id]
  }

  /** What a purge keeps: the unrevoked rows, and those revoked since `since`. */
  function Kept(sess: map<Sid, SessRow>, since: int): map<Sid, SessRow> {
    map id | id in sess && (sess[id].revokedAt.Some? ==> sess[id].revokedAt.value >= since) :: sess[id]
  }

  function HandBack(sess: map<Sid, SessRow>, ids: set<Sid>): map<Origin, Token> {
    map id | id in ids && id in sess && sess[id].token.Some? :: FromSession(id) := sess[id].token.value
  }

  function Moved(p: Place, ids: set<Sid>, cs: set<Code>): Place {
    match p
    case InSession(id) => if id in ids then HandedBack(FromSession(id)) else p
    case InCode(c) => if c in cs then HandedBack(FromCode(c)) else p
    case HandedBack(_) => p
  }

  function Rehomed(home: map<Grant, Place>, ids: set<Sid>, cs: set<Code>): map<Grant, Place> {
    map g | g in home :: Moved(home[g], ids, cs)
  }

  /** UPDATE … SET revoked_at, refresh_token = NULL … RETURNING the tokens the rows held. */
  function RevokeRows(s: State, ids: set<Sid>, at: int): State {
    s.(sess := RevokedRows(s.sess, ids, at), handed := s.handed + HandBack(s.sess, ids),
       home := Rehomed(s.home, ids, {}))
  }

  function Forget(s: State, t: TxId): State {
    s.(txs := s.txs - {t})
  }

  function DoPark(s: State, code: Code, character: int, token: Token, grant: Grant, binding: Binding): Option<State> {
    if code in s.codes || code in s.fate || token in s.ccp.issuer || grant in s.ccp.current then None else
    Some(s.(codes := s.codes[code := CodeRow(character, token, binding, s.clock + CODE_TTL)],
            ccp := s.ccp.(issuer := s.ccp.issuer[token := grant], current := s.ccp.current[grant := token]),
            home := s.home[grant := InCode(code)]))
  }

  function DoTake(s: State, t: TxId, tx: Tx): Option<State>
    requires tx.Redeeming?
  {
    if !CodeFree(s.txs, Some(t), tx.code) then None else
    var stage :=
      if tx.code !in s.codes then Missing else if s.clock > s.codes[tx.code].expires then Expired else Taken;
    Some(s.(txs := s.txs[t := tx.To(stage, tx.began, {})]))
  }

  function DoDoom(s: State, t: TxId, tx: Tx): Option<State> {
    var ids :=
      if tx.Redeeming? && tx.stage == Taken then UnrevokedOf(s.sess, tx.parked.character)
      else if tx.LoggingOut? && tx.stage == Locked && Unrevoked(s.sess, tx.sid) then {tx.sid}
      else {};
    if !(forall id :: id in ids ==> RowFree(s.txs, Some(t), id)) then None
    else if tx.Redeeming? && tx.stage == Taken then Some(s.(txs := s.txs[t := tx.To(Doomed, tx.began, ids)]))
    else if tx.LoggingOut? && tx.stage == Locked then Some(s.(txs := s.txs[t := tx.To(Doomed, tx.began, ids)]))
    else None
  }

  /** INSERT of the session that replaces the code, and COMMIT of the whole exchange. */
  function DoRedeem(s: State, t: TxId, tx: Tx): State
    requires tx.Redeeming?
  {
    var r := RevokeRows(Forget(s, t), tx.doomed, tx.began);
    var row := SessRow(tx.parked.character, Some(tx.parked.token), tx.began + LIFETIME, None);
    r.(codes := r.codes - {tx.code}, sess := r.sess[s.nextId := row], nextId := s.nextId + 1,
       home :=
         if tx.parked.token in s.ccp.issuer
         then r.home[s.ccp.issuer[tx.parked.token] := InSession(s.nextId)] else r.home,
       fate := s.fate[tx.code := Redeemed(s.nextId)], born := s.born[s.nextId := tx.code])
  }

  function DoCommit(s: State, t: TxId, tx: Tx): Option<State> {
    match tx
    case Redeeming(stage, _, _, _, _) => if stage == Doomed then Some(DoRedeem(s, t, tx)) else None
    case LoggingOut(stage, _, _, began, doomed) =>
      if stage == Doomed then Some(RevokeRows(Forget(s, t), doomed, began)) else None
    case Refreshing(sid, _, next) =>
      if next.Some? && sid in s.sess
      then Some(Forget(s, t).(sess := s.sess[sid := s.sess[sid].(token := next)])) else None
  }

  /** `now` is the transaction's: the row may have been waited for since. */
  function DoLockForRefresh(s: State, t: TxId, sid: Sid, now: int): Option<State> {
    if now <= s.clock && t !in s.txs && Live(s.sess, sid, now) && s.sess[sid].token.Some? && RowFree(s.txs, None, sid)
    then Some(s.(txs := s.txs[t := Refreshing(sid, s.sess[sid].token.value, None)])) else None
  }

  function Presented(ccp: Ccp, token: Token): Ccp
    requires token in ccp.issuer
  {
    if token in ccp.retired then ccp.(stale := ccp.stale + {ccp.issuer[token]}) else ccp
  }

  function Rotate(ccp: Ccp, token: Token, next: Token): Ccp
    requires token in ccp.issuer
  {
    var g := ccp.issuer[token];
    ccp.(issuer := ccp.issuer[next := g], current := ccp.current[g := next], retired := ccp.retired + {token})
  }

  /** The token read under the row lock is presented to CCP, unless an access token for it is still cached. */
  function DoExchange(s: State, t: TxId, tx: Tx, answer: Answer): Option<State> {
    if !(tx.Refreshing? && tx.next.None?) then None else
    match answer
    case Cached => Some(s.(txs := s.txs[t := tx.Answered(tx.read)]))
    case Kept =>
      if tx.read !in s.ccp.issuer then None else
      Some(s.(txs := s.txs[t := tx.Answered(tx.read)], ccp := Presented(s.ccp, tx.read)))
    case Rotated(token) =>
      if token in s.ccp.issuer || tx.read !in s.ccp.issuer then None else
      Some(s.(txs := s.txs[t := tx.Answered(token)], ccp := Rotate(Presented(s.ccp, tx.read), tx.read, token)))
  }

  predicate Sweepable(s: State, c: Code) {
    c in s.codes && s.codes[c].expires < s.clock && CodeFree(s.txs, None, c)
  }

  function DoSweep(s: State, cs: set<Code>): Option<State> {
    if |cs| <= REVOKE_CEILING && forall c :: c in cs ==> Sweepable(s, c)
    then Some(s.(codes := s.codes - cs,
                 handed := s.handed + map c | c in cs && c in s.codes :: FromCode(c) := s.codes[c].token,
                 home := Rehomed(s.home, {}, cs),
                 fate := s.fate + map c | c in cs :: Swept))
    else None
  }

  /** The answer of the transaction is lost: CCP has rotated the token and nobody has the new one. */
  function Lose(ccp: Ccp, tx: Tx): Ccp {
    if tx.HasAnswer() && tx.next.value != tx.read && tx.read in ccp.issuer
    then ccp.(lost := ccp.lost + {ccp.issuer[tx.read]}) else ccp
  }

  /** Rolling back puts the rows back as they were; a token that CCP has just rotated in goes with the Tx. */
  function DoRollback(s: State, t: TxId, tx: Tx): State {
    Forget(s, t).(ccp := Lose(s.ccp, tx))
  }

  /** The statement of a transaction that is already open. */
  function TxStep(s: State, t: TxId, e: Event): Option<State>
    requires t in s.txs
  {
    var tx := s.txs[t];
    match e
    case Begin(_) =>
      if tx.Redeeming? && tx.stage == Fetched then Some(s.(txs := s.txs[t := tx.To(Begun, s.clock, {})])) else None
    case LockCharacter(_) =>
      if tx.Redeeming? && tx.stage == Begun && CharacterFree(s.txs, t, tx.parked.character)
      then Some(s.(txs := s.txs[t := tx.To(Locked, tx.began, {})]))
      else if tx.LoggingOut? && tx.stage == Begun && CharacterFree(s.txs, t, tx.character)
      then Some(s.(txs := s.txs[t := tx.To(Locked, tx.began, {})])) else None
    case Take(_) => if tx.Redeeming? && tx.stage == Locked then DoTake(s, t, tx) else None
    case Doom(_) => DoDoom(s, t, tx)
    case Commit(_) => DoCommit(s, t, tx)
    case Rollback(_) => Some(DoRollback(s, t, tx))
    case Exchange(_, answer) => DoExchange(s, t, tx, answer)
    case _ => None
  }

  function Step(s: State, e: Event): Option<State> {
    match e
    case Tick(d) => if d > 0 then Some(s.(clock := s.clock + d)) else None
    case Park(code, character, token, grant, binding) => DoPark(s, code, character, token, grant, binding)
    case Fetch(t, code) =>
      if t !in s.txs && code in s.codes && s.clock <= s.codes[code].expires
      then Some(s.(txs := s.txs[t := Redeeming(Fetched, code, s.codes[code], 0, {})])) else None
    case BeginLogout(t, sid, character) =>
      if t !in s.txs then Some(s.(txs := s.txs[t := LoggingOut(Begun, sid, character, s.clock, {})])) else None
    case LockForRefresh(t, sid, now) => DoLockForRefresh(s, t, sid, now)
    case RevokeNow(ids) =>
      if forall id :: id in ids ==> Unrevoked(s.sess, id) && RowFree(s.txs, None, id)
      then Some(RevokeRows(s, ids, s.clock)) else None
    case SweepCodes(cs) => DoSweep(s, cs)
    case PurgeRevoked(now) =>
      if now > s.clock then None else
      Some(s.(sess := Kept(s.sess, now - RETENTION)))
    case Begin(t) => if t in s.txs then TxStep(s, t, e) else None
    case LockCharacter(t) => if t in s.txs then TxStep(s, t, e) else None
    case Take(t) => if t in s.txs then TxStep(s, t, e) else None
    case Doom(t) => if t in s.txs then TxStep(s, t, e) else None
    case Commit(t) => if t in s.txs then TxStep(s, t, e) else None
    case Rollback(t) => if t in s.txs then TxStep(s, t, e) else None
    case Exchange(t, _) => if t in s.txs then TxStep(s, t, e) else None
  }

  function Run(es: seq<Event>): Option<State> {
    if es == [] then Some(INIT) else
    match Run(es[..|es| - 1])
    case None => None
    case Some(s) => Step(s, es[|es| - 1])
  }

  lemma RunSnoc(es: seq<Event>, e: Event)
    ensures Run(es + [e]) == (match Run(es) case None => None case Some(s) => Step(s, e))
  {
    assert (es + [e])[..|es|] == es;
  }
}
