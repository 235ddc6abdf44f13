/**
 The write protocol as steps over one database, shared by guards in any number of processes.

 One event is one SQL statement (or the clock moving).  READ COMMITTED makes each of them atomic,
 and the rows a transaction has written stay invisible until its Commit.  `now()` is the start of
 the surrounding transaction, so a mail row carries the time its hold was begun, which may be long
 before the time it was committed: timestamps need not follow commit order.

 The last four fields of State are history: nothing the protocol does depends on them.
 */
module MailProtocol {
  import opened Options

  const HOUR: int := 3_600_000_000             // microseconds, the resolution of timestamptz
  const RETENTION: int := 90 * 24 * HOUR
  const CONFIRM_TTL: int := 300_000_000
  const MAIL_CAP: nat := 5

  type GuardId = nat
  type Token = nat

  /** The one tool the mail cap counts, and every other mutating tool by name. */
  datatype Tool = EveMailSend | OtherTool(name: string)

  datatype Who = Who(character: int, session: int)

  /** The character and session each guard was built for; a session belongs to one character. */
  datatype Config = Config(who: map<GuardId, Who>) {
    ghost predicate Valid() {
      forall g, h :: g in who && h in who && who[g].session == who[h].session ==>
        who[g].character == who[h].character
    }
  }

  datatype Row = Row(character: int, tool: Tool, ok: bool, at: int)
  datatype Confirm = Confirm(session: int, tool: Tool, digest: string, createdAt: int)
  datatype Call = Call(tool: Tool, digest: string)
  datatype Spend = Spend(session: int, tool: Tool, digest: string, token: Token, at: int)

  /** Where a guard stands between two statements.  `hold` and `began` are the start of its mail transaction. */
  datatype Phase =
    | Idle
    | Begun(call: Call, token: Token, began: int)
    | Locked(call: Call, token: Token, began: int)
    | Counted(call: Call, token: Token, began: int, n: nat)
    | Looked(call: Call, token: Token, hold: Option<int>, seen: Confirm, at: int)
    | Dropping(token: Token, hold: Option<int>)
    | Authorised(hold: Option<int>)
    | Written(row: Row)
  {
    /** The advisory lock of the guard's character is held. */
    predicate Holds() {
      match this
      case Idle => false
      case Begun(_, _, _) => false
      case Locked(_, _, _) => true
      case Counted(_, _, _, _) => true
      case Looked(_, _, hold, _, _) => hold.Some?
      case Dropping(_, hold) => hold.Some?
      case Authorised(hold) => hold.Some?
      case Written(_) => true
    }

    predicate LooksAt(t: Token) {
      Looked? && token == t
    }
  }

  datatype State = State(
    clock: int,
    rows: seq<Row>,               // every audit row ever committed, in commit order
    live: set<nat>,               // the indices DeleteOld has left in the table
    confirms: map<Token, Confirm>,
    phases: map<GuardId, Phase>,
    minted: map<Token, Confirm>,  // every confirm token ever put
    spends: seq<Spend>,           // every authorised confirm
    shared: set<Token>,           // tokens two guards held between Get and Delete at once
    slowest: int,                 // the longest time from Begin to Count so far
    loose: set<GuardId>           // the guards that wrote an ok mail row outside a hold
  ) {
    function PhaseOf(g: GuardId): Phase {
      if g in phases then phases[g] else Idle
    }
  }

  datatype Event =
    | Tick(d: int)
    | Preview(g: GuardId, call: Call, token: Token)
    | Begin(g: GuardId, call: Call, token: Token)
    | Lock(g: GuardId)
    | Count(g: GuardId)
    | Get(g: GuardId, call: Call, token: Token)
    | Delete(g: GuardId)
    | Append(g: GuardId, tool: Tool, ok: bool)
    | Commit(g: GuardId)
    | Abandon(g: GuardId)
    | SweepConfirms(now: int)
    | DeleteOld(now: int)
  {
    function Actor(): Option<GuardId> {
      match this
      case Tick(_) => None
      case SweepConfirms(_) => None
      case DeleteOld(_) => None
      case Preview(g, _, _) => Some(g)
      case Begin(g, _, _) => Some(g)
      case Lock(g) => Some(g)
      case Count(g) => Some(g)
      case Get(g, _, _) => Some(g)
      case Delete(g) => Some(g)
      case Append(g, _, _) => Some(g)
      case Commit(g) => Some(g)
      case Abandon(g) => Some(g)
    }
  }

  const INIT: State := State(0, [], {}, map[], map[], map[], [], {}, 0, {})

  predicate IsMail(r: Row, c: int) {
    r.character == c && r.tool == EveMailSend && r.ok
  }

  /** The first `upto` rows of `kept` that the cap query of character `c` counts from `since` on. */
  function Recent(rows: seq<Row>, kept: set<nat>, upto: nat, c: int, since: int): set<nat> {
    set i | i in kept && i < upto && i < |rows| && IsMail(rows[i], c) && rows[i].at >= since
  }

  function CountMail(s: State, c: int, began: int): nat {
    |Recent(s.rows, s.live, |s.rows|, c, began - HOUR)|
  }

  predicate LockFree(cfg: Config, phases: map<GuardId, Phase>, c: int) {
    forall h :: h in phases && h in cfg.who && cfg.who[h].character == c ==> !phases[h].Holds()
  }

  /** What consumeConfirm decides about the row it read. */
  function Judge(w: Who, call: Call, token: Token, hold: Option<int>, confirms: map<Token, Confirm>,
                 clock: int): Phase {
    if token !in confirms then Idle else
    var row := confirms[token];
    if row.session != w.session then Idle
    else if clock - row.createdAt > CONFIRM_TTL then Dropping(token, hold)
    else if row.tool != call.tool then Idle
    else if row.digest != call.digest then Dropping(token, hold)
    else Looked(call, token, hold, row, clock)
  }

  function SeesShared(s: State, g: GuardId, p: Phase): set<Token> {
    if p.Looked? && (exists h :: h in s.phases && h != g && s.phases[h].LooksAt(p.token)) then {p.token} else {}
  }

  function Enter(s: State, g: GuardId, p: Phase): State {
    s.(phases := s.phases[g := p])
  }

  function DoPreview(w: Who, s: State, g: GuardId, call: Call, token: Token): Option<State> {
    if s.PhaseOf(g) != Idle || token in s.minted then None else
    var c := Confirm(w.session, call.tool, call.digest, s.clock);
    Some(s.(confirms := s.confirms[token := c], minted := s.minted[token := c]))
  }

  function DoGet(w: Who, s: State, g: GuardId, call: Call, token: Token): Option<State> {
    var p := s.PhaseOf(g);
    if p.Idle? && call.tool != EveMailSend then
      var next := Judge(w, call, token, None, s.confirms, s.clock);
      Some(Enter(s, g, next).(shared := s.shared + SeesShared(s, g, next)))
    else if p.Counted? && p.call == call && p.token == token && p.n < MAIL_CAP then
      var next := Judge(w, call, token, Some(p.began), s.confirms, s.clock);
      Some(Enter(s, g, next).(shared := s.shared + SeesShared(s, g, next)))
    else None
  }

  function DoDelete(w: Who, s: State, g: GuardId): Option<State> {
    var p := s.PhaseOf(g);
    if p.Looked? then
      Some(Enter(s, g, Authorised(p.hold)).(
           confirms := s.confirms - {p.token},
           spends := s.spends + [Spend(w.session, p.call.tool, p.call.digest, p.token, p.at)]))
    else if p.Dropping? then
      Some(Enter(s, g, Idle).(confirms := s.confirms - {p.token}))
    else None
  }

  function AddRow(s: State, r: Row): State {
    s.(rows := s.rows + [r], live := s.live + {|s.rows|})
  }

  function DoAppend(w: Who, s: State, g: GuardId, tool: Tool, ok: bool): Option<State> {
    var p := s.PhaseOf(g);
    if p.Authorised? && p.hold.Some? then
      Some(Enter(s, g, Written(Row(w.character, tool, ok, p.hold.value))))
    else if p.Idle? || p.Authorised? then
      var r := Row(w.character, tool, ok, s.clock);
      Some(AddRow(Enter(s, g, Idle), r).(loose := s.loose + if IsMail(r, w.character) then {g} else {}))
    else None
  }

  function DoCommit(s: State, g: GuardId): Option<State> {
    var p := s.PhaseOf(g);
    if p.Written? then Some(AddRow(Enter(s, g, Idle), p.row)) else None
  }

  function GuardStep(cfg: Config, s: State, g: GuardId, e: Event): Option<State>
    requires g in cfg.who && e.Actor() == Some(g)
  {
    var w := cfg.who[g];
    var p := s.PhaseOf(g);
    match e
    case Preview(_, call, token) => DoPreview(w, s, g, call, token)
    case Begin(_, call, token) =>
      if p.Idle? && call.tool == EveMailSend then Some(Enter(s, g, Begun(call, token, s.clock))) else None
    case Lock(_) =>
      if p.Begun? && LockFree(cfg, s.phases, w.character)
      then Some(Enter(s, g, Locked(p.call, p.token, p.began))) else None
    case Count(_) =>
      if !p.Locked? then None else
      Some(Enter(s, g, Counted(p.call, p.token, p.began, CountMail(s, w.character, p.began))).(
           slowest := if s.slowest < s.clock - p.began then s.clock - p.began else s.slowest))
    case Get(_, call, token) => DoGet(w, s, g, call, token)
    case Delete(_) => DoDelete(w, s, g)
    case Append(_, tool, ok) => DoAppend(w, s, g, tool, ok)
    case Commit(_) => DoCommit(s, g)
    case Abandon(_) => Some(Enter(s, g, Idle))
  }

  /** The state after `e`, or None when `e` cannot happen (its statement blocks, or the guard is elsewhere). */
  function Step(cfg: Config, s: State, e: Event): Option<State> {
    match e
    case Tick(d) => if d > 0 then Some(s.(clock := s.clock + d)) else None
    case SweepConfirms(now) =>
      if now > s.clock then None else
      Some(s.(confirms := map t | t in s.confirms && s.confirms[t].createdAt + CONFIRM_TTL >= now :: s.confirms[t]))
    case DeleteOld(now) =>
      if now > s.clock then None else
      Some(s.(live := set i | i in s.live && i < |s.rows| && s.rows[i].at >= now - RETENTION))
    case _ =>
      var g := e.Actor().value;
      if g in cfg.who then GuardStep(cfg, s, g, e) else None
  }

  function Run(cfg: Config, es: seq<Event>): Option<State> {
    if es == [] then Some(INIT) else
    match Run(cfg, es[..|es| - 1])
    case None => None
    case Some(s) => Step(cfg, s, es[|es| - 1])
  }

  lemma RunSnoc(cfg: Config, es: seq<Event>, e: Event)
    ensures Run(cfg, es + [e]) == (match Run(cfg, es) case None => None case Some(s) => Step(cfg, s, e))
  {
    assert (es + [e])[..|es|] == es;
  }

  /** A guard moves only itself, and comes to hold the lock only when nobody else of its character does. */
  lemma GuardMoves(cfg: Config, s: State, g: GuardId, e: Event, s': State)
    requires g in cfg.who && e.Actor() == Some(g) && GuardStep(cfg, s, g, e) == Some(s')
    ensures s'.phases == s.phases || s'.phases == s.phases[g := s'.PhaseOf(g)]
    ensures s'.PhaseOf(g).Holds() ==> s.PhaseOf(g).Holds() || LockFree(cfg, s.phases, cfg.who[g].character)
  {
  }

  /** Only Preview, Get and Delete concern the confirm tokens. */
  lemma GuardLeavesTokens(cfg: Config, s: State, g: GuardId, e: Event, s': State)
    requires g in cfg.who && e.Actor() == Some(g) && GuardStep(cfg, s, g, e) == Some(s')
    requires !e.Preview? && !e.Get? && !e.Delete?
    ensures s' == s.(phases := s.phases[g := s'.PhaseOf(g)], rows := s'.rows, live := s'.live,
                     slowest := s'.slowest, loose := s'.loose)
    ensures !s'.PhaseOf(g).Looked?
  {
  }
}
