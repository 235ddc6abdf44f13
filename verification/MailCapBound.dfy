/** The rolling mail cap over every interleaving: at most five ok sends of a character in any hour. */
module MailCapBound {
  import opened Options
  import opened MailProtocol

  /** The rows of `kept` that are sends of `c` stamped within the closed hour starting at `w`. */
  ghost function InHour(rows: seq<Row>, kept: set<nat>, c: int, w: int): set<nat> {
    set i | i in kept && i < |rows| && IsMail(rows[i], c) && w <= rows[i].at <= w + HOUR
  }

  ghost function Indices(n: nat): (r: set<nat>)
    ensures forall i: nat :: i in r <==> i < n
  {
    if n == 0 then {} else Indices(n - 1) + {n - 1}
  }

  ghost predicate Within(kept: set<nat>, n: nat) {
    forall i :: i in kept ==> i < n
  }

  /** The two views of the log the bound is about: what the table still holds, and everything ever committed. */
  ghost function View(s: State, all: bool): set<nat> {
    if all then Indices(|s.rows|) else s.live
  }

  ghost predicate LockInv(cfg: Config, s: State) {
    && (forall g :: g in s.phases ==> g in cfg.who)
    && (forall g, h :: g in s.phases && h in s.phases && g != h && s.phases[g].Holds() && s.phases[h].Holds() ==>
          cfg.who[g].character != cfg.who[h].character)
  }

  ghost predicate LiveInv(s: State) {
    && Within(s.live, |s.rows|)
    && (forall i :: 0 <= i < |s.rows| && i !in s.live ==> s.rows[i].at < s.clock - RETENTION)
  }

  /** Every committed send saw fewer than MAIL_CAP sends in the hour before its own stamp. */
  ghost predicate CappedAt(rows: seq<Row>, kept: set<nat>, i: nat) {
    i < |rows| && IsMail(rows[i], rows[i].character) ==>
      |Recent(rows, kept, i, rows[i].character, rows[i].at - HOUR)| < MAIL_CAP
  }

  ghost predicate RowsCapped(rows: seq<Row>, kept: set<nat>) {
    forall i :: i in kept ==> CappedAt(rows, kept, i)
  }

  /** What a guard that has counted may rely on until it commits or lets go. */
  ghost predicate HoldCapped(p: Phase, c: int, rows: seq<Row>, kept: set<nat>) {
    match p
    case Counted(_, _, began, n) => |Recent(rows, kept, |rows|, c, began - HOUR)| <= n
    case Looked(_, _, Some(began), _, _) => |Recent(rows, kept, |rows|, c, began - HOUR)| < MAIL_CAP
    case Dropping(_, Some(began)) => |Recent(rows, kept, |rows|, c, began - HOUR)| < MAIL_CAP
    case Authorised(Some(began)) => |Recent(rows, kept, |rows|, c, began - HOUR)| < MAIL_CAP
    case Written(r) => r.character == c && |Recent(rows, kept, |rows|, c, r.at - HOUR)| < MAIL_CAP
    case _ => true
  }

  ghost predicate HoldsCapped(cfg: Config, s: State, kept: set<nat>)
    requires LockInv(cfg, s)
  {
    forall g :: g in s.phases ==> HoldCapped(s.phases[g], cfg.who[g].character, s.rows, kept)
  }

  ghost predicate CapInv(cfg: Config, s: State, all: bool) {
    && LockInv(cfg, s)
    && LiveInv(s)
    && RowsCapped(s.rows, View(s, all))
    && HoldsCapped(cfg, s, View(s, all))
  }

  /** The side conditions under which the cap is kept: brackets respected, and, over the whole history, no hold
      that waited longer than the retention period less an hour before it counted. */
  ghost predicate Disciplined(s: State, all: bool) {
    s.loose == {} && (all ==> s.slowest <= RETENTION - HOUR)
  }

  /** The cap query counts the ok sends of the character that are in the table, from an hour before `began` on. */
  lemma CountIs(s: State, c: int, began: int, sends: set<nat>)
    requires forall i: nat :: i in sends <==>
      && i in s.live && i < |s.rows| && s.rows[i].character == c && s.rows[i].tool == EveMailSend && s.rows[i].ok
      && s.rows[i].at >= began - 3_600_000_000
    ensures CountMail(s, c, began) == |sends|
  {
    assert sends == Recent(s.rows, s.live, |s.rows|, c, began - HOUR);
  }

  lemma RecentShrinks(rows: seq<Row>, kept: set<nat>, fewer: set<nat>, upto: nat, c: int, since: int)
    requires fewer <= kept
    ensures |Recent(rows, fewer, upto, c, since)| <= |Recent(rows, kept, upto, c, since)|
  {
    SubsetSize(Recent(rows, fewer, upto, c, since), Recent(rows, kept, upto, c, since));
  }

  lemma {:induction false} SubsetSize(a: set<nat>, b: set<nat>)
    requires a <= b
    ensures |a| <= |b|
  {
    if a != {} {
      var x :| x in a;
      SubsetSize(a - {x}, b - {x});
    }
  }

  /** A hold's promise survives DeleteOld: the rows it counts can only become fewer. */
  lemma CapSurvivesDelete(cfg: Config, s: State, s': State)
    requires CapInv(cfg, s, false)
    requires s'.live <= s.live && s' == s.(live := s'.live)
    ensures RowsCapped(s'.rows, s'.live) && HoldsCapped(cfg, s', s'.live)
  {
    forall i | i in s'.live && i < |s.rows|
      ensures CappedAt(s.rows, s'.live, i)
    {
      assert CappedAt(s.rows, s.live, i);
      RecentShrinks(s.rows, s.live, s'.live, i, s.rows[i].character, s.rows[i].at - HOUR);
    }
    forall g | g in s'.phases
      ensures HoldCapped(s'.phases[g], cfg.who[g].character, s.rows, s'.live)
    {
      forall since {
        RecentShrinks(s.rows, s.live, s'.live, |s.rows|, cfg.who[g].character, since);
      }
    }
  }

  lemma RecentAfterAppend(rows: seq<Row>, kept: set<nat>, r: Row, upto: nat, c: int, since: int)
    requires Within(kept, |rows|) && upto <= |rows|
    ensures Recent(rows + [r], kept + {|rows|}, upto, c, since) == Recent(rows, kept, upto, c, since)
    ensures !IsMail(r, c) ==>
      Recent(rows + [r], kept + {|rows|}, |rows| + 1, c, since) == Recent(rows, kept, |rows|, c, since)
  {
    assert forall i :: 0 <= i < |rows| ==> (rows + [r])[i] == rows[i];
  }

  lemma RowCappedAfterAppend(rows: seq<Row>, kept: set<nat>, r: Row, i: nat)
    requires Within(kept, |rows|) && i <= |rows|
    requires i < |rows| ==> CappedAt(rows, kept, i)
    requires i == |rows| && IsMail(r, r.character) ==>
      |Recent(rows, kept, |rows|, r.character, r.at - HOUR)| < MAIL_CAP
    ensures CappedAt(rows + [r], kept + {|rows|}, i)
  {
    if i < |rows| {
      RecentAfterAppend(rows, kept, r, i, rows[i].character, rows[i].at - HOUR);
    } else {
      RecentAfterAppend(rows, kept, r, i, r.character, r.at - HOUR);
    }
  }

  lemma RowsCappedAfterAppend(rows: seq<Row>, kept: set<nat>, r: Row)
    requires Within(kept, |rows|) && RowsCapped(rows, kept)
    requires IsMail(r, r.character) ==> |Recent(rows, kept, |rows|, r.character, r.at - HOUR)| < MAIL_CAP
    ensures RowsCapped(rows + [r], kept + {|rows|})
  {
    forall i | i in kept + {|rows|}
      ensures CappedAt(rows + [r], kept + {|rows|}, i)
    {
      RowCappedAfterAppend(rows, kept, r, i);
    }
  }

  /** Committing a row leaves every other guard's promise intact: only the lock holder commits sends of its
      character. */
  lemma HoldsCappedAfterAppend(cfg: Config, s: State, s': State, g: GuardId, r: Row, kept: set<nat>)
    requires LockInv(cfg, s) && g in cfg.who && r.character == cfg.who[g].character
    requires Within(kept, |s.rows|) && HoldsCapped(cfg, s, kept)
    requires s'.phases == s.phases[g := Idle] && s'.rows == s.rows + [r]
    requires (g in s.phases && s.phases[g].Holds()) || !IsMail(r, r.character)
    ensures LockInv(cfg, s') && HoldsCapped(cfg, s', kept + {|s.rows|})
  {
    forall h | h in s'.phases
      ensures HoldCapped(s'.phases[h], cfg.who[h].character, s'.rows, kept + {|s.rows|})
    {
      if h != g && s.phases[h].Holds() {
        assert HoldCapped(s.phases[h], cfg.who[h].character, s.rows, kept);
        assert !IsMail(r, cfg.who[h].character);
        forall since {
          RecentAfterAppend(s.rows, kept, r, |s.rows|, cfg.who[h].character, since);
        }
      }
    }
  }

  lemma ViewAfterAppend(s: State, s': State, r: Row, all: bool)
    requires LiveInv(s)
    requires s'.rows == s.rows + [r] && s'.live == s.live + {|s.rows|} && s'.clock == s.clock
    ensures LiveInv(s') && Within(View(s, all), |s.rows|)
    ensures View(s', all) == View(s, all) + {|s.rows|}
  {
  }

  lemma AddRowKeeps(cfg: Config, s: State, s': State, g: GuardId, r: Row, all: bool)
    requires CapInv(cfg, s, all) && g in cfg.who && r.character == cfg.who[g].character
    requires s'.rows == s.rows + [r] && s'.live == s.live + {|s.rows|} && s'.phases == s.phases[g := Idle]
    requires s'.clock == s.clock
    requires s.PhaseOf(g) == Written(r) || !IsMail(r, r.character)
    ensures CapInv(cfg, s', all)
  {
    ViewAfterAppend(s, s', r, all);
    assert s.PhaseOf(g) == Written(r) ==> HoldCapped(s.phases[g], r.character, s.rows, View(s, all));
    RowsCappedAfterAppend(s.rows, View(s, all), r);
    HoldsCappedAfterAppend(cfg, s, s', g, r, View(s, all));
  }

  /** What Count reads from the table is what the whole history would have said, unless the hold waited too long. */
  lemma CountSeesHistory(s: State, c: int, began: int)
    requires LiveInv(s) && s.clock - began <= RETENTION - HOUR
    ensures Recent(s.rows, s.live, |s.rows|, c, began - HOUR)
         == Recent(s.rows, Indices(|s.rows|), |s.rows|, c, began - HOUR)
  {
  }

  /** A guard that changes only its own phase, to one whose promise holds, keeps the invariant. */
  lemma EnterKeeps(cfg: Config, s: State, s': State, g: GuardId, p: Phase, all: bool)
    requires CapInv(cfg, s, all) && g in cfg.who
    requires s'.rows == s.rows && s'.live == s.live && s'.clock == s.clock && s'.phases == s.phases[g := p]
    requires p.Holds() ==> s.PhaseOf(g).Holds() || LockFree(cfg, s.phases, cfg.who[g].character)
    requires HoldCapped(p, cfg.who[g].character, s.rows, View(s, all))
    ensures CapInv(cfg, s', all)
  {
    assert View(s', all) == View(s, all);
  }

  lemma CountKeeps(cfg: Config, s: State, g: GuardId, s': State, all: bool)
    requires CapInv(cfg, s, all) && g in cfg.who
    requires GuardStep(cfg, s, g, Count(g)) == Some(s') && Disciplined(s', all)
    ensures CapInv(cfg, s', all)
  {
    var p := s.PhaseOf(g);
    if all {
      CountSeesHistory(s, cfg.who[g].character, p.began);
    }
    EnterKeeps(cfg, s, s', g, s'.phases[g], all);
  }

  lemma AppendKeeps(cfg: Config, s: State, g: GuardId, tool: Tool, ok: bool, s': State, all: bool)
    requires CapInv(cfg, s, all) && g in cfg.who
    requires DoAppend(cfg.who[g], s, g, tool, ok) == Some(s') && Disciplined(s', all)
    ensures CapInv(cfg, s', all)
  {
    var p := s.PhaseOf(g);
    assert HoldCapped(p, cfg.who[g].character, s.rows, View(s, all));
    if p.Authorised? && p.hold.Some? {
      EnterKeeps(cfg, s, s', g, s'.phases[g], all);
    } else {
      AddRowKeeps(cfg, s, s', g, Row(cfg.who[g].character, tool, ok, s.clock), all);
    }
  }

  lemma CommitKeeps(cfg: Config, s: State, g: GuardId, s': State, all: bool)
    requires CapInv(cfg, s, all) && g in cfg.who && DoCommit(s, g) == Some(s')
    ensures CapInv(cfg, s', all)
  {
    var p := s.PhaseOf(g);
    assert HoldCapped(p, cfg.who[g].character, s.rows, View(s, all));
    AddRowKeeps(cfg, s, s', g, p.row, all);
  }

  lemma JudgeKeepsPromise(w: Who, call: Call, token: Token, hold: Option<int>, s: State, kept: set<nat>)
    requires hold.Some? ==> |Recent(s.rows, kept, |s.rows|, w.character, hold.value - HOUR)| < MAIL_CAP
    ensures HoldCapped(Judge(w, call, token, hold, s.confirms, s.clock), w.character, s.rows, kept)
    ensures Judge(w, call, token, hold, s.confirms, s.clock).Holds() ==> hold.Some?
  {
  }

  ghost function HoldOf(p: Phase): Option<int> {
    if p.Counted? then Some(p.began) else None
  }

  lemma GetEnters(w: Who, s: State, g: GuardId, call: Call, token: Token, s': State)
    requires DoGet(w, s, g, call, token) == Some(s')
    ensures s'.rows == s.rows && s'.live == s.live && s'.clock == s.clock
    ensures s'.phases == s.phases[g := Judge(w, call, token, HoldOf(s.PhaseOf(g)), s.confirms, s.clock)]
    ensures s.PhaseOf(g).Counted? ==> s.PhaseOf(g).n < MAIL_CAP
  {
  }

  lemma GetKeeps(cfg: Config, s: State, g: GuardId, call: Call, token: Token, s': State, all: bool)
    requires CapInv(cfg, s, all) && g in cfg.who && DoGet(cfg.who[g], s, g, call, token) == Some(s')
    ensures CapInv(cfg, s', all)
  {
    var p := s.PhaseOf(g);
    GetEnters(cfg.who[g], s, g, call, token, s');
    assert p.Counted? ==> HoldCapped(p, cfg.who[g].character, s.rows, View(s, all));
    JudgeKeepsPromise(cfg.who[g], call, token, HoldOf(p), s, View(s, all));
    EnterKeeps(cfg, s, s', g, Judge(cfg.who[g], call, token, HoldOf(p), s.confirms, s.clock), all);
  }

  lemma DeleteKeeps(cfg: Config, s: State, g: GuardId, s': State, all: bool)
    requires CapInv(cfg, s, all) && g in cfg.who && DoDelete(cfg.who[g], s, g) == Some(s')
    ensures CapInv(cfg, s', all)
  {
    var p := s.PhaseOf(g);
    assert HoldCapped(p, cfg.who[g].character, s.rows, View(s, all));
    EnterKeeps(cfg, s, s', g, if p.Looked? then Authorised(p.hold) else Idle, all);
  }

  lemma GuardStepKeeps(cfg: Config, s: State, g: GuardId, e: Event, s': State, all: bool)
    requires CapInv(cfg, s, all) && g in cfg.who && e.Actor() == Some(g)
    requires GuardStep(cfg, s, g, e) == Some(s') && Disciplined(s', all)
    ensures CapInv(cfg, s', all)
  {
    match e {
      case Preview(_, _, _) => assert View(s', all) == View(s, all);
      case Count(_) => CountKeeps(cfg, s, g, s', all);
      case Append(_, tool, ok) => AppendKeeps(cfg, s, g, tool, ok, s', all);
      case Commit(_) => CommitKeeps(cfg, s, g, s', all);
      case Get(_, call, token) => GetKeeps(cfg, s, g, call, token, s', all);
      case Delete(_) => DeleteKeeps(cfg, s, g, s', all);
      case Begin(_, _, _) => EnterKeeps(cfg, s, s', g, s'.phases[g], all);
      case Lock(_) => EnterKeeps(cfg, s, s', g, s'.phases[g], all);
      case Abandon(_) => EnterKeeps(cfg, s, s', g, Idle, all);
    }
  }

  lemma StepKeepsCap(cfg: Config, s: State, e: Event, s': State, all: bool)
    requires CapInv(cfg, s, all) && Step(cfg, s, e) == Some(s') && Disciplined(s', all)
    ensures CapInv(cfg, s', all)
  {
    match e {
      case Tick(_) =>
        assert View(s', all) == View(s, all);
      case SweepConfirms(_) =>
        assert View(s', all) == View(s, all);
      case DeleteOld(_) =>
        if all {
          assert View(s', all) == View(s, all);
        } else {
          CapSurvivesDelete(cfg, s, s');
        }
      case _ =>
        GuardStepKeeps(cfg, s, e.Actor().value, e, s', all);
    }
  }

  /** The history fields only grow, so a run that ends disciplined was disciplined throughout. */
  lemma DisciplineIsPast(cfg: Config, s: State, e: Event, s': State, all: bool)
    requires Step(cfg, s, e) == Some(s') && Disciplined(s', all)
    ensures Disciplined(s, all)
  {
  }

  lemma {:induction false} ReachableCap(cfg: Config, es: seq<Event>, s: State, all: bool)
    requires Run(cfg, es) == Some(s) && Disciplined(s, all)
    ensures CapInv(cfg, s, all)
  {
    if es != [] {
      var before := Run(cfg, es[..|es| - 1]).value;
      DisciplineIsPast(cfg, before, es[|es| - 1], s, all);
      ReachableCap(cfg, es[..|es| - 1], before, all);
      StepKeepsCap(cfg, before, es[|es| - 1], s, all);
    } else {
      assert View(s, all) == {};
    }
  }

  lemma {:induction false} LastOf(xs: set<nat>) returns (m: nat)
    requires xs != {}
    ensures m in xs && forall x :: x in xs ==> x <= m
  {
    var x :| x in xs;
    if xs == {x} {
      m := x;
    } else {
      m := LastOf(xs - {x});
      assert xs == (xs - {x}) + {x};
      m := if m < x then x else m;
    }
  }

  /** The last committed send of an hour counted every other send of that hour, whatever the order of their stamps. */
  lemma HourBound(rows: seq<Row>, kept: set<nat>, c: int, w: int)
    requires RowsCapped(rows, kept)
    ensures |InHour(rows, kept, c, w)| <= MAIL_CAP
  {
    var hour := InHour(rows, kept, c, w);
    if hour != {} {
      var last := LastOf(hour);
      assert CappedAt(rows, kept, last);
      SubsetSize(hour - {last}, Recent(rows, kept, last, c, rows[last].at - HOUR));
    }
  }

  /** In every reachable state, the mutations table holds at most five ok sends of a character in any closed hour. */
  lemma TableBound(cfg: Config, es: seq<Event>, s: State, c: int, w: int)
    requires Run(cfg, es) == Some(s) && s.loose == {}
    ensures |InHour(s.rows, s.live, c, w)| <= MAIL_CAP
  {
    ReachableCap(cfg, es, s, false);
    HourBound(s.rows, s.live, c, w);
  }

  /** Over the whole history, deleted rows included, as long as no hold waited past the retention period. */
  lemma HistoryBound(cfg: Config, es: seq<Event>, s: State, c: int, w: int)
    requires Run(cfg, es) == Some(s) && s.loose == {} && s.slowest <= RETENTION - HOUR
    ensures |InHour(s.rows, Indices(|s.rows|), c, w)| <= MAIL_CAP
  {
    ReachableCap(cfg, es, s, true);
    HourBound(s.rows, Indices(|s.rows|), c, w);
  }
}
