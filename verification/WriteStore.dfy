/**
 The database as the guards see it: one method per statement, each a step of the write protocol.

 `phases` is what the open connections hold between statements.  Valid says that the contents are
 reached by a run of the protocol, so everything proved of runs holds of any store.
 */
module WriteStore {
  import opened Options
  import opened MailProtocol

  /** None of the events of `es` from `n` on is an act of guard `g`. */
  ghost predicate Others(g: GuardId, es: seq<Event>, n: nat) {
    forall i :: n <= i < |es| ==> es[i].Actor() != Some(g)
  }

  lemma OtherStep(cfg: Config, s: State, e: Event, s': State, g: GuardId)
    requires Step(cfg, s, e) == Some(s') && e.Actor() != Some(g)
    ensures s'.PhaseOf(g) == s.PhaseOf(g) && s.spends <= s'.spends && s.rows <= s'.rows
    ensures g in s'.loose <==> g in s.loose
  {
    if e.Actor().Some? {
      GuardMoves(cfg, s, e.Actor().value, e, s');
    }
  }

  /** What the other guards do leaves a guard where it was, and only adds to the logs. */
  lemma {:induction false} OthersLeave(cfg: Config, before: seq<Event>, after: seq<Event>, g: GuardId)
    requires before <= after && Run(cfg, before).Some? && Run(cfg, after).Some? && Others(g, after, |before|)
    ensures Run(cfg, after).value.PhaseOf(g) == Run(cfg, before).value.PhaseOf(g)
    ensures Run(cfg, before).value.spends <= Run(cfg, after).value.spends
    ensures Run(cfg, before).value.rows <= Run(cfg, after).value.rows
    ensures g in Run(cfg, before).value.loose <==> g in Run(cfg, after).value.loose
    decreases |after|
  {
    if |before| < |after| {
      var init := after[..|after| - 1];
      assert before <= init;
      OthersLeave(cfg, before, init, g);
      OtherStep(cfg, Run(cfg, init).value, after[|after| - 1], Run(cfg, after).value, g);
    } else {
      assert before == after;
    }
  }

  lemma LogsGrowByOne(cfg: Config, s: State, e: Event, s': State)
    requires Step(cfg, s, e) == Some(s')
    ensures s.spends <= s'.spends && s.rows <= s'.rows
  {
  }

  /** Nothing that happens takes a row or a spend out of the logs. */
  lemma {:induction false} LogsGrow(cfg: Config, before: seq<Event>, after: seq<Event>)
    requires before <= after && Run(cfg, before).Some? && Run(cfg, after).Some?
    ensures Run(cfg, before).value.spends <= Run(cfg, after).value.spends
    ensures Run(cfg, before).value.rows <= Run(cfg, after).value.rows
    decreases |after|
  {
    hide Step;
    if |before| < |after| {
      var init := after[..|after| - 1];
      assert before <= init;
      LogsGrow(cfg, before, init);
      LogsGrowByOne(cfg, Run(cfg, init).value, after[|after| - 1], Run(cfg, after).value);
    } else {
      assert before == after;
    }
  }

  /** Whose each spend is, in the order of the spends. */
  ghost function Spenders(cfg: Config, es: seq<Event>): seq<GuardId> {
    if es == [] then [] else
    var init := es[..|es| - 1];
    Spenders(cfg, init) + NewSpender(Run(cfg, init), es[|es| - 1])
  }

  ghost function NewSpender(s: Option<State>, e: Event): seq<GuardId> {
    if s.Some? && e.Delete? && s.value.PhaseOf(e.g).Looked? then [e.g] else []
  }

  lemma SpendersSnoc(cfg: Config, es: seq<Event>, e: Event)
    ensures Spenders(cfg, es + [e]) == Spenders(cfg, es) + NewSpender(Run(cfg, es), e)
  {
    assert (es + [e])[..|es|] == es;
  }

  /** Spends grow by the deletes of looked-at tokens, and by nothing else: there is one spender for each. */
  lemma {:induction false} OneSpenderEach(cfg: Config, es: seq<Event>)
    requires Run(cfg, es).Some?
    ensures |Spenders(cfg, es)| == |Run(cfg, es).value.spends|
  {
    hide Step;
    if es != [] {
      var init := es[..|es| - 1];
      OneSpenderEach(cfg, init);
      SpendStep(cfg, Run(cfg, init).value, es[|es| - 1], Run(cfg, es).value);
    }
  }

  lemma SpendStep(cfg: Config, s: State, e: Event, s': State)
    requires Step(cfg, s, e) == Some(s')
    ensures |s'.spends| == |s.spends| + |NewSpender(Some(s), e)|
  {
  }

  /** What others do adds nothing to a guard's own spends. */
  lemma {:induction false} OthersSpend(cfg: Config, before: seq<Event>, after: seq<Event>, g: GuardId)
    requires before <= after && Others(g, after, |before|)
    ensures Spenders(cfg, before) <= Spenders(cfg, after)
    ensures forall i :: |Spenders(cfg, before)| <= i < |Spenders(cfg, after)| ==> Spenders(cfg, after)[i] != g
    decreases |after|
  {
    hide Run;
    if |before| < |after| {
      var init, e := after[..|after| - 1], after[|after| - 1];
      assert before <= init;
      OthersSpend(cfg, before, init, g);
      assert e.Delete? ==> e.Actor() == Some(e.g);
    } else {
      assert before == after;
    }
  }

  /** No new spend is the guard's. */
  ghost predicate NoneBy(g: GuardId, before: seq<GuardId>, after: seq<GuardId>) {
    before <= after && forall i :: |before| <= i < |after| ==> after[i] != g
  }

  /** The last spend is the guard's, and no other new one is. */
  ghost predicate OneBy(g: GuardId, before: seq<GuardId>, after: seq<GuardId>) {
    after != [] && after[|after| - 1] == g && NoneBy(g, before, after[..|after| - 1])
  }

  lemma NoneTwice(g: GuardId, a: seq<GuardId>, b: seq<GuardId>, c: seq<GuardId>)
    requires NoneBy(g, a, b) && (b == c || NoneBy(g, b, c))
    ensures NoneBy(g, a, c)
  {
  }

  lemma NoneThenOneBy(g: GuardId, a: seq<GuardId>, b: seq<GuardId>, c: seq<GuardId>)
    requires NoneBy(g, a, b) && OneBy(g, b, c)
    ensures OneBy(g, a, c)
  {
  }

  lemma NoneYet(g: GuardId, a: seq<GuardId>)
    ensures NoneBy(g, a, a)
  {
  }

  lemma NoneThenOne(g: GuardId, a: seq<GuardId>, b: seq<GuardId>)
    requires NoneBy(g, a, b)
    ensures OneBy(g, a, b + [g])
  {
    assert (b + [g])[..|b|] == b;
  }

  /** Between the runs `from` and `es` the event `e` came, and the database was `s` when it did. */
  ghost predicate Met(cfg: Config, from: seq<Event>, es: seq<Event>, e: Event, s: State) {
    exists n :: |from| <= n < |es| && es[n] == e && Run(cfg, es[..n]) == Some(s)
  }

  /** Between the runs `from` and `es` the database was `s` at some moment. */
  ghost predicate Passed(cfg: Config, from: seq<Event>, es: seq<Event>, s: State) {
    exists n :: |from| <= n <= |es| && Run(cfg, es[..n]) == Some(s)
  }

  lemma MeetsNow(cfg: Config, from: seq<Event>, es: seq<Event>, e: Event, s: State)
    requires from <= es && Run(cfg, es) == Some(s)
    ensures Met(cfg, from, es + [e], e, s)
  {
    assert (es + [e])[..|es|] == es;
  }

  lemma PassesNow(cfg: Config, from: seq<Event>, es: seq<Event>, s: State)
    requires from <= es && Run(cfg, es) == Some(s)
    ensures Passed(cfg, from, es, s)
  {
    assert es[..|es|] == es;
  }

  lemma StaysMet(cfg: Config, from: seq<Event>, from': seq<Event>, es: seq<Event>, es': seq<Event>, e: Event, s: State)
    requires from <= from' && es <= es' && Met(cfg, from', es, e, s)
    ensures Met(cfg, from, es', e, s)
  {
    var n :| |from'| <= n < |es| && es[n] == e && Run(cfg, es[..n]) == Some(s);
    assert es'[..n] == es[..n];
  }

  lemma StaysPassed(cfg: Config, from: seq<Event>, from': seq<Event>, es: seq<Event>, es': seq<Event>, s: State)
    requires from <= from' && es <= es' && Passed(cfg, from', es, s)
    ensures Passed(cfg, from, es', s)
  {
    var n :| |from'| <= n <= |es| && Run(cfg, es[..n]) == Some(s);
    assert es'[..n] == es[..n];
  }

  lemma GetIs(cfg: Config, s: State, g: GuardId, call: Call, token: Token)
    requires g in cfg.who
    ensures Step(cfg, s, Get(g, call, token)) == DoGet(cfg.who[g], s, g, call, token)
  {
  }

  lemma AppendIs(cfg: Config, s: State, g: GuardId, tool: Tool, ok: bool)
    requires g in cfg.who
    ensures Step(cfg, s, Append(g, tool, ok)) == DoAppend(cfg.who[g], s, g, tool, ok)
  {
  }

  class Store {
    const cfg: Config
    var clock: int
    var rows: seq<Row>
    var live: set<nat>
    var confirms: map<Token, Confirm>
    var phases: map<GuardId, Phase>
    var entropy: nat  // the next random token: never one that was drawn before
    ghost var minted: map<Token, Confirm>
    ghost var spends: seq<Spend>
    ghost var shared: set<Token>
    ghost var slowest: int
    ghost var loose: set<GuardId>
    ghost var trace: seq<Event>
    ghost var spenders: seq<GuardId>
    ghost var faults: map<GuardId, nat>  // how many statements of each guard the database has failed

    ghost function FaultsOf(g: GuardId): nat
      reads this
    {
      if g in faults then faults[g] else 0
    }

    /** One more statement of `g` has failed, or none. */
    ghost method Fault(g: GuardId, failed: bool)
      modifies this`faults
      ensures FaultsOf(g) == old(FaultsOf(g)) + if failed then 1 else 0
    {
      if failed {
        faults := faults[g := FaultsOf(g) + 1];
      }
    }

    ghost function Snapshot(): State
      reads this
    {
      State(clock, rows, live, confirms, phases, minted, spends, shared, slowest, loose)
    }

    ghost predicate Valid()
      reads this
    {
      && Run(cfg, trace) == Some(Snapshot()) && spenders == Spenders(cfg, trace)
      && forall t :: t in minted ==> t < entropy
    }

    ghost function PhaseOf(g: GuardId): Phase
      reads this
    {
      Snapshot().PhaseOf(g)
    }

    constructor (cfg: Config)
      ensures Valid() && this.cfg == cfg && trace == []
    {
      this.cfg := cfg;
      clock, rows, live, confirms, phases, entropy := 0, [], {}, map[], map[], 0;
      minted, spends, shared, slowest, loose, trace := map[], [], {}, 0, {}, [];
      spenders, faults := [], map[];
    }

    /** Record that the visible fields have moved from `before` by the event `e`. */
    ghost method Note(before: State, e: Event)
      requires Run(cfg, trace) == Some(before) && Step(cfg, before, e).Some? && spenders == Spenders(cfg, trace)
      requires var s := Step(cfg, before, e).value;
        s.clock == clock && s.rows == rows && s.live == live && s.confirms == confirms && s.phases == phases
        && forall t :: t in s.minted ==> t < entropy
      modifies this`minted, this`spends, this`shared, this`slowest, this`loose, this`trace, this`spenders
      ensures Valid() && trace == old(trace) + [e] && Step(cfg, before, e) == Some(Snapshot())
      ensures spenders == old(spenders) + NewSpender(Some(before), e)
    {
      hide Run, Step;
      RunSnoc(cfg, trace, e);
      SpendersSnoc(cfg, trace, e);
      var s := Step(cfg, before, e).value;
      minted, spends, shared, slowest, loose := s.minted, s.spends, s.shared, s.slowest, s.loose;
      spenders := spenders + NewSpender(Some(before), e);
      trace := trace + [e];
      assert Snapshot() == s;
    }

    /** Any number of statements of other guards, sweeps and ticks of the clock may come here.  The body is one
        way to meet that: nothing happens.  Callers may rely only on the contract. */
    method Interfere(ghost g: GuardId)
      requires Valid()
      modifies this
      ensures Valid() && old(trace) <= trace && Others(g, trace, |old(trace)|) && FaultsOf(g) == old(FaultsOf(g))
    {
    }

    method Yield(ghost g: GuardId)
      requires Valid()
      modifies this
      ensures Valid() && old(trace) <= trace && Others(g, trace, |old(trace)|) && FaultsOf(g) == old(FaultsOf(g))
      ensures PhaseOf(g) == old(PhaseOf(g)) && old(spends) <= spends && old(rows) <= rows
      ensures g in loose <==> g in old(loose)
      ensures NoneBy(g, old(spenders), spenders)
    {
      hide Run;
      Interfere(g);
      OthersSpend(cfg, old(trace), trace, g);
      OthersLeave(cfg, old(trace), trace, g);
    }

    /** INSERT of a fresh confirm token, on its own connection. */
    method PutConfirm(g: GuardId, call: Call) returns (failed: bool, token: Token)
      requires Valid() && g in cfg.who && PhaseOf(g) == Idle
      modifies this
      ensures Valid() && PhaseOf(g) == Idle && spends == old(spends) && spenders == old(spenders) && rows == old(rows)
      ensures loose == old(loose) && FaultsOf(g) == old(FaultsOf(g)) + if failed then 1 else 0
      ensures failed ==> trace == old(trace)
      ensures !failed ==> trace == old(trace) + [Preview(g, call, token)] && token !in old(minted)
      ensures !failed ==>
        token in confirms && confirms[token] == Confirm(cfg.who[g].session, call.tool, call.digest, clock)
    {
      hide Run;
      failed, token := *, entropy;
      entropy := entropy + 1;
      Fault(g, failed);
      if !failed {
        ghost var before := Snapshot();
        confirms := confirms[token := Confirm(cfg.who[g].session, call.tool, call.digest, clock)];
        Note(before, Preview(g, call, token));
      }
    }

    /** CountMailCap in a transaction of its own, which takes and gives back the lock. */
    method PeekMailCap(g: GuardId) returns (failed: bool, n: nat)
      requires Valid() && g in cfg.who
      modifies this`faults
      ensures Valid() && FaultsOf(g) == old(FaultsOf(g)) + if failed then 1 else 0
      ensures !failed ==> n == MailProtocol.CountMail(Snapshot(), cfg.who[g].character, clock)
    {
      failed := *;
      Fault(g, failed);
      n := |Recent(rows, live, |rows|, cfg.who[g].character, clock - HOUR)|;
    }

    /** BEGIN of a mail hold. */
    method BeginHold(g: GuardId, call: Call, token: Token) returns (failed: bool)
      requires Valid() && g in cfg.who && PhaseOf(g) == Idle && call.tool == EveMailSend
      modifies this
      ensures Valid() && FaultsOf(g) == old(FaultsOf(g)) + if failed then 1 else 0
      ensures failed ==> trace == old(trace) && PhaseOf(g) == Idle
      ensures !failed ==> trace == old(trace) + [Begin(g, call, token)] && PhaseOf(g) == Begun(call, token, old(clock))
      ensures spends == old(spends) && spenders == old(spenders) && rows == old(rows) && loose == old(loose)
    {
      hide Run;
      failed := *;
      Fault(g, failed);
      if !failed {
        ghost var before := Snapshot();
        phases := phases[g := Begun(call, token, clock)];
        Note(before, Begin(g, call, token));
      }
    }

    /** pg_advisory_xact_lock; `failed` when the statement gave up waiting. */
    method LockMailCap(g: GuardId) returns (failed: bool)
      requires Valid() && g in cfg.who && PhaseOf(g).Begun?
      modifies this
      ensures Valid() && FaultsOf(g) == old(FaultsOf(g)) + if failed then 1 else 0
      ensures spends == old(spends) && spenders == old(spenders) && rows == old(rows) && loose == old(loose)
      ensures failed ==> trace == old(trace) && PhaseOf(g) == old(PhaseOf(g))
      ensures !failed ==> trace == old(trace) + [Lock(g)]
      ensures !failed ==> var p := old(PhaseOf(g)); PhaseOf(g) == Locked(p.call, p.token, p.began)
    {
      hide Run;
      failed := *;
      failed := failed || !LockFree(cfg, phases, cfg.who[g].character);
      Fault(g, failed);
      if !failed {
        ghost var before := Snapshot();
        var p := phases[g];
        phases := phases[g := Locked(p.call, p.token, p.began)];
        Note(before, Lock(g));
      }
    }

    /** The cap query, inside the hold. */
    method CountMailCap(g: GuardId) returns (failed: bool, n: nat)
      requires Valid() && g in cfg.who && PhaseOf(g).Locked?
      modifies this
      ensures Valid() && FaultsOf(g) == old(FaultsOf(g)) + if failed then 1 else 0
      ensures spends == old(spends) && spenders == old(spenders) && rows == old(rows) && loose == old(loose)
      ensures failed ==> trace == old(trace) && PhaseOf(g) == old(PhaseOf(g))
      ensures !failed ==> trace == old(trace) + [Count(g)]
      ensures !failed ==> var p := old(PhaseOf(g)); PhaseOf(g) == Counted(p.call, p.token, p.began, n)
      ensures !failed ==>
        n == MailProtocol.CountMail(old(Snapshot()), cfg.who[g].character, old(PhaseOf(g)).began)
    {
      hide Run;
      failed := *;
      Fault(g, failed);
      ghost var before := Snapshot();
      var p := phases[g];
      n := |Recent(rows, live, |rows|, cfg.who[g].character, p.began - HOUR)|;
      if !failed {
        phases := phases[g := Counted(p.call, p.token, p.began, n)];
        Note(before, Count(g));
      }
    }

    /** SELECT of the token row; what the caller may do with it is settled by the row and the clock. */
    method GetConfirm(g: GuardId, call: Call, token: Token) returns (failed: bool, row: Option<Confirm>)
      requires Valid() && g in cfg.who
      requires (PhaseOf(g) == Idle && call.tool != EveMailSend)
            || (PhaseOf(g).Counted? && PhaseOf(g).call == call && PhaseOf(g).token == token && PhaseOf(g).n < MAIL_CAP)
      modifies this
      ensures Valid() && FaultsOf(g) == old(FaultsOf(g)) + if failed then 1 else 0
      ensures spends == old(spends) && spenders == old(spenders) && rows == old(rows) && loose == old(loose)
      ensures clock == old(clock)
      ensures failed ==> row == None && trace == old(trace) && PhaseOf(g) == old(PhaseOf(g))
      ensures !failed ==> trace == old(trace) + [Get(g, call, token)]
      ensures !failed ==> row == if token in old(confirms) then Some(old(confirms)[token]) else None
      ensures !failed ==>
        PhaseOf(g) == Judge(cfg.who[g], call, token,
          if old(PhaseOf(g)).Counted? then Some(old(PhaseOf(g)).began) else None, old(confirms), old(clock))
    {
      hide Run, Step, Judge, SeesShared;
      GetIs(cfg, Snapshot(), g, call, token);
      failed, row := *, None;
      Fault(g, failed);
      if !failed {
        ghost var before := Snapshot();
        var p := if g in phases then phases[g] else Idle;
        row := if token in confirms then Some(confirms[token]) else None;
        phases := phases[g := Judge(cfg.who[g], call, token, if p.Counted? then Some(p.began) else None,
                                    confirms, clock)];
        Note(before, Get(g, call, token));
      }
    }

    /** DELETE of the token row. */
    method DeleteConfirm(g: GuardId) returns (failed: bool)
      requires Valid() && g in cfg.who && (PhaseOf(g).Looked? || PhaseOf(g).Dropping?)
      modifies this
      ensures Valid() && rows == old(rows) && loose == old(loose)
      ensures FaultsOf(g) == old(FaultsOf(g)) + if failed then 1 else 0
      ensures failed ==>
        trace == old(trace) && PhaseOf(g) == old(PhaseOf(g)) && spends == old(spends) && spenders == old(spenders)
      ensures !failed ==> trace == old(trace) + [Delete(g)] && old(PhaseOf(g)).token !in confirms
      ensures !failed && old(PhaseOf(g)).Dropping? ==>
        PhaseOf(g) == Idle && spends == old(spends) && spenders == old(spenders)
      ensures !failed && old(PhaseOf(g)).Looked? ==> var p := old(PhaseOf(g));
        && PhaseOf(g) == Authorised(p.hold) && spenders == old(spenders) + [g]
        && spends == old(spends) + [Spend(cfg.who[g].session, p.call.tool, p.call.digest, p.token, p.at)]
    {
      hide Run;
      failed := *;
      Fault(g, failed);
      if !failed {
        ghost var before := Snapshot();
        var p := phases[g];
        confirms := confirms - {p.token};
        phases := phases[g := if p.Looked? then Authorised(p.hold) else Idle];
        Note(before, Delete(g));
      }
    }

    /** INSERT of the audit row: inside the hold's transaction, or on its own. */
    method AppendMutation(g: GuardId, tool: Tool, ok: bool) returns (failed: bool)
      requires Valid() && g in cfg.who && (PhaseOf(g) == Idle || PhaseOf(g).Authorised?)
      modifies this
      ensures Valid() && spends == old(spends) && spenders == old(spenders)
      ensures FaultsOf(g) == old(FaultsOf(g)) + if failed then 1 else 0
      ensures failed ==> trace == old(trace) && PhaseOf(g) == old(PhaseOf(g)) && rows == old(rows)
      ensures
        || loose == old(loose)
        || (loose == old(loose) + {g} && !old(PhaseOf(g)).Holds() && tool == EveMailSend && ok)
      ensures !failed ==> trace == old(trace) + [Append(g, tool, ok)]
      ensures !failed ==> var p := old(PhaseOf(g));
        if p.Authorised? && p.hold.Some? then
          rows == old(rows) && PhaseOf(g) == Written(Row(cfg.who[g].character, tool, ok, p.hold.value))
        else
          rows == old(rows) + [Row(cfg.who[g].character, tool, ok, old(clock))] && PhaseOf(g) == Idle
    {
      hide Run, Step, Spenders;
      AppendIs(cfg, Snapshot(), g, tool, ok);
      failed := *;
      Fault(g, failed);
      if !failed {
        ghost var before := Snapshot();
        var p := if g in phases then phases[g] else Idle;
        if p.Authorised? && p.hold.Some? {
          phases := phases[g := Written(Row(cfg.who[g].character, tool, ok, p.hold.value))];
        } else {
          live := live + {|rows|};
          rows := rows + [Row(cfg.who[g].character, tool, ok, clock)];
          phases := phases[g := Idle];
        }
        Note(before, Append(g, tool, ok));
      }
    }

    method CommitHold(g: GuardId) returns (failed: bool)
      requires Valid() && g in cfg.who && PhaseOf(g).Written?
      modifies this
      ensures Valid() && spends == old(spends) && spenders == old(spenders) && PhaseOf(g) == Idle && loose == old(loose)
      ensures FaultsOf(g) == old(FaultsOf(g)) + if failed then 1 else 0
      ensures failed ==> trace == old(trace) + [Abandon(g)] && rows == old(rows)
      ensures !failed ==> trace == old(trace) + [Commit(g)] && rows == old(rows) + [old(PhaseOf(g)).row]
    {
      hide Run;
      failed := *;
      Fault(g, failed);
      if failed {
        Rollback(g);
      } else {
        ghost var before := Snapshot();
        live := live + {|rows|};
        rows := rows + [phases[g].row];
        phases := phases[g := Idle];
        Note(before, Commit(g));
      }
    }

    /** ROLLBACK of an open hold, or a guard without one giving up its call. */
    method Rollback(g: GuardId)
      requires Valid() && g in cfg.who
      modifies this
      ensures Valid() && trace == old(trace) + [Abandon(g)] && PhaseOf(g) == Idle && faults == old(faults)
      ensures spends == old(spends) && spenders == old(spenders) && rows == old(rows) && loose == old(loose)
    {
      hide Run;
      ghost var before := Snapshot();
      phases := phases[g := Idle];
      Note(before, Abandon(g));
    }
  }
}
