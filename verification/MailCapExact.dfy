/** The whole-history bound holds exactly as long as no hold waits more than the retention period less an hour. */
module MailCapExact {
  import opened Options
  import opened MailProtocol
  import opened MailCapBound

  /** Every run in which no hold waited longer than `d` before counting keeps the cap over its whole history. */
  ghost predicate HistoryCapped(d: int) {
    forall cfg, es, c, w :: HistoryCappedIn(cfg, es, d, c, w)
  }

  ghost predicate HistoryCappedIn(cfg: Config, es: seq<Event>, d: int, c: int, w: int) {
    match Run(cfg, es)
    case None => true
    case Some(s) => s.loose == {} && s.slowest <= d ==> |InHour(s.rows, Indices(|s.rows|), c, w)| <= MAIL_CAP
  }

  const PAIR: Config := Config(map[0 := Who(1, 1), 1 := Who(1, 1)])
  const MAIL: Call := Call(EveMailSend, [])

  /** Guard `g` stands at `p` and every other guard is idle. */
  ghost predicate Alone(s: State, g: GuardId, p: Phase) {
    && s.PhaseOf(g) == p
    && forall h :: h in s.phases && h != g ==> s.phases[h] == Idle
  }

  lemma IndicesSize(n: nat)
    ensures |Indices(n)| == n
  {
  }

  lemma CountAtMostRows(s: State, c: int, began: int)
    ensures CountMail(s, c, began) <= |s.rows|
  {
    IndicesSize(|s.rows|);
    SubsetSize(Recent(s.rows, s.live, |s.rows|, c, began - HOUR), Indices(|s.rows|));
  }

  lemma Extend(cfg: Config, es: seq<Event>, s: State, e: Event) returns (es': seq<Event>, s': State)
    requires Run(cfg, es) == Some(s) && Step(cfg, s, e).Some?
    ensures Run(cfg, es') == Some(s') && Step(cfg, s, e) == Some(s')
  {
    RunSnoc(cfg, es, e);
    es', s' := es + [e], Step(cfg, s, e).value;
  }

  /** A preview and a hold that takes the lock at once. */
  lemma Start(es: seq<Event>, s: State, g: GuardId, token: Token) returns (es': seq<Event>, s': State)
    requires Run(PAIR, es) == Some(s) && g in PAIR.who && Alone(s, g, Idle) && token !in s.minted
    ensures Run(PAIR, es') == Some(s') && Alone(s', g, Locked(MAIL, token, s.clock))
    ensures s' == s.(phases := s'.phases,
                     confirms := s.confirms[token := Confirm(1, EveMailSend, [], s.clock)],
                     minted := s.minted[token := Confirm(1, EveMailSend, [], s.clock)])
  {
    var es1, s1 := Extend(PAIR, es, s, Preview(g, MAIL, token));
    var es2, s2 := Extend(PAIR, es1, s1, Begin(g, MAIL, token));
    es', s' := Extend(PAIR, es2, s2, Lock(g));
  }

  /** Count and Get find the cap free and the token as it was put. */
  lemma Look(es: seq<Event>, s: State, g: GuardId, token: Token, began: int) returns (es': seq<Event>, s': State)
    requires Run(PAIR, es) == Some(s) && g in PAIR.who && Alone(s, g, Locked(MAIL, token, began))
    requires token in s.confirms && s.confirms[token] == Confirm(1, EveMailSend, [], s.clock)
    requires CountMail(s, 1, began) < MAIL_CAP
    ensures Run(PAIR, es') == Some(s')
    ensures Alone(s', g, Looked(MAIL, token, Some(began), s.confirms[token], s.clock))
    ensures s' == s.(phases := s'.phases, shared := s'.shared,
                     slowest := if s.slowest < s.clock - began then s.clock - began else s.slowest)
  {
    var es1, s1 := Extend(PAIR, es, s, Count(g));
    es', s' := Extend(PAIR, es1, s1, Get(g, MAIL, token));
  }

  /** Delete, Append and Commit turn an accepted token into a committed row stamped with the start of the hold. */
  lemma Finish(es: seq<Event>, s: State, g: GuardId, token: Token, began: int) returns (es': seq<Event>, s': State)
    requires Run(PAIR, es) == Some(s) && g in PAIR.who
    requires Alone(s, g, Looked(MAIL, token, Some(began), Confirm(1, EveMailSend, [], s.clock), s.clock))
    ensures Run(PAIR, es') == Some(s') && Alone(s', g, Idle)
    ensures s' == AddRow(s, Row(1, EveMailSend, true, began)).(
                    phases := s'.phases, confirms := s'.confirms, spends := s'.spends)
  {
    hide Run;
    var es1, s1 := Extend(PAIR, es, s, Delete(g));
    var es2, s2 := Extend(PAIR, es1, s1, Append(g, EveMailSend, true));
    es', s' := Extend(PAIR, es2, s2, Commit(g));
  }

  lemma Send(es: seq<Event>, s: State, token: Token) returns (es': seq<Event>, s': State)
    requires Run(PAIR, es) == Some(s) && Alone(s, 0, Idle) && token !in s.minted
    requires CountMail(s, 1, s.clock) < MAIL_CAP && s.slowest >= 0
    ensures Run(PAIR, es') == Some(s') && Alone(s', 0, Idle)
    ensures s'.rows == s.rows + [Row(1, EveMailSend, true, s.clock)] && s'.live == s.live + {|s.rows|}
    ensures s'.clock == s.clock && s'.loose == s.loose && s'.slowest == s.slowest
    ensures s'.minted.Keys == s.minted.Keys + {token}
  {
    var es1, s1 := Start(es, s, 0, token);
    var es2, s2 := Look(es1, s1, 0, token, s.clock);
    es', s' := Finish(es2, s2, 0, token, s.clock);
  }

  /** `n` sends at time zero, for `n` up to the cap. */
  lemma {:induction false} Sends(n: nat) returns (es: seq<Event>, s: State)
    requires n <= MAIL_CAP
    ensures Run(PAIR, es) == Some(s) && Alone(s, 0, Idle)
    ensures |s.rows| == n && forall i :: 0 <= i < n ==> s.rows[i] == Row(1, EveMailSend, true, 0)
    ensures s.clock == 0 && s.slowest == 0 && s.loose == {} && forall t :: t in s.minted ==> t < n
  {
    if n == 0 {
      es, s := [], INIT;
    } else {
      var es0, s0 := Sends(n - 1);
      CountAtMostRows(s0, 1, 0);
      es, s := Send(es0, s0, n - 1);
    }
  }

  /** Five sends, and an hour later a sixth hold that waits until DeleteOld has forgotten them. */
  lemma Forgotten() returns (es: seq<Event>, s: State)
    ensures Run(PAIR, es) == Some(s) && s.loose == {} && s.slowest == 0 && s.clock == RETENTION + 1 && s.live == {}
    ensures |s.rows| == MAIL_CAP && forall i :: 0 <= i < MAIL_CAP ==> s.rows[i] == Row(1, EveMailSend, true, 0)
    ensures Alone(s, 1, Locked(MAIL, MAIL_CAP, HOUR))
    ensures MAIL_CAP in s.confirms && s.confirms[MAIL_CAP] == Confirm(1, EveMailSend, [], s.clock)
  {
    var es0, s0 := Sends(MAIL_CAP);
    var es1, s1 := Extend(PAIR, es0, s0, Tick(HOUR));
    var es2, s2 := Extend(PAIR, es1, s1, Begin(1, MAIL, MAIL_CAP));
    var es3, s3 := Extend(PAIR, es2, s2, Tick(RETENTION - HOUR + 1));
    var es4, s4 := Extend(PAIR, es3, s3, DeleteOld(s3.clock));
    es, s := Overdue(es4, s4);
  }

  /** A token for the waiting hold, which then takes the lock. */
  lemma Overdue(es: seq<Event>, s: State) returns (es': seq<Event>, s': State)
    requires Run(PAIR, es) == Some(s) && Alone(s, 1, Begun(MAIL, MAIL_CAP, HOUR)) && MAIL_CAP !in s.minted
    ensures Run(PAIR, es') == Some(s') && Alone(s', 1, Locked(MAIL, MAIL_CAP, HOUR))
    ensures MAIL_CAP in s'.confirms && s'.confirms[MAIL_CAP] == Confirm(1, EveMailSend, [], s.clock)
    ensures s' == s.(phases := s'.phases, confirms := s'.confirms, minted := s'.minted)
  {
    var es1, s1 := Extend(PAIR, es, s, Preview(0, MAIL, MAIL_CAP));
    es', s' := Extend(PAIR, es1, s1, Lock(1));
  }

  lemma SixthSend() returns (es: seq<Event>, s: State)
    ensures Run(PAIR, es) == Some(s) && s.loose == {} && s.slowest == RETENTION - HOUR + 1
    ensures |s.rows| == MAIL_CAP + 1 && s.rows[MAIL_CAP] == Row(1, EveMailSend, true, HOUR)
    ensures forall i :: 0 <= i < MAIL_CAP ==> s.rows[i] == Row(1, EveMailSend, true, 0)
  {
    var es0, s0 := Forgotten();
    assert Recent(s0.rows, s0.live, |s0.rows|, 1, HOUR - HOUR) == {};
    var es1, s1 := Look(es0, s0, 1, MAIL_CAP, HOUR);
    es, s := Finish(es1, s1, 1, MAIL_CAP, HOUR);
  }

  lemma HistoryBoundExact(d: int)
    ensures HistoryCapped(d) <==> d <= RETENTION - HOUR
  {
    if d <= RETENTION - HOUR {
      forall cfg, es, c, w
        ensures HistoryCappedIn(cfg, es, d, c, w)
      {
        match Run(cfg, es)
        case None =>
        case Some(s) =>
          if s.loose == {} && s.slowest <= d {
            HistoryBound(cfg, es, s, c, w);
          }
      }
    } else {
      var es, s := SixthSend();
      assert InHour(s.rows, Indices(|s.rows|), 1, 0) == Indices(MAIL_CAP + 1);
      IndicesSize(MAIL_CAP + 1);
      assert !HistoryCappedIn(PAIR, es, d, 1, 0);
    }
  }
}
