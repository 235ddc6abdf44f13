/** Confirm tokens over every interleaving: what an authorised call was shown to match, and how often a token is
    spent. */
module ConfirmOnce {
  import opened Options
  import opened MailProtocol
  import opened MailCapBound
  import opened MailCapExact

  /** The authorised call is the previewed one, in the same session, within the lifetime of the token. */
  ghost predicate Matches(sp: Spend, c: Confirm) {
    && sp.session == c.session && sp.tool == c.tool && sp.digest == c.digest
    && c.createdAt <= sp.at <= c.createdAt + CONFIRM_TTL
  }

  /** The token is a pending one of this session, put at most 300 seconds ago. */
  predicate Known(w: Who, token: Token, s: State) {
    && token in s.confirms && s.confirms[token].session == w.session
    && s.clock <= s.confirms[token].createdAt + 300_000_000
  }

  /** And it was put for this very call. */
  predicate Acceptable(w: Who, call: Call, token: Token, s: State) {
    && Known(w, token, s)
    && s.confirms[token].tool == call.tool && s.confirms[token].digest == call.digest
  }

  /** Whoever may look at a token: for a mail, a guard whose count inside the hold was under five. */
  predicate MayLook(p: Phase, call: Call, token: Token) {
    || (p.Idle? && call.tool != EveMailSend)
    || (p.Counted? && p.call == call && p.token == token && p.n < 5)
  }

  /** Looking and deleting authorises the call exactly when the token is known and was put for it; the token is
      gone then, and also when it is too old or was put for other arguments, and no other one ever is. */
  lemma ConfirmExact(cfg: Config, s: State, g: GuardId, call: Call, token: Token)
    requires g in cfg.who && MayLook(s.PhaseOf(g), call, token)
    ensures Step(cfg, s, Get(g, call, token)).Some?
    ensures var w, got := cfg.who[g], Step(cfg, s, Get(g, call, token)).value;
      && got.confirms == s.confirms && got.spends == s.spends
      && (got.PhaseOf(g).LooksAt(token) <==> Acceptable(w, call, token, s))
      && (got.PhaseOf(g).Looked? ==> got.PhaseOf(g).LooksAt(token))
    ensures var w, got := cfg.who[g], Step(cfg, s, Get(g, call, token)).value;
      var gone := Step(cfg, got, Delete(g));
      && (gone.Some? && gone.value.spends == s.spends + [Spend(w.session, call.tool, call.digest, token, s.clock)]
          <==> Acceptable(w, call, token, s))
      && (gone.Some? && gone.value.spends != s.spends ==> Acceptable(w, call, token, s))
      && (gone.Some? ==> token in s.confirms && gone.value.confirms == s.confirms - {token})
      && (gone.Some? <==>
          && token in s.confirms && s.confirms[token].session == w.session
          && (Known(w, token, s) ==> s.confirms[token].tool == call.tool))
  {
  }

  ghost predicate TokensPut(s: State) {
    && (forall t :: t in s.confirms ==> t in s.minted && s.minted[t] == s.confirms[t])
    && (forall t :: t in s.minted ==> s.minted[t].createdAt <= s.clock)
  }

  ghost predicate SpendsMatch(s: State) {
    forall i :: 0 <= i < |s.spends| ==>
      && s.spends[i].token in s.minted && Matches(s.spends[i], s.minted[s.spends[i].token])
      && s.spends[i].token !in s.confirms
  }

  ghost predicate LookMatches(w: Who, p: Phase, minted: map<Token, Confirm>) {
    p.Looked? ==>
      && p.token in minted && p.seen == minted[p.token]
      && Matches(Spend(w.session, p.call.tool, p.call.digest, p.token, p.at), p.seen)
      && (p.call.tool == EveMailSend ==> p.hold.Some?)
  }

  ghost predicate LooksMatch(cfg: Config, s: State) {
    forall g :: g in s.phases ==> g in cfg.who && LookMatches(cfg.who[g], s.phases[g], s.minted)
  }

  /** A token outside `shared` is read by one guard at a time and spent once. */
  ghost predicate SpentOnce(s: State) {
    && (forall g, h :: g in s.phases && h in s.phases && g != h
                       && s.phases[g].Looked? && s.phases[h].LooksAt(s.phases[g].token) ==>
          s.phases[g].token in s.shared)
    && (forall g, i :: g in s.phases && s.phases[g].Looked?
                       && 0 <= i < |s.spends| && s.spends[i].token == s.phases[g].token ==>
          s.phases[g].token in s.shared)
    && (forall i, j :: 0 <= i < j < |s.spends| && s.spends[i].token == s.spends[j].token ==>
        s.spends[i].token in s.shared)
  }

  ghost predicate MailUnshared(s: State) {
    forall t :: t in s.shared ==> t in s.minted && s.minted[t].tool != EveMailSend
  }

  ghost predicate TokenInv(cfg: Config, s: State) {
    LockInv(cfg, s) && TokensPut(s) && SpendsMatch(s) && LooksMatch(cfg, s) && SpentOnce(s) && MailUnshared(s)
  }

  lemma StepKeepsLock(cfg: Config, s: State, e: Event, s': State)
    requires LockInv(cfg, s) && Step(cfg, s, e) == Some(s')
    ensures LockInv(cfg, s')
  {
    if e.Actor().Some? {
      GuardMoves(cfg, s, e.Actor().value, e, s');
    }
  }

  lemma ClockKeepsTokens(cfg: Config, s: State, e: Event, s': State)
    requires TokenInv(cfg, s) && e.Actor().None? && Step(cfg, s, e) == Some(s')
    ensures TokenInv(cfg, s')
  {
  }

  lemma PreviewKeepsTokens(cfg: Config, s: State, g: GuardId, call: Call, token: Token, s': State)
    requires TokenInv(cfg, s) && g in cfg.who && DoPreview(cfg.who[g], s, g, call, token) == Some(s')
    ensures TokenInv(cfg, s')
  {
  }

  /** A guard that leaves Looked, or was never there, and touches nothing else. */
  lemma LeaveKeepsTokens(cfg: Config, s: State, g: GuardId, p: Phase, s': State)
    requires TokenInv(cfg, s) && g in cfg.who && !p.Looked? && LockInv(cfg, s')
    requires s'.phases == s.phases[g := p] && s'.minted == s.minted && s'.spends == s.spends
    requires s'.clock == s.clock && s'.shared == s.shared
    requires s'.confirms.Keys <= s.confirms.Keys && forall t :: t in s'.confirms ==> s'.confirms[t] == s.confirms[t]
    ensures TokenInv(cfg, s')
  {
  }

  /** Two guards that look at the same mail token would both hold the lock of one character. */
  lemma MailLookIsAlone(cfg: Config, s: State, g: GuardId, h: GuardId)
    requires TokenInv(cfg, s) && cfg.Valid() && g in cfg.who && g != h && h in s.phases && s.phases[h].Looked?
    requires s.PhaseOf(g).Holds() && s.phases[h].seen.session == cfg.who[g].session
    ensures s.phases[h].seen.tool != EveMailSend
  {
    assert LookMatches(cfg.who[h], s.phases[h], s.minted);
  }

  lemma LookKeepsTokens(cfg: Config, s: State, g: GuardId, p: Phase, s': State)
    requires TokenInv(cfg, s) && cfg.Valid() && g in cfg.who && p.Looked? && LockInv(cfg, s')
    requires p.token in s.confirms && p.seen == s.confirms[p.token] && LookMatches(cfg.who[g], p, s.minted)
    requires p.hold.Some? ==> s.PhaseOf(g).Holds()
    requires s'.phases == s.phases[g := p] && s'.minted == s.minted && s'.spends == s.spends
    requires s'.clock == s.clock && s'.confirms == s.confirms && s'.shared == s.shared + SeesShared(s, g, p)
    ensures TokenInv(cfg, s')
  {
    hide LockInv;
    if SeesShared(s, g, p) != {} && p.seen.tool == EveMailSend {
      var h :| h in s.phases && h != g && s.phases[h].LooksAt(p.token);
      assert LookMatches(cfg.who[h], s.phases[h], s.minted);
      MailLookIsAlone(cfg, s, g, h);
      assert false;
    }
  }

  lemma GetKeepsTokens(cfg: Config, s: State, g: GuardId, call: Call, token: Token, s': State)
    requires TokenInv(cfg, s) && cfg.Valid() && g in cfg.who && DoGet(cfg.who[g], s, g, call, token) == Some(s')
    requires LockInv(cfg, s')
    ensures TokenInv(cfg, s')
  {
    GetEnters(cfg.who[g], s, g, call, token, s');
    var next := Judge(cfg.who[g], call, token, HoldOf(s.PhaseOf(g)), s.confirms, s.clock);
    if next.Looked? {
      LookKeepsTokens(cfg, s, g, next, s');
    } else {
      LeaveKeepsTokens(cfg, s, g, next, s');
    }
  }

  lemma DeleteKeepsTokens(cfg: Config, s: State, g: GuardId, s': State)
    requires TokenInv(cfg, s) && g in cfg.who && DoDelete(cfg.who[g], s, g) == Some(s') && LockInv(cfg, s')
    ensures TokenInv(cfg, s')
  {
    hide LockInv;
    var p := s.PhaseOf(g);
    if p.Looked? {
      assert LookMatches(cfg.who[g], p, s.minted);
      var sp := Spend(cfg.who[g].session, p.call.tool, p.call.digest, p.token, p.at);
      assert s'.spends == s.spends + [sp];
      assert forall i :: 0 <= i < |s.spends| ==> s'.spends[i] == s.spends[i];
    } else {
      LeaveKeepsTokens(cfg, s, g, Idle, s');
    }
  }

  lemma StepKeepsTokens(cfg: Config, s: State, e: Event, s': State)
    requires TokenInv(cfg, s) && cfg.Valid() && Step(cfg, s, e) == Some(s')
    ensures TokenInv(cfg, s')
  {
    StepKeepsLock(cfg, s, e, s');
    match e {
      case Tick(_) => ClockKeepsTokens(cfg, s, e, s');
      case SweepConfirms(_) => ClockKeepsTokens(cfg, s, e, s');
      case DeleteOld(_) => ClockKeepsTokens(cfg, s, e, s');
      case Preview(g, call, token) => PreviewKeepsTokens(cfg, s, g, call, token, s');
      case Get(g, call, token) => GetKeepsTokens(cfg, s, g, call, token, s');
      case Delete(g) => DeleteKeepsTokens(cfg, s, g, s');
      case _ =>
        var g := e.Actor().value;
        GuardLeavesTokens(cfg, s, g, e, s');
        LeaveKeepsTokens(cfg, s, g, s'.PhaseOf(g), s');
    }
  }

  lemma {:induction false} ReachableTokens(cfg: Config, es: seq<Event>, s: State)
    requires cfg.Valid() && Run(cfg, es) == Some(s)
    ensures TokenInv(cfg, s)
  {
    if es != [] {
      ReachableTokens(cfg, es[..|es| - 1], Run(cfg, es[..|es| - 1]).value);
      StepKeepsTokens(cfg, Run(cfg, es[..|es| - 1]).value, es[|es| - 1], s);
    }
  }

  /** Every authorised confirm matches a preview of its own session, tool and arguments, at most 300 seconds old. */
  lemma SpendMatchesPreview(cfg: Config, es: seq<Event>, s: State, i: nat)
    requires cfg.Valid() && Run(cfg, es) == Some(s) && i < |s.spends|
    ensures s.spends[i].token in s.minted && Matches(s.spends[i], s.minted[s.spends[i].token])
  {
    ReachableTokens(cfg, es, s);
  }

  /** A mail token authorises at most one send, and so does any token whose confirms never overlapped. */
  lemma TokenSpentOnce(cfg: Config, es: seq<Event>, s: State, i: nat, j: nat)
    requires cfg.Valid() && Run(cfg, es) == Some(s) && i < j < |s.spends|
    requires s.spends[i].tool == EveMailSend || s.spends[i].token !in s.shared
    ensures s.spends[i].token != s.spends[j].token
  {
    ReachableTokens(cfg, es, s);
  }

  /** Under every interleaving, no token of `tool` is spent twice. */
  ghost predicate OneShot(tool: Tool) {
    forall cfg, es :: OneShotIn(cfg, es, tool)
  }

  ghost predicate OneShotIn(cfg: Config, es: seq<Event>, tool: Tool) {
    match Run(cfg, es)
    case None => true
    case Some(s) => cfg.Valid() ==>
      forall i, j :: 0 <= i < j < |s.spends| && s.spends[i].tool == tool ==> s.spends[i].token != s.spends[j].token
  }

  /** Two guards of one session read the same row before either deletes it. */
  lemma DoubleSpend(tool: Tool) returns (es: seq<Event>, s: State)
    requires tool != EveMailSend
    ensures Run(PAIR, es) == Some(s) && |s.spends| == 2
    ensures s.spends[0] == s.spends[1] && s.spends[0].tool == tool
  {
    var call := Call(tool, []);
    var es1, s1 := Extend(PAIR, [], INIT, Preview(0, call, 0));
    var es2, s2 := Extend(PAIR, es1, s1, Get(0, call, 0));
    var es3, s3 := Extend(PAIR, es2, s2, Get(1, call, 0));
    var es4, s4 := Extend(PAIR, es3, s3, Delete(0));
    es, s := Extend(PAIR, es4, s4, Delete(1));
  }

  /** The confirm cycle is one-shot under every interleaving exactly for the tool that confirms inside a hold. */
  lemma OneShotExact(tool: Tool)
    ensures OneShot(tool) <==> tool == EveMailSend
  {
    if tool == EveMailSend {
      forall cfg, es
        ensures OneShotIn(cfg, es, tool)
      {
        if cfg.Valid() && Run(cfg, es).Some? {
          ReachableTokens(cfg, es, Run(cfg, es).value);
        }
      }
    } else {
      var es, s := DoubleSpend(tool);
      assert !OneShotIn(PAIR, es, tool);
    }
  }
}
