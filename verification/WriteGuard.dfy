/** The write guard of one session: preview, confirm, the mail-cap hold, and the audit row that closes it. */
module WriteGuard {
  import opened Options
  import opened MailProtocol
  import opened WriteStore
  import opened ConfirmOnce

  datatype Capability =
    | MailSend | Waypoint | OpenWindow | Fittings | Calendar | MailOrganize | Contacts
    | Unknown(name: string)

  /** `granted` are the capabilities whose scope the session carries; each capability needs one scope of its own.
      `marshals` says that the arguments have a digest at all. */
  datatype Authz = Authz(
    call: Call, capability: Capability, token: Option<Token>, granted: set<Capability>, marshals: bool
  ) {
    predicate Entitled() {
      !capability.Unknown? && capability in granted
    }
  }

  datatype Why = UnknownCapability | MissingScope | MailCapSpent | ConfirmUnknown | ConfirmTool | ConfirmArgs | Failed
  datatype Decision = Authorised | Required(token: Token) | Refused(why: Why)

  /** An open mail-cap transaction.  `end` is the closure that ends it, cleared on use. */
  class MailCapHold {
    const store: Store
    const guard: GuardId
    const count: nat
    var end: bool

    constructor (store: Store, guard: GuardId, count: nat)
      ensures this.store == store && this.guard == guard && this.count == count && end
    {
      this.store, this.guard, this.count, end := store, guard, count, true;
    }

    /** The cleared closure cannot be called: `end` is required.  Only a written audit row is committed. */
    method Release(error: bool) returns (failed: bool)
      requires end && store.Valid() && guard in store.cfg.who
      requires !error ==> store.PhaseOf(guard).Written?
      modifies this, store
      ensures !end && store.Valid() && store.PhaseOf(guard) == Idle
      ensures store.spends == old(store.spends) && store.spenders == old(store.spenders)
      ensures store.loose == old(store.loose)
      ensures store.FaultsOf(guard) == old(store.FaultsOf(guard)) + if failed && !error then 1 else 0
      ensures error || failed ==> store.trace == old(store.trace) + [Abandon(guard)] && store.rows == old(store.rows)
      ensures !error && !failed ==>
        && store.trace == old(store.trace) + [Commit(guard)]
        && store.rows == old(store.rows) + [old(store.PhaseOf(guard)).row]
    {
      hide Run, Step;
      end := false;
      if error {
        store.Rollback(guard);
        failed := *;
      } else {
        failed := store.CommitHold(guard);
      }
    }
  }

  class Guard {
    const store: Store
    const id: GuardId
    const character: int
    const session: int
    var mailHold: MailCapHold?

    /** The guard, its hold and the database agree on whose transaction is open. */
    ghost predicate Wired()
      reads this, store, mailHold
    {
      && store.Valid() && id in store.cfg.who && store.cfg.who[id] == Who(character, session)
      && (mailHold != null ==> mailHold.end && mailHold.store == store && mailHold.guard == id)
    }

    /** Between calls: a hold is open exactly when an authorised mail send waits for its record. */
    ghost predicate Valid()
      reads this, store, mailHold
    {
      && Wired()
      && (mailHold != null <==> store.PhaseOf(id).Holds())
      && (store.PhaseOf(id).Authorised? || store.PhaseOf(id) == Idle)
    }

    /** This guard has not been added to those that wrote a mail row outside a hold. */
    ghost predicate KeepsBracket(loose: set<GuardId>)
      reads this, store
    {
      id in store.loose ==> id in loose
    }

    /** Between the runs `from` and `es` the cap query saw the database `counted`, with `sends` mails in the hour. */
    ghost predicate SawMails(authz: Authz, from: seq<Event>, es: seq<Event>, counted: State, sends: nat) {
      if authz.token.None? then
        Passed(store.cfg, from, es, counted) && sends == CountMail(counted, character, counted.clock)
      else
        && Met(store.cfg, from, es, Count(id), counted) && counted.PhaseOf(id).Locked?
        && sends == CountMail(counted, character, counted.PhaseOf(id).began)
    }

    /** Between the runs `from` and `es` the token of the call was looked up in the database `looked`. */
    ghost predicate SawToken(authz: Authz, from: seq<Event>, es: seq<Event>, looked: State)
      requires authz.token.Some?
    {
      Met(store.cfg, from, es, Get(id, authz.call, authz.token.value), looked)
    }

    ghost predicate TokenKnown(authz: Authz, looked: State)
      requires authz.token.Some?
    {
      Known(Who(character, session), authz.token.value, looked)
    }

    ghost predicate TokenFits(authz: Authz, looked: State)
      requires authz.token.Some?
    {
      Acceptable(Who(character, session), authz.call, authz.token.value, looked)
    }

    /** Each refusal has its own mismatch, in the order of the checks. */
    ghost predicate Judged(authz: Authz, looked: State, why: Option<Why>)
      requires authz.token.Some?
    {
      && (why.None? <==> TokenFits(authz, looked))
      && (why == Some(ConfirmUnknown) <==> !TokenKnown(authz, looked))
      && (why == Some(ConfirmTool) <==>
          TokenKnown(authz, looked) && looked.confirms[authz.token.value].tool != authz.call.tool)
      && (why == Some(ConfirmArgs) <==>
          && TokenKnown(authz, looked) && looked.confirms[authz.token.value].tool == authz.call.tool
          && looked.confirms[authz.token.value].digest != authz.call.digest)
    }

    ghost function Why(d: Decision): Option<Why> {
      if d.Refused? then Some(d.why) else None
    }

    constructor (store: Store, id: GuardId, character: int, session: int)
      requires store.Valid() && id in store.cfg.who && store.cfg.who[id] == Who(character, session)
      requires store.PhaseOf(id) == Idle
      ensures Valid() && this.store == store && this.id == id && mailHold == null
      ensures this.character == character && this.session == session
    {
      this.store, this.id, this.character, this.session, mailHold := store, id, character, session, null;
    }

    /** `counted` and `looked` are the database at the cap query and at the look at the token. */
    method Authorize(authz: Authz) returns (d: Decision, ghost sends: nat, ghost counted: State, ghost looked: State)
      requires Valid() && (authz.call.tool == EveMailSend <==> authz.capability == MailSend)
      modifies this, store, mailHold
      ensures Valid() && old(store.trace) <= store.trace && KeepsBracket(old(store.loose))
      ensures old(store.FaultsOf(id)) <= store.FaultsOf(id)
      ensures mailHold != null <==> d.Authorised? && authz.capability == MailSend
      ensures mailHold != null ==> fresh(mailHold)
      ensures d.Authorised? ==>
        && authz.token.Some? && LastSpend(authz) && |old(store.spends)| < |store.spends|
        && OneBy(id, old(store.spenders), store.spenders) && authz.token.value !in store.confirms
      ensures !d.Authorised? ==> NoneBy(id, old(store.spenders), store.spenders)
      ensures !d.Authorised? ==> store.PhaseOf(id) == Idle
      ensures d.Required? ==>
        && authz.token.None? && d.token in store.confirms
        && store.confirms[d.token] == Confirm(session, authz.call.tool, authz.call.digest, store.clock)
      ensures d == Refused(UnknownCapability) <==> authz.capability.Unknown?
      ensures d == Refused(MissingScope) <==> !authz.capability.Unknown? && authz.capability !in authz.granted
      // when it is refused for the cap, and when not
      ensures d == Refused(MailCapSpent) ==> authz.Entitled() && authz.capability == MailSend
      ensures authz.Entitled() && authz.capability == MailSend && !(d.Refused? && d.why == Failed) ==>
        SawMails(authz, old(store.trace), store.trace, counted, sends) && (d == Refused(MailCapSpent) <==> sends >= 5)
      // unless a statement fails, a first call is previewed and a second one judged by its token
      ensures d == Refused(Failed) ==> !authz.marshals || store.FaultsOf(id) > old(store.FaultsOf(id))
      ensures d.Authorised? || d.Required? ==> authz.marshals
      ensures authz.Entitled() && authz.token.None? ==>
        d.Required? || d == Refused(MailCapSpent) || d == Refused(Failed)
      ensures d.Authorised? ==> SawToken(authz, old(store.trace), store.trace, looked) && TokenFits(authz, looked)
      ensures authz.Entitled() && authz.marshals && authz.token.Some?
              && d != Refused(MailCapSpent) && store.FaultsOf(id) == old(store.FaultsOf(id)) ==>
        SawToken(authz, old(store.trace), store.trace, looked) && Judged(authz, looked, Why(d))
    {
      hide Run, Step, NoneBy, OneBy, Spenders, NewSpender, Judge, CountMail, Met, Passed, Known, Acceptable;
      var _ := ReleaseMailHold(true);
      ghost var from := store.trace;
      sends, counted, looked := 0, store.Snapshot(), store.Snapshot();
      NoneYet(id, store.spenders);
      if authz.capability.Unknown? {
        d := Refused(UnknownCapability);
        return;
      }
      if authz.capability !in authz.granted {
        d := Refused(MissingScope);
        return;
      }
      if authz.capability == MailSend {
        var why;
        why, sends, counted := GateMailCap(authz);
        if why != Some(Failed) {
          MailsStaySeen(authz, old(store.trace), from, store.trace, store.trace, counted, sends);
        }
        if why.Some? {
          d := Refused(why.value);
          return;
        }
      }
      ghost var before, gated := store.spenders, store.trace;
      if !authz.marshals {
        var _ := ReleaseMailHold(true);
        d := Refused(Failed);
        return;
      }
      if authz.token.Some? {
        d, looked := ConfirmWrite(authz);
        if d.Authorised? {
          NoneThenOneBy(id, old(store.spenders), before, store.spenders);
        } else {
          NoneTwice(id, old(store.spenders), before, store.spenders);
        }
        TokenStaysSeen(authz, old(store.trace), gated, store.trace, store.trace, looked);
      } else {
        d := PreviewWrite(authz);
        NoneTwice(id, old(store.spenders), before, store.spenders);
      }
      if authz.capability == MailSend {
        MailsStaySeen(authz, old(store.trace), old(store.trace), gated, store.trace, counted, sends);
      }
    }

    lemma MailsStaySeen(
      authz: Authz, from: seq<Event>, from': seq<Event>, es: seq<Event>, es': seq<Event>, counted: State, sends: nat)
      requires from <= from' && es <= es' && SawMails(authz, from', es, counted, sends)
      ensures SawMails(authz, from, es', counted, sends)
    {
      hide Met, Passed;
      if authz.token.None? {
        StaysPassed(store.cfg, from, from', es, es', counted);
      } else {
        StaysMet(store.cfg, from, from', es, es', Count(id), counted);
      }
    }

    lemma TokenStaysSeen(
      authz: Authz, from: seq<Event>, from': seq<Event>, es: seq<Event>, es': seq<Event>, looked: State)
      requires authz.token.Some? && from <= from' && es <= es'
      ensures SawToken(authz, from', es, looked) ==> SawToken(authz, from, es', looked)
    {
      hide Met;
      if SawToken(authz, from', es, looked) {
        StaysMet(store.cfg, from, from', es, es', Get(id, authz.call, authz.token.value), looked);
      }
    }

    /** `marshals`: the arguments have a digest; without one nothing is appended. */
    method Record(tool: Tool, ok: bool, marshals: bool) returns (failed: bool)
      requires Valid()
      modifies this, store, mailHold
      ensures !marshals ==> failed
      ensures failed && marshals ==> store.FaultsOf(id) > old(store.FaultsOf(id))
      ensures Valid() && mailHold == null && store.PhaseOf(id) == Idle && old(store.trace) <= store.trace
      ensures NoneBy(id, old(store.spenders), store.spenders)
      ensures KeepsBracket(old(store.loose)) || (old(mailHold) == null && tool == EveMailSend && ok)
      ensures !failed ==>
        && |old(store.rows)| < |store.rows|
        && var r := store.rows[|store.rows| - 1]; r == Row(character, tool, ok, r.at)
      ensures !failed && old(mailHold) != null ==> store.rows[|store.rows| - 1].at == old(store.PhaseOf(id)).hold.value
      ensures failed ==>
        forall i :: |old(store.trace)| <= i < |store.trace| ==>
          store.trace[i] != Commit(id) && (old(mailHold) == null ==> store.trace[i] != Append(id, tool, ok))
    {
      hide Run, Step, NoneBy, Spenders, NewSpender;
      store.Yield(id);
      ghost var before := store.spenders;
      NoneTwice(id, old(store.spenders), before, before);
      failed := !marshals;
      if marshals {
        failed := store.AppendMutation(id, tool, ok);
      }
      if mailHold != null {
        var ended := CloseHold(failed);
        NoneTwice(id, old(store.spenders), before, store.spenders);
        failed := failed || ended;
      } else if failed {
        store.Rollback(id);
      }
    }

    /** The hold ends with a commit only when the audit row was written into it. */
    method CloseHold(error: bool) returns (failed: bool)
      requires Wired() && mailHold != null && (!error ==> store.PhaseOf(id).Written?)
      modifies this, store, mailHold
      ensures Wired() && mailHold == null && store.PhaseOf(id) == Idle && KeepsBracket(old(store.loose))
      ensures NoneBy(id, old(store.spenders), store.spenders)
      ensures old(store.trace) <= store.trace && old(store.rows) <= store.rows
      ensures store.FaultsOf(id) == old(store.FaultsOf(id)) + if failed && !error then 1 else 0
      ensures !error && !failed ==>
        && |old(store.rows)| < |store.rows|
        && store.rows[|store.rows| - 1] == old(store.PhaseOf(id)).row
      ensures error || failed ==>
        forall i :: |old(store.trace)| <= i < |store.trace| ==> store.trace[i] != Commit(id)
    {
      hide Run, Step;
      store.Yield(id);
      failed := ReleaseMailHold(error);
    }

    ghost predicate LastSpend(authz: Authz)
      reads this, store
      requires authz.token.Some?
    {
      |store.spends| > 0 &&
      var sp := store.spends[|store.spends| - 1];
      sp == Spend(session, authz.call.tool, authz.call.digest, authz.token.value, sp.at)
    }

    /** Ends the hold if there is one; whatever the guard was doing is over. */
    method ReleaseMailHold(error: bool) returns (failed: bool)
      requires Wired() && (mailHold != null && !error ==> store.PhaseOf(id).Written?)
      requires mailHold == null ==> error
      modifies this, store, mailHold
      ensures Wired() && mailHold == null && store.PhaseOf(id) == Idle
      ensures store.spends == old(store.spends) && store.spenders == old(store.spenders)
      ensures store.loose == old(store.loose)
      ensures store.FaultsOf(id) == old(store.FaultsOf(id)) + if failed && !error then 1 else 0
      ensures error || failed ==> store.trace == old(store.trace) + [Abandon(id)] && store.rows == old(store.rows)
      ensures !error && !failed ==>
        store.trace == old(store.trace) + [Commit(id)] && store.rows == old(store.rows) + [old(store.PhaseOf(id)).row]
    {
      hide Run, Step;
      if mailHold == null {
        store.Rollback(id);
        failed := false;
      } else {
        failed := mailHold.Release(error);
        mailHold := null;
      }
    }

    /** A preview only looks at the cap; a confirm takes the hold, and gives it back when the cap is spent. */
    method GateMailCap(authz: Authz) returns (why: Option<Why>, ghost sends: nat, ghost counted: State)
      requires Wired() && mailHold == null && store.PhaseOf(id) == Idle && authz.call.tool == EveMailSend
      modifies this, store
      ensures Wired() && old(store.trace) <= store.trace && old(store.spends) <= store.spends
      ensures NoneBy(id, old(store.spenders), store.spenders)
      ensures KeepsBracket(old(store.loose))
      ensures why.None? && authz.token.Some? ==>
        && mailHold != null && fresh(mailHold) && store.PhaseOf(id).Counted?
        && store.PhaseOf(id).n < MAIL_CAP
        && store.PhaseOf(id).call == authz.call && store.PhaseOf(id).token == authz.token.value
      ensures why.Some? || authz.token.None? ==> mailHold == null && store.PhaseOf(id) == Idle
      ensures why.Some? ==> why == Some(MailCapSpent) || why == Some(Failed)
      ensures why != Some(Failed) ==>
        && SawMails(authz, old(store.trace), store.trace, counted, sends)
        && (why == Some(MailCapSpent) <==> sends >= 5)
      ensures store.FaultsOf(id) == old(store.FaultsOf(id)) + if why == Some(Failed) then 1 else 0
    {
      hide Run, Step, NoneBy, CountMail, Met;
      sends, counted := 0, store.Snapshot();
      if authz.token.None? {
        store.Yield(id);
        var broken, n := store.PeekMailCap(id);
        sends, counted := n, store.Snapshot();
        PassesNow(store.cfg, old(store.trace), store.trace, counted);
        why := if broken then Some(Failed) else if n >= MAIL_CAP then Some(MailCapSpent) else None;
        return;
      }
      var hold;
      hold, counted := HoldMailCap(authz.call, authz.token.value);
      if hold == null {
        why := Some(Failed);
        return;
      }
      sends := hold.count;
      ghost var held := store.trace;
      if hold.count >= MAIL_CAP {
        var _ := hold.Release(true);
        why := Some(MailCapSpent);
        StaysMet(store.cfg, old(store.trace), old(store.trace), held, store.trace, Count(id), counted);
        return;
      }
      mailHold := hold;
      why := None;
    }

    /** Begin, lock, count: null when the database refused, and then nothing is left open. */
    method HoldMailCap(call: Call, token: Token) returns (hold: MailCapHold?, ghost counted: State)
      requires Wired() && mailHold == null && store.PhaseOf(id) == Idle && call.tool == EveMailSend
      modifies store
      ensures Wired() && old(store.trace) <= store.trace && old(store.spends) <= store.spends
      ensures NoneBy(id, old(store.spenders), store.spenders)
      ensures KeepsBracket(old(store.loose))
      ensures hold == null ==> store.PhaseOf(id) == Idle
      ensures hold != null ==> fresh(hold) && hold.end && hold.store == store && hold.guard == id
      ensures hold != null ==>
        && store.PhaseOf(id).Counted? && store.PhaseOf(id).n == hold.count
        && store.PhaseOf(id).call == call && store.PhaseOf(id).token == token
      ensures hold != null ==>
        && Met(store.cfg, old(store.trace), store.trace, Count(id), counted) && counted.PhaseOf(id).Locked?
        && hold.count == CountMail(counted, character, counted.PhaseOf(id).began)
      ensures store.FaultsOf(id) == old(store.FaultsOf(id)) + if hold == null then 1 else 0
    {
      hide Run, Step, CountMail, Met;
      counted := store.Snapshot();
      var broken := LockHold(call, token);
      if broken {
        hold := null;
        return;
      }
      store.Yield(id);
      counted := store.Snapshot();
      ghost var locked := store.trace;
      var n;
      broken, n := store.CountMailCap(id);
      if broken {
        store.Rollback(id);
        hold := null;
        return;
      }
      MeetsNow(store.cfg, old(store.trace), locked, Count(id), counted);
      hold := new MailCapHold(store, id, n);
    }

    method LockHold(call: Call, token: Token) returns (broken: bool)
      requires Wired() && mailHold == null && store.PhaseOf(id) == Idle && call.tool == EveMailSend
      modifies store
      ensures Wired() && old(store.trace) <= store.trace && old(store.spends) <= store.spends
      ensures NoneBy(id, old(store.spenders), store.spenders)
      ensures KeepsBracket(old(store.loose))
      ensures broken ==> store.PhaseOf(id) == Idle
      ensures !broken ==>
        && store.PhaseOf(id).Locked? && store.PhaseOf(id).call == call && store.PhaseOf(id).token == token
      ensures store.FaultsOf(id) == old(store.FaultsOf(id)) + if broken then 1 else 0
    {
      hide Run, Step, NoneBy, Spenders, NewSpender;
      store.Yield(id);
      ghost var before := store.spenders;
      NoneTwice(id, old(store.spenders), before, before);
      broken := store.BeginHold(id, call, token);
      if broken {
        return;
      }
      store.Yield(id);
      NoneTwice(id, old(store.spenders), before, store.spenders);
      broken := store.LockMailCap(id);
      if broken {
        store.Rollback(id);
      }
    }

    method ConfirmWrite(authz: Authz) returns (d: Decision, ghost looked: State)
      requires Wired() && authz.token.Some? && (mailHold != null <==> authz.call.tool == EveMailSend)
      requires mailHold == null ==> store.PhaseOf(id) == Idle
      requires mailHold != null ==>
        && store.PhaseOf(id).Counted? && store.PhaseOf(id).n < MAIL_CAP
        && store.PhaseOf(id).call == authz.call && store.PhaseOf(id).token == authz.token.value
      modifies this, store, mailHold
      ensures Valid() && old(store.trace) <= store.trace && KeepsBracket(old(store.loose))
      ensures d.Authorised? ==>
        && mailHold == old(mailHold) && store.PhaseOf(id).Authorised?
        && LastSpend(authz) && |old(store.spends)| < |store.spends|
        && OneBy(id, old(store.spenders), store.spenders) && authz.token.value !in store.confirms
      ensures !d.Authorised? ==> NoneBy(id, old(store.spenders), store.spenders)
      ensures !d.Authorised? ==>
        && mailHold == null && store.PhaseOf(id) == Idle && d.Refused?
        && d.why != UnknownCapability && d.why != MissingScope && d.why != MailCapSpent
      ensures d == Refused(Failed) ==> store.FaultsOf(id) > old(store.FaultsOf(id))
      ensures old(store.FaultsOf(id)) <= store.FaultsOf(id)
      ensures d.Authorised? || store.FaultsOf(id) == old(store.FaultsOf(id)) ==>
        SawToken(authz, old(store.trace), store.trace, looked) && Judged(authz, looked, Why(d))
    {
      hide Run, Step, NoneBy, OneBy, Judged;
      var dbError, why;
      dbError, why, looked := ConsumeConfirm(authz);
      ghost var consumed := store.trace;
      if why.Some? {
        var _ := ReleaseMailHold(true);
        d := Refused(why.value);
        TokenStaysSeen(authz, old(store.trace), old(store.trace), consumed, store.trace, looked);
      } else {
        d := Decision.Authorised;
      }
    }

    method PreviewWrite(authz: Authz) returns (d: Decision)
      requires Wired() && mailHold == null && store.PhaseOf(id) == Idle
      modifies store
      ensures Valid() && old(store.trace) <= store.trace && store.PhaseOf(id) == Idle && KeepsBracket(old(store.loose))
      ensures NoneBy(id, old(store.spenders), store.spenders)
      ensures d.Required? || d == Refused(Failed)
      ensures d.Required? ==>
        && d.token in store.confirms
        && store.confirms[d.token] == Confirm(session, authz.call.tool, authz.call.digest, store.clock)
      ensures store.FaultsOf(id) == old(store.FaultsOf(id)) + if d.Required? then 0 else 1
    {
      hide Run, Step;
      store.Yield(id);
      var broken, token := store.PutConfirm(id, authz.call);
      return if broken then Refused(Failed) else Required(token);
    }

    /** Get and the four checks, in their order.  A database error on Get leaves no row, and reads as an unknown
        token. */
    method CheckConfirm(authz: Authz) returns (dbError: bool, why: Option<Why>, ghost looked: State)
      requires Wired() && authz.token.Some?
      requires MayLook(store.PhaseOf(id), authz.call, authz.token.value)
      modifies store
      ensures Wired() && old(store.trace) <= store.trace && KeepsBracket(old(store.loose))
      ensures NoneBy(id, old(store.spenders), store.spenders) && old(store.spends) <= store.spends
      ensures why.None? ==>
        && store.PhaseOf(id).Looked? && store.PhaseOf(id).call == authz.call
        && store.PhaseOf(id).token == authz.token.value
        && (store.PhaseOf(id).hold.Some? <==> old(store.PhaseOf(id)).Counted?)
      // accepted exactly when the token fits, and each mismatch has its own refusal
      ensures dbError ==> why == Some(ConfirmUnknown)
      ensures !dbError ==> SawToken(authz, old(store.trace), store.trace, looked)
      ensures why.None? <==> !dbError && TokenFits(authz, looked)
      ensures !dbError && why != Some(Failed) ==> Judged(authz, looked, why)
      ensures why.Some? ==> why.value in {ConfirmUnknown, ConfirmTool, ConfirmArgs, Failed}
      ensures why == Some(Failed) || dbError <==> store.FaultsOf(id) > old(store.FaultsOf(id))
      ensures old(store.FaultsOf(id)) <= store.FaultsOf(id)
      // a token that is refused for good is gone
      ensures why == Some(ConfirmArgs) ==> authz.token.value !in store.confirms
      ensures why == Some(ConfirmUnknown) && !dbError && authz.token.value in looked.confirms
              && looked.confirms[authz.token.value].session == session ==>
        authz.token.value !in store.confirms
    {
      hide Run, Step, NoneBy, Spenders, NewSpender, Met;
      store.Yield(id);
      looked := store.Snapshot();
      ghost var before, start := store.spenders, store.trace;
      NoneTwice(id, old(store.spenders), before, before);
      var pending;
      dbError, pending := store.GetConfirm(id, authz.call, authz.token.value);
      if dbError {
        why := Some(ConfirmUnknown);
        return;
      }
      MeetsNow(store.cfg, old(store.trace), start, Get(id, authz.call, authz.token.value), looked);
      ghost var got := store.trace;
      if pending.None? || pending.value.session != session {
        why := Some(ConfirmUnknown);
      } else if store.clock - pending.value.createdAt > CONFIRM_TTL {
        var broken := Discard();
        NoneTwice(id, old(store.spenders), before, store.spenders);
        why := Some(if broken then Failed else ConfirmUnknown);
      } else if pending.value.tool != authz.call.tool {
        why := Some(ConfirmTool);
      } else if pending.value.digest != authz.call.digest {
        var broken := Discard();
        NoneTwice(id, old(store.spenders), before, store.spenders);
        why := Some(if broken then Failed else ConfirmArgs);
      } else {
        why := None;
      }
      TokenStaysSeen(authz, old(store.trace), old(store.trace), got, store.trace, looked);
    }

    /** The checks, and the delete that spends the token. */
    method ConsumeConfirm(authz: Authz) returns (dbError: bool, why: Option<Why>, ghost looked: State)
      requires Wired() && authz.token.Some?
      requires MayLook(store.PhaseOf(id), authz.call, authz.token.value)
      modifies store
      ensures Wired() && old(store.trace) <= store.trace && KeepsBracket(old(store.loose))
      ensures why.None? ==> store.PhaseOf(id).Authorised? && LastSpend(authz) && |old(store.spends)| < |store.spends|
      ensures why.None? ==> authz.token.value !in store.confirms && OneBy(id, old(store.spenders), store.spenders)
      ensures why.Some? ==> NoneBy(id, old(store.spenders), store.spenders)
      ensures why.None? ==> (store.PhaseOf(id).hold.Some? <==> old(store.PhaseOf(id)).Counted?)
      ensures dbError ==> why == Some(ConfirmUnknown)
      ensures !dbError ==> SawToken(authz, old(store.trace), store.trace, looked)
      ensures !dbError && why != Some(Failed) ==> Judged(authz, looked, why)
      ensures why.Some? ==> why.value in {ConfirmUnknown, ConfirmTool, ConfirmArgs, Failed}
      ensures why == Some(Failed) || dbError <==> store.FaultsOf(id) > old(store.FaultsOf(id))
      ensures old(store.FaultsOf(id)) <= store.FaultsOf(id)
    {
      hide Run, Step, NoneBy, OneBy, Met, Known;
      dbError, why, looked := CheckConfirm(authz);
      if why.Some? {
        return;
      }
      ghost var checked, done := store.spenders, store.trace;
      store.Yield(id);
      NoneTwice(id, old(store.spenders), checked, store.spenders);
      ghost var before := store.spenders;
      var broken := store.DeleteConfirm(id);
      TokenStaysSeen(authz, old(store.trace), old(store.trace), done, store.trace, looked);
      if broken {
        why := Some(Failed);
        return;
      }
      NoneThenOne(id, old(store.spenders), before);
    }

    method Discard() returns (broken: bool)
      requires Wired() && store.PhaseOf(id).Dropping?
      modifies store
      ensures Wired() && old(store.trace) <= store.trace && KeepsBracket(old(store.loose))
      ensures NoneBy(id, old(store.spenders), store.spenders) && old(store.spends) <= store.spends
      ensures !broken ==> old(store.PhaseOf(id)).token !in store.confirms
      ensures store.FaultsOf(id) == old(store.FaultsOf(id)) + if broken then 1 else 0
    {
      hide Run, Step;
      store.Yield(id);
      broken := store.DeleteConfirm(id);
    }
  }
}
