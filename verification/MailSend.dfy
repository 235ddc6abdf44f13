/** Sending a mail: authorise, post to EVE, record; and what the database then keeps of it. */
module MailSend {
  import opened Options
  import opened MailProtocol
  import opened MailCapBound
  import opened ConfirmOnce
  import opened WriteStore
  import opened WriteGuard

  datatype Outcome = Blocked(why: Why) | Preview(token: Token) | EsiRefused(recorded: bool) | Sent(recorded: bool)

  /** The bracket of eve_mail_send.  What ESI answers is not ours to choose; a record that fails is only logged. */
  method EveMailSendTool(guard: Guard, authz: Authz)
    returns (out: Outcome, ghost sends: nat, ghost counted: State, ghost looked: State)
    requires guard.Valid() && authz.call.tool == EveMailSend && authz.capability == MailSend
    modifies guard, guard.store, guard.mailHold
    ensures guard.Valid() && guard.mailHold == null && guard.KeepsBracket(old(guard.store.loose))
    ensures out.Preview? ==> authz.token.None?
    // what was done is on record, unless the database failed
    ensures (out.Sent? || out.EsiRefused?) && out.recorded ==>
      && |old(guard.store.rows)| < |guard.store.rows|
      && var r := guard.store.rows[|guard.store.rows| - 1];
        r.character == guard.character && r.tool == EveMailSend && (r.ok <==> out.Sent?)
    ensures (out.Sent? || out.EsiRefused?) && !out.recorded ==>
      guard.store.FaultsOf(guard.id) > old(guard.store.FaultsOf(guard.id))
    ensures out.Sent? || out.EsiRefused? ==> |old(guard.store.spends)| < |guard.store.spends|
    // nothing goes to EVE but on a token that fits, with fewer than five sends in the hour before the hold
    ensures out.Sent? || out.EsiRefused? ==>
      && authz.Entitled() && authz.token.Some? && sends < 5
      && guard.SawMails(authz, old(guard.store.trace), guard.store.trace, counted, sends)
      && guard.SawToken(authz, old(guard.store.trace), guard.store.trace, looked) && guard.TokenFits(authz, looked)
    // and with such a token and such a count it does go, unless the database failed
    ensures authz.Entitled() && authz.marshals && authz.token.Some?
            && out != Blocked(MailCapSpent) && guard.store.FaultsOf(guard.id) == old(guard.store.FaultsOf(guard.id)) ==>
      && guard.SawToken(authz, old(guard.store.trace), guard.store.trace, looked)
      && (out.Sent? || out.EsiRefused? <==> guard.TokenFits(authz, looked))
    ensures out == Blocked(MailCapSpent) ==>
      sends >= 5 && guard.SawMails(authz, old(guard.store.trace), guard.store.trace, counted, sends)
  {
    hide Run, Step, CountMail, Met, Passed, Known, Acceptable;
    ghost var start := guard.store.trace;
    var d;
    d, sends, counted, looked := guard.Authorize(authz);
    LogsGrow(guard.store.cfg, start, guard.store.trace);
    match d {
      case Refused(why) => out := Blocked(why); return;
      case Required(token) => out := Outcome.Preview(token); return;
      case Authorised =>
    }
    var accepted: bool := *;
    ghost var authorised := guard.store.trace;
    var failed := guard.Record(EveMailSend, accepted, authz.marshals);
    LogsGrow(guard.store.cfg, authorised, guard.store.trace);
    guard.MailsStaySeen(authz, start, start, authorised, guard.store.trace, counted, sends);
    guard.TokenStaysSeen(authz, start, start, authorised, guard.store.trace, looked);
    out := if accepted then Sent(!failed) else EsiRefused(!failed);
  }

  /** A store whose guards all keep to the bracket never holds more than five ok sends of a character in an hour. */
  lemma StoreWithinCap(store: Store, c: int, w: int)
    requires store.Valid() && store.loose == {}
    ensures |InHour(store.rows, store.live, c, w)| <= MAIL_CAP
  {
    TableBound(store.cfg, store.trace, store.Snapshot(), c, w);
  }
}
