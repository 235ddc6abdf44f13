/** The numbers the program promises, in numbers: what the theorems of the other modules come to once their constants
    are written out. */
module Promises {
  import opened Options
  import MailProtocol
  import MailCapBound
  import MailCapExact
  import ConfirmOnce
  import SessionProtocol
  import TokenBucket
  import RequestLimiter
  import ResponseCache
  import Resending
  import Revalidation

  /** Five mails an hour: of the ok sends of a character in the table, stamped in an hour from any moment, there are at
      most five. */
  lemma FiveMailsAnHour(cfg: MailProtocol.Config, es: seq<MailProtocol.Event>, s: MailProtocol.State, c: int, w: int,
                        sends: set<nat>)
    requires MailProtocol.Run(cfg, es) == Some(s) && s.loose == {}
    requires forall i :: i in sends ==> i in s.live && i < |s.rows| && SentWithin(s.rows[i], c, w)
    ensures |sends| <= 5
  {
    MailCapBound.TableBound(cfg, es, s, c, w);
    MailCapBound.SubsetSize(sends, MailCapBound.InHour(s.rows, s.live, c, w));
  }

  ghost predicate SentWithin(row: MailProtocol.Row, c: int, w: int) {
    row.character == c && row.tool == MailProtocol.EveMailSend && row.ok && w <= row.at <= w + 3_600_000_000
  }

  /** Over every row ever committed, it is five as well exactly when no hold waits more than 90 days less an hour. */
  lemma FiveMailsEverExact(d: int)
    ensures MailCapExact.HistoryCapped(d) <==> d <= 7_776_000_000_000 - 3_600_000_000
  {
    hide MailCapExact.HistoryCapped;
    MailCapExact.HistoryBoundExact(d);
  }

  /** Five minutes: an authorised call is one that was previewed, in its session, with its tool and arguments, at most
      300 seconds before it was looked up. */
  lemma FiveMinutesToConfirm(cfg: MailProtocol.Config, es: seq<MailProtocol.Event>, s: MailProtocol.State, i: nat)
    requires cfg.Valid() && MailProtocol.Run(cfg, es) == Some(s) && i < |s.spends|
    ensures var spend := s.spends[i];
      && spend.token in s.minted
      && var put := s.minted[spend.token];
      && spend.session == put.session && spend.tool == put.tool && spend.digest == put.digest
      && put.createdAt <= spend.at <= put.createdAt + 300_000_000
  {
    ConfirmOnce.SpendMatchesPreview(cfg, es, s, i);
  }

  /** A token of at most 300 seconds is not swept. */
  lemma SweepSparesFresh(cfg: MailProtocol.Config, s: MailProtocol.State, now: int, s': MailProtocol.State,
                         token: MailProtocol.Token)
    requires MailProtocol.Step(cfg, s, MailProtocol.SweepConfirms(now)) == Some(s')
    requires token in s.confirms && s.clock <= s.confirms[token].createdAt + 300_000_000
    ensures token in s'.confirms && s'.confirms[token] == s.confirms[token]
  {
  }

  /** A code can be exchanged for two minutes after it was parked. */
  lemma TwoMinutesToExchange(s: SessionProtocol.State, e: SessionProtocol.Event, s': SessionProtocol.State)
    requires e.Park? && SessionProtocol.Step(s, e) == Some(s')
    ensures e.code in s'.codes && s'.codes[e.code].expires == s.clock + 120_000_000
    ensures s'.codes[e.code].character == e.character && s'.codes[e.code].token == e.token
  {
  }

  /** A purge forgets exactly the sessions that were revoked more than 90 days ago. */
  lemma NinetyDaysKept(s: SessionProtocol.State, now: int, s': SessionProtocol.State, id: SessionProtocol.Sid)
    requires SessionProtocol.Step(s, SessionProtocol.PurgeRevoked(now)) == Some(s') && id in s.sess
    ensures id in s'.sess <==> s.sess[id].revokedAt.None? || s.sess[id].revokedAt.value >= now - 7_776_000_000_000
    ensures id in s'.sess ==> s'.sess[id] == s.sess[id]
  {
  }

  /** 400 requests at once, and two a second: in any interval, in half-billionths of a token and in nanoseconds. */
  lemma FourHundredAndTwoASecond(b: TokenBucket.Bucket, ops: seq<TokenBucket.Op>, lo: int, hi: int)
    requires 0 <= b.tokens <= 400 * 500_000_000 && (b.last.None? ==> b.tokens == 400 * 500_000_000)
    requires TokenBucket.Within(ops, lo, hi) && lo <= hi
    ensures TokenBucket.Takes(b, ops) * 500_000_000
         <= 400 * 500_000_000 + (hi - lo) + TokenBucket.Refunds(ops) * 500_000_000
  {
    hide TokenBucket.Within, TokenBucket.Takes, TokenBucket.Refunds;
    TokenBucket.IntervalBound(b, ops, lo, hi);
  }

  /** Sixty requests a minute, less the lateness of the clock readings. */
  lemma SixtyAMinute(nows: seq<int>, d: int, w: int)
    requires RequestLimiter.Late(nows, d) && d >= 0
    ensures RequestLimiter.Inside(RequestLimiter.After(RequestLimiter.NEW, nows).admitted, w, 60_000_000_000 - d) <= 60
  {
    hide RequestLimiter.Late, RequestLimiter.Inside, RequestLimiter.After;
    RequestLimiter.WindowBound(nows, d, w);
  }

  /** And sixty at once are admitted. */
  lemma SixtyAdmitted(n: nat)
    requires n <= 60
    ensures var nows := RequestLimiter.Times(n, 1);
      RequestLimiter.After(RequestLimiter.NEW, nows).admitted == nows
  {
    hide RequestLimiter.After, RequestLimiter.Times;
    RequestLimiter.Burst(n);
  }

  /** The cache holds at most 2000 responses and 256 MiB, and no eviction leaves fewer than would fit. */
  lemma CacheBounds(rec: seq<ResponseCache.Entry>, k: nat)
    requires k <= |rec|
    ensures var kept := ResponseCache.Trim(rec);
      && kept <= rec && |kept| <= 2000 && ResponseCache.Bytes(kept) <= 268_435_456
      && (k <= 2000 && ResponseCache.Bytes(rec[..k]) <= 268_435_456 ==> k <= |kept|)
  {
    hide ResponseCache.Bytes, ResponseCache.Trim;
    ResponseCache.TrimIsLongest(rec, k);
  }

  /** A body of more than 8 MiB is not stored, and any other is. */
  lemma EightMebibytes(rec: seq<ResponseCache.Entry>, key: ResponseCache.Key, val: ResponseCache.Response)
    ensures var r := ResponseCache.Stored(rec, key, val);
      if val.body.size > 8_388_608 then r == rec else r != [] && r[0] == ResponseCache.Entry(key, val)
  {
    hide ResponseCache.Stored;
    ResponseCache.PutIsFirst(rec, key, val);
  }

  /** Nothing is fresh for more than a day. */
  lemma FreshForADay(ttl: Revalidation.Ttl, now: int)
    ensures now - 1_000_000_000 < Revalidation.ExpiresAt(ttl, now) <= now + 86_400_000_000_000
  {
    hide Revalidation.ExpiresAt;
    Revalidation.ExpiresWithinADay(ttl, now);
  }

  /** The two messages that say no connection was made. */
  lemma TwoMessages(err: Resending.NetErr)
    ensures Resending.SaysUnsent(err) <==>
      || (exists i :: Resending.StandsAt(err.text, "connection refused", i))
      || (exists i :: Resending.StandsAt(err.text, "no such host", i))
  {
    hide Resending.Contains;
    Resending.ContainsIs(err.text, Resending.REFUSED);
    Resending.ContainsIs(err.text, Resending.NO_HOST);
  }
}
