/** The transactional-message endpoints: the send handler's checks and writes, and the paginated log listing. */
module MessageController {
  import opened Types
  import opened Text
  import opened Db
  import opened OtpService
  import opened WhatsAppClients
  import opened WhatsAppFacade
  import opened OtpController

  const MaxContentLength: nat := 2048
  const DefaultPage: nat := 1
  const DefaultPageSize: nat := 20

  datatype MessageBody = MessageBody(phone: string, content: string, sessionId: Option<string>)

  /** `sendMessageSchema.parse`: the phone pattern and 1 to 2048 characters of content. */
  predicate ValidMessage(b: MessageBody) {
    ValidPhone(b.phone) && 1 <= |b.content| <= MaxContentLength
  }

  function MessageSession(b: MessageBody): SessionId {
    if b.sessionId.Some? then b.sessionId.value else DefaultSession
  }

  function DailyMessageLimit(plan: Plan): nat {
    if plan == Pro then 2000 else 30
  }

  function MonthlyMessageLimit(plan: Plan): nat {
    if plan == Pro then 50000 else 250
  }

  /** The message quota check: monthly first, then daily as of today, each refusing at the limit. */
  function MessageQuotaError(plan: Plan, monthly: nat, daily: nat, lastReset: Day, today: Day): (r: Option<string>)
    ensures monthly >= MonthlyMessageLimit(plan) ==>
      r == Some("Monthly message quota exceeded (" + NatToString(MonthlyMessageLimit(plan)) + " for " + plan.Name() + " plan)")
    ensures monthly < MonthlyMessageLimit(plan) && CurrentDaily(daily, lastReset, today) >= DailyMessageLimit(plan) ==>
      r == Some("Daily message limit reached (" + NatToString(DailyMessageLimit(plan)) + " for " + plan.Name() + " plan)")
    ensures r.None? <==> monthly < MonthlyMessageLimit(plan) && CurrentDaily(daily, lastReset, today) < DailyMessageLimit(plan)
  {
    if monthly >= MonthlyMessageLimit(plan) then
      Some("Monthly message quota exceeded (" + NatToString(MonthlyMessageLimit(plan)) + " for " + plan.Name() + " plan)")
    else if CurrentDaily(daily, lastReset, today) >= DailyMessageLimit(plan) then
      Some("Daily message limit reached (" + NatToString(DailyMessageLimit(plan)) + " for " + plan.Name() + " plan)")
    else None
  }

  /**
   * The user's counters after a message is accepted: one more this month; on a new day the daily message
   * count restarts at one, the daily OTP count at zero and the reset day becomes today.
   */
  function CountersAfterMessage(u: User, lastReset: Day, today: Day): (r: User)
    ensures r.messageUsageCount == u.messageUsageCount + 1
    ensures lastReset != today ==> r.dailyMessageCount == 1 && r.dailyOtpCount == 0 && r.lastDailyResetAt == Some(today)
    ensures lastReset == today ==> r.dailyMessageCount == u.dailyMessageCount + 1 && r.dailyOtpCount == u.dailyOtpCount &&
                                   r.lastDailyResetAt == u.lastDailyResetAt
    ensures r == u.(messageUsageCount := r.messageUsageCount, dailyMessageCount := r.dailyMessageCount,
                    dailyOtpCount := r.dailyOtpCount, lastDailyResetAt := r.lastDailyResetAt)
  {
    if lastReset != today then
      u.(messageUsageCount := u.messageUsageCount + 1, dailyMessageCount := 1, dailyOtpCount := 0, lastDailyResetAt := Some(today))
    else
      u.(messageUsageCount := u.messageUsageCount + 1, dailyMessageCount := u.dailyMessageCount + 1)
  }

  /**
   * An accepted message advances today's count by exactly one, so the counters never pass the limits:
   * the check refuses the send that would.
   */
  lemma AcceptedMessageStaysWithinLimits(u: User, today: Day)
    requires MessageQuotaError(u.plan, u.messageUsageCount, u.dailyMessageCount, LastReset(u, today), today).None?
    ensures var v := CountersAfterMessage(u, LastReset(u, today), today);
      CurrentDaily(v.dailyMessageCount, LastReset(v, today), today) == CurrentDaily(u.dailyMessageCount, LastReset(u, today), today) + 1 &&
      CurrentDaily(v.dailyMessageCount, LastReset(v, today), today) <= DailyMessageLimit(u.plan) &&
      v.messageUsageCount <= MonthlyMessageLimit(u.plan)
  {
  }

  /** The lookup condition of this handler: an active key stored hashed; a raw stored key does not match. */
  function HashedKeyMatches(raw: string): ApiKey -> bool {
    (k: ApiKey) => k.isActive && k.key == HashApiKey(raw)
  }

  /** Unlike the OTP handlers' lookup, this one refuses a stored digest presented as the token. */
  lemma StoredDigestRefused(k: ApiKey, orig: string)
    requires k.key == HashApiKey(orig) && orig != ""
    ensures !HashedKeyMatches(HashApiKey(orig))(k)
  {
    assert |HashApiKey(HashApiKey(orig))| == 6 * |HashApiKey(orig)| == 36 * |orig|;
  }

  /** The checks of `sendTransactionalMessage` before anything is written, in order. */
  datatype MessageGate = RefuseMessage(response: Response) | AcceptMessage(keyIndex: nat, owner: UserId)

  function SendMessageGate(svc: WhatsAppService, body: MessageBody, authorization: Option<string>, today: Day): (g: MessageGate)
    reads svc.manager, svc.manager.db
    ensures !ValidMessage(body) ==> g == RefuseMessage(Response(400, ValidationMessage))
    ensures ValidMessage(body) && BearerToken(authorization).None? ==> g == RefuseMessage(Response(401, "API key required"))
    ensures g.AcceptMessage? ==>
      BearerToken(authorization).Some? &&
      Some(g.keyIndex) == FirstMatch(svc.manager.db.apiKeys, HashedKeyMatches(BearerToken(authorization).value)) &&
      g.owner == svc.manager.db.apiKeys[g.keyIndex].userId && g.owner in svc.manager.db.users
    ensures g.AcceptMessage? <==>
      ValidMessage(body) && BearerToken(authorization).Some? &&
      var k := FirstMatch(svc.manager.db.apiKeys, HashedKeyMatches(BearerToken(authorization).value));
      k.Some? && var owner := svc.manager.db.apiKeys[k.value].userId;
      owner in svc.manager.db.users && !Blocked(svc.GetStatus(owner, MessageSession(body))) &&
      var u := svc.manager.db.users[owner];
      MessageQuotaError(u.plan, u.messageUsageCount, u.dailyMessageCount, LastReset(u, today), today).None?
    ensures g.RefuseMessage? ==> g.response.status in {400, 401, 429, 500}
  {
    if !ValidMessage(body) then RefuseMessage(Response(400, ValidationMessage))
    else if BearerToken(authorization).None? then RefuseMessage(Response(401, "API key required"))
    else
      var k := FirstMatch(svc.manager.db.apiKeys, HashedKeyMatches(BearerToken(authorization).value));
      if k.None? then RefuseMessage(Response(401, "Invalid or revoked API key"))
      else
        var owner := svc.manager.db.apiKeys[k.value].userId;
        if owner !in svc.manager.db.users then RefuseMessage(Response(500, "Failed to send message"))
        else if Blocked(svc.GetStatus(owner, MessageSession(body))) then
          RefuseMessage(Response(400, "WhatsApp session (" + MessageSession(body) + ") is not connected."))
        else
          var u := svc.manager.db.users[owner];
          var quota := MessageQuotaError(u.plan, u.messageUsageCount, u.dailyMessageCount, LastReset(u, today), today);
          if quota.Some? then RefuseMessage(Response(429, quota.value))
          else AcceptMessage(k.value, owner)
  }

  /**
   * `POST /message/send`. When every check passes: the user's counters are advanced, a pending log row is
   * created, then the job is queued with the requested session, and the key's last use is recorded.
   */
  method SendTransactionalMessage(svc: WhatsAppService, body: MessageBody, authorization: Option<string>, today: Day, now: Instant)
    returns (resp: Response)
    modifies svc.manager.db`users, svc.manager.db`messageLogs, svc.manager.db`apiKeys, svc.manager.redis`messageJobs
    ensures var g := old(SendMessageGate(svc, body, authorization, today));
      (g.RefuseMessage? ==> resp == g.response && unchanged(svc.manager.db) && unchanged(svc.manager.redis)) &&
      (g.AcceptMessage? ==>
         var key := old(svc.manager.db.apiKeys[g.keyIndex]);
         var u := old(svc.manager.db.users[g.owner]);
         resp == Response(200, "Message queued") &&
         svc.manager.db.users == old(svc.manager.db.users)[g.owner := CountersAfterMessage(u, LastReset(u, today), today)] &&
         svc.manager.db.messageLogs == old(svc.manager.db.messageLogs) +
           [MessageLog(|old(svc.manager.db.messageLogs)|, g.owner, key.id, body.phone, body.content, MessageLogStatus.Pending, None, now)] &&
         svc.manager.redis.messageJobs == old(svc.manager.redis.messageJobs) +
           [MessageJob(g.owner, body.phone, body.content, key.id, Some(MessageSession(body)))] &&
         svc.manager.db.apiKeys == old(svc.manager.db.apiKeys)[g.keyIndex := key.(lastUsedAt := Some(now))])
  {
    var db := svc.manager.db;
    var g := SendMessageGate(svc, body, authorization, today);
    if g.RefuseMessage? {
      return g.response;
    }
    var key := db.apiKeys[g.keyIndex];
    var u := db.users[g.owner];
    db.users := db.users[g.owner := CountersAfterMessage(u, LastReset(u, today), today)];
    db.messageLogs := db.messageLogs + [MessageLog(|db.messageLogs|, g.owner, key.id, body.phone, body.content, MessageLogStatus.Pending, None, now)];
    svc.manager.redis.messageJobs := svc.manager.redis.messageJobs + [MessageJob(g.owner, body.phone, body.content, key.id, Some(MessageSession(body)))];
    db.apiKeys := db.apiKeys[g.keyIndex := key.(lastUsedAt := Some(now))];
    resp := Response(200, "Message queued");
  }

  /** The listing query `{userId, phone: /phone/}`: the user's rows, those whose phone contains the fragment when one is given. */
  function MessageQuery(userId: UserId, phone: Option<string>): MessageLog -> bool {
    (row: MessageLog) => Matches(row, userId, phone)
  }

  predicate Matches(row: MessageLog, userId: UserId, phone: Option<string>) {
    row.userId == userId && (phone.None? || phone.value == "" || Contains(row.phone, phone.value))
  }

  /** The sort key that orders rows newest first. */
  function NewestFirst(row: MessageLog): int {
    -row.createdAt
  }

  datatype LogPage = LogPage(logs: seq<MessageLog>, total: nat, page: nat, limit: nat, totalPages: Option<nat>)

  /**
   * `GET /message/logs`: one page of the user's matching rows, newest first, with the total and the page
   * count. A first page below 1 makes the offset negative, which the store rejects (500).
   */
  function GetMessageLogs(rows: seq<MessageLog>, userId: UserId, page: Option<nat>, limit: Option<nat>, phone: Option<string>)
    : (r: Result<LogPage, Response>)
    ensures var p := page.GetOr(DefaultPage);
            var l := limit.GetOr(DefaultPageSize);
      (r.Err? <==> PageSkip(p, l) < 0) &&
      (r.Err? ==> r.error == Response(500, "Failed to fetch logs")) &&
      (r.Ok? ==> r.value.page == p && r.value.limit == l && (l > 0 ==> |r.value.logs| <= l) &&
                 r.value.totalPages == TotalPages(r.value.total, l) &&
                 r.value.total == |Where(rows, MessageQuery(userId, phone))| &&
                 (forall i :: 0 <= i < |r.value.logs| ==> Matches(r.value.logs[i], userId, phone)) &&
                 (forall i, j :: 0 <= i < j < |r.value.logs| ==> r.value.logs[i].createdAt >= r.value.logs[j].createdAt))
    ensures var p := page.GetOr(DefaultPage);
            var l := limit.GetOr(DefaultPageSize);
      r.Ok? ==> PageSkip(p, l) >= 0 &&
                r.value.logs == Page(SortBy(Where(rows, MessageQuery(userId, phone)), NewestFirst), PageSkip(p, l) as nat, l)
  {
    var p := page.GetOr(DefaultPage);
    var l := limit.GetOr(DefaultPageSize);
    if PageSkip(p, l) < 0 then Err(Response(500, "Failed to fetch logs"))
    else
      var matching := Where(rows, MessageQuery(userId, phone));
      var logs := Page(SortBy(matching, NewestFirst), PageSkip(p, l) as nat, l);
      assert forall i :: 0 <= i < |matching| ==> Matches(matching[i], userId, phone) by {
        forall i | 0 <= i < |matching| ensures Matches(matching[i], userId, phone) {
          assert MessageQuery(userId, phone)(matching[i]);
        }
      }
      PageOfMatching(matching, userId, phone, PageSkip(p, l) as nat, l, logs);
      Ok(LogPage(logs, |matching|, p, l, TotalPages(|matching|, l)))
  }

  /** A page of matching rows, newest first: every row on it matches, and they are in order. */
  lemma PageOfMatching(matching: seq<MessageLog>, userId: UserId, phone: Option<string>, skip: nat, limit: nat,
                       logs: seq<MessageLog>)
    requires forall i :: 0 <= i < |matching| ==> Matches(matching[i], userId, phone)
    requires logs == Page(SortBy(matching, NewestFirst), skip, limit)
    ensures forall i :: 0 <= i < |logs| ==> Matches(logs[i], userId, phone)
    ensures forall i, j :: 0 <= i < j < |logs| ==> logs[i].createdAt >= logs[j].createdAt
  {
    SortedPage(matching, NewestFirst, skip, limit);
    forall i | 0 <= i < |logs| ensures Matches(logs[i], userId, phone) {
      var k :| 0 <= k < |matching| && matching[k] == logs[i];
    }
    forall i, j | 0 <= i < j < |logs| ensures logs[i].createdAt >= logs[j].createdAt {
      assert NewestFirst(logs[i]) <= NewestFirst(logs[j]);
    }
  }
}
