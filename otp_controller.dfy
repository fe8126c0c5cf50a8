/** The OTP endpoints: request schemas, API-key authentication, the status gate and the error-to-status mapping. */
module OtpController {
  import opened Types
  import opened Text
  import opened Db
  import opened OtpService
  import opened WhatsAppClients
  import opened WhatsAppFacade

  datatype Response = Response(status: nat, message: string)

  const ValidationMessage: string := "invalid request body"

  // ---------------------------------------------------------------------------------------------
  // Schemas
  // ---------------------------------------------------------------------------------------------

  /** The phone number without its optional leading `+`. */
  function NationalPart(phone: string): string {
    if |phone| > 0 && phone[0] == '+' then phone[1..] else phone
  }

  /** `^\+?[1-9]\d{6,14}$`: an optional `+`, then 7 to 15 digits of which the first is not `0`. */
  predicate ValidPhone(phone: string) {
    var d := NationalPart(phone);
    7 <= |d| <= 15 && AllDigits(d) && d[0] != '0'
  }

  /** A valid phone's chat address is its 7 to 15 digits, the `+` dropped. */
  lemma ValidPhoneJid(phone: string)
    requires ValidPhone(phone)
    ensures Jid(phone) == NationalPart(phone) + "@s.whatsapp.net"
    ensures 7 <= |DigitsOnly(phone)| <= 15
  {
    var d := NationalPart(phone);
    DigitsOnlyOfDigits(d);
    assert DigitsOnly(phone) == d by {
      if |phone| > 0 && phone[0] == '+' {
        assert DigitsOnly(phone) == [] + DigitsOnly(d);
      }
    }
    assert Jid(phone) == DigitsOnly(phone) + "@s.whatsapp.net";
  }

  function OtpTypeName(t: OtpType): string {
    match t
    case Numeric => "numeric"
    case Alphanumeric => "alphanumeric"
    case Alpha => "alpha"
  }

  /** The `type` enum: exactly the three names are accepted. */
  function ParseOtpType(s: string): (r: Option<OtpType>)
    ensures r.Some? ==> OtpTypeName(r.value) == s
  {
    if s == "numeric" then Some(Numeric)
    else if s == "alphanumeric" then Some(Alphanumeric)
    else if s == "alpha" then Some(Alpha)
    else None
  }

  lemma OtpTypeNameRoundTrip(t: OtpType)
    ensures ParseOtpType(OtpTypeName(t)) == Some(t)
  {
  }

  /** A send request body as received. */
  datatype SendBody = SendBody(phone: string, apiKeyId: Option<string>, length: Option<int>, otpType: Option<string>,
                               expiresIn: Option<int>, message: Option<string>)

  /** A send request that passed the schema. */
  datatype SendParams = SendParams(phone: string, apiKeyId: Option<string>, options: OtpOptions, message: Option<string>)

  /** `sendSchema.parse`: the phone pattern, a length in [4, 12], one of the three types and a TTL in [30, 3600] s. */
  function ParseSend(b: SendBody): (r: Option<SendParams>)
    ensures r.Some? <==>
      ValidPhone(b.phone) && (b.length.None? || 4 <= b.length.value <= 12) &&
      (b.otpType.None? || ParseOtpType(b.otpType.value).Some?) && (b.expiresIn.None? || 30 <= b.expiresIn.value <= 3600)
    ensures r.Some? ==> r.value.phone == b.phone && r.value.apiKeyId == b.apiKeyId && r.value.message == b.message
    ensures r.Some? ==> 4 <= EffectiveLength(r.value.options) <= 12 && 30 <= EffectiveTtl(r.value.options) <= 3600
    ensures r.Some? && b.otpType.Some? ==> EffectiveType(r.value.options) == ParseOtpType(b.otpType.value).value
  {
    if !ValidPhone(b.phone) then None
    else if b.length.Some? && !(4 <= b.length.value <= 12) then None
    else if b.otpType.Some? && ParseOtpType(b.otpType.value).None? then None
    else if b.expiresIn.Some? && !(30 <= b.expiresIn.value <= 3600) then None
    else
      var length := if b.length.Some? then Some(b.length.value as nat) else None;
      var t := if b.otpType.Some? then ParseOtpType(b.otpType.value) else None;
      var ttl := if b.expiresIn.Some? then Some(b.expiresIn.value as nat) else None;
      Some(SendParams(b.phone, b.apiKeyId, OtpOptions(length, t, ttl), b.message))
  }

  datatype VerifyBody = VerifyBody(phone: string, otp: string)

  /** `verifySchema.parse`: the phone pattern and a code of 4 to 12 characters. */
  predicate ValidVerify(b: VerifyBody) {
    ValidPhone(b.phone) && 4 <= |b.otp| <= 12
  }

  /** Every code issued for a valid send request passes the verify schema with the same phone. */
  lemma IssuedCodesPassVerifySchema(b: SendBody, otp: string)
    requires ParseSend(b).Some? && |otp| == EffectiveLength(ParseSend(b).value.options)
    ensures ValidVerify(VerifyBody(b.phone, otp))
  {
  }

  // ---------------------------------------------------------------------------------------------
  // API-key authentication
  // ---------------------------------------------------------------------------------------------

  /** `authorization?.split(' ')[1]`, absent when it is missing or empty. */
  function BearerToken(authorization: Option<string>): (r: Option<string>)
    ensures r.Some? ==> |r.value| > 0 && ' ' !in r.value
  {
    if authorization.None? then None
    else
      var pieces := Split(authorization.value, ' ');
      if |pieces| >= 2 && pieces[1] != "" then Some(pieces[1]) else None
  }

  /** The token of a `Bearer <key>` header is the key. */
  lemma BearerTokenOfHeader(key: string)
    requires key != "" && ' ' !in key
    ensures BearerToken(Some("Bearer " + key)) == Some(key)
  {
    SplitAfterSeparator("Bearer", ' ', key);
    SplitNoSeparator(key, ' ');
    assert "Bearer " + key == "Bearer" + [' '] + key;
  }

  /** The lookup condition: an active key whose `key` column is the token's digest or the token itself. */
  function KeyMatches(raw: string): ApiKey -> bool {
    (k: ApiKey) => k.isActive && (k.key == HashApiKey(raw) || k.key == raw)
  }

  /**
   * A revoked key never authenticates; an active one does exactly with its raw value (stored hashed
   * or raw) or with the stored column itself.
   */
  lemma KeyMatchesForms(k: ApiKey, raw: string)
    ensures KeyMatches(raw)(k) <==> k.isActive && (k.key == HashApiKey(raw) || k.key == raw)
    ensures k.isActive ==> KeyMatches(k.key)(k)
    ensures forall orig :: k.key == HashApiKey(orig) && KeyMatches(raw)(k) ==> raw == orig || raw == k.key
  {
    forall orig | k.key == HashApiKey(orig) && KeyMatches(raw)(k)
      ensures raw == orig || raw == k.key
    {
      if k.key == HashApiKey(raw) {
        HexDigestInjective(raw, orig);
      }
    }
  }

  /** The key an authorization header resolves to, as an index into the collection. */
  function FindApiKey(keys: seq<ApiKey>, authorization: Option<string>): (r: Option<nat>)
    ensures r.Some? ==> BearerToken(authorization).Some? && r.value < |keys| && KeyMatches(BearerToken(authorization).value)(keys[r.value])
    ensures BearerToken(authorization).Some? && r.None? ==> forall j :: 0 <= j < |keys| ==> !KeyMatches(BearerToken(authorization).value)(keys[j])
  {
    var raw := BearerToken(authorization);
    if raw.None? then None else FirstMatch(keys, KeyMatches(raw.value))
  }

  /**
   * The stored digest itself works as a bearer token: with an active key stored as `HashApiKey(orig)`
   * in the collection, the header `Bearer <that digest>` resolves to a key.
   */
  lemma StoredDigestAuthenticates(keys: seq<ApiKey>, i: nat, orig: string)
    requires i < |keys| && keys[i].isActive && keys[i].key == HashApiKey(orig) && orig != ""
    ensures FindApiKey(keys, Some("Bearer " + HashApiKey(orig))).Some?
  {
    var d := HashApiKey(orig);
    BearerTokenOfHeader(d);
    assert KeyMatches(d)(keys[i]);
  }

  // ---------------------------------------------------------------------------------------------
  // Error mapping
  // ---------------------------------------------------------------------------------------------

  /** The send handler's mapping: a message naming a quota or a limit is 429, anything else 500. */
  function ErrorStatus(message: string): (s: nat)
    ensures s == 429 || s == 500
    ensures s == 429 <==> Contains(message, "quota") || Contains(message, "limit")
  {
    if Contains(message, "quota") then 429 else if Contains(message, "limit") then 429 else 500
  }

  /** The test handler's mapping as written: only a message naming a limit is 429. */
  function TestErrorStatus(message: string): (s: nat)
    ensures s == 429 <==> Contains(message, "limit")
    ensures s == 429 || s == 500
  {
    if Contains(message, "limit") then 429 else 500
  }

  /** The body of an error response: the message itself for 429, the handler's generic text otherwise. */
  function ErrorResponse(message: string, generic: string): (r: Response)
    ensures r.status == ErrorStatus(message)
    ensures r.status == 429 ==> r.message == message
  {
    if ErrorStatus(message) == 429 then Response(429, message) else Response(500, generic)
  }

  /** The body of the test handler's error response as written: the message for 429, the generic text for 500. */
  function TestErrorResponse(message: string, generic: string): (r: Response)
    ensures r.status == TestErrorStatus(message)
    ensures r.status == 429 ==> r.message == message
    ensures r.status == 500 ==> r.message == generic
  {
    if TestErrorStatus(message) == 429 then Response(429, message) else Response(500, generic)
  }

  /** Every quota refusal of the generator is answered with 429 by the send handler's mapping. */
  lemma QuotaRefusalIs429(plan: Plan, usageCount: nat, dailyOtpCount: nat, lastReset: Day, today: Day)
    requires OtpQuotaError(plan, usageCount, dailyOtpCount, lastReset, today).Some?
    ensures ErrorStatus(OtpQuotaError(plan, usageCount, dailyOtpCount, lastReset, today).value) == 429
  {
    QuotaRefusalNamesQuotaOrLimit(plan, usageCount, dailyOtpCount, lastReset, today);
  }

  /** The monthly-quota message for any digits and any name without an `l` has no `l` followed by `i`. */
  lemma MonthlyMessageShape(d: string, name: string)
    requires AllDigits(d) && 'l' !in name
    ensures NoPair("Monthly OTP quota exceeded (" + d + " for " + name + " plan)", 'l', 'i')
  {
    var head := "Monthly OTP quota exceeded (";
    assert head[5] == 'l' && head[6] == 'y';
    assert NoPair(head, 'l', 'i');
    NoPairConcat(head, d, 'l', 'i');
    var withLimit := head + d;
    NoPairConcat(withLimit, " for ", 'l', 'i');
    var withFor := withLimit + " for ";
    NoPairConcat(withFor, name, 'l', 'i');
    NoPairConcat(withFor + name, " plan)", 'l', 'i');
  }

  /** The monthly-quota message names no limit. */
  lemma MonthlyMessageLacksLimit(plan: Plan)
    ensures !Contains(MonthlyQuotaMessage(plan), "limit")
  {
    assert 'l' !in plan.Name();
    MonthlyMessageShape(NatToString(MonthlyOtpLimit(plan)), plan.Name());
    NoPairNoContains(MonthlyQuotaMessage(plan), "limit");
  }

  /** As written, the test handler answers an exhausted monthly quota with 500, where the send handler answers 429. */
  lemma TestMonthlyQuotaIs500(plan: Plan)
    ensures TestErrorStatus(MonthlyQuotaMessage(plan)) == 500
    ensures ErrorStatus(MonthlyQuotaMessage(plan)) == 429
  {
    MonthlyMessageLacksLimit(plan);
    MonthlyMessageNamesQuota(plan);
  }

  // ---------------------------------------------------------------------------------------------
  // Handlers
  // ---------------------------------------------------------------------------------------------

  /** Only a status of exactly `disconnected` stops a send; an unknown or connecting session passes. */
  predicate Blocked(status: Option<ConnStatus>) {
    status == Some(Disconnected)
  }

  /** The day the counters were last reset, or today when the user has none. */
  function LastReset(u: User, today: Day): Day {
    if u.lastDailyResetAt.Some? then u.lastDailyResetAt.value else today
  }

  /**
   * An issued OTP advances today's count by exactly one, so the counters never pass the plan's limits:
   * the check refuses the request that would.
   */
  lemma AcceptedOtpStaysWithinLimits(u: User, today: Day)
    requires OtpQuotaError(u.plan, u.usageCount, u.dailyOtpCount, LastReset(u, today), today).None?
    ensures var v := CountersAfterOtp(u, LastReset(u, today), today);
      CurrentDaily(v.dailyOtpCount, LastReset(v, today), today) == CurrentDaily(u.dailyOtpCount, LastReset(u, today), today) + 1 &&
      CurrentDaily(v.dailyOtpCount, LastReset(v, today), today) <= DailyOtpLimit(u.plan) &&
      v.usageCount <= MonthlyOtpLimit(u.plan)
  {
  }

  /** The checks of `sendOtp` before the code is generated, in order. */
  datatype SendGate = Refuse(response: Response) | Proceed(keyIndex: nat, params: SendParams)

  function SendOtpGate(svc: WhatsAppService, body: SendBody, authorization: Option<string>): (g: SendGate)
    reads svc.manager, svc.manager.db
    ensures ParseSend(body).None? ==> g == Refuse(Response(400, ValidationMessage))
    ensures ParseSend(body).Some? && BearerToken(authorization).None? ==> g == Refuse(Response(401, "API key required"))
    ensures g.Proceed? <==>
      ParseSend(body).Some? && FindApiKey(svc.manager.db.apiKeys, authorization).Some? &&
      var owner := svc.manager.db.apiKeys[FindApiKey(svc.manager.db.apiKeys, authorization).value].userId;
      owner in svc.manager.db.users && !Blocked(svc.GetStatus(owner, DefaultSession))
    ensures g.Proceed? ==> g.keyIndex < |svc.manager.db.apiKeys| && Some(g.keyIndex) == FindApiKey(svc.manager.db.apiKeys, authorization) &&
                           g.params == ParseSend(body).value && svc.manager.db.apiKeys[g.keyIndex].userId in svc.manager.db.users
    ensures g.Refuse? ==> g.response.status in {400, 401, 500}
  {
    var keys := svc.manager.db.apiKeys;
    var users := svc.manager.db.users;
    if ParseSend(body).None? then Refuse(Response(400, ValidationMessage))
    else if BearerToken(authorization).None? then Refuse(Response(401, "API key required"))
    else if FindApiKey(keys, authorization).None? then Refuse(Response(401, "Invalid or revoked API key"))
    else
      var i := FindApiKey(keys, authorization).value;
      if keys[i].userId !in users then Refuse(Response(500, "Failed to send OTP"))
      else if Blocked(svc.GetStatus(keys[i].userId, DefaultSession)) then
        Refuse(Response(400, "WhatsApp is not connected. Please connect your WhatsApp in the dashboard."))
      else Proceed(i, ParseSend(body).value)
  }

  /** A code as the generator issues it for these parameters: the requested length, from the requested charset. */
  predicate IssuedCode(otp: string, params: SendParams) {
    |otp| == EffectiveLength(params.options) &&
    forall i :: 0 <= i < |otp| ==> otp[i] in Charset(EffectiveType(params.options))
  }

  /**
   * Generation and enqueueing shared by the send handlers: the code is generated and stored for the user,
   * then a delivery job carrying that same code is appended to the OTP queue.
   */
  method IssueOtp(db: Database, redis: Redis, userId: UserId, apiKeyId: string, params: SendParams,
                  today: Day, now: Instant, rand: seq<nat>, storeFails: Option<string>)
    returns (r: Result<string, string>)
    requires userId in db.users && |rand| >= 12 && EffectiveLength(params.options) <= 12
    modifies db`users, db`otpLogs, redis`otps, redis`otpJobs
    ensures var u := old(db.users[userId]);
      var quota := OtpQuotaError(u.plan, u.usageCount, u.dailyOtpCount, LastReset(u, today), today);
      (quota.Some? ==> r == Err(quota.value)) &&
      (quota.None? && storeFails.Some? ==> r == Err(storeFails.value)) &&
      (quota.None? && storeFails.None? ==> r.Ok?)
    ensures r.Err? ==> unchanged(db) && unchanged(redis)
    ensures r.Ok? ==> var u := old(db.users[userId]);
      |r.value| == EffectiveLength(params.options) &&
      redis.otps == old(redis.otps)[OtpStoreKey(userId, params.phone) := StoredOtp(Bcrypt(Upper(r.value)), EffectiveTtl(params.options))] &&
      redis.otpJobs == old(redis.otpJobs) + [OtpJob(userId, params.phone, r.value, apiKeyId, None, params.message)] &&
      db.users == old(db.users)[userId := CountersAfterOtp(u, LastReset(u, today), today)] &&
      db.otpLogs == old(db.otpLogs) + [OtpLog(|old(db.otpLogs)|, userId, apiKeyId, params.phone, OtpLogStatus.Pending, None, now)]
    ensures r.Ok? ==> forall i :: 0 <= i < |r.value| ==> r.value[i] in Charset(EffectiveType(params.options))
  {
    var u := db.users[userId];
    r := GenerateAndStoreOtp(db, redis, userId, apiKeyId, params.phone, u.plan, u.usageCount, u.dailyOtpCount,
                             LastReset(u, today), params.options, today, now, rand, storeFails);
    if r.Ok? {
      redis.otpJobs := redis.otpJobs + [OtpJob(userId, params.phone, r.value, apiKeyId, None, params.message)];
    }
  }

  /**
   * `POST /otp/send`. After the gate, the code is issued and queued and the key's last use is recorded;
   * a generation error is mapped to 429 or 500. Nothing is written unless the answer is 200.
   */
  method SendOtp(svc: WhatsAppService, body: SendBody, authorization: Option<string>, today: Day, now: Instant,
                 rand: seq<nat>, storeFails: Option<string>)
    returns (resp: Response)
    requires |rand| >= 12
    modifies svc.manager.db`users, svc.manager.db`otpLogs, svc.manager.db`apiKeys, svc.manager.redis`otps, svc.manager.redis`otpJobs
    ensures var g := old(SendOtpGate(svc, body, authorization));
      (g.Refuse? ==> resp == g.response) &&
      (g.Proceed? ==> var key := old(svc.manager.db.apiKeys[g.keyIndex]);
                      var u := old(svc.manager.db.users[key.userId]);
                      var quota := OtpQuotaError(u.plan, u.usageCount, u.dailyOtpCount, LastReset(u, today), today);
                      (quota.Some? ==> resp == Response(429, quota.value)) &&
                      (quota.None? && storeFails.Some? ==> resp == ErrorResponse(storeFails.value, "Failed to send OTP")) &&
                      (quota.None? && storeFails.None? ==> resp == Response(200, "OTP sent")))
    ensures resp.status != 200 ==> unchanged(svc.manager.db) && unchanged(svc.manager.redis)
    ensures resp.status == 200 ==>
      var g := old(SendOtpGate(svc, body, authorization));
      g.Proceed? && var key := old(svc.manager.db.apiKeys[g.keyIndex]);
      var u := old(svc.manager.db.users[key.userId]);
      svc.manager.db.apiKeys == old(svc.manager.db.apiKeys)[g.keyIndex := key.(lastUsedAt := Some(now))] &&
      svc.manager.db.users == old(svc.manager.db.users)[key.userId := CountersAfterOtp(u, LastReset(u, today), today)] &&
      svc.manager.db.otpLogs == old(svc.manager.db.otpLogs) +
        [OtpLog(|old(svc.manager.db.otpLogs)|, key.userId, key.id, body.phone, OtpLogStatus.Pending, None, now)] &&
      |svc.manager.redis.otpJobs| == |old(svc.manager.redis.otpJobs)| + 1 &&
      var job := svc.manager.redis.otpJobs[|old(svc.manager.redis.otpJobs)|];
      job.userId == key.userId && job.apiKeyId == key.id && job.phone == body.phone &&
      OtpStoreKey(key.userId, body.phone) in svc.manager.redis.otps &&
      svc.manager.redis.otps[OtpStoreKey(key.userId, body.phone)].hash == Bcrypt(Upper(job.otp))
    ensures resp.status == 200 ==>
      var g := old(SendOtpGate(svc, body, authorization));
      g.Proceed? && var key := old(svc.manager.db.apiKeys[g.keyIndex]);
      |svc.manager.redis.otpJobs| == |old(svc.manager.redis.otpJobs)| + 1 &&
      var otp := svc.manager.redis.otpJobs[|old(svc.manager.redis.otpJobs)|].otp;
      IssuedCode(otp, g.params) &&
      svc.manager.redis.otpJobs == old(svc.manager.redis.otpJobs) + [OtpJob(key.userId, body.phone, otp, key.id, None, g.params.message)] &&
      svc.manager.redis.otps ==
        old(svc.manager.redis.otps)[OtpStoreKey(key.userId, body.phone) := StoredOtp(Bcrypt(Upper(otp)), EffectiveTtl(g.params.options))]
  {
    var db := svc.manager.db;
    var g := SendOtpGate(svc, body, authorization);
    if g.Refuse? {
      return g.response;
    }
    var key := db.apiKeys[g.keyIndex];
    var u := db.users[key.userId];
    var quota := OtpQuotaError(u.plan, u.usageCount, u.dailyOtpCount, LastReset(u, today), today);
    if quota.Some? {
      QuotaRefusalIs429(u.plan, u.usageCount, u.dailyOtpCount, LastReset(u, today), today);
    }
    var r := IssueOtp(db, svc.manager.redis, key.userId, key.id, g.params, today, now, rand, storeFails);
    if r.Err? {
      return ErrorResponse(r.error, "Failed to send OTP");
    }
    db.apiKeys := db.apiKeys[g.keyIndex := key.(lastUsedAt := Some(now))];
    resp := Response(200, "OTP sent");
  }

  /** The key a test send uses: the named key when one is given, else the user's first key; it must be the user's and active. */
  function TestKey(keys: seq<ApiKey>, userId: UserId, apiKeyId: Option<string>): (r: Option<nat>)
    ensures r.Some? ==> r.value < |keys| && keys[r.value].userId == userId && keys[r.value].isActive
    ensures r.Some? && apiKeyId.Some? && apiKeyId.value != "" ==> keys[r.value].id == apiKeyId.value
    ensures r.None? && (apiKeyId.None? || apiKeyId.value == "") ==> forall j :: 0 <= j < |keys| ==> !(keys[j].userId == userId && keys[j].isActive)
  {
    if apiKeyId.Some? && apiKeyId.value != "" then
      FirstMatch(keys, (k: ApiKey) => k.id == apiKeyId.value && k.userId == userId && k.isActive)
    else
      FirstMatch(keys, (k: ApiKey) => k.userId == userId && k.isActive)
  }

  /** The checks of `sendTestOtp` before the code is generated, in order. */
  function TestOtpGate(svc: WhatsAppService, userId: UserId, body: SendBody): (g: SendGate)
    reads svc.manager, svc.manager.db
    ensures ParseSend(body).None? ==> g == Refuse(Response(400, ValidationMessage))
    ensures ParseSend(body).Some? && TestKey(svc.manager.db.apiKeys, userId, body.apiKeyId).None? ==>
      g == Refuse(Response(400, "Please select a valid active API Key first."))
    ensures g.Proceed? <==>
      ParseSend(body).Some? && TestKey(svc.manager.db.apiKeys, userId, body.apiKeyId).Some? && !Blocked(svc.GetStatus(userId, DefaultSession))
    ensures g.Proceed? ==> Some(g.keyIndex) == TestKey(svc.manager.db.apiKeys, userId, body.apiKeyId) && g.params == ParseSend(body).value
    ensures g.Refuse? ==> g.response.status == 400
  {
    if ParseSend(body).None? then Refuse(Response(400, ValidationMessage))
    else if TestKey(svc.manager.db.apiKeys, userId, body.apiKeyId).None? then
      Refuse(Response(400, "Please select a valid active API Key first."))
    else if Blocked(svc.GetStatus(userId, DefaultSession)) then
      Refuse(Response(400, "WhatsApp session not found. Please go to the WhatsApp tab and connect."))
    else Proceed(TestKey(svc.manager.db.apiKeys, userId, body.apiKeyId).value, ParseSend(body).value)
  }

  /**
   * `POST /otp/test` for the signed-in user. The key is chosen by `TestKey` and its last use is not
   * recorded. Generation errors are mapped by the test handler's own `TestErrorStatus`, so the monthly-quota
   * refusal is answered 500.
   */
  method SendTestOtp(svc: WhatsAppService, userId: UserId, body: SendBody, today: Day, now: Instant,
                     rand: seq<nat>, storeFails: Option<string>)
    returns (resp: Response)
    requires userId in svc.manager.db.users && |rand| >= 12
    modifies svc.manager.db`users, svc.manager.db`otpLogs, svc.manager.redis`otps, svc.manager.redis`otpJobs
    ensures var g := old(TestOtpGate(svc, userId, body));
      (g.Refuse? ==> resp == g.response) &&
      (g.Proceed? ==> var u := old(svc.manager.db.users[userId]);
                      var quota := OtpQuotaError(u.plan, u.usageCount, u.dailyOtpCount, LastReset(u, today), today);
                      (quota.Some? ==> resp == TestErrorResponse(quota.value, "Failed to send test OTP")) &&
                      (quota.None? && storeFails.Some? ==> resp == TestErrorResponse(storeFails.value, "Failed to send test OTP")) &&
                      (quota.None? && storeFails.None? ==> resp == Response(200, "Test OTP sent")))
    ensures resp.status != 200 ==> unchanged(svc.manager.db) && unchanged(svc.manager.redis)
    ensures resp.status == 200 ==>
      var g := old(TestOtpGate(svc, userId, body));
      g.Proceed? && var u := old(svc.manager.db.users[userId]);
      svc.manager.db.users == old(svc.manager.db.users)[userId := CountersAfterOtp(u, LastReset(u, today), today)] &&
      svc.manager.db.otpLogs == old(svc.manager.db.otpLogs) +
        [OtpLog(|old(svc.manager.db.otpLogs)|, userId, old(svc.manager.db.apiKeys[g.keyIndex].id), body.phone, OtpLogStatus.Pending, None, now)] &&
      |svc.manager.redis.otpJobs| == |old(svc.manager.redis.otpJobs)| + 1 &&
      var job := svc.manager.redis.otpJobs[|old(svc.manager.redis.otpJobs)|];
      job.userId == userId && job.phone == body.phone && job.apiKeyId == old(svc.manager.db.apiKeys[g.keyIndex].id) &&
      OtpStoreKey(userId, body.phone) in svc.manager.redis.otps &&
      svc.manager.redis.otps[OtpStoreKey(userId, body.phone)].hash == Bcrypt(Upper(job.otp))
    ensures resp.status == 200 ==>
      var g := old(TestOtpGate(svc, userId, body));
      g.Proceed? && var keyId := old(svc.manager.db.apiKeys[g.keyIndex].id);
      |svc.manager.redis.otpJobs| == |old(svc.manager.redis.otpJobs)| + 1 &&
      var otp := svc.manager.redis.otpJobs[|old(svc.manager.redis.otpJobs)|].otp;
      IssuedCode(otp, g.params) &&
      svc.manager.redis.otpJobs == old(svc.manager.redis.otpJobs) + [OtpJob(userId, body.phone, otp, keyId, None, g.params.message)] &&
      svc.manager.redis.otps ==
        old(svc.manager.redis.otps)[OtpStoreKey(userId, body.phone) := StoredOtp(Bcrypt(Upper(otp)), EffectiveTtl(g.params.options))]
  {
    var db := svc.manager.db;
    var g := TestOtpGate(svc, userId, body);
    if g.Refuse? {
      return g.response;
    }
    var r := IssueOtp(db, svc.manager.redis, userId, db.apiKeys[g.keyIndex].id, g.params, today, now, rand, storeFails);
    if r.Err? {
      return TestErrorResponse(r.error, "Failed to send test OTP");
    }
    resp := Response(200, "Test OTP sent");
  }

  /**
   * `POST /otp/verify`: the schema, then the API key, then the one-shot check of the code for the key's
   * owner; a key whose owner is gone is a server error.
   */
  method VerifyOtpHandler(svc: WhatsAppService, body: VerifyBody, authorization: Option<string>) returns (resp: Response)
    modifies svc.manager.db`otpLogs, svc.manager.redis`otps
    ensures !ValidVerify(body) ==> resp == Response(400, ValidationMessage) && unchanged(svc.manager.db) && unchanged(svc.manager.redis)
    ensures ValidVerify(body) && BearerToken(authorization).None? ==> resp == Response(401, "API key required")
    ensures ValidVerify(body) && FindApiKey(svc.manager.db.apiKeys, authorization).None? ==> resp.status == 401
    ensures resp.status == 200 <==>
      ValidVerify(body) && FindApiKey(svc.manager.db.apiKeys, authorization).Some? &&
      var owner := svc.manager.db.apiKeys[FindApiKey(svc.manager.db.apiKeys, authorization).value].userId;
      owner in svc.manager.db.users && OtpStoreKey(owner, body.phone) in old(svc.manager.redis.otps) &&
      old(svc.manager.redis.otps)[OtpStoreKey(owner, body.phone)].hash == Bcrypt(Upper(body.otp))
    ensures resp.status == 200 ==>
      var owner := svc.manager.db.apiKeys[FindApiKey(svc.manager.db.apiKeys, authorization).value].userId;
      svc.manager.redis.otps == old(svc.manager.redis.otps) - {OtpStoreKey(owner, body.phone)} &&
      svc.manager.db.otpLogs == UpdateNewest(old(svc.manager.db.otpLogs), OtpRowFilter(owner, body.phone, {OtpLogStatus.Pending, OtpLogStatus.Delivered}),
                                             OtpCreatedAt, VerifiedRow)
    ensures resp.status != 200 ==> unchanged(svc.manager.db) && unchanged(svc.manager.redis)
    ensures resp.status in {200, 400, 401, 500}
  {
    var db := svc.manager.db;
    if !ValidVerify(body) {
      return Response(400, ValidationMessage);
    }
    if BearerToken(authorization).None? {
      return Response(401, "API key required");
    }
    var k := FindApiKey(db.apiKeys, authorization);
    if k.None? {
      return Response(401, "Invalid or revoked API key");
    }
    var owner := db.apiKeys[k.value].userId;
    if owner !in db.users {
      return Response(500, "Failed to verify OTP");
    }
    var ok := VerifyOtp(db, svc.manager.redis, owner, body.phone, body.otp);
    resp := if ok then Response(200, "OTP verified successfully") else Response(400, "Invalid or expired OTP");
  }

  /** `POST /otp/test-verify`: the schema, then the one-shot check of the code for the signed-in user. */
  method VerifyTestOtp(svc: WhatsAppService, userId: UserId, body: VerifyBody) returns (resp: Response)
    modifies svc.manager.db`otpLogs, svc.manager.redis`otps
    ensures !ValidVerify(body) ==> resp == Response(400, ValidationMessage)
    ensures resp.status == 200 <==>
      ValidVerify(body) && OtpStoreKey(userId, body.phone) in old(svc.manager.redis.otps) &&
      old(svc.manager.redis.otps)[OtpStoreKey(userId, body.phone)].hash == Bcrypt(Upper(body.otp))
    ensures resp.status == 200 ==> OtpStoreKey(userId, body.phone) !in svc.manager.redis.otps
    ensures resp.status == 200 ==>
      svc.manager.redis.otps == old(svc.manager.redis.otps) - {OtpStoreKey(userId, body.phone)} &&
      svc.manager.db.otpLogs == UpdateNewest(old(svc.manager.db.otpLogs), OtpRowFilter(userId, body.phone, {OtpLogStatus.Pending, OtpLogStatus.Delivered}),
                                             OtpCreatedAt, VerifiedRow)
    ensures resp.status != 200 ==> unchanged(svc.manager.db) && unchanged(svc.manager.redis) && resp.status == 400
  {
    if !ValidVerify(body) {
      return Response(400, ValidationMessage);
    }
    var ok := VerifyOtp(svc.manager.db, svc.manager.redis, userId, body.phone, body.otp);
    resp := if ok then Response(200, "OTP verified successfully") else Response(400, "Invalid or expired OTP");
  }
}
