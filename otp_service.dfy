/** OTP generation with plan quotas, one-shot verification, and API-key material. */
module OtpService {
  import opened Types
  import opened Text
  import opened Db

  const DEFAULT_OTP_TTL: nat := 300
  const DefaultOtpLength: nat := 6

  datatype OtpType = Numeric | Alphanumeric | Alpha

  /** The caller's generation options; an absent one takes its default. */
  datatype OtpOptions = OtpOptions(length: Option<nat>, otpType: Option<OtpType>, expiresIn: Option<nat>)

  function EffectiveLength(o: OtpOptions): nat {
    if o.length.Some? then o.length.value else DefaultOtpLength
  }

  function EffectiveType(o: OtpOptions): OtpType {
    if o.otpType.Some? then o.otpType.value else Numeric
  }

  function EffectiveTtl(o: OtpOptions): nat {
    if o.expiresIn.Some? then o.expiresIn.value else DEFAULT_OTP_TTL
  }

  predicate IsUpperLetter(c: char) {
    'A' <= c <= 'Z'
  }

  const DigitChars: string := "0123456789"
  const UpperChars: string := "ABCDEFGHIJKLMNOPQRSTUVWXYZ"

  lemma DigitCharsAreDigits()
    ensures forall i :: 0 <= i < |DigitChars| ==> IsDigit(DigitChars[i])
  {
  }

  lemma UpperCharsAreLetters()
    ensures forall i :: 0 <= i < |UpperChars| ==> IsUpperLetter(UpperChars[i])
  {
  }

  function Charset(t: OtpType): (cs: string)
    ensures |cs| > 0
    ensures forall i :: 0 <= i < |cs| ==> IsDigit(cs[i]) || IsUpperLetter(cs[i])
    ensures t == Numeric ==> forall i :: 0 <= i < |cs| ==> IsDigit(cs[i])
    ensures t == Alpha ==> forall i :: 0 <= i < |cs| ==> IsUpperLetter(cs[i])
  {
    DigitCharsAreDigits();
    UpperCharsAreLetters();
    match t
    case Numeric => DigitChars
    case Alphanumeric =>
      var cs := UpperChars + DigitChars;
      assert forall i :: |UpperChars| <= i < |cs| ==> cs[i] == DigitChars[i - |UpperChars|];
      cs
    case Alpha => UpperChars
  }

  lemma CharsetSizes()
    ensures |Charset(Numeric)| == 10 && |Charset(Alphanumeric)| == 36 && |Charset(Alpha)| == 26
  {
  }

  function MonthlyOtpLimit(plan: Plan): nat {
    if plan == Pro then 10000 else 100
  }

  function DailyOtpLimit(plan: Plan): nat {
    if plan == Pro then 500 else 20
  }

  function MonthlyQuotaMessage(plan: Plan): string {
    "Monthly OTP quota exceeded (" + NatToString(MonthlyOtpLimit(plan)) + " for " + plan.Name() + " plan)"
  }

  function DailyLimitMessage(plan: Plan): string {
    "Daily OTP limit reached (" + NatToString(DailyOtpLimit(plan)) + " for " + plan.Name() + " plan)"
  }

  /** The counters are compared as of `today`: on a new day the daily count is taken as zero. */
  function CurrentDaily(count: nat, lastReset: Day, today: Day): nat {
    if lastReset != today then 0 else count
  }

  /**
   * The quota check: the monthly check first, then the daily one, each refusing at the limit.
   */
  function OtpQuotaError(plan: Plan, usageCount: nat, dailyOtpCount: nat, lastReset: Day, today: Day): (r: Option<string>)
    ensures usageCount >= MonthlyOtpLimit(plan) ==> r == Some(MonthlyQuotaMessage(plan))
    ensures usageCount < MonthlyOtpLimit(plan) && CurrentDaily(dailyOtpCount, lastReset, today) >= DailyOtpLimit(plan) ==>
      r == Some(DailyLimitMessage(plan))
    ensures r.None? <==> usageCount < MonthlyOtpLimit(plan) && CurrentDaily(dailyOtpCount, lastReset, today) < DailyOtpLimit(plan)
    ensures lastReset != today ==> (r.None? <==> usageCount < MonthlyOtpLimit(plan))
  {
    if usageCount >= MonthlyOtpLimit(plan) then Some(MonthlyQuotaMessage(plan))
    else if CurrentDaily(dailyOtpCount, lastReset, today) >= DailyOtpLimit(plan) then Some(DailyLimitMessage(plan))
    else None
  }

  lemma MonthlyMessageNamesQuota(plan: Plan)
    ensures Contains(MonthlyQuotaMessage(plan), "quota")
  {
    var head := "Monthly OTP quota exceeded (";
    assert head[12..17] == "quota";
    ContainsAt(head, "quota", 12);
    var withLimit := head + NatToString(MonthlyOtpLimit(plan));
    ContainsExtend(head, NatToString(MonthlyOtpLimit(plan)), "quota");
    ContainsExtend(withLimit, " for ", "quota");
    ContainsExtend(withLimit + " for ", plan.Name(), "quota");
    ContainsExtend(withLimit + " for " + plan.Name(), " plan)", "quota");
  }

  lemma DailyMessageNamesLimit(plan: Plan)
    ensures Contains(DailyLimitMessage(plan), "limit")
  {
    var head := "Daily OTP limit reached (";
    assert head[10..15] == "limit";
    ContainsAt(head, "limit", 10);
    var withLimit := head + NatToString(DailyOtpLimit(plan));
    ContainsExtend(head, NatToString(DailyOtpLimit(plan)), "limit");
    ContainsExtend(withLimit, " for ", "limit");
    ContainsExtend(withLimit + " for ", plan.Name(), "limit");
    ContainsExtend(withLimit + " for " + plan.Name(), " plan)", "limit");
  }

  /** Every refusal names the quota or the limit, which is what the OTP endpoint maps to 429. */
  lemma QuotaRefusalNamesQuotaOrLimit(plan: Plan, usageCount: nat, dailyOtpCount: nat, lastReset: Day, today: Day)
    requires OtpQuotaError(plan, usageCount, dailyOtpCount, lastReset, today).Some?
    ensures Contains(OtpQuotaError(plan, usageCount, dailyOtpCount, lastReset, today).value, "quota") ||
            Contains(OtpQuotaError(plan, usageCount, dailyOtpCount, lastReset, today).value, "limit")
  {
    if usageCount >= MonthlyOtpLimit(plan) {
      MonthlyMessageNamesQuota(plan);
    } else {
      DailyMessageNamesLimit(plan);
    }
  }

  /**
   * The user's counters after an OTP is issued: one more this month; on a new day the daily OTP count
   * restarts at one, the daily message count at zero and the reset day becomes today.
   */
  function CountersAfterOtp(u: User, lastReset: Day, today: Day): (r: User)
    ensures r.usageCount == u.usageCount + 1
    ensures lastReset != today ==> r.dailyOtpCount == 1 && r.dailyMessageCount == 0 && r.lastDailyResetAt == Some(today)
    ensures lastReset == today ==> r.dailyOtpCount == u.dailyOtpCount + 1 && r.dailyMessageCount == u.dailyMessageCount &&
                                   r.lastDailyResetAt == u.lastDailyResetAt
    ensures r == u.(usageCount := r.usageCount, dailyOtpCount := r.dailyOtpCount, dailyMessageCount := r.dailyMessageCount,
                    lastDailyResetAt := r.lastDailyResetAt)
  {
    if lastReset != today then
      u.(usageCount := u.usageCount + 1, dailyOtpCount := 1, dailyMessageCount := 0, lastDailyResetAt := Some(today))
    else
      u.(usageCount := u.usageCount + 1, dailyOtpCount := u.dailyOtpCount + 1)
  }

  /** The Redis key of an OTP: one per (user, phone), so a new code replaces the previous one. */
  function OtpStoreKey(userId: UserId, phone: string): string {
    "otp:" + userId + ":" + phone
  }

  /** `length` random draws from the charset; `crypto.randomInt(0, n)` is the draw `rand[i] % n`. */
  method BuildOtp(charset: string, length: nat, rand: seq<nat>) returns (otp: string)
    requires |charset| > 0 && |rand| >= length
    ensures |otp| == length
    ensures forall i :: 0 <= i < length ==> otp[i] == charset[rand[i] % |charset|]
  {
    otp := "";
    for i := 0 to length
      invariant |otp| == i
      invariant forall j :: 0 <= j < i ==> otp[j] == charset[rand[j] % |charset|]
    {
      otp := otp + [charset[rand[i] % |charset|]];
    }
  }

  /** A code built from a charset has no lower-case letter, so it is its own upper-case form. */
  lemma {:induction false} GeneratedCodeIsUpper(t: OtpType, otp: string)
    requires forall i :: 0 <= i < |otp| ==> otp[i] in Charset(t)
    ensures Upper(otp) == otp
  {
    forall i | 0 <= i < |otp| ensures !('a' <= otp[i] <= 'z') {
      var cs := Charset(t);
      var k :| 0 <= k < |cs| && cs[k] == otp[i];
    }
    UpperOfUpperCase(otp);
  }

  /**
   * `generateAndStoreOtp`. Refuses when a quota is exhausted; otherwise builds the code, stores its hash
   * under the (user, phone) key with the TTL, updates the user's counters and appends a pending log row.
   * `storeFails` is the error the hash store may raise, after which nothing else happens.
   */
  method GenerateAndStoreOtp(db: Database, redis: Redis, userId: UserId, apiKeyId: string, phone: string, plan: Plan,
                             usageCount: nat, dailyOtpCount: nat, lastReset: Day, options: OtpOptions,
                             today: Day, now: Instant, rand: seq<nat>, storeFails: Option<string>)
    returns (r: Result<string, string>)
    requires |rand| >= EffectiveLength(options)
    modifies db`users, db`otpLogs, redis`otps
    ensures OtpQuotaError(plan, usageCount, dailyOtpCount, lastReset, today).Some? ==>
      r == Err(OtpQuotaError(plan, usageCount, dailyOtpCount, lastReset, today).value) && unchanged(db) && unchanged(redis)
    ensures OtpQuotaError(plan, usageCount, dailyOtpCount, lastReset, today).None? && storeFails.Some? ==>
      r == Err(storeFails.value) && unchanged(db) && unchanged(redis)
    ensures OtpQuotaError(plan, usageCount, dailyOtpCount, lastReset, today).None? && storeFails.None? ==>
      r.Ok? && |r.value| == EffectiveLength(options) &&
      (forall i :: 0 <= i < |r.value| ==> r.value[i] in Charset(EffectiveType(options))) &&
      redis.otps == old(redis.otps)[OtpStoreKey(userId, phone) := StoredOtp(Bcrypt(Upper(r.value)), EffectiveTtl(options))] &&
      db.users == (if userId in old(db.users) then old(db.users)[userId := CountersAfterOtp(old(db.users)[userId], lastReset, today)]
                   else old(db.users)) &&
      db.otpLogs == old(db.otpLogs) + [OtpLog(|old(db.otpLogs)|, userId, apiKeyId, phone, OtpLogStatus.Pending, None, now)]
  {
    var quota := OtpQuotaError(plan, usageCount, dailyOtpCount, lastReset, today);
    if quota.Some? {
      return Err(quota.value);
    }
    var charset := Charset(EffectiveType(options));
    var otp := BuildOtp(charset, EffectiveLength(options), rand);
    var hash := Bcrypt(Upper(otp));
    if storeFails.Some? {
      return Err(storeFails.value);
    }
    redis.otps := redis.otps[OtpStoreKey(userId, phone) := StoredOtp(hash, EffectiveTtl(options))];
    if userId in db.users {
      db.users := db.users[userId := CountersAfterOtp(db.users[userId], lastReset, today)];
    }
    db.otpLogs := db.otpLogs + [OtpLog(|db.otpLogs|, userId, apiKeyId, phone, OtpLogStatus.Pending, None, now)];
    r := Ok(otp);
  }

  function VerifiedRow(row: OtpLog): OtpLog {
    row.(status := OtpLogStatus.Verified)
  }

  /**
   * `verifyOtp`: false when no code is stored; true exactly when the upper-cased input hashes to the stored
   * hash, in which case the code is deleted and the newest pending or delivered log row becomes verified.
   */
  method VerifyOtp(db: Database, redis: Redis, userId: UserId, phone: string, otpInput: string) returns (ok: bool)
    modifies db`otpLogs, redis`otps
    ensures OtpStoreKey(userId, phone) !in old(redis.otps) ==> !ok
    ensures ok <==> OtpStoreKey(userId, phone) in old(redis.otps) && old(redis.otps)[OtpStoreKey(userId, phone)].hash == Bcrypt(Upper(otpInput))
    ensures ok ==> redis.otps == old(redis.otps) - {OtpStoreKey(userId, phone)}
    ensures ok ==> db.otpLogs == UpdateNewest(old(db.otpLogs), OtpRowFilter(userId, phone, {OtpLogStatus.Pending, OtpLogStatus.Delivered}),
                                              OtpCreatedAt, VerifiedRow)
    ensures !ok ==> unchanged(redis) && unchanged(db)
    ensures OtpStoreKey(userId, phone) !in redis.otps || !ok
  {
    var key := OtpStoreKey(userId, phone);
    if key !in redis.otps {
      return false;
    }
    ok := redis.otps[key].hash == Bcrypt(Upper(otpInput));
    if ok {
      redis.otps := redis.otps - {key};
      db.otpLogs := UpdateNewest(db.otpLogs, OtpRowFilter(userId, phone, {OtpLogStatus.Pending, OtpLogStatus.Delivered}), OtpCreatedAt, VerifiedRow);
    }
  }

  /** Once the stored code has expired, every input is refused and nothing is written. */
  method VerifyExpiredOtp(db: Database, redis: Redis, userId: UserId, phone: string, otpInput: string) returns (ok: bool)
    modifies db`otpLogs, redis`otps
    ensures !ok
    ensures redis.otps == old(redis.otps) - {OtpStoreKey(userId, phone)}
    ensures db.otpLogs == old(db.otpLogs)
  {
    redis.Expire(OtpStoreKey(userId, phone));
    ok := VerifyOtp(db, redis, userId, phone, otpInput);
  }

  /** A generated code is accepted exactly for inputs that upper-case to it, so verification ignores case. */
  lemma GeneratedCodeMatch(t: OtpType, otp: string, input: string)
    requires forall i :: 0 <= i < |otp| ==> otp[i] in Charset(t)
    ensures Bcrypt(Upper(input)) == Bcrypt(Upper(otp)) <==> Upper(input) == otp
  {
    GeneratedCodeIsUpper(t, otp);
  }

  /** An alphabetic code typed in lower case is accepted. */
  lemma LowerCaseInputAccepted()
    ensures Bcrypt(Upper("abcdef")) == Bcrypt(Upper("ABCDEF"))
  {
    assert Upper("abcdef") == "ABCDEF";
  }

  datatype ApiKeyMaterial = ApiKeyMaterial(rawKey: string, hashedKey: string, prefix: string)

  function Pow16(k: nat): (p: nat)
    ensures p >= 1
  {
    if k == 0 then 1 else 16 * Pow16(k - 1)
  }

  /** The lower-case hexadecimal digit of a value below 16. */
  function HexDigit(d: nat): (c: char)
    requires d < 16
    ensures IsDigit(c) || 'a' <= c <= 'f'
  {
    if d < 10 then ('0' as int + d) as char else ('a' as int + d - 10) as char
  }

  /** The `k` lowest hexadecimal digits of `n`, most significant first. */
  function HexDigits(n: nat, k: nat): (h: string)
    ensures |h| == k && IsHex(h)
  {
    if k == 0 then [] else HexDigits(n / 16, k - 1) + [HexDigit(n % 16)]
  }

  /** Below `16^k`, the `k` digits determine the value. */
  lemma {:induction false} HexDigitsInjective(n: nat, m: nat, k: nat)
    requires n < Pow16(k) && m < Pow16(k)
    requires HexDigits(n, k) == HexDigits(m, k)
    ensures n == m
  {
    if k > 0 {
      var hn, hm := HexDigits(n, k), HexDigits(m, k);
      assert hn[k - 1] == HexDigit(n % 16) && hm[k - 1] == HexDigit(m % 16);
      assert hn[..k - 1] == HexDigits(n / 16, k - 1) && hm[..k - 1] == HexDigits(m / 16, k - 1);
      HexDigitsInjective(n / 16, m / 16, k - 1);
    }
  }

  /**
   * The stand-in for a hex SHA-256 digest: every character as the six lower-case hexadecimal
   * digits of its code point. Like the real digest it is a hex string and different inputs
   * give different digests (HexDigestInjective).
   */
  function HexDigest(s: string): (h: string)
    ensures |h| == 6 * |s| && IsHex(h)
  {
    if s == [] then [] else HexDigits(s[0] as int, 6) + HexDigest(s[1..])
  }

  lemma {:induction false} HexDigestInjective(a: string, b: string)
    requires HexDigest(a) == HexDigest(b)
    ensures a == b
  {
    if a != [] {
      assert |b| == |a|;
      HexDigestHead(a);
      HexDigestHead(b);
      CodePointDigits(a[0], b[0]);
      HexDigestInjective(a[1..], b[1..]);
      assert a == [a[0]] + a[1..];
      assert b == [b[0]] + b[1..];
    }
  }

  /** The digest of a non-empty string is its first character's six digits, then the digest of the rest. */
  lemma HexDigestHead(a: string)
    requires a != []
    ensures HexDigest(a)[..6] == HexDigits(a[0] as int, 6) && HexDigest(a)[6..] == HexDigest(a[1..])
  {
  }

  /** Code points are below `16^6`, so their six digits determine the character. */
  lemma CodePointDigits(c: char, d: char)
    requires HexDigits(c as int, 6) == HexDigits(d as int, 6)
    ensures c == d
  {
    assert Pow16(6) == 16777216;
    HexDigitsInjective(c as int, d as int, 6);
  }

  /** `hashApiKey`: the hex SHA-256 digest of the raw key. */
  function HashApiKey(rawKey: string): (h: string)
    ensures IsHex(h) && (rawKey != [] ==> h != [])
  {
    HexDigest(rawKey)
  }

  /** A generated raw key contains `_`, so it is never the digest of anything. */
  lemma RawKeyIsNoDigest(uuid: string, s: string)
    ensures GenerateApiKey(uuid).rawKey != HashApiKey(s)
  {
    var r := GenerateApiKey(uuid).rawKey;
    assert r[2] == '_';
  }

  /** `generateApiKey` for a given UUID: `wk_` and the UUID without dashes, its hash, and its first 12 characters. */
  function GenerateApiKey(uuid: string): (m: ApiKeyMaterial)
    ensures |m.rawKey| >= 3
    ensures m.rawKey[..3] == "wk_" && '-' !in m.rawKey[3..]
    ensures m.prefix <= m.rawKey && |m.prefix| == if |m.rawKey| < 12 then |m.rawKey| else 12
    ensures m.hashedKey == HashApiKey(m.rawKey)
  {
    var rawKey := "wk_" + RemoveChar(uuid, '-');
    assert rawKey[3..] == RemoveChar(uuid, '-');
    ApiKeyMaterial(rawKey, HashApiKey(rawKey), SliceFront(rawKey, 12))
  }

  predicate IsHex(s: string) {
    forall i :: 0 <= i < |s| ==> IsDigit(s[i]) || 'a' <= s[i] <= 'f'
  }

  /** The five groups of a canonical UUID `8-4-4-4-12`. */
  predicate CanonicalUuid(uuid: string, g1: string, g2: string, g3: string, g4: string, g5: string) {
    uuid == g1 + "-" + g2 + "-" + g3 + "-" + g4 + "-" + g5 &&
    |g1| == 8 && |g2| == 4 && |g3| == 4 && |g4| == 4 && |g5| == 12 &&
    IsHex(g1) && IsHex(g2) && IsHex(g3) && IsHex(g4) && IsHex(g5)
  }

  lemma HexHasNoDash(g: string)
    requires IsHex(g)
    ensures '-' !in g && RemoveChar(g, '-') == g
  {
    RemoveCharAbsent(g, '-');
  }

  /** Removing the dashes from `a-g`, for a dash-free group `g`, removes those of `a` and keeps `g`. */
  lemma DropDash(a: string, g: string)
    requires '-' !in g
    ensures RemoveChar(a + "-" + g, '-') == RemoveChar(a, '-') + g
  {
    var dash := "-";
    assert dash[1..] == [];
    assert RemoveChar(dash, '-') == [];
    RemoveCharAbsent(g, '-');
    RemoveCharAppend(a, dash, '-');
    assert RemoveChar(a + dash, '-') == RemoveChar(a, '-');
    RemoveCharAppend(a + dash, g, '-');
  }

  /** Without its dashes a canonical UUID is its five groups run together. */
  lemma CanonicalUuidDigits(uuid: string, g1: string, g2: string, g3: string, g4: string, g5: string)
    requires CanonicalUuid(uuid, g1, g2, g3, g4, g5)
    ensures RemoveChar(uuid, '-') == g1 + g2 + g3 + g4 + g5
  {
    HexHasNoDash(g1);
    HexHasNoDash(g2);
    HexHasNoDash(g3);
    HexHasNoDash(g4);
    HexHasNoDash(g5);
    DropDash(g1, g2);
    DropDash(g1 + "-" + g2, g3);
    DropDash(g1 + "-" + g2 + "-" + g3, g4);
    DropDash(g1 + "-" + g2 + "-" + g3 + "-" + g4, g5);
  }

  /** For a canonical UUID the raw key has 35 characters and its prefix is `wk_`, the first group and one more digit. */
  lemma ApiKeyFromCanonicalUuid(uuid: string, g1: string, g2: string, g3: string, g4: string, g5: string)
    requires CanonicalUuid(uuid, g1, g2, g3, g4, g5)
    ensures GenerateApiKey(uuid).rawKey == "wk_" + (g1 + g2 + g3 + g4 + g5)
    ensures |GenerateApiKey(uuid).rawKey| == 35
    ensures GenerateApiKey(uuid).prefix == "wk_" + (g1 + g2[..1])
  {
    CanonicalUuidDigits(uuid, g1, g2, g3, g4, g5);
    var groups := g1 + g2 + g3 + g4 + g5;
    PrefixOfAppend(g1 + g2 + g3 + g4, g5, 9);
    PrefixOfAppend(g1 + g2 + g3, g4, 9);
    PrefixOfAppend(g1 + g2, g3, 9);
    assert (g1 + g2)[..9] == g1 + g2[..1];
    PrefixOfAppend("wk_", groups, 3);
    assert ("wk_" + groups)[..12] == "wk_" + groups[..9];
  }

}
