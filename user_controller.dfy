/** The dashboard's account endpoints: the profile, the OTP log listing and the usage statistics. */
module UserController {
  import opened Types
  import opened Text
  import opened Db
  import opened OtpService
  import opened OtpController
  import opened MessageController

  const DayMs: int := 86400000

  function StatusName(s: OtpLogStatus): string {
    match s
    case Pending => "pending"
    case Delivered => "delivered"
    case Failed => "failed"
    case Verified => "verified"
  }

  /** `end.setHours(23, 59, 59, 999)`: the last millisecond of the day `t` falls on. */
  function EndOfDay(t: Instant): (r: Instant)
    ensures t <= r && r / DayMs == t / DayMs
    ensures (r + 1) % DayMs == 0
  {
    var d := t / DayMs;
    assert t == d * DayMs + t % DayMs;
    var r := d * DayMs + (DayMs - 1);
    assert r + 1 == (d + 1) * DayMs;
    r
  }

  /** An instant is at most the end of the day of `t` exactly when it falls on that day or an earlier one. */
  lemma UpToEndOfDay(x: Instant, t: Instant)
    ensures x <= EndOfDay(t) <==> x / DayMs <= t / DayMs
  {
    var d := t / DayMs;
    var e := x / DayMs;
    assert x == e * DayMs + x % DayMs;
    assert EndOfDay(t) == d * DayMs + (DayMs - 1);
    if e <= d {
      assert e * DayMs <= d * DayMs;
    } else {
      assert (d + 1) * DayMs <= e * DayMs;
    }
  }

  /** The query parameters of `getLogs`; a date is absent when it was not given. */
  datatype LogQuery = LogQuery(userId: UserId, status: Option<string>, phone: Option<string>,
                               startDate: Option<Instant>, endDate: Option<Instant>)

  /**
   * The rows the dashboard asks for: the user's own, with the chosen status unless it is `all`, whose
   * phone contains the fragment, created no earlier than the start and on or before the day of the end.
   */
  predicate Requested(q: LogQuery, row: OtpLog) {
    row.userId == q.userId
    && (Truthy(q.status) && q.status.value != "all" ==> StatusName(row.status) == q.status.value)
    && (Truthy(q.phone) ==> Contains(row.phone, q.phone.value))
    && (q.startDate.Some? ==> q.startDate.value <= row.createdAt)
    && (q.endDate.Some? ==> row.createdAt / DayMs <= q.endDate.value / DayMs)
  }

  /** The Mongo filter `getLogs` builds: `{userId, status?, phone?: /fragment/, createdAt?: {$gte?, $lte?}}`. */
  datatype LogFilter = LogFilter(userId: UserId, status: Option<string>, phone: Option<string>,
                                 from: Option<Instant>, to: Option<Instant>)

  predicate Admits(f: LogFilter, row: OtpLog) {
    row.userId == f.userId
    && (f.status.Some? ==> StatusName(row.status) == f.status.value)
    && (f.phone.Some? ==> Contains(row.phone, f.phone.value))
    && (f.from.Some? ==> f.from.value <= row.createdAt)
    && (f.to.Some? ==> row.createdAt <= f.to.value)
  }

  /**
   * The filter, built field by field: a status only when one is given and it is not `all`, a phone fragment
   * when given, and a createdAt range with the end widened to the end of its day. It admits exactly the
   * requested rows.
   */
  method BuildLogFilter(q: LogQuery) returns (f: LogFilter)
    ensures f.userId == q.userId
    ensures f.status.Some? <==> Truthy(q.status) && q.status.value != "all"
    ensures f.phone.Some? <==> Truthy(q.phone)
    ensures f.from == q.startDate
    ensures f.to.Some? <==> q.endDate.Some?
    ensures forall row :: Admits(f, row) <==> Requested(q, row)
  {
    f := LogFilter(q.userId, None, None, None, None);
    if Truthy(q.status) && q.status.value != "all" {
      f := f.(status := q.status);
    }
    if Truthy(q.phone) {
      f := f.(phone := q.phone);
    }
    if q.startDate.Some? || q.endDate.Some? {
      if q.startDate.Some? {
        f := f.(from := q.startDate);
      }
      if q.endDate.Some? {
        f := f.(to := Some(EndOfDay(q.endDate.value)));
      }
    }
    forall row: OtpLog
      ensures Admits(f, row) <==> Requested(q, row)
    {
      if q.endDate.Some? {
        UpToEndOfDay(row.createdAt, q.endDate.value);
      }
    }
  }

  /** `sort[sortBy] = sortOrder === 'desc' ? -1 : 1`, sorting by `createdAt`, newest first, by default. */
  datatype SortSpec = SortSpec(field: string, direction: int)

  function SortOf(sortBy: Option<string>, sortOrder: Option<string>): (r: SortSpec)
    ensures r.direction == -1 || r.direction == 1
    ensures r.direction == -1 <==> sortOrder.None? || sortOrder.value == "desc"
    ensures sortBy.None? ==> r.field == "createdAt"
    ensures sortBy.Some? ==> r.field == sortBy.value
  {
    SortSpec(if sortBy.Some? then sortBy.value else "createdAt",
             if sortOrder.None? || sortOrder.value == "desc" then -1 else 1)
  }

  /**
   * The ascending sort key of a row under `spec`. `createdAt` is ordered by time; the order of any other
   * field is given as a rank per row.
   */
  function SortKey(spec: SortSpec, otherRank: (string, OtpLog) -> int, row: OtpLog): int {
    spec.direction * (if spec.field == "createdAt" then row.createdAt else otherRank(spec.field, row))
  }

  /** A listed row: the row itself, its `id`, and the name of the key it was sent with. */
  datatype LogView = LogView(log: OtpLog, id: nat, apiKeyName: string)

  /** `apiKeyId?.name || 'Dashboard'`: the name of the row's key when the key exists and has a name. */
  function KeyName(keys: seq<ApiKey>, apiKeyId: string): (r: string)
    ensures (forall i :: 0 <= i < |keys| ==> keys[i].id != apiKeyId) ==> r == "Dashboard"
    ensures forall i :: 0 <= i < |keys| && keys[i].id == apiKeyId && (forall j :: 0 <= j < i ==> keys[j].id != apiKeyId) ==>
      r == if keys[i].name == "" then "Dashboard" else keys[i].name
  {
    match FirstMatch(keys, (k: ApiKey) => k.id == apiKeyId)
    case None => "Dashboard"
    case Some(i) => if keys[i].name == "" then "Dashboard" else keys[i].name
  }

  function View(keys: seq<ApiKey>, row: OtpLog): LogView {
    LogView(row, row.id, KeyName(keys, row.apiKeyId))
  }

  datatype LogsReply = LogsReply(logs: seq<LogView>, total: nat, page: nat, limit: nat, totalPages: Option<nat>)

  /** The requested rows as a filter. */
  function RequestedRows(q: LogQuery): OtpLog -> bool {
    (row: OtpLog) => Requested(q, row)
  }

  /** The ascending sort key of `spec` as a function of the row. */
  function LogOrder(spec: SortSpec, otherRank: (string, OtpLog) -> int): OtpLog -> int {
    (row: OtpLog) => SortKey(spec, otherRank, row)
  }

  /** Filtering two ways that agree on every row selects the same rows. */
  lemma {:induction false} WhereAgrees<T>(rows: seq<T>, p: T -> bool, q: T -> bool)
    requires forall x :: p(x) == q(x)
    ensures Where(rows, p) == Where(rows, q)
  {
    if rows != [] {
      WhereAgrees(rows[1..], p, q);
    }
  }

  /**
   * `getLogs`: the requested rows in the requested order, one page of them with each row's key name, and
   * the total and page count. Page 0 makes the offset negative, which the store rejects (500).
   */
  method GetLogs(db: Database, q: LogQuery, sortBy: Option<string>, sortOrder: Option<string>,
                 page: Option<nat>, limit: Option<nat>, otherRank: (string, OtpLog) -> int)
    returns (r: Result<LogsReply, Response>)
    ensures var p := page.GetOr(DefaultPage);
            var l := limit.GetOr(DefaultPageSize);
      (r.Err? <==> PageSkip(p, l) < 0) &&
      (r.Err? ==> r.error == Response(500, "Failed to fetch logs")) &&
      (r.Ok? ==> r.value.page == p && r.value.limit == l &&
                 r.value.total == |Where(db.otpLogs, RequestedRows(q))| &&
                 r.value.totalPages == TotalPages(r.value.total, l))
    ensures var p := page.GetOr(DefaultPage);
            var l := limit.GetOr(DefaultPageSize);
      r.Ok? ==> |r.value.logs| == (if PageSkip(p, l) >= r.value.total then 0
                                   else if l == 0 || PageSkip(p, l) + l > r.value.total then r.value.total - PageSkip(p, l)
                                   else l)
    ensures r.Ok? ==> forall i :: 0 <= i < |r.value.logs| ==>
      var v := r.value.logs[i];
      v.log in db.otpLogs && Requested(q, v.log) && v.id == v.log.id && v.apiKeyName == KeyName(db.apiKeys, v.log.apiKeyId)
    ensures r.Ok? ==> forall i, j :: 0 <= i < j < |r.value.logs| ==>
      SortKey(SortOf(sortBy, sortOrder), otherRank, r.value.logs[i].log) <= SortKey(SortOf(sortBy, sortOrder), otherRank, r.value.logs[j].log)
    ensures var p := page.GetOr(DefaultPage);
            var l := limit.GetOr(DefaultPageSize);
      r.Ok? ==> PageSkip(p, l) >= 0 &&
                ViewsOfWindow(r.value.logs, db.apiKeys, SortBy(Where(db.otpLogs, RequestedRows(q)), LogOrder(SortOf(sortBy, sortOrder), otherRank)),
                              PageSkip(p, l) as nat)
  {
    var f := BuildLogFilter(q);
    var p := page.GetOr(DefaultPage);
    var l := limit.GetOr(DefaultPageSize);
    var skip := PageSkip(p, l);
    var sort := SortOf(sortBy, sortOrder);
    if skip < 0 {
      return Err(Response(500, "Failed to fetch logs"));
    }
    var matching := Where(db.otpLogs, (row: OtpLog) => Admits(f, row));
    WhereAgrees(db.otpLogs, (row: OtpLog) => Admits(f, row), RequestedRows(q));
    var views := PageOfViews(matching, db.apiKeys, LogOrder(sort, otherRank), skip as nat, l);
    r := Ok(LogsReply(views, |matching|, p, l, TotalPages(|matching|, l)));
  }

  /** View `i` is the view of row `skip + i` of `sorted`. */
  predicate ViewsOfWindow(v: seq<LogView>, keys: seq<ApiKey>, sorted: seq<OtpLog>, skip: nat) {
    forall i :: 0 <= i < |v| ==> skip + i < |sorted| && v[i] == View(keys, sorted[skip + i])
  }

  /** Rows `skip` onwards, at most `limit` of them (0: no limit), of `matching` sorted by `key`, as listed rows. */
  function PageOfViews(matching: seq<OtpLog>, keys: seq<ApiKey>, key: OtpLog -> int, skip: nat, limit: nat): (v: seq<LogView>)
    ensures |v| == if skip >= |matching| then 0
                   else if limit == 0 || skip + limit > |matching| then |matching| - skip
                   else limit
    ensures forall i :: 0 <= i < |v| ==> v[i].log in matching && v[i] == View(keys, v[i].log)
    ensures forall i, j :: 0 <= i < j < |v| ==> key(v[i].log) <= key(v[j].log)
    ensures ViewsOfWindow(v, keys, SortBy(matching, key), skip)
  {
    var rows := Page(SortBy(matching, key), skip, limit);
    SortedPage(matching, key, skip, limit);
    seq(|rows|, i requires 0 <= i < |rows| => View(keys, rows[i]))
  }

  // -------------------------------------------------------------------------------------------------
  // Profile and statistics
  // -------------------------------------------------------------------------------------------------

  /** `getMe`: the account as the dashboard shows it, with the monthly OTP allowance of its plan. */
  datatype MeReply = MeReply(id: UserId, email: string, name: string, avatar: Option<string>, plan: string,
                             usageCount: nat, usageLimit: nat, whatsappStatus: ConnStatus)

  function GetMe(userId: UserId, u: User): (r: MeReply)
    ensures r.usageLimit == MonthlyOtpLimit(u.plan)
    ensures r.id == userId && r.plan == u.plan.Name() && r.usageCount == u.usageCount
  {
    MeReply(userId, u.email, u.name, u.avatar, u.plan.Name(), u.usageCount, if u.plan == Pro then 10000 else 100,
            u.whatsappStatus)
  }

  datatype Stats = Stats(totalSent: nat, totalVerified: nat, activeKeys: nat, remainingOtps: nat, planLimit: nat)

  function SentBy(userId: UserId): OtpLog -> bool {
    (row: OtpLog) => row.userId == userId && row.status == OtpLogStatus.Delivered
  }

  function VerifiedBy(userId: UserId): OtpLog -> bool {
    (row: OtpLog) => row.userId == userId && row.status == Verified
  }

  /** `ApiKey.countDocuments({userId, isActive: true})`'s filter. */
  function ActiveKeyOf(userId: UserId): ApiKey -> bool {
    (k: ApiKey) => k.userId == userId && k.isActive
  }

  function OwnedBy(userId: UserId): OtpLog -> bool {
    (row: OtpLog) => row.userId == userId
  }

  /**
   * `getStats`: the user's delivered and verified OTP counts, active keys, and what is left of the month's
   * allowance, never below zero.
   */
  function GetStats(rows: seq<OtpLog>, keys: seq<ApiKey>, userId: UserId, u: User): (r: Stats)
    ensures r.planLimit == MonthlyOtpLimit(u.plan)
    ensures r.remainingOtps <= r.planLimit
    ensures r.remainingOtps > 0 <==> u.usageCount < r.planLimit
    ensures r.remainingOtps > 0 ==> u.usageCount + r.remainingOtps == r.planLimit
    ensures r.totalSent == |Where(rows, SentBy(userId))| && r.totalVerified == |Where(rows, VerifiedBy(userId))|
    ensures r.totalSent + r.totalVerified <= |Where(rows, OwnedBy(userId))|
    ensures r.activeKeys == |Where(keys, ActiveKeyOf(userId))| && r.activeKeys <= |keys|
  {
    var planLimit := if u.plan == Pro then 10000 else 100;
    var remaining := if planLimit - u.usageCount > 0 then planLimit - u.usageCount else 0;
    DisjointCounts(rows, SentBy(userId), VerifiedBy(userId), OwnedBy(userId));
    Stats(|Where(rows, SentBy(userId))|, |Where(rows, VerifiedBy(userId))|,
          |Where(keys, ActiveKeyOf(userId))|, remaining, planLimit)
  }

  /** A key added to the collection raises the user's active-key count exactly when it is the user's and active. */
  lemma ActiveKeysAfterAdd(keys: seq<ApiKey>, k: ApiKey, userId: UserId)
    ensures |Where(keys + [k], ActiveKeyOf(userId))| ==
      |Where(keys, ActiveKeyOf(userId))| + (if k.userId == userId && k.isActive then 1 else 0)
  {
    WhereAppend(keys, [k], ActiveKeyOf(userId));
    WhereSingle(k, ActiveKeyOf(userId));
  }

  /** Two disjoint selections within a third together count at most as many rows as it. */
  lemma {:induction false} DisjointCounts<T>(rows: seq<T>, p: T -> bool, q: T -> bool, s: T -> bool)
    requires forall x :: p(x) ==> s(x)
    requires forall x :: q(x) ==> s(x)
    requires forall x :: !(p(x) && q(x))
    ensures |Where(rows, p)| + |Where(rows, q)| <= |Where(rows, s)|
  {
    if rows != [] {
      DisjointCounts(rows[1..], p, q, s);
    }
  }

  /** No remaining allowance is exactly when the OTP service refuses with the monthly quota message. */
  lemma NoRemainingMeansQuotaRefusal(rows: seq<OtpLog>, keys: seq<ApiKey>, userId: UserId, u: User, lastReset: Day, today: Day)
    ensures GetStats(rows, keys, userId, u).remainingOtps == 0 <==>
      OtpQuotaError(u.plan, u.usageCount, u.dailyOtpCount, lastReset, today) == Some(MonthlyQuotaMessage(u.plan))
  {
    if u.usageCount < MonthlyOtpLimit(u.plan) {
      var e := OtpQuotaError(u.plan, u.usageCount, u.dailyOtpCount, lastReset, today);
      if e.Some? {
        assert e == Some(DailyLimitMessage(u.plan));
        DailyAndMonthlyMessagesDiffer(u.plan);
      }
    }
  }

  lemma DailyAndMonthlyMessagesDiffer(plan: Plan)
    ensures DailyLimitMessage(plan) != MonthlyQuotaMessage(plan)
  {
    assert DailyLimitMessage(plan)[0] == 'D';
    assert MonthlyQuotaMessage(plan)[0] == 'M';
  }

  /** The profile shows the same allowance as the statistics, and what remains is the allowance less the usage. */
  lemma ProfileAgreesWithStats(rows: seq<OtpLog>, keys: seq<ApiKey>, userId: UserId, u: User)
    ensures GetMe(userId, u).usageLimit == GetStats(rows, keys, userId, u).planLimit
    ensures GetStats(rows, keys, userId, u).remainingOtps ==
      if GetMe(userId, u).usageCount >= GetMe(userId, u).usageLimit then 0 else GetMe(userId, u).usageLimit - GetMe(userId, u).usageCount
  {
  }
}
