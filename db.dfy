/**
 * The stores the services share, as in-memory maps and sequences: the MongoDB collections
 * (users, per-session connection rows, OTP and message logs, API keys) and Redis
 * (the OTP hash store, pub/sub publications and the two job queues).
 */
module Db {
  import opened Types

  datatype User = User(
    googleId: string,
    email: string,
    name: string,
    avatar: Option<string>,
    plan: Plan,
    usageCount: nat,          // OTPs this month
    messageUsageCount: nat,   // messages this month (absent counts as 0)
    dailyOtpCount: nat,
    dailyMessageCount: nat,
    lastDailyResetAt: Option<Day>,
    whatsappStatus: ConnStatus)

  /** A WhatsAppConnection row, keyed by (userId, sessionId). */
  datatype Connection = Connection(status: ConnStatus, phone: Option<string>, name: Option<string>)

  datatype OtpLog = OtpLog(
    id: nat, userId: UserId, apiKeyId: string, phone: string,
    status: OtpLogStatus, failReason: Option<string>, createdAt: Instant)

  datatype MessageLog = MessageLog(
    id: nat, userId: UserId, apiKeyId: string, phone: string, content: string,
    status: MessageLogStatus, failReason: Option<string>, createdAt: Instant)

  /** An API key row; `key` holds the hex SHA-256 digest of the raw key, or (on older rows) the raw key itself. */
  datatype ApiKey = ApiKey(
    id: string, userId: UserId, name: string, key: string, prefix: string,
    isActive: bool, lastUsedAt: Option<Instant>)

  datatype OtpJob = OtpJob(
    userId: UserId, phone: string, otp: string, apiKeyId: string,
    sessionId: Option<SessionId>, message: Option<string>)

  datatype MessageJob = MessageJob(
    userId: UserId, phone: string, content: string, apiKeyId: string, sessionId: Option<SessionId>)

  /** The JSON payloads published on a pairing channel, by their `type` field. */
  datatype Notice = QrNotice(qr: string) | ConnectedNotice | ErrorNotice(message: string) | OtherNotice(kind: string)

  datatype Publication = Publication(channel: string, notice: Notice)

  /** A Redis OTP entry: the hash and the TTL in seconds it was stored with. */
  datatype StoredOtp = StoredOtp(hash: Digest, ttl: nat)

  class Database {
    var users: map<UserId, User>
    var connections: map<(UserId, SessionId), Connection>
    var otpLogs: seq<OtpLog>
    var messageLogs: seq<MessageLog>
    var apiKeys: seq<ApiKey>

    constructor ()
      ensures users == map[] && connections == map[]
      ensures otpLogs == [] && messageLogs == [] && apiKeys == []
    {
      users, connections := map[], map[];
      otpLogs, messageLogs, apiKeys := [], [], [];
    }
  }

  class Redis {
    var otps: map<string, StoredOtp>
    var published: seq<Publication>
    var otpJobs: seq<OtpJob>
    var messageJobs: seq<MessageJob>

    constructor ()
      ensures otps == map[] && published == [] && otpJobs == [] && messageJobs == []
    {
      otps, published, otpJobs, messageJobs := map[], [], [], [];
    }

    /** An entry's TTL has run out: Redis drops the key and nothing else. */
    method Expire(key: string)
      modifies this`otps
      ensures otps == old(otps) - {key}
    {
      otps := otps - {key};
    }
  }

  /** `WhatsAppConnection.findOneAndUpdate({userId, sessionId}, {status}, {upsert})`. */
  function SetConnectionStatus(conns: map<(UserId, SessionId), Connection>, userId: UserId, sessionId: SessionId,
                               status: ConnStatus, upsert: bool): (r: map<(UserId, SessionId), Connection>)
    ensures (userId, sessionId) in r <==> (userId, sessionId) in conns || upsert
    ensures (userId, sessionId) in r ==> r[(userId, sessionId)].status == status
    ensures (userId, sessionId) in conns ==>
      r[(userId, sessionId)] == conns[(userId, sessionId)].(status := status)
    ensures forall k :: k != (userId, sessionId) ==> (k in r <==> k in conns) && (k in r ==> r[k] == conns[k])
  {
    var k := (userId, sessionId);
    if k in conns then conns[k := conns[k].(status := status)]
    else if upsert then conns[k := Connection(status, None, None)]
    else conns
  }

  /** `User.findByIdAndUpdate(userId, {whatsappStatus})`: no effect when there is no such user. */
  function SetUserStatus(users: map<UserId, User>, userId: UserId, status: ConnStatus): (r: map<UserId, User>)
    ensures r.Keys == users.Keys
    ensures userId in users ==> r[userId] == users[userId].(whatsappStatus := status)
    ensures forall u :: u in users && u != userId ==> r[u] == users[u]
  {
    if userId in users then users[userId := users[userId].(whatsappStatus := status)] else users
  }

  /** The legacy mirror: only the default session writes the status onto the user record. */
  function MirrorStatus(users: map<UserId, User>, userId: UserId, sessionId: SessionId, status: ConnStatus): (r: map<UserId, User>)
    ensures sessionId != DefaultSession ==> r == users
    ensures sessionId == DefaultSession ==> r == SetUserStatus(users, userId, status)
  {
    if sessionId == DefaultSession then SetUserStatus(users, userId, status) else users
  }

  /**
   * The row `findOneAndUpdate(filter, ..., {sort: {createdAt: -1}})` picks: a row satisfying `p` whose
   * `createdAt` is the largest; among rows with equal `createdAt` the one inserted last.
   */
  function Newest<T>(rows: seq<T>, p: T -> bool, createdAt: T -> Instant): (r: Option<nat>)
    ensures r.None? <==> forall j :: 0 <= j < |rows| ==> !p(rows[j])
    ensures r.Some? ==> r.value < |rows| && p(rows[r.value])
    ensures r.Some? ==> forall j :: 0 <= j < |rows| && p(rows[j]) ==> createdAt(rows[j]) <= createdAt(rows[r.value])
    ensures r.Some? ==> forall j :: r.value < j < |rows| && p(rows[j]) ==> createdAt(rows[j]) < createdAt(rows[r.value])
  {
    if rows == [] then None
    else
      var last := |rows| - 1;
      var earlier := Newest(rows[..last], p, createdAt);
      if p(rows[last]) && (earlier.None? || createdAt(rows[earlier.value]) <= createdAt(rows[last])) then Some(last)
      else earlier
  }

  /** Applies `f` to the newest row satisfying `p`, if there is one. */
  function UpdateNewest<T>(rows: seq<T>, p: T -> bool, createdAt: T -> Instant, f: T -> T): (r: seq<T>)
    ensures |r| == |rows|
    ensures Newest(rows, p, createdAt).None? ==> r == rows
    ensures Newest(rows, p, createdAt).Some? ==>
      r == rows[Newest(rows, p, createdAt).value := f(rows[Newest(rows, p, createdAt).value])]
  {
    match Newest(rows, p, createdAt)
    case None => rows
    case Some(i) => rows[i := f(rows[i])]
  }

  /** `findOne` in natural order: the first row satisfying `p`. */
  function FirstMatch<T>(rows: seq<T>, p: T -> bool): (r: Option<nat>)
    ensures r.Some? ==> r.value < |rows| && p(rows[r.value]) && forall j :: 0 <= j < r.value ==> !p(rows[j])
    ensures r.None? <==> forall j :: 0 <= j < |rows| ==> !p(rows[j])
  {
    if rows == [] then None
    else if p(rows[0]) then Some(0)
    else
      var rest := FirstMatch(rows[1..], p);
      if rest.Some? then Some(rest.value + 1) else None
  }

  /** `find(filter)` in natural order: the rows satisfying `p`. */
  function Where<T>(rows: seq<T>, p: T -> bool): (r: seq<T>)
    ensures |r| <= |rows|
    ensures forall i :: 0 <= i < |r| ==> p(r[i]) && r[i] in rows
    ensures forall i :: 0 <= i < |rows| && p(rows[i]) ==> rows[i] in r
  {
    if rows == [] then []
    else
      var rest := Where(rows[1..], p);
      assert forall i :: 1 <= i < |rows| ==> rows[i] == rows[1..][i - 1];
      if p(rows[0]) then [rows[0]] + rest else rest
  }

  /** Filtering a concatenation filters each part in turn: the kept rows stay in order, each as often as it occurs. */
  lemma {:induction false} WhereAppend<T>(a: seq<T>, b: seq<T>, p: T -> bool)
    ensures Where(a + b, p) == Where(a, p) + Where(b, p)
  {
    if a == [] {
      assert a + b == b;
    } else {
      assert (a + b)[0] == a[0];
      assert (a + b)[1..] == a[1..] + b;
      WhereAppend(a[1..], b, p);
    }
  }

  /** A single row is kept exactly when it matches. */
  lemma WhereSingle<T>(x: T, p: T -> bool)
    ensures Where([x], p) == if p(x) then [x] else []
  {
    assert [x][1..] == [];
  }

  /** When every row matches, the filter keeps them all. */
  lemma {:induction false} WhereAll<T>(rows: seq<T>, p: T -> bool)
    requires forall i :: 0 <= i < |rows| ==> p(rows[i])
    ensures Where(rows, p) == rows
  {
    if rows != [] {
      assert forall i :: 0 <= i < |rows[1..]| ==> rows[1..][i] == rows[i + 1];
      WhereAll(rows[1..], p);
    }
  }

  function OtpCreatedAt(row: OtpLog): Instant { row.createdAt }
  function MessageCreatedAt(row: MessageLog): Instant { row.createdAt }

  /** The OTP-log filter `{userId, phone, status: {$in: statuses}}`. */
  function OtpRowFilter(userId: UserId, phone: string, statuses: set<OtpLogStatus>): OtpLog -> bool {
    (row: OtpLog) => row.userId == userId && row.phone == phone && row.status in statuses
  }

  /** The message-log filter `{userId, phone, status: 'pending', content}`. */
  function PendingMessageFilter(userId: UserId, phone: string, content: string): MessageLog -> bool {
    (row: MessageLog) => row.userId == userId && row.phone == phone && row.status == MessageLogStatus.Pending && row.content == content
  }

  /** The outcome update `{status, failReason}` of the delivery workers. */
  function SetOtpOutcome(status: OtpLogStatus, reason: Option<string>): OtpLog -> OtpLog {
    (row: OtpLog) => row.(status := status, failReason := reason)
  }

  function SetMessageOutcome(status: MessageLogStatus, reason: Option<string>): MessageLog -> MessageLog {
    (row: MessageLog) => row.(status := status, failReason := reason)
  }

  /** Exactly the rows other than index `i` are unchanged. */
  ghost predicate OnlyRowChanged<T>(before: seq<T>, after: seq<T>, i: nat) {
    |before| == |after| && forall j :: 0 <= j < |before| && j != i ==> after[j] == before[j]
  }

  lemma UpdateNewestTouchesOneRow<T>(rows: seq<T>, p: T -> bool, createdAt: T -> Instant, f: T -> T)
    ensures var r := UpdateNewest(rows, p, createdAt, f);
      match Newest(rows, p, createdAt)
      case None => r == rows
      case Some(i) => OnlyRowChanged(rows, r, i) && r[i] == f(rows[i])
  {
  }

  // -------------------------------------------------------------------------------------------------
  // Query helpers: sort, skip and limit
  // -------------------------------------------------------------------------------------------------

  predicate SortedBy<T>(s: seq<T>, key: T -> int) {
    forall i, j :: 0 <= i < j < |s| ==> key(s[i]) <= key(s[j])
  }

  /** One row put in front of the first row with a greater `key`. */
  function Insert<T>(x: T, s: seq<T>, key: T -> int): (r: seq<T>)
    ensures |r| == |s| + 1 && (r[0] == x || (s != [] && r[0] == s[0]))
  {
    if s == [] || key(x) <= key(s[0]) then [x] + s
    else [s[0]] + Insert(x, s[1..], key)
  }

  /** Inserting adds the row and nothing else. */
  lemma {:induction false} InsertAdds<T>(x: T, s: seq<T>, key: T -> int)
    ensures multiset(Insert(x, s, key)) == multiset(s) + multiset{x}
  {
    if s != [] && key(s[0]) < key(x) {
      InsertAdds(x, s[1..], key);
      assert s == [s[0]] + s[1..];
    }
  }

  /** Inserting into a sorted sequence keeps it sorted. */
  lemma {:induction false} InsertSorted<T>(x: T, s: seq<T>, key: T -> int)
    requires SortedBy(s, key)
    ensures SortedBy(Insert(x, s, key), key)
  {
    if s == [] || key(x) <= key(s[0]) {
      ConsSorted(x, s, key);
    } else {
      var rest := Insert(x, s[1..], key);
      InsertSorted(x, s[1..], key);
      assert rest[0] == x || rest[0] == s[1];
      ConsSorted(s[0], rest, key);
    }
  }

  /** A row no greater than the head of a sorted sequence can go in front of it. */
  lemma ConsSorted<T>(h: T, rest: seq<T>, key: T -> int)
    requires SortedBy(rest, key) && (rest != [] ==> key(h) <= key(rest[0]))
    ensures SortedBy([h] + rest, key)
  {
    var r := [h] + rest;
    forall i, j | 0 <= i < j < |r| ensures key(r[i]) <= key(r[j]) {
      if i == 0 && j > 1 {
        assert key(rest[0]) <= key(rest[j - 1]);
      }
    }
  }

  /** `sort({key: 1})`: the rows in ascending order of `key`, the same rows as before. */
  function SortBy<T(==)>(s: seq<T>, key: T -> int): (r: seq<T>)
    ensures SortedBy(r, key)
    ensures multiset(r) == multiset(s)
    ensures |r| == |s|
  {
    if s == [] then []
    else
      assert s == [s[0]] + s[1..];
      var r := Insert(s[0], SortBy(s[1..], key), key);
      InsertAdds(s[0], SortBy(s[1..], key), key);
      InsertSorted(s[0], SortBy(s[1..], key), key);
      r
  }

  /** A page of the sorted rows holds rows of the input, still in ascending order of `key`. */
  lemma SortedPage<T>(s: seq<T>, key: T -> int, skip: nat, limit: nat)
    ensures var r := Page(SortBy(s, key), skip, limit);
      (forall i :: 0 <= i < |r| ==> r[i] in s) && SortedBy(r, key)
  {
    var sorted := SortBy(s, key);
    var r := Page(sorted, skip, limit);
    forall i | 0 <= i < |r| ensures r[i] in s {
      assert r[i] == sorted[skip + i];
      assert r[i] in multiset(sorted);
    }
    forall i, j | 0 <= i < j < |r| ensures key(r[i]) <= key(r[j]) {
      assert r[i] == sorted[skip + i] && r[j] == sorted[skip + j];
    }
  }

  /** The offset of a 1-based page, `(page - 1) * limit`; negative for page 0. */
  function PageSkip(page: nat, limit: nat): int {
    (page - 1) * limit
  }

  /** `skip(skip).limit(limit)`, where a limit of 0 means no limit. */
  function Page<T>(rows: seq<T>, skip: nat, limit: nat): (r: seq<T>)
    ensures limit > 0 ==> |r| <= limit
    ensures forall i :: 0 <= i < |r| ==> skip + i < |rows| && r[i] == rows[skip + i]
    ensures skip < |rows| && (limit == 0 || skip + limit > |rows|) ==> |r| == |rows| - skip
    ensures skip + limit <= |rows| && limit > 0 ==> |r| == limit
    ensures skip >= |rows| ==> r == []
  {
    if skip >= |rows| then []
    else if limit == 0 || skip + limit > |rows| then rows[skip..]
    else rows[skip..skip + limit]
  }

  /** `Math.ceil(total / limit)`; absent for a zero limit, where the division gives no number. */
  function TotalPages(total: nat, limit: nat): (r: Option<nat>)
    ensures r.None? <==> limit == 0
    ensures r.Some? ==> r.value * limit >= total
    ensures r.Some? && r.value > 0 ==> (r.value - 1) * limit < total
    ensures r.Some? ==> (r.value == 0 <==> total == 0)
  {
    if limit == 0 then None
    else
      var p := (total + limit - 1) / limit;
      assert p * limit <= total + limit - 1 < (p + 1) * limit;
      Some(p)
  }

  /** Row `i` of the result appears on page `i / limit + 1`, which is within the page count, at position `i % limit`. */
  lemma RowOnItsPage<T>(rows: seq<T>, limit: nat, i: nat)
    requires limit > 0 && i < |rows|
    ensures var p := i / limit + 1;
      p <= TotalPages(|rows|, limit).value && PageSkip(p, limit) >= 0 &&
      i % limit < |Page(rows, PageSkip(p, limit) as nat, limit)| &&
      Page(rows, PageSkip(p, limit) as nat, limit)[i % limit] == rows[i]
  {
    var q := i / limit;
    var n := TotalPages(|rows|, limit).value;
    assert i == q * limit + i % limit;
    assert q * limit < n * limit;
    MulCancel(q, n, limit);
    assert PageSkip(q + 1, limit) == q * limit;
  }

  lemma MulCancel(a: nat, b: nat, c: nat)
    requires c > 0 && a * c < b * c
    ensures a < b
  {
  }
}
