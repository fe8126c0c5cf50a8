/**
 * The session supervisor: one transport socket per (user, session), its status, its reconnection
 * schedule and the pairing notices it publishes. Event handlers and timers run one at a time, each to
 * completion; the transport is represented only by the events it delivers.
 */
module WhatsAppClients {
  import opened Types
  import opened Text
  import opened Db
  import opened SessionStore

  const QR_CHANNEL_PREFIX: string := "whatsapp:qr:"
  /** The transport's disconnect reasons `loggedOut` and `forbidden`. */
  const LoggedOut: int := 401
  const Forbidden: int := 403
  const MaxStrikes: nat := 3
  const BaseDelayMs: nat := 5000
  const MaxDelayMs: nat := 30000
  const WatchdogMs: nat := 120000
  const SendAttempts: nat := 3
  const GraceMs: nat := 3000
  const RetryPauseMs: nat := 2000

  type SocketId = nat
  type TimerId = nat

  /** The in-memory session status. */
  datatype Phase = Connecting | Open | Closed

  /** A socket remembers the session it was created for; its listeners act on that session's key. */
  datatype Socket = Socket(userId: UserId, sessionId: SessionId, auth: MongoAuthState)

  datatype Timer = ReconnectTimer(userId: UserId, sessionId: SessionId, delay: nat) | WatchdogTimer(userId: UserId, sessionId: SessionId)

  /** `sock.user` once the transport is logged in: the account's JID and display name. */
  datatype TransportUser = TransportUser(id: string, name: Option<string>)

  datatype ConnectionEvent = EventOpen | EventConnecting | EventClose

  /** One `connection.update` event: the new connection state, the close status code, a pairing code. */
  datatype ConnectionUpdate = ConnectionUpdate(connection: Option<ConnectionEvent>, statusCode: Option<int>, qr: Option<string>)

  datatype StartOutcome = AlreadyActive | SetupFailed | Started(sock: SocketId, watchdog: TimerId)

  function CompositeKey(userId: UserId, sessionId: SessionId): (key: string)
    ensures |key| == |userId| + 1 + |sessionId|
  {
    userId + ":" + sessionId
  }

  /** User ids never contain ':', so no two sessions share a key. */
  lemma CompositeKeyInjective(u1: UserId, s1: SessionId, u2: UserId, s2: SessionId)
    requires ':' !in u1 && ':' !in u2
    ensures CompositeKey(u1, s1) == CompositeKey(u2, s2) ==> u1 == u2 && s1 == s2
  {
    var k1, k2 := CompositeKey(u1, s1), CompositeKey(u2, s2);
    if k1 == k2 {
      SplitAfterSeparator(u1, ':', s1);
      SplitAfterSeparator(u2, ':', s2);
      assert u1 == Split(k1, ':')[0] == u2;
      assert s1 == k1[|u1| + 1..];
      assert s2 == k2[|u2| + 1..];
    }
  }

  /** The publish/subscribe channel of a session's pairing notices. */
  function Channel(userId: UserId, sessionId: SessionId): (c: string)
    ensures QR_CHANNEL_PREFIX <= c
    ensures |c| == |QR_CHANNEL_PREFIX| + |userId| + 1 + |sessionId|
    ensures c[|QR_CHANNEL_PREFIX|..|QR_CHANNEL_PREFIX| + |userId|] == userId
    ensures c[|c| - |sessionId|..] == sessionId
  {
    QR_CHANNEL_PREFIX + CompositeKey(userId, sessionId)
  }

  function Pow2(n: nat): (r: nat)
    ensures r >= 1
  {
    if n == 0 then 1 else 2 * Pow2(n - 1)
  }

  lemma {:induction false} Pow2Monotone(a: nat, b: nat)
    requires a <= b
    ensures Pow2(a) <= Pow2(b)
  {
    if a < b {
      Pow2Monotone(a, b - 1);
    }
  }

  function Min(a: nat, b: nat): nat {
    if a <= b then a else b
  }

  /** Reconnection delay after the n-th consecutive close: 5 s doubling each time, capped at 30 s. */
  function Backoff(attempt: nat): (delay: nat)
    requires attempt >= 1
    ensures delay <= MaxDelayMs
    ensures delay == MaxDelayMs || delay == BaseDelayMs * Pow2(attempt - 1)
    ensures BaseDelayMs * Pow2(attempt - 1) <= MaxDelayMs ==> delay == BaseDelayMs * Pow2(attempt - 1)
  {
    Min(BaseDelayMs * Pow2(attempt - 1), MaxDelayMs)
  }

  lemma BackoffSchedule()
    ensures Backoff(1) == 5000 && Backoff(2) == 10000 && Backoff(3) == 20000
    ensures Backoff(4) == 30000 && Backoff(5) == 30000
  {
    assert Pow2(4) == 16;
  }

  lemma BackoffMonotone(a: nat, b: nat)
    requires 1 <= a <= b
    ensures Backoff(a) <= Backoff(b)
  {
    Pow2Monotone(a - 1, b - 1);
  }

  /** What the close handler does. */
  datatype CloseDecision = Reconnect(delay: nat) | Teardown(reason: string)

  /** The close-handler policy for the `attempt`-th consecutive close with the given status code. */
  function Decide(statusCode: Option<int>, attempt: nat): (d: CloseDecision)
    requires attempt >= 1
    ensures d.Reconnect? <==> statusCode != Some(LoggedOut) && statusCode != Some(Forbidden) && attempt < MaxStrikes
    ensures d.Reconnect? ==> d.delay == BaseDelayMs * Pow2(attempt - 1) && (d.delay == 5000 || d.delay == 10000)
    ensures d.Teardown? && attempt >= MaxStrikes ==> d.reason == "Max reconnection attempts reached"
    ensures d.Teardown? && attempt < MaxStrikes && statusCode == Some(LoggedOut) ==> d.reason == "Session unauthorized"
    ensures d.Teardown? && attempt < MaxStrikes && statusCode != Some(LoggedOut) ==> d.reason == "Connection failed permanently"
  {
    var isUnauthorized := statusCode == Some(LoggedOut) || statusCode == Some(401);
    var maxStrikesReached := attempt >= MaxStrikes;
    var shouldReconnect := !isUnauthorized && !maxStrikesReached && statusCode != Some(Forbidden);
    if shouldReconnect then Reconnect(Backoff(attempt))
    else Teardown(if maxStrikesReached then "Max reconnection attempts reached"
                  else if isUnauthorized then "Session unauthorized"
                  else "Connection failed permanently")
  }

  /** The stored phone: the user part of the account JID, before the device suffix. */
  function PhoneOf(user: Option<TransportUser>): string {
    match user
    case None => ""
    case Some(u) => Split(u.id, ':')[0]
  }

  function NameOf(user: Option<TransportUser>): string {
    match user
    case None => ""
    case Some(u) => if u.name.Some? then u.name.value else ""
  }

  /** For a device JID `<phone>:<device>@...` the stored phone is `<phone>`. */
  lemma PhoneOfDeviceJid(phone: string, device: string, name: Option<string>)
    requires ':' !in phone
    ensures PhoneOf(Some(TransportUser(phone + ":" + device, name))) == phone
  {
    SplitAfterSeparator(phone, ':', device);
  }

  function StatusOf(p: Phase): (r: ConnStatus)
    ensures r == Connected <==> p == Open
    ensures r == ConnStatus.Connecting <==> p == Phase.Connecting
    ensures r == Disconnected <==> p == Closed
  {
    match p
    case Connecting => ConnStatus.Connecting
    case Open => Connected
    case Closed => Disconnected
  }

  // ---- sending, as a function of what each attempt observes ----

  /** What an attempt reads from the supervisor's maps: the socket and the status for the key. */
  datatype View = View(sock: Option<SocketId>, status: Option<Phase>)

  datatype SendError = NoSession(key: string) | NotReady(status: Option<Phase>) | TransportError(sock: SocketId)

  datatype SendStep = GraceWait | RetryPause | Transmit(sock: SocketId, jid: string, text: string)

  datatype Attempt = Attempt(error: Option<SendError>, steps: seq<SendStep>)

  datatype SendResult = Sent | SendFailed(error: SendError)

  datatype SendRun = SendRun(result: SendResult, trace: seq<SendStep>, attempts: nat)

  /**
   * What the later reads observe: `laterViews[i]` at the start of attempt i + 2, `graceViews[i]` after the
   * grace wait of attempt i + 1, and `transportOk[i]` whether the transport accepts attempt i + 1's message.
   */
  datatype SendEnv = SendEnv(laterViews: seq<View>, graceViews: seq<View>, transportOk: seq<bool>)

  predicate EnvCovers(env: SendEnv) {
    |env.laterViews| >= SendAttempts - 1 && |env.graceViews| >= SendAttempts && |env.transportOk| >= SendAttempts
  }

  /** The recipient address: the phone's digits at the user domain. */
  function Jid(phone: string): (jid: string)
    ensures |jid| >= 15 && jid[|jid| - 15..] == "@s.whatsapp.net"
    ensures AllDigits(jid[..|jid| - 15]) && |jid| - 15 <= |phone|
    ensures AllDigits(phone) ==> jid == phone + "@s.whatsapp.net"
  {
    var digits := DigitsOnly(phone);
    assert AllDigits(phone) ==> digits == phone by {
      if AllDigits(phone) {
        DigitsOnlyOfDigits(phone);
      }
    }
    digits + "@s.whatsapp.net"
  }

  function Count(t: seq<SendStep>, p: SendStep -> bool): nat {
    if t == [] then 0 else (if p(t[0]) then 1 else 0) + Count(t[1..], p)
  }

  lemma {:induction false} CountAppend(a: seq<SendStep>, b: seq<SendStep>, p: SendStep -> bool)
    ensures Count(a + b, p) == Count(a, p) + Count(b, p)
  {
    if a != [] {
      assert (a + b)[1..] == a[1..] + b;
      CountAppend(a[1..], b, p);
    } else {
      assert a + b == b;
    }
  }

  function IsPause(s: SendStep): bool { s == RetryPause }
  function IsGrace(s: SendStep): bool { s == GraceWait }
  function IsTransmit(s: SendStep): bool { s.Transmit? }

  /** The socket and status an attempt acts on: re-read after the grace wait when the session was connecting. */
  function Effective(v: View, afterGrace: View): View {
    if v.status == Some(Phase.Connecting) then afterGrace else v
  }

  /** One attempt of `sendMessage`. */
  function TryOnce(key: string, v: View, afterGrace: View, ok: bool, jid: string, text: string): (a: Attempt)
    ensures v.sock.None? ==> a == Attempt(Some(NoSession(key)), [])
    ensures (GraceWait in a.steps) <==> v.sock.Some? && v.status == Some(Phase.Connecting)
    ensures Count(a.steps, IsPause) == 0 && Count(a.steps, IsGrace) <= 1 && Count(a.steps, IsTransmit) <= 1
    ensures Count(a.steps, IsTransmit) == 1 <==>
      v.sock.Some? && Effective(v, afterGrace).sock.Some? && Effective(v, afterGrace).status == Some(Phase.Open)
    ensures a.error.None? <==> Count(a.steps, IsTransmit) == 1 && ok
    ensures a.error.None? ==> a.steps[|a.steps| - 1] == Transmit(Effective(v, afterGrace).sock.value, jid, text)
  {
    if v.sock.None? then Attempt(Some(NoSession(key)), [])
    else
      var waited := if v.status == Some(Phase.Connecting) then [GraceWait] else [];
      assert Count(waited, IsPause) == 0 && Count(waited, IsGrace) <= 1 && Count(waited, IsTransmit) == 0 by {
        CountSingle(GraceWait, IsPause);
        CountSingle(GraceWait, IsGrace);
        CountSingle(GraceWait, IsTransmit);
      }
      var w := Effective(v, afterGrace);
      if w.sock.None? || w.status != Some(Phase.Open) then Attempt(Some(NotReady(w.status)), waited)
      else
        var t := Transmit(w.sock.value, jid, text);
        var steps := waited + [t];
        assert Count(steps, IsPause) == 0 && Count(steps, IsGrace) <= 1 && Count(steps, IsTransmit) == 1 by {
          CountSingle(t, IsPause);
          CountSingle(t, IsGrace);
          CountSingle(t, IsTransmit);
          CountAppend(waited, [t], IsPause);
          CountAppend(waited, [t], IsGrace);
          CountAppend(waited, [t], IsTransmit);
        }
        assert (GraceWait in steps) <==> GraceWait in waited;
        if ok then Attempt(None, steps) else Attempt(Some(TransportError(w.sock.value)), steps)
  }

  lemma CountSingle(s: SendStep, p: SendStep -> bool)
    ensures Count([s], p) == if p(s) then 1 else 0
  {
    assert [s][1..] == [];
  }

  /** Attempts i+1 .. 3 of `sendMessage`, attempt i+1 starting from view `v`. */
  function SendFrom(i: nat, v: View, env: SendEnv, key: string, jid: string, text: string): (run: SendRun)
    requires i < SendAttempts && EnvCovers(env)
    decreases SendAttempts - i
    ensures 1 <= run.attempts <= SendAttempts - i
    ensures run.result.SendFailed? ==> run.attempts == SendAttempts - i
  {
    var a := TryOnce(key, v, env.graceViews[i], env.transportOk[i], jid, text);
    if a.error.None? then SendRun(Sent, a.steps, 1)
    else if i == SendAttempts - 1 then SendRun(SendFailed(a.error.value), a.steps, 1)
    else
      var rest := SendFrom(i + 1, env.laterViews[i], env, key, jid, text);
      SendRun(rest.result, a.steps + [RetryPause] + rest.trace, rest.attempts + 1)
  }

  /** Each attempt but the last is followed by one pause; each waits for grace and transmits at most once; a success ends with its transmission. */
  lemma {:induction false} SendFromCounts(i: nat, v: View, env: SendEnv, key: string, jid: string, text: string)
    requires i < SendAttempts && EnvCovers(env)
    decreases SendAttempts - i
    ensures var run := SendFrom(i, v, env, key, jid, text);
      Count(run.trace, IsPause) == run.attempts - 1 &&
      Count(run.trace, IsGrace) <= run.attempts && Count(run.trace, IsTransmit) <= run.attempts &&
      (run.result == Sent ==> run.trace != [] && run.trace[|run.trace| - 1].Transmit?)
  {
    var a := TryOnce(key, v, env.graceViews[i], env.transportOk[i], jid, text);
    if a.error.Some? && i < SendAttempts - 1 {
      SendFromCounts(i + 1, env.laterViews[i], env, key, jid, text);
      var rest := SendFrom(i + 1, env.laterViews[i], env, key, jid, text);
      var trace := a.steps + [RetryPause] + rest.trace;
      assert SendFrom(i, v, env, key, jid, text) == SendRun(rest.result, trace, rest.attempts + 1);
      CountAcrossPause(a.steps, rest.trace, IsPause);
      CountAcrossPause(a.steps, rest.trace, IsGrace);
      CountAcrossPause(a.steps, rest.trace, IsTransmit);
      if rest.result == Sent {
        assert trace[|trace| - 1] == rest.trace[|rest.trace| - 1];
      }
    }
  }

  /** Counting over an attempt, the pause after it and the rest of the run. */
  lemma CountAcrossPause(steps: seq<SendStep>, rest: seq<SendStep>, p: SendStep -> bool)
    ensures Count(steps + [RetryPause] + rest, p) == Count(steps, p) + (if p(RetryPause) then 1 else 0) + Count(rest, p)
  {
    CountAppend(steps + [RetryPause], rest, p);
    CountAppend(steps, [RetryPause], p);
    assert [RetryPause][1..] == [];
  }

  lemma AppendAssoc(a: seq<SendStep>, b: seq<SendStep>, c: seq<SendStep>, d: seq<SendStep>)
    ensures a + b + c + d == a + (b + c + d)
  {
  }

  /** The view attempt i + 1 starts from. */
  function ViewAt(first: View, env: SendEnv, i: nat): View
    requires EnvCovers(env) && i < SendAttempts
  {
    if i == 0 then first else env.laterViews[i - 1]
  }

  /** A run of the remaining attempts, after `done` attempts that left `prefix` behind. */
  function Shifted(prefix: seq<SendStep>, done: nat, rest: SendRun): SendRun {
    SendRun(rest.result, prefix + rest.trace, rest.attempts + done)
  }

  /** `sendMessage` as a whole, from the first attempt's view. */
  function SendSpec(first: View, env: SendEnv, key: string, jid: string, text: string): (run: SendRun)
    requires EnvCovers(env)
  {
    SendFrom(0, first, env, key, jid, text)
  }

  /** Time spent waiting: 3 s per grace wait, 2 s per pause between attempts. */
  function WaitedMs(trace: seq<SendStep>): nat {
    GraceMs * Count(trace, IsGrace) + RetryPauseMs * Count(trace, IsPause)
  }

  /** A send makes at most three attempts and waits at most 13 s in total. */
  lemma SendIsBounded(first: View, env: SendEnv, key: string, jid: string, text: string)
    requires EnvCovers(env)
    ensures var run := SendSpec(first, env, key, jid, text);
      1 <= run.attempts <= SendAttempts && WaitedMs(run.trace) <= 13000 &&
      Count(run.trace, IsTransmit) <= SendAttempts
  {
    SendFromCounts(0, first, env, key, jid, text);
  }

  /** An open session whose transport accepts the message is sent on the first try, with no waiting. */
  lemma SendOpenFirstTry(sock: SocketId, env: SendEnv, key: string, jid: string, text: string)
    requires EnvCovers(env) && env.transportOk[0]
    ensures SendSpec(View(Some(sock), Some(Open)), env, key, jid, text) == SendRun(Sent, [Transmit(sock, jid, text)], 1)
  {
    assert [] + [Transmit(sock, jid, text)] == [Transmit(sock, jid, text)];
  }

  /** With no socket at any attempt, the send still waits twice and fails with the no-session error. */
  lemma SendWithoutSession(env: SendEnv, key: string, jid: string, text: string)
    requires EnvCovers(env) && env.laterViews[0].sock.None? && env.laterViews[1].sock.None?
    ensures SendSpec(View(None, None), env, key, jid, text) ==
      SendRun(SendFailed(NoSession(key)), [RetryPause, RetryPause], SendAttempts)
  {
    var r2 := SendFrom(2, env.laterViews[1], env, key, jid, text);
    assert r2 == SendRun(SendFailed(NoSession(key)), [], 1);
    var r1 := SendFrom(1, env.laterViews[0], env, key, jid, text);
    assert r1.trace == [] + [RetryPause] + [];
  }

  /** The failure reported is the error of the third attempt. */
  lemma SendFailureIsLastAttempt(first: View, env: SendEnv, key: string, jid: string, text: string)
    requires EnvCovers(env)
    requires SendSpec(first, env, key, jid, text).result.SendFailed?
    ensures var last := TryOnce(key, env.laterViews[1], env.graceViews[2], env.transportOk[2], jid, text);
      last.error.Some? && SendSpec(first, env, key, jid, text).result == SendFailed(last.error.value)
  {
  }

  // ---- the supervisor ----

  class ClientManager {
    var clients: map<string, SocketId>
    var reconnectTimers: map<string, TimerId>
    var sessionStatus: map<string, Phase>
    var reconnectAttempts: map<string, nat>
    /** Every socket created so far, live or replaced; a replaced socket can still deliver events. */
    var sockets: map<SocketId, Socket>
    /** The timers that have been set and have neither fired nor been cleared. */
    var timers: map<TimerId, Timer>
    /** Source of fresh socket and timer handles. */
    var nextId: nat
    const table: SessionTable
    const db: Database
    const redis: Redis

    ghost predicate Valid()
      reads this
    {
      (forall k :: k in reconnectAttempts ==> 1 <= reconnectAttempts[k] < MaxStrikes) &&
      ClientsMatchSockets(clients, sockets) &&
      (forall k :: k in clients ==> k in sessionStatus && sessionStatus[k] != Closed) &&
      (forall id :: id in sockets ==> id < nextId) &&
      (forall id :: id in timers ==> id < nextId) &&
      (forall id :: id in timers && timers[id].ReconnectTimer? ==> timers[id].delay == 5000 || timers[id].delay == 10000)
    }

    /** The strike number of the close being handled. */
    static function NextAttempt(attempts: map<string, nat>, key: string): (n: nat)
      ensures n >= 1
      ensures key !in attempts ==> n == 1
      ensures key in attempts ==> n > attempts[key]
    {
      (if key in attempts then attempts[key] else 0) + 1
    }

    /** Every key's socket is a known socket created for that key. */
    static predicate ClientsMatchSockets(clients: map<string, SocketId>, sockets: map<SocketId, Socket>) {
      forall k :: k in clients ==> clients[k] in sockets && SocketKey(sockets[clients[k]]) == k
    }

    static function SocketKey(s: Socket): string {
      CompositeKey(s.userId, s.sessionId)
    }

    constructor (table: SessionTable, db: Database, redis: Redis)
      ensures Valid()
      ensures this.table == table && this.db == db && this.redis == redis
      ensures clients == map[] && reconnectTimers == map[] && sessionStatus == map[] && reconnectAttempts == map[]
      ensures sockets == map[] && timers == map[]
    {
      this.table := table;
      this.db := db;
      this.redis := redis;
      clients, reconnectTimers, sessionStatus, reconnectAttempts := map[], map[], map[], map[];
      sockets, timers, nextId := map[], map[], 0;
    }

    /** `getStatus`: the in-memory status in the vocabulary of the stored connection, none if never started. */
    function GetStatus(userId: UserId, sessionId: SessionId): (r: Option<ConnStatus>)
      reads this
      ensures r.None? <==> CompositeKey(userId, sessionId) !in sessionStatus
      ensures r == Some(Connected) <==> CompositeKey(userId, sessionId) in sessionStatus && sessionStatus[CompositeKey(userId, sessionId)] == Open
      ensures r == Some(ConnStatus.Connecting) <==>
        CompositeKey(userId, sessionId) in sessionStatus && sessionStatus[CompositeKey(userId, sessionId)] == Phase.Connecting
    {
      var key := CompositeKey(userId, sessionId);
      if key in sessionStatus then Some(StatusOf(sessionStatus[key])) else None
    }

    /** What the first attempt of a send reads. */
    function CurrentView(userId: UserId, sessionId: SessionId): View
      reads this
    {
      var key := CompositeKey(userId, sessionId);
      View(if key in clients then Some(clients[key]) else None,
           if key in sessionStatus then Some(sessionStatus[key]) else None)
    }

    /**
     * `startSession`. When the key already has a socket nothing happens. Otherwise the status becomes
     * connecting in memory, in the connection record (created if missing) and, for the default session,
     * on the user; then, unless setting up the socket fails, a socket is created with the stored (or fresh)
     * credentials and a 120 s watchdog is set.
     */
    method StartSession(userId: UserId, sessionId: SessionId, freshCreds: Blob, credsReadFails: bool, setupFails: bool)
      returns (outcome: StartOutcome)
      requires Valid()
      modifies this, db`connections, db`users
      ensures Valid()
      ensures CompositeKey(userId, sessionId) in old(clients) ==>
        outcome == AlreadyActive && unchanged(this) && unchanged(db)
      ensures CompositeKey(userId, sessionId) !in old(clients) ==>
        sessionStatus == old(sessionStatus)[CompositeKey(userId, sessionId) := Phase.Connecting] &&
        reconnectTimers == old(reconnectTimers) && reconnectAttempts == old(reconnectAttempts) &&
        db.connections == SetConnectionStatus(old(db.connections), userId, sessionId, ConnStatus.Connecting, true) &&
        db.users == MirrorStatus(old(db.users), userId, sessionId, ConnStatus.Connecting)
      ensures CompositeKey(userId, sessionId) !in old(clients) && setupFails ==>
        outcome == SetupFailed && clients == old(clients) && sockets == old(sockets) &&
        timers == old(timers) && nextId == old(nextId)
      ensures CompositeKey(userId, sessionId) !in old(clients) && !setupFails ==>
        outcome == Started(old(nextId), old(nextId) + 1) && nextId == old(nextId) + 2 &&
        clients == old(clients)[CompositeKey(userId, sessionId) := old(nextId)] &&
        timers == old(timers)[old(nextId) + 1 := WatchdogTimer(userId, sessionId)]
      ensures CompositeKey(userId, sessionId) !in old(clients) && !setupFails ==>
        var sid := old(nextId);
        sid !in old(sockets) && sid in sockets && sockets == old(sockets)[sid := sockets[sid]] &&
        sockets[sid].userId == userId && sockets[sid].sessionId == sessionId &&
        fresh(sockets[sid].auth) && sockets[sid].auth.table == table &&
        sockets[sid].auth.creds == LoadedCreds(table.records, userId, sessionId, freshCreds, credsReadFails)
    {
      if CompositeKey(userId, sessionId) in clients {
        return AlreadyActive;
      }
      outcome := StartNew(userId, sessionId, freshCreds, credsReadFails, setupFails);
    }

    /** `startSession` for a key without a socket. */
    method StartNew(userId: UserId, sessionId: SessionId, freshCreds: Blob, credsReadFails: bool, setupFails: bool)
      returns (outcome: StartOutcome)
      requires Valid() && CompositeKey(userId, sessionId) !in clients
      modifies this`sessionStatus, this`sockets, this`clients, this`timers, this`nextId, db`connections, db`users
      ensures Valid()
      ensures sessionStatus == old(sessionStatus)[CompositeKey(userId, sessionId) := Phase.Connecting] &&
        reconnectTimers == old(reconnectTimers) && reconnectAttempts == old(reconnectAttempts) &&
        db.connections == SetConnectionStatus(old(db.connections), userId, sessionId, ConnStatus.Connecting, true) &&
        db.users == MirrorStatus(old(db.users), userId, sessionId, ConnStatus.Connecting)
      ensures setupFails ==>
        outcome == SetupFailed && clients == old(clients) && sockets == old(sockets) &&
        timers == old(timers) && nextId == old(nextId)
      ensures !setupFails ==>
        outcome == Started(old(nextId), old(nextId) + 1) && nextId == old(nextId) + 2 &&
        clients == old(clients)[CompositeKey(userId, sessionId) := old(nextId)] &&
        timers == old(timers)[old(nextId) + 1 := WatchdogTimer(userId, sessionId)]
      ensures !setupFails ==>
        var sid := old(nextId);
        sid !in old(sockets) && sid in sockets && sockets == old(sockets)[sid := sockets[sid]] &&
        sockets[sid].userId == userId && sockets[sid].sessionId == sessionId &&
        fresh(sockets[sid].auth) && sockets[sid].auth.table == table &&
        sockets[sid].auth.creds == LoadedCreds(table.records, userId, sessionId, freshCreds, credsReadFails)
    {
      MarkConnecting(CompositeKey(userId, sessionId));
      db.connections := SetConnectionStatus(db.connections, userId, sessionId, ConnStatus.Connecting, true);
      db.users := MirrorStatus(db.users, userId, sessionId, ConnStatus.Connecting);
      if setupFails {
        return SetupFailed;
      }
      var sid, watchdog := OpenSocket(userId, sessionId, freshCreds, credsReadFails);
      outcome := Started(sid, watchdog);
    }

    /** `useMongoDBAuthState` and `makeWASocket`: the stored (or fresh) credentials loaded into a new socket. */
    method OpenSocket(userId: UserId, sessionId: SessionId, freshCreds: Blob, credsReadFails: bool) returns (sid: SocketId, watchdog: TimerId)
      requires Valid() && CompositeKey(userId, sessionId) in sessionStatus && sessionStatus[CompositeKey(userId, sessionId)] == Phase.Connecting
      modifies this`sockets, this`clients, this`timers, this`nextId
      ensures Valid()
      ensures sid == old(nextId) && watchdog == sid + 1 && nextId == sid + 2
      ensures clients == old(clients)[CompositeKey(userId, sessionId) := sid]
      ensures timers == old(timers)[watchdog := WatchdogTimer(userId, sessionId)]
      ensures sid !in old(sockets) && sid in sockets && sockets == old(sockets)[sid := sockets[sid]] &&
        sockets[sid].userId == userId && sockets[sid].sessionId == sessionId &&
        fresh(sockets[sid].auth) && sockets[sid].auth.table == table &&
        sockets[sid].auth.creds == LoadedCreds(table.records, userId, sessionId, freshCreds, credsReadFails)
    {
      var auth := new MongoAuthState(userId, sessionId, table, freshCreds, credsReadFails);
      sid, watchdog := AddSocket(userId, sessionId, auth);
    }

    /** The in-memory status of a key that is being started. */
    method MarkConnecting(key: string)
      requires Valid()
      modifies this`sessionStatus
      ensures Valid() && sessionStatus == old(sessionStatus)[key := Phase.Connecting]
    {
      sessionStatus := sessionStatus[key := Phase.Connecting];
    }

    /** `makeWASocket` and the watchdog `setTimeout`: a fresh socket becomes the key's client. */
    method AddSocket(userId: UserId, sessionId: SessionId, auth: MongoAuthState) returns (sid: SocketId, watchdog: TimerId)
      requires Valid() && CompositeKey(userId, sessionId) in sessionStatus && sessionStatus[CompositeKey(userId, sessionId)] == Phase.Connecting
      modifies this`sockets, this`clients, this`timers, this`nextId
      ensures Valid()
      ensures sid == old(nextId) && watchdog == sid + 1 && nextId == sid + 2
      ensures sid !in old(sockets) && sockets == old(sockets)[sid := Socket(userId, sessionId, auth)]
      ensures clients == old(clients)[CompositeKey(userId, sessionId) := sid]
      ensures timers == old(timers)[watchdog := WatchdogTimer(userId, sessionId)]
    {
      sid := nextId;
      sockets := sockets[sid := Socket(userId, sessionId, auth)];
      clients := clients[CompositeKey(userId, sessionId) := sid];
      watchdog := sid + 1;
      timers := timers[watchdog := WatchdogTimer(userId, sessionId)];
      nextId := sid + 2;
    }

    /** Clears and forgets the pending reconnection timer of a key, if any. */
    method ClearReconnectTimer(key: string)
      modifies this`timers, this`reconnectTimers
      ensures reconnectTimers == old(reconnectTimers) - {key}
      ensures timers == if key in old(reconnectTimers) then old(timers) - {old(reconnectTimers)[key]} else old(timers)
    {
      if key in reconnectTimers {
        timers := timers - {reconnectTimers[key]};
      }
      reconnectTimers := reconnectTimers - {key};
    }

    /** A pairing code: published on the session's channel. */
    method OnQr(userId: UserId, sessionId: SessionId, qr: string)
      modifies redis`published
      ensures redis.published == old(redis.published) + [Publication(Channel(userId, sessionId), QrNotice(qr))]
    {
      redis.published := redis.published + [Publication(Channel(userId, sessionId), QrNotice(qr))];
    }

    /**
     * The connection opened: status open, strikes forgotten, the existing connection record marked connected
     * with the account's phone and name, the default session mirrored on the user, a connected notice
     * published and the reconnection timer cleared.
     */
    method OnOpen(userId: UserId, sessionId: SessionId, user: Option<TransportUser>)
      requires Valid()
      modifies this`sessionStatus, this`reconnectAttempts, this`timers, this`reconnectTimers, db`connections, db`users, redis`published
      ensures Valid()
      ensures var key := CompositeKey(userId, sessionId);
        sessionStatus == old(sessionStatus)[key := Open] &&
        reconnectAttempts == old(reconnectAttempts) - {key} &&
        reconnectTimers == old(reconnectTimers) - {key} &&
        timers == (if key in old(reconnectTimers) then old(timers) - {old(reconnectTimers)[key]} else old(timers)) &&
        db.connections == (if (userId, sessionId) in old(db.connections)
                           then old(db.connections)[(userId, sessionId) := Connection(Connected, Some(PhoneOf(user)), Some(NameOf(user)))]
                           else old(db.connections)) &&
        db.users == MirrorStatus(old(db.users), userId, sessionId, Connected) &&
        redis.published == old(redis.published) + [Publication(Channel(userId, sessionId), ConnectedNotice)]
    {
      var key := CompositeKey(userId, sessionId);
      MarkOpen(key);
      if (userId, sessionId) in db.connections {
        db.connections := db.connections[(userId, sessionId) := Connection(Connected, Some(PhoneOf(user)), Some(NameOf(user)))];
      }
      db.users := MirrorStatus(db.users, userId, sessionId, Connected);
      redis.published := redis.published + [Publication(Channel(userId, sessionId), ConnectedNotice)];
    }

    /** The in-memory half of an open connection: status open, strikes forgotten, reconnection timer cleared. */
    method MarkOpen(key: string)
      requires Valid()
      modifies this`sessionStatus, this`reconnectAttempts, this`timers, this`reconnectTimers
      ensures Valid()
      ensures sessionStatus == old(sessionStatus)[key := Open] && reconnectAttempts == old(reconnectAttempts) - {key}
      ensures reconnectTimers == old(reconnectTimers) - {key}
      ensures timers == if key in old(reconnectTimers) then old(timers) - {old(reconnectTimers)[key]} else old(timers)
    {
      sessionStatus := sessionStatus[key := Open];
      reconnectAttempts := reconnectAttempts - {key};
      ClearReconnectTimer(key);
    }

    /**
     * The connection closed: status closed, one more strike, the key's socket forgotten, then either a
     * reconnection timer (the default session's user shown as connecting) or a teardown that deletes the
     * stored credentials, forgets the strikes, marks the connection disconnected and publishes the reason.
     */
    method OnClose(userId: UserId, sessionId: SessionId, statusCode: Option<int>)
      requires Valid()
      modifies this`sessionStatus, this`reconnectAttempts, this`clients, this`timers, this`reconnectTimers, this`nextId,
               table, db`connections, db`users, redis`published
      ensures Valid()
      ensures sessionStatus == old(sessionStatus)[CompositeKey(userId, sessionId) := Closed]
      ensures clients == old(clients) - {CompositeKey(userId, sessionId)}
      ensures Decide(statusCode, NextAttempt(old(reconnectAttempts), CompositeKey(userId, sessionId))).Reconnect? ==>
        var key := CompositeKey(userId, sessionId);
        var n := NextAttempt(old(reconnectAttempts), key);
        reconnectAttempts == old(reconnectAttempts)[key := n] &&
        nextId == old(nextId) + 1 &&
        timers == old(timers)[old(nextId) := ReconnectTimer(userId, sessionId, Decide(statusCode, n).delay)] &&
        reconnectTimers == old(reconnectTimers)[key := old(nextId)] &&
        table.records == old(table.records) &&
        db.connections == old(db.connections) &&
        db.users == MirrorStatus(old(db.users), userId, sessionId, ConnStatus.Connecting) &&
        redis.published == old(redis.published)
      ensures Decide(statusCode, NextAttempt(old(reconnectAttempts), CompositeKey(userId, sessionId))).Teardown? ==>
        var key := CompositeKey(userId, sessionId);
        var reason := Decide(statusCode, NextAttempt(old(reconnectAttempts), key)).reason;
        reconnectAttempts == old(reconnectAttempts) - {key} &&
        nextId == old(nextId) && timers == old(timers) && reconnectTimers == old(reconnectTimers) &&
        table.records == WithoutSession(old(table.records), userId, sessionId) &&
        db.connections == SetConnectionStatus(old(db.connections), userId, sessionId, Disconnected, false) &&
        db.users == MirrorStatus(old(db.users), userId, sessionId, Disconnected) &&
        redis.published == old(redis.published) + [Publication(Channel(userId, sessionId), ErrorNotice(reason))]
    {
      var key := CompositeKey(userId, sessionId);
      MarkClosed(key);
      var currentAttempts := NextAttempt(reconnectAttempts, key);
      // The strike is recorded for a reconnection and forgotten again by a teardown.
      match Decide(statusCode, currentAttempts)
      case Reconnect(delay) =>
        reconnectAttempts := reconnectAttempts[key := currentAttempts];
        ScheduleReconnect(userId, sessionId, delay);
      case Teardown(reason) =>
        TearDown(userId, sessionId, reason);
    }

    /** The in-memory half of a close: status closed and the key's socket forgotten. */
    method MarkClosed(key: string)
      requires Valid()
      modifies this`sessionStatus, this`clients
      ensures Valid()
      ensures sessionStatus == old(sessionStatus)[key := Closed] && clients == old(clients) - {key}
    {
      sessionStatus := sessionStatus[key := Closed];
      clients := clients - {key};
    }

    /** A reconnection is due in `delay` ms; the default session's user is shown as connecting meanwhile. */
    method ScheduleReconnect(userId: UserId, sessionId: SessionId, delay: nat)
      requires Valid() && (delay == 5000 || delay == 10000)
      modifies this`timers, this`nextId, this`reconnectTimers, db`users
      ensures Valid()
      ensures nextId == old(nextId) + 1
      ensures timers == old(timers)[old(nextId) := ReconnectTimer(userId, sessionId, delay)]
      ensures reconnectTimers == old(reconnectTimers)[CompositeKey(userId, sessionId) := old(nextId)]
      ensures db.users == MirrorStatus(old(db.users), userId, sessionId, ConnStatus.Connecting)
    {
      var timer := nextId;
      timers := timers[timer := ReconnectTimer(userId, sessionId, delay)];
      nextId := nextId + 1;
      reconnectTimers := reconnectTimers[CompositeKey(userId, sessionId) := timer];
      db.users := MirrorStatus(db.users, userId, sessionId, ConnStatus.Connecting);
    }

    /** The session is given up: stored credentials deleted, strikes forgotten, disconnected, reason published. */
    method TearDown(userId: UserId, sessionId: SessionId, reason: string)
      requires Valid()
      modifies this`reconnectAttempts, table, db`connections, db`users, redis`published
      ensures Valid()
      ensures reconnectAttempts == old(reconnectAttempts) - {CompositeKey(userId, sessionId)}
      ensures table.records == WithoutSession(old(table.records), userId, sessionId)
      ensures db.connections == SetConnectionStatus(old(db.connections), userId, sessionId, Disconnected, false)
      ensures db.users == MirrorStatus(old(db.users), userId, sessionId, Disconnected)
      ensures redis.published == old(redis.published) + [Publication(Channel(userId, sessionId), ErrorNotice(reason))]
    {
      DeleteSession(table, userId, sessionId);
      reconnectAttempts := reconnectAttempts - {CompositeKey(userId, sessionId)};
      db.connections := SetConnectionStatus(db.connections, userId, sessionId, Disconnected, false);
      db.users := MirrorStatus(db.users, userId, sessionId, Disconnected);
      redis.published := redis.published + [Publication(Channel(userId, sessionId), ErrorNotice(reason))];
    }

    /**
     * The `connection.update` listener of socket `sock`: a non-empty pairing code is published first, then
     * an open or close is handled for the session the socket was created for (even if it has since been
     * replaced), exactly as `OnOpen` and `OnClose` do; other events change nothing else.
     */
    method OnConnectionUpdate(sock: SocketId, update: ConnectionUpdate, user: Option<TransportUser>)
      requires Valid() && sock in sockets
      modifies this, table, db`connections, db`users, redis`published
      ensures Valid()
      ensures sockets == old(sockets)
      ensures update.connection !in {Some(EventOpen), Some(EventClose)} ==>
        clients == old(clients) && sessionStatus == old(sessionStatus) && reconnectAttempts == old(reconnectAttempts) &&
        timers == old(timers) && reconnectTimers == old(reconnectTimers) && nextId == old(nextId) &&
        db.connections == old(db.connections) && db.users == old(db.users) && table.records == old(table.records) &&
        redis.published == old(redis.published) + QrPublications(old(sockets[sock]), update)
      ensures update.connection == Some(EventOpen) ==>
        var s := old(sockets[sock]);
        var key := SocketKey(s);
        sessionStatus == old(sessionStatus)[key := Open] &&
        reconnectAttempts == old(reconnectAttempts) - {key} &&
        reconnectTimers == old(reconnectTimers) - {key} &&
        timers == (if key in old(reconnectTimers) then old(timers) - {old(reconnectTimers)[key]} else old(timers)) &&
        clients == old(clients) && nextId == old(nextId) && table.records == old(table.records) &&
        db.connections == (if (s.userId, s.sessionId) in old(db.connections)
                           then old(db.connections)[(s.userId, s.sessionId) := Connection(Connected, Some(PhoneOf(user)), Some(NameOf(user)))]
                           else old(db.connections)) &&
        db.users == MirrorStatus(old(db.users), s.userId, s.sessionId, Connected) &&
        redis.published == old(redis.published) + QrPublications(s, update) + [Publication(Channel(s.userId, s.sessionId), ConnectedNotice)]
      ensures update.connection == Some(EventClose) ==>
        var s := old(sockets[sock]);
        var key := SocketKey(s);
        sessionStatus == old(sessionStatus)[key := Closed] && clients == old(clients) - {key}
      ensures update.connection == Some(EventClose) && Decide(update.statusCode, NextAttempt(old(reconnectAttempts), SocketKey(old(sockets[sock])))).Reconnect? ==>
        var s := old(sockets[sock]);
        var key := SocketKey(s);
        var n := NextAttempt(old(reconnectAttempts), key);
        reconnectAttempts == old(reconnectAttempts)[key := n] &&
        nextId == old(nextId) + 1 &&
        timers == old(timers)[old(nextId) := ReconnectTimer(s.userId, s.sessionId, Decide(update.statusCode, n).delay)] &&
        reconnectTimers == old(reconnectTimers)[key := old(nextId)] &&
        table.records == old(table.records) && db.connections == old(db.connections) &&
        db.users == MirrorStatus(old(db.users), s.userId, s.sessionId, ConnStatus.Connecting) &&
        redis.published == old(redis.published) + QrPublications(s, update)
      ensures update.connection == Some(EventClose) && Decide(update.statusCode, NextAttempt(old(reconnectAttempts), SocketKey(old(sockets[sock])))).Teardown? ==>
        var s := old(sockets[sock]);
        var key := SocketKey(s);
        var reason := Decide(update.statusCode, NextAttempt(old(reconnectAttempts), key)).reason;
        reconnectAttempts == old(reconnectAttempts) - {key} &&
        nextId == old(nextId) && timers == old(timers) && reconnectTimers == old(reconnectTimers) &&
        table.records == WithoutSession(old(table.records), s.userId, s.sessionId) &&
        db.connections == SetConnectionStatus(old(db.connections), s.userId, s.sessionId, Disconnected, false) &&
        db.users == MirrorStatus(old(db.users), s.userId, s.sessionId, Disconnected) &&
        redis.published == old(redis.published) + QrPublications(s, update) + [Publication(Channel(s.userId, s.sessionId), ErrorNotice(reason))]
    {
      var s := sockets[sock];
      if update.qr.Some? && update.qr.value != "" {
        OnQr(s.userId, s.sessionId, update.qr.value);
      }
      assert redis.published == old(redis.published) + QrPublications(s, update);
      if update.connection == Some(EventOpen) {
        OnOpen(s.userId, s.sessionId, user);
      }
      if update.connection == Some(EventClose) {
        OnClose(s.userId, s.sessionId, update.statusCode);
      }
    }

    /** The pairing-code notice an update publishes: one for a non-empty code, none otherwise. */
    static function QrPublications(s: Socket, update: ConnectionUpdate): (r: seq<Publication>)
      ensures |r| <= 1
      ensures r != [] <==> update.qr.Some? && update.qr.value != ""
      ensures r != [] ==> r[0] == Publication(Channel(s.userId, s.sessionId), QrNotice(update.qr.value))
    {
      if update.qr.Some? && update.qr.value != "" then [Publication(Channel(s.userId, s.sessionId), QrNotice(update.qr.value))] else []
    }

    /** The `creds.update` listener: the transport has updated the credentials in place; `saveCreds` writes them back. */
    method OnCredsUpdate(sock: SocketId, creds: Blob, writeFails: bool)
      requires sock in sockets
      modifies sockets[sock].auth`creds, sockets[sock].auth.table
      ensures sockets[sock].auth.creds == creds
      ensures var auth := sockets[sock].auth;
        auth.table.records == if writeFails then old(auth.table.records)
                              else old(auth.table.records)[auth.Key(CredsType, "default") := creds]
    {
      var auth := sockets[sock].auth;
      auth.creds := creds;
      auth.SaveCreds(writeFails);
    }

    /**
     * `stopSession`: logs the key's socket out (its errors are ignored) and forgets it, clears the reconnection
     * timer, deletes the stored credentials and marks the connection (and, for the default session, the user)
     * disconnected. The in-memory status is left to the close event the logout causes.
     */
    method StopSession(userId: UserId, sessionId: SessionId) returns (loggedOut: Option<SocketId>)
      requires Valid()
      modifies this`clients, this`timers, this`reconnectTimers, table, db`connections, db`users
      ensures Valid()
      ensures var key := CompositeKey(userId, sessionId);
        loggedOut == (if key in old(clients) then Some(old(clients)[key]) else None) &&
        clients == old(clients) - {key} &&
        reconnectTimers == old(reconnectTimers) - {key} &&
        timers == (if key in old(reconnectTimers) then old(timers) - {old(reconnectTimers)[key]} else old(timers)) &&
        table.records == WithoutSession(old(table.records), userId, sessionId) &&
        db.connections == SetConnectionStatus(old(db.connections), userId, sessionId, Disconnected, false) &&
        db.users == MirrorStatus(old(db.users), userId, sessionId, Disconnected)
    {
      var key := CompositeKey(userId, sessionId);
      loggedOut := ForgetClient(key);
      DeleteSession(table, userId, sessionId);
      db.connections := SetConnectionStatus(db.connections, userId, sessionId, Disconnected, false);
      db.users := MirrorStatus(db.users, userId, sessionId, Disconnected);
    }

    /** The in-memory half of a stop: the key's socket forgotten and its reconnection timer cleared. */
    method ForgetClient(key: string) returns (loggedOut: Option<SocketId>)
      requires Valid()
      modifies this`clients, this`timers, this`reconnectTimers
      ensures Valid()
      ensures loggedOut == (if key in old(clients) then Some(old(clients)[key]) else None)
      ensures clients == old(clients) - {key} && reconnectTimers == old(reconnectTimers) - {key}
      ensures timers == if key in old(reconnectTimers) then old(timers) - {old(reconnectTimers)[key]} else old(timers)
    {
      loggedOut := None;
      if key in clients {
        loggedOut := Some(clients[key]);
        clients := clients - {key};
      }
      ClearReconnectTimer(key);
    }

    /**
     * What `startSession` does to a session that had no client: the in-memory phase, the connection row and
     * the user mirror become connecting, strikes and reconnect entries stay; unless the socket setup fails, a
     * fresh socket for the session becomes its client and a watchdog timer is armed.
     */
    twostate predicate SessionStarted(userId: UserId, sessionId: SessionId, setupFails: bool)
      reads this, db`connections, db`users
    {
      var key := CompositeKey(userId, sessionId);
      var sid := old(nextId);
      sessionStatus == old(sessionStatus)[key := Phase.Connecting] &&
      reconnectTimers == old(reconnectTimers) && reconnectAttempts == old(reconnectAttempts) &&
      db.connections == SetConnectionStatus(old(db.connections), userId, sessionId, ConnStatus.Connecting, true) &&
      db.users == MirrorStatus(old(db.users), userId, sessionId, ConnStatus.Connecting) &&
      (setupFails ==> clients == old(clients) && timers == old(timers) && sockets == old(sockets) && nextId == sid) &&
      (!setupFails ==>
        clients == old(clients)[key := sid] && nextId == sid + 2 &&
        timers == old(timers)[sid + 1 := WatchdogTimer(userId, sessionId)] &&
        sid !in old(sockets) && sid in sockets && sockets == old(sockets)[sid := sockets[sid]] &&
        sockets[sid].userId == userId && sockets[sid].sessionId == sessionId)
    }

    /** The session's in-memory phase is `p`. */
    predicate PhaseIs(userId: UserId, sessionId: SessionId, p: Phase)
      reads this
    {
      CompositeKey(userId, sessionId) in sessionStatus && sessionStatus[CompositeKey(userId, sessionId)] == p
    }

    /**
     * A pending timer fires: a reconnection timer starts the session again; a watchdog stops the session if
     * it is still connecting and otherwise does nothing.
     */
    method FireTimer(id: TimerId, freshCreds: Blob, credsReadFails: bool, setupFails: bool)
      requires Valid() && id in timers
      modifies this, table, db`connections, db`users
      ensures Valid()
      ensures id !in timers || old(timers[id]).ReconnectTimer?
      // A reconnect timer of a session that has a client again: the entry is spent, nothing else changes.
      ensures old(timers[id]).ReconnectTimer? && CompositeKey(old(timers[id]).userId, old(timers[id]).sessionId) in old(clients) ==>
        clients == old(clients) && sessionStatus == old(sessionStatus) && timers == old(timers) - {id} &&
        reconnectTimers == old(reconnectTimers) && reconnectAttempts == old(reconnectAttempts) &&
        sockets == old(sockets) && nextId == old(nextId) &&
        table.records == old(table.records) && db.connections == old(db.connections) && db.users == old(db.users)
      // A reconnect timer of a session without a client: `startSession` runs; the stale reconnect entry stays.
      ensures old(timers[id]).ReconnectTimer? && CompositeKey(old(timers[id]).userId, old(timers[id]).sessionId) !in old(clients) ==>
        var u, s := old(timers[id]).userId, old(timers[id]).sessionId;
        sessionStatus == old(sessionStatus)[CompositeKey(u, s) := Phase.Connecting] &&
        reconnectTimers == old(reconnectTimers) && reconnectAttempts == old(reconnectAttempts) &&
        table.records == old(table.records) &&
        db.connections == SetConnectionStatus(old(db.connections), u, s, ConnStatus.Connecting, true) &&
        db.users == MirrorStatus(old(db.users), u, s, ConnStatus.Connecting) &&
        (setupFails ==> clients == old(clients) && timers == old(timers) - {id} && sockets == old(sockets) && nextId == old(nextId)) &&
        (!setupFails ==>
          clients == old(clients)[CompositeKey(u, s) := old(nextId)] && nextId == old(nextId) + 2 &&
          timers == (old(timers) - {id})[old(nextId) + 1 := WatchdogTimer(u, s)] &&
          old(nextId) in sockets && sockets == old(sockets)[old(nextId) := sockets[old(nextId)]] &&
          sockets[old(nextId)].userId == u && sockets[old(nextId)].sessionId == s)
      // A watchdog of a session still connecting: `stopSession` runs.
      ensures old(timers[id]).WatchdogTimer? && old(PhaseIs(timers[id].userId, timers[id].sessionId, Phase.Connecting)) ==>
        var u, s := old(timers[id]).userId, old(timers[id]).sessionId;
        var key := CompositeKey(u, s);
        sessionStatus == old(sessionStatus) && reconnectAttempts == old(reconnectAttempts) &&
        sockets == old(sockets) && nextId == old(nextId) &&
        clients == old(clients) - {key} && reconnectTimers == old(reconnectTimers) - {key} &&
        timers == (if key in old(reconnectTimers) then old(timers) - {id} - {old(reconnectTimers)[key]} else old(timers) - {id}) &&
        table.records == WithoutSession(old(table.records), u, s) &&
        db.connections == SetConnectionStatus(old(db.connections), u, s, Disconnected, false) &&
        db.users == MirrorStatus(old(db.users), u, s, Disconnected)
      // A watchdog of a session that opened or closed meanwhile: the timer is spent, nothing else changes.
      ensures old(timers[id]).WatchdogTimer? && !old(PhaseIs(timers[id].userId, timers[id].sessionId, Phase.Connecting)) ==>
        clients == old(clients) && sessionStatus == old(sessionStatus) && timers == old(timers) - {id} &&
        reconnectTimers == old(reconnectTimers) && reconnectAttempts == old(reconnectAttempts) &&
        sockets == old(sockets) && nextId == old(nextId) &&
        table.records == old(table.records) && db.connections == old(db.connections) && db.users == old(db.users)
    {
      var t := timers[id];
      timers := timers - {id};
      match t
      case ReconnectTimer(u, s, _) =>
        var _ := StartSession(u, s, freshCreds, credsReadFails, setupFails);
      case WatchdogTimer(u, s) =>
        var key := CompositeKey(u, s);
        if PhaseIs(u, s, Phase.Connecting) {
          var _ := StopSession(u, s);
        }
    }

    /**
     * `sendMessage`: up to three attempts, 2 s apart; an attempt on a connecting session waits 3 s and reads
     * again; it sends only on an open session. The first attempt reads this supervisor's state, later reads
     * are given by `env`. Returns the outcome, the waits and transmissions made, and the number of attempts.
     */
    method SendMessage(userId: UserId, phone: string, text: string, sessionId: SessionId, env: SendEnv)
      returns (result: SendResult, trace: seq<SendStep>, attempts: nat)
      requires EnvCovers(env)
      ensures SendRun(result, trace, attempts) ==
        SendSpec(CurrentView(userId, sessionId), env, CompositeKey(userId, sessionId), Jid(phone), text)
    {
      var key := CompositeKey(userId, sessionId);
      var first := CurrentView(userId, sessionId);
      ghost var jid := Jid(phone);
      ghost var spec := SendSpec(first, env, key, jid, text);
      var lastError := NoSession(key);
      trace := [];
      var i := 0;
      while i < SendAttempts
        invariant 0 <= i <= SendAttempts
        invariant i < SendAttempts ==>
          spec == Shifted(trace, i, SendFrom(i, ViewAt(first, env, i), env, key, jid, text))
        invariant i == SendAttempts ==> spec == SendRun(SendFailed(lastError), trace, SendAttempts)
      {
        var v := if i == 0 then first else env.laterViews[i - 1];
        assert v == ViewAt(first, env, i);
        var err, steps := SendAttempt(key, v, env.graceViews[i], env.transportOk[i], phone, text);
        ghost var here := SendFrom(i, v, env, key, jid, text);
        ghost var before := trace;
        trace := trace + steps;
        if err.None? {
          assert here == SendRun(Sent, steps, 1);
          result := Sent;
          attempts := i + 1;
          return;
        }
        lastError := err.value;
        if i < SendAttempts - 1 {
          trace := trace + [RetryPause];
          ghost var rest := SendFrom(i + 1, env.laterViews[i], env, key, jid, text);
          assert here == SendRun(rest.result, steps + [RetryPause] + rest.trace, rest.attempts + 1);
          AppendAssoc(before, steps, [RetryPause], rest.trace);
        } else {
          assert here == SendRun(SendFailed(err.value), steps, 1);
        }
        i := i + 1;
      }
      result := SendFailed(lastError);
      attempts := SendAttempts;
    }

    /** One attempt of `sendMessage` on the views it reads; it returns the error it throws, if any, and what it did. */
    static method SendAttempt(key: string, v: View, afterGrace: View, ok: bool, phone: string, text: string)
      returns (err: Option<SendError>, steps: seq<SendStep>)
      ensures Attempt(err, steps) == TryOnce(key, v, afterGrace, ok, Jid(phone), text)
    {
      var sock := v.sock;
      var status := v.status;
      err := None;
      steps := [];
      if sock.None? {
        err := Some(NoSession(key));
        return;
      }
      if status == Some(Phase.Connecting) {
        steps := [GraceWait];
        status := afterGrace.status;
        sock := afterGrace.sock;
      }
      if sock.None? || status != Some(Open) {
        err := Some(NotReady(status));
        return;
      }
      var jid := DigitsOnly(phone) + "@s.whatsapp.net";
      steps := steps + [Transmit(sock.value, jid, text)];
      if !ok {
        err := Some(TransportError(sock.value));
      }
    }
  }
}
