/** The WhatsApp dashboard endpoints: the pairing wait, disconnection and the status listing. */
module WhatsAppController {
  import opened Types
  import opened Db
  import opened SessionStore
  import opened WhatsAppClients
  import opened WhatsAppFacade

  const PairingTimeoutMs: nat := 30000

  /** The answer of a pairing request: the code, a status, or the 504 timeout. */
  datatype PairingReply = QrReply(qrCode: string) | StatusReply(message: string, status: string) | TimeoutReply

  /** The reply a notice on the channel settles the request with; other notice kinds are ignored. */
  function ReplyTo(n: Notice): (r: Option<PairingReply>)
    ensures r.None? <==> n.OtherNotice?
    ensures r.Some? ==> r.value != TimeoutReply
  {
    match n
    case QrNotice(qr) => Some(QrReply(qr))
    case ConnectedNotice => Some(StatusReply("WhatsApp already connected", "connected"))
    case ErrorNotice(message) => Some(StatusReply(message, "error"))
    case OtherNotice(_) => None
  }

  /** The first notice that settles the request, if any. */
  function FirstReply(notices: seq<Notice>): (r: Option<PairingReply>)
    ensures r.None? <==> forall i :: 0 <= i < |notices| ==> notices[i].OtherNotice?
    ensures r.Some? ==> r.value != TimeoutReply
  {
    if notices == [] then None
    else if ReplyTo(notices[0]).Some? then ReplyTo(notices[0])
    else
      assert forall j :: 1 <= j < |notices| ==> notices[j] == notices[1..][j - 1];
      FirstReply(notices[1..])
  }

  /** The reply is the one of the earliest settling notice. */
  lemma {:induction false} FirstReplyIsEarliest(notices: seq<Notice>, i: nat)
    requires i < |notices| && !notices[i].OtherNotice?
    requires forall j :: 0 <= j < i ==> notices[j].OtherNotice?
    ensures FirstReply(notices) == ReplyTo(notices[i])
  {
    if i > 0 {
      FirstReplyIsEarliest(notices[1..], i - 1);
    }
  }

  /** The notices published on `channel`, in order. */
  function OnChannel(pubs: seq<Publication>, channel: string): (r: seq<Notice>)
    ensures |r| <= |pubs|
  {
    if pubs == [] then []
    else (if pubs[0].channel == channel then [pubs[0].notice] else []) + OnChannel(pubs[1..], channel)
  }

  lemma {:induction false} OnChannelAppend(pubs: seq<Publication>, p: Publication, channel: string)
    ensures OnChannel(pubs + [p], channel) == OnChannel(pubs, channel) + (if p.channel == channel then [p.notice] else [])
  {
    if pubs != [] {
      assert (pubs + [p])[1..] == pubs[1..] + [p];
      OnChannelAppend(pubs[1..], p, channel);
    } else {
      assert pubs + [p] == [p];
    }
  }

  lemma {:induction false} FirstReplyAppend(notices: seq<Notice>, n: Notice)
    ensures FirstReply(notices + [n]) == if FirstReply(notices).Some? then FirstReply(notices) else ReplyTo(n)
  {
    if notices != [] {
      assert (notices + [n])[0] == notices[0];
      assert (notices + [n])[1..] == notices[1..] + [n];
      FirstReplyAppend(notices[1..], n);
    } else {
      assert notices + [n] == [n];
    }
  }

  /**
   * The subscriber of one pairing request: subscribed with a 30 s timer armed until the first settling
   * notice or the timeout; whichever comes first unsubscribes, clears the other and answers once.
   */
  class PairingWait {
    const channel: string
    var subscribed: bool
    var timerArmed: bool
    var qrReceived: bool
    var reply: Option<PairingReply>

    ghost predicate Valid()
      reads this
    {
      subscribed == timerArmed && subscribed == reply.None? && qrReceived == (reply.Some? && reply.value != TimeoutReply)
    }

    constructor (channel: string)
      ensures Valid() && this.channel == channel && subscribed && reply.None?
    {
      this.channel := channel;
      subscribed := true;
      timerArmed := true;
      qrReceived := false;
      reply := None;
    }

    /** A notice on the channel: only a subscribed request hears it, and only a settling kind answers. */
    method OnMessage(n: Notice)
      requires Valid()
      modifies this
      ensures Valid()
      ensures old(reply).Some? ==> reply == old(reply)
      ensures old(reply).None? ==> reply == ReplyTo(n)
    {
      if !subscribed {
        return;
      }
      match n
      case QrNotice(qr) =>
        qrReceived := true;
        timerArmed := false;
        subscribed := false;
        reply := Some(QrReply(qr));
      case ConnectedNotice =>
        qrReceived := true;
        timerArmed := false;
        subscribed := false;
        reply := Some(StatusReply("WhatsApp already connected", "connected"));
      case ErrorNotice(message) =>
        qrReceived := true;
        timerArmed := false;
        subscribed := false;
        reply := Some(StatusReply(message, "error"));
      case OtherNotice(_) =>
    }

    /** The 30 s timer: fires only while armed, and answers 504 only if nothing settled the request. */
    method OnTimeout()
      requires Valid()
      modifies this
      ensures Valid()
      ensures old(reply).Some? ==> reply == old(reply)
      ensures old(reply).None? ==> reply == Some(TimeoutReply)
    {
      if !timerArmed {
        return;
      }
      timerArmed := false;
      if !qrReceived {
        subscribed := false;
        reply := Some(TimeoutReply);
      }
    }

    /** The publications of a stretch of time, in order; those on this request's channel reach `OnMessage`. */
    method Deliver(pubs: seq<Publication>)
      requires Valid()
      modifies this
      ensures Valid()
      ensures reply == if old(reply).Some? then old(reply) else FirstReply(OnChannel(pubs, channel))
    {
      ghost var before := reply;
      for i := 0 to |pubs|
        invariant Valid()
        invariant reply == if before.Some? then before else FirstReply(OnChannel(pubs[..i], channel))
      {
        var heard := OnChannel(pubs[..i], channel);
        OnChannelAppend(pubs[..i], pubs[i], channel);
        assert pubs[..i + 1] == pubs[..i] + [pubs[i]];
        if pubs[i].channel == channel {
          assert OnChannel(pubs[..i + 1], channel) == heard + [pubs[i].notice];
          FirstReplyAppend(heard, pubs[i].notice);
          OnMessage(pubs[i].notice);
        } else {
          assert OnChannel(pubs[..i + 1], channel) == heard + [];
          assert heard + [] == heard;
        }
      }
      assert pubs[..|pubs|] == pubs;
    }

    /** The whole request: publications until the 30 s mark, then the timer. The answer is the timeout exactly when none settled it. */
    method Await(pubs: seq<Publication>)
      requires Valid() && reply.None?
      modifies this
      ensures Valid() && reply.Some? && !subscribed
      ensures reply == Some(TimeoutReply) <==> FirstReply(OnChannel(pubs, channel)).None?
      ensures reply != Some(TimeoutReply) ==> reply == FirstReply(OnChannel(pubs, channel))
    {
      Deliver(pubs);
      OnTimeout();
    }
  }

  /** The channel of a session is different for every other session of the same user. */
  lemma ChannelsDiffer(userId: UserId, s1: SessionId, s2: SessionId)
    requires s1 != s2
    ensures Channel(userId, s1) != Channel(userId, s2)
  {
    var prefix := QR_CHANNEL_PREFIX + userId + ":";
    assert Channel(userId, s1)[|prefix|..] == s1;
    assert Channel(userId, s2)[|prefix|..] == s2;
  }

  function RequestedSession(sessionId: Option<string>): SessionId {
    if sessionId.Some? then sessionId.value else DefaultSession
  }

  /**
   * `connectWhatsApp`: starts the session through the façade (which always starts the default session),
   * then waits on the channel of the requested session. Only for the default session is that the channel
   * the supervisor publishes the started session's notices on.
   */
  method ConnectWhatsApp(svc: WhatsAppService, userId: UserId, sessionId: Option<string>, freshCreds: Blob,
                         credsReadFails: bool, setupFails: bool)
    returns (wait: PairingWait)
    requires svc.manager.Valid()
    modifies svc.manager, svc.manager.db`connections, svc.manager.db`users
    ensures svc.manager.Valid()
    ensures fresh(wait) && wait.Valid() && wait.subscribed && wait.reply.None?
    ensures wait.channel == Channel(userId, RequestedSession(sessionId))
    ensures wait.channel == Channel(userId, DefaultSession) <==> RequestedSession(sessionId) == DefaultSession
    ensures CompositeKey(userId, DefaultSession) !in old(svc.manager.clients) ==>
      svc.manager.GetStatus(userId, DefaultSession) == Some(ConnStatus.Connecting)
    ensures CompositeKey(userId, DefaultSession) !in old(svc.manager.clients) ==>
      svc.manager.SessionStarted(userId, DefaultSession, setupFails)
    ensures CompositeKey(userId, DefaultSession) in old(svc.manager.clients) ==>
      unchanged(svc.manager) && unchanged(svc.manager.db)
  {
    var sid := RequestedSession(sessionId);
    svc.Connect(userId, sid, freshCreds, credsReadFails, setupFails);
    wait := new PairingWait(Channel(userId, sid));
    if sid != DefaultSession {
      ChannelsDiffer(userId, sid, DefaultSession);
    }
  }

  /**
   * `disconnectWhatsApp`: stops the default session through the façade, then marks the user record
   * disconnected when the default session was asked for.
   */
  method DisconnectWhatsApp(svc: WhatsAppService, userId: UserId, sessionId: Option<string>) returns (message: string)
    requires svc.manager.Valid()
    modifies svc.manager`clients, svc.manager`timers, svc.manager`reconnectTimers, svc.manager.table,
             svc.manager.db`connections, svc.manager.db`users
    ensures svc.manager.Valid()
    ensures message == "WhatsApp session " + RequestedSession(sessionId) + " disconnected"
    ensures CompositeKey(userId, DefaultSession) !in svc.manager.clients
    ensures svc.manager.db.users == SetUserStatus(old(svc.manager.db.users), userId, Disconnected)
    ensures svc.manager.db.connections == SetConnectionStatus(old(svc.manager.db.connections), userId, DefaultSession, Disconnected, false)
    ensures svc.manager.clients == old(svc.manager.clients) - {CompositeKey(userId, DefaultSession)}
    ensures svc.manager.table.records == WithoutSession(old(svc.manager.table.records), userId, DefaultSession)
    ensures svc.manager.reconnectTimers == old(svc.manager.reconnectTimers) - {CompositeKey(userId, DefaultSession)}
    ensures svc.manager.timers ==
      if CompositeKey(userId, DefaultSession) in old(svc.manager.reconnectTimers)
      then old(svc.manager.timers) - {old(svc.manager.reconnectTimers)[CompositeKey(userId, DefaultSession)]}
      else old(svc.manager.timers)
  {
    var sid := RequestedSession(sessionId);
    svc.Disconnect(userId, sid);
    if sid == DefaultSession {
      svc.manager.db.users := SetUserStatus(svc.manager.db.users, userId, Disconnected);
      SetUserStatusIdempotent(old(svc.manager.db.users), userId, Disconnected);
    }
    message := "WhatsApp session " + sid + " disconnected";
  }

  /** Writing the same status twice is writing it once, so the handler's own write repeats the façade's. */
  lemma SetUserStatusIdempotent(users: map<UserId, User>, userId: UserId, status: ConnStatus)
    ensures SetUserStatus(SetUserStatus(users, userId, status), userId, status) == SetUserStatus(users, userId, status)
  {
  }

  /** The sessions the user has a connection row for. */
  function SessionsOf(connections: map<(UserId, SessionId), Connection>, userId: UserId): set<SessionId> {
    set k | k in connections.Keys && k.0 == userId :: k.1
  }

  /** `getWhatsAppStatus`: each of the user's connection rows, showing the live status when the façade has one, else the stored one. */
  function StatusReport(svc: WhatsAppService, userId: UserId): (r: map<SessionId, ConnStatus>)
    reads svc.manager, svc.manager.db
    ensures r.Keys == SessionsOf(svc.manager.db.connections, userId)
    ensures forall s :: s in r ==> (userId, s) in svc.manager.db.connections
  {
    map s | s in SessionsOf(svc.manager.db.connections, userId) ::
      var live := svc.GetStatus(userId, s);
      if live.Some? then live.value else svc.manager.db.connections[(userId, s)].status
  }

  /**
   * While the default session has a live status, every row of the listing shows it, whichever session
   * the row is for; otherwise each row shows its stored status.
   */
  lemma ListingShowsDefaultSession(svc: WhatsAppService, userId: UserId, s: SessionId)
    requires s in SessionsOf(svc.manager.db.connections, userId)
    ensures var live := svc.manager.GetStatus(userId, DefaultSession);
      StatusReport(svc, userId)[s] == if live.Some? then live.value else svc.manager.db.connections[(userId, s)].status
  {
    StatusIgnoresSession(svc, userId, s, DefaultSession);
  }
}
