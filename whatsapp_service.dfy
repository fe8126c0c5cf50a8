/** The messaging façade the workers and controllers use; every call goes to the user's default session. */
module WhatsAppFacade {
  import opened Types
  import opened Db
  import opened SessionStore
  import opened WhatsAppClients

  class WhatsAppService {
    const manager: ClientManager

    constructor (manager: ClientManager)
      ensures this.manager == manager
    {
      this.manager := manager;
    }

    /**
     * `connect`: starts the default session (the session argument is dropped); whatever the start does is
     * only logged by the façade.
     */
    method Connect(userId: UserId, sessionId: SessionId, freshCreds: Blob, credsReadFails: bool, setupFails: bool)
      requires manager.Valid()
      modifies manager, manager.db`connections, manager.db`users
      ensures manager.Valid()
      ensures var key := CompositeKey(userId, DefaultSession);
        if key in old(manager.clients) then unchanged(manager) && unchanged(manager.db)
        else
          manager.GetStatus(userId, DefaultSession) == Some(ConnStatus.Connecting) &&
          (key in manager.clients <==> !setupFails) &&
          (forall k :: k != key && k in old(manager.sessionStatus) ==> k in manager.sessionStatus && manager.sessionStatus[k] == old(manager.sessionStatus)[k]) &&
          manager.db.connections == SetConnectionStatus(old(manager.db.connections), userId, DefaultSession, ConnStatus.Connecting, true)
      ensures CompositeKey(userId, DefaultSession) !in old(manager.clients) ==> manager.SessionStarted(userId, DefaultSession, setupFails)
    {
      var _ := manager.StartSession(userId, DefaultSession, freshCreds, credsReadFails, setupFails);
    }

    /** `disconnect`: stops the default session whatever session was asked for; other sessions' records are untouched. */
    method Disconnect(userId: UserId, sessionId: SessionId)
      requires manager.Valid()
      modifies manager`clients, manager`timers, manager`reconnectTimers, manager.table, manager.db`connections, manager.db`users
      ensures manager.Valid()
      ensures CompositeKey(userId, DefaultSession) !in manager.clients
      ensures manager.clients == old(manager.clients) - {CompositeKey(userId, DefaultSession)}
      ensures manager.reconnectTimers == old(manager.reconnectTimers) - {CompositeKey(userId, DefaultSession)}
      ensures manager.timers ==
        if CompositeKey(userId, DefaultSession) in old(manager.reconnectTimers)
        then old(manager.timers) - {old(manager.reconnectTimers)[CompositeKey(userId, DefaultSession)]}
        else old(manager.timers)
      ensures manager.table.records == WithoutSession(old(manager.table.records), userId, DefaultSession)
      ensures manager.db.connections == SetConnectionStatus(old(manager.db.connections), userId, DefaultSession, Disconnected, false)
      ensures sessionId != DefaultSession && (userId, sessionId) in old(manager.db.connections) ==>
        (userId, sessionId) in manager.db.connections &&
        manager.db.connections[(userId, sessionId)] == old(manager.db.connections)[(userId, sessionId)]
      ensures manager.db.users == SetUserStatus(old(manager.db.users), userId, Disconnected)
    {
      var _ := manager.StopSession(userId, DefaultSession);
    }

    /** `getStatus`: the default session's status, whichever session was asked for. */
    function GetStatus(userId: UserId, sessionId: SessionId): (r: Option<ConnStatus>)
      reads manager
      ensures r.None? <==> CompositeKey(userId, DefaultSession) !in manager.sessionStatus
      ensures r.Some? ==> r.value == StatusOf(manager.sessionStatus[CompositeKey(userId, DefaultSession)])
    {
      manager.GetStatus(userId, DefaultSession)
    }

    /** `sendMessage`: true exactly when the default session's send completes, false when it throws. */
    method SendMessage(userId: UserId, phone: string, message: string, sessionId: SessionId, env: SendEnv) returns (sent: bool)
      requires EnvCovers(env)
      ensures sent <==>
        SendSpec(manager.CurrentView(userId, DefaultSession), env, CompositeKey(userId, DefaultSession), Jid(phone), message).result == Sent
    {
      var result, _, _ := manager.SendMessage(userId, phone, message, DefaultSession, env);
      sent := result == Sent;
    }
  }

  /** The façade answers the same for every session of a user. */
  lemma StatusIgnoresSession(svc: WhatsAppService, userId: UserId, s1: SessionId, s2: SessionId)
    ensures svc.GetStatus(userId, s1) == svc.GetStatus(userId, s2)
  {
  }
}
