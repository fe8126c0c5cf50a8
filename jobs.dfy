/** What the two delivery workers share: queue options and the warm-up poll. */
module Jobs {
  import opened Types
  import opened SessionStore
  import opened WhatsAppClients
  import opened WhatsAppFacade

  /** A queue's default job options: tries per job, exponential backoff base, completed and failed jobs kept. */
  datatype QueueOptions = QueueOptions(attempts: nat, backoffDelayMs: nat, removeOnComplete: nat, removeOnFail: nat)

  /** The queue's exponential backoff: the wait before the r-th retry is the base delay doubled r - 1 times. */
  function RetryDelay(opts: QueueOptions, retry: nat): (d: nat)
    requires 1 <= retry
    ensures d >= opts.backoffDelayMs
    ensures retry == 1 ==> d == opts.backoffDelayMs
    ensures retry > 1 ==> d == 2 * RetryDelay(opts, retry - 1)
  {
    if retry > 1 then
      DoubleFactor(opts.backoffDelayMs, Pow2(retry - 2));
      opts.backoffDelayMs * Pow2(retry - 1)
    else
      opts.backoffDelayMs * Pow2(retry - 1)
  }

  lemma DoubleFactor(a: nat, p: nat)
    ensures a * (2 * p) == 2 * (a * p)
  {
  }

  /** How a job ends: it completes, or it throws the given message and the queue may retry it. */
  datatype JobOutcome = Completed | Threw(message: string)

  /**
   * The poll's stop rule: at most `maxPolls` waits and at least one when any is allowed; no read before the
   * last was connected, and stopping early means the last read was.
   */
  predicate PollStopped(maxPolls: nat, observed: seq<Option<ConnStatus>>, polls: nat) {
    polls <= maxPolls && polls <= |observed| && (maxPolls > 0 ==> polls >= 1) &&
    (forall j :: 0 <= j < polls - 1 ==> observed[j] != Some(Connected)) &&
    (0 < polls < maxPolls ==> observed[polls - 1] == Some(Connected))
  }

  /**
   * The warm-up poll: up to `maxPolls` one-second waits, each followed by a status read (`observed[i]`
   * after wait i + 1), stopping at the first read that is connected. Returns the number of waits.
   */
  method PollUntilConnected(maxPolls: nat, observed: seq<Option<ConnStatus>>) returns (polls: nat)
    requires |observed| >= maxPolls
    ensures polls <= maxPolls && (maxPolls > 0 ==> polls >= 1)
    ensures forall j :: 0 <= j < polls - 1 ==> observed[j] != Some(Connected)
    ensures polls < maxPolls ==> observed[polls - 1] == Some(Connected)
  {
    polls := 0;
    while polls < maxPolls
      invariant polls <= maxPolls
      invariant forall j :: 0 <= j < polls ==> observed[j] != Some(Connected)
    {
      polls := polls + 1;
      if observed[polls - 1] == Some(Connected) {
        return;
      }
    }
  }

  /**
   * The warm-up both workers run before sending: only a session whose status reads disconnected is
   * restarted (through the façade) and then polled.
   */
  method WarmUp(svc: WhatsAppService, userId: UserId, sessionId: SessionId, maxPolls: nat,
                freshCreds: Blob, credsReadFails: bool, setupFails: bool, observed: seq<Option<ConnStatus>>)
    returns (restored: bool, polls: nat)
    requires svc.manager.Valid() && |observed| >= maxPolls
    modifies svc.manager, svc.manager.db`connections, svc.manager.db`users
    ensures svc.manager.Valid()
    ensures restored <==> old(svc.GetStatus(userId, sessionId)) == Some(Disconnected)
    ensures !restored ==> polls == 0 && unchanged(svc.manager) && unchanged(svc.manager.db)
    ensures restored ==> polls <= maxPolls && (maxPolls > 0 ==> polls >= 1) &&
                         svc.GetStatus(userId, sessionId) == Some(ConnStatus.Connecting) &&
                         (CompositeKey(userId, DefaultSession) in svc.manager.clients <==> !setupFails)
    ensures restored ==> PollStopped(maxPolls, observed, polls) && svc.manager.SessionStarted(userId, DefaultSession, setupFails)
  {
    restored, polls := false, 0;
    if svc.GetStatus(userId, sessionId) == Some(Disconnected) {
      restored := true;
      svc.Connect(userId, sessionId, freshCreds, credsReadFails, setupFails);
      polls := PollUntilConnected(maxPolls, observed);
    }
  }
}
