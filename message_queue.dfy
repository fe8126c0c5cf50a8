/** The transactional-message queue and its worker. */
module MessageQueue {
  import opened Types
  import opened Db
  import opened SessionStore
  import opened WhatsAppClients
  import opened WhatsAppFacade
  import opened Jobs

  const MessageJobOptions: QueueOptions := QueueOptions(3, 3000, 100, 200)
  const MessageWorkerConcurrency: nat := 5
  const MessageWarmUpPolls: nat := 5
  const MessageFailReason: string := "WhatsApp session not connected"

  /** A message job is tried three times, the retries 3 s and 6 s after the failures. */
  lemma MessageRetrySchedule()
    ensures MessageJobOptions.attempts == 3
    ensures RetryDelay(MessageJobOptions, 1) == 3000 && RetryDelay(MessageJobOptions, 2) == 6000
  {
  }

  function MessageJobSession(job: MessageJob): SessionId {
    if job.sessionId.Some? then job.sessionId.value else DefaultSession
  }

  /** The log rows after one run, as written: the newest matching pending row records the outcome, and after a failure the handler marks the newest still-pending match failed again. */
  function MessageJobLogs(rows: seq<MessageLog>, job: MessageJob, sent: bool): (r: seq<MessageLog>)
    ensures |r| == |rows|
  {
    var pending := PendingMessageFilter(job.userId, job.phone, job.content);
    var first := UpdateNewest(rows, pending, MessageCreatedAt,
                              SetMessageOutcome(if sent then MessageLogStatus.Delivered else MessageLogStatus.Failed,
                                                if sent then None else Some(MessageFailReason)));
    if sent then first else UpdateNewest(first, pending, MessageCreatedAt, SetMessageOutcome(MessageLogStatus.Failed, Some(MessageFailReason)))
  }

  /** A row for another user, phone or content, or one no longer pending, is never touched by a run of the job. */
  lemma OtherRowsUntouched(rows: seq<MessageLog>, job: MessageJob, sent: bool, j: nat)
    requires j < |rows|
    requires !PendingMessageFilter(job.userId, job.phone, job.content)(rows[j])
    ensures MessageJobLogs(rows, job, sent)[j] == rows[j]
  {
    var pending := PendingMessageFilter(job.userId, job.phone, job.content);
    var first := UpdateNewest(rows, pending, MessageCreatedAt,
                              SetMessageOutcome(if sent then MessageLogStatus.Delivered else MessageLogStatus.Failed,
                                                if sent then None else Some(MessageFailReason)));
    assert first[j] == rows[j];
  }

  /** The log rows after one run as the error handler intends: only the newest matching pending row records the outcome. */
  function IntendedMessageJobLogs(rows: seq<MessageLog>, job: MessageJob, sent: bool): (r: seq<MessageLog>)
    ensures |r| == |rows|
  {
    UpdateNewest(rows, PendingMessageFilter(job.userId, job.phone, job.content), MessageCreatedAt,
                 SetMessageOutcome(if sent then MessageLogStatus.Delivered else MessageLogStatus.Failed,
                                   if sent then None else Some(MessageFailReason)))
  }

  /** As intended, a run changes at most the newest matching pending row, to its outcome. */
  lemma IntendedMessageRunMarksOneRow(rows: seq<MessageLog>, job: MessageJob, sent: bool)
    ensures var r := IntendedMessageJobLogs(rows, job, sent);
      match Newest(rows, PendingMessageFilter(job.userId, job.phone, job.content), MessageCreatedAt)
      case None => r == rows
      case Some(i) => r == rows[i := rows[i].(status := if sent then MessageLogStatus.Delivered else MessageLogStatus.Failed,
                                              failReason := if sent then None else Some(MessageFailReason))]
  {
  }

  /** As written, a failed run with two identical pending messages to one phone marks both of them failed. */
  lemma MessageFailureMarksTwoRows(job: MessageJob)
    ensures var a := MessageLog(0, job.userId, "key", job.phone, job.content, MessageLogStatus.Pending, None, 1);
      var b := MessageLog(1, job.userId, "key", job.phone, job.content, MessageLogStatus.Pending, None, 2);
      var r := MessageJobLogs([a, b], job, false);
      r[0].status == MessageLogStatus.Failed && r[1].status == MessageLogStatus.Failed &&
      IntendedMessageJobLogs([a, b], job, false)[0] == a
  {
    var a := MessageLog(0, job.userId, "key", job.phone, job.content, MessageLogStatus.Pending, None, 1);
    var b := MessageLog(1, job.userId, "key", job.phone, job.content, MessageLogStatus.Pending, None, 2);
    var p := PendingMessageFilter(job.userId, job.phone, job.content);
    assert [a, b][..1] == [a];
    assert Newest([a], p, MessageCreatedAt) == Some(0);
    assert Newest([a, b], p, MessageCreatedAt) == Some(1);
    var first := [a, b][1 := b.(status := MessageLogStatus.Failed, failReason := Some(MessageFailReason))];
    assert first[..1] == [a];
    assert Newest(first, p, MessageCreatedAt) == Some(0);
  }

  /** The log update after the send, and after a failure the throw, whose error handler marks the newest still-pending match failed again. */
  method RecordMessageOutcome(db: Database, job: MessageJob, sent: bool) returns (outcome: JobOutcome)
    modifies db`messageLogs
    ensures outcome == if sent then Completed else Threw(MessageFailReason)
    ensures db.messageLogs == MessageJobLogs(old(db.messageLogs), job, sent)
  {
    var pending := PendingMessageFilter(job.userId, job.phone, job.content);
    var status := if sent then MessageLogStatus.Delivered else MessageLogStatus.Failed;
    var failReason := if sent then None else Some(MessageFailReason);
    db.messageLogs := UpdateNewest(db.messageLogs, pending, MessageCreatedAt, SetMessageOutcome(status, failReason));
    if !sent {
      // The error handler's update, made for every thrown error.
      db.messageLogs := UpdateNewest(db.messageLogs, pending, MessageCreatedAt, SetMessageOutcome(MessageLogStatus.Failed, Some(MessageFailReason)));
      return Threw(MessageFailReason);
    }
    outcome := Completed;
  }

  /** The job processor: warm-up (up to 5 polls, start errors ignored), send the content, record the outcome. */
  method ProcessMessageJob(svc: WhatsAppService, job: MessageJob, freshCreds: Blob, credsReadFails: bool, setupFails: bool,
                           observed: seq<Option<ConnStatus>>, env: SendEnv)
    returns (outcome: JobOutcome, restored: bool, polls: nat)
    requires svc.manager.Valid() && |observed| >= MessageWarmUpPolls && EnvCovers(env)
    modifies svc.manager, svc.manager.db`connections, svc.manager.db`users, svc.manager.db`messageLogs
    ensures svc.manager.Valid()
    ensures restored <==> old(svc.GetStatus(job.userId, MessageJobSession(job))) == Some(Disconnected)
    ensures restored ==> 1 <= polls <= MessageWarmUpPolls
    ensures !restored ==> polls == 0 && unchanged(svc.manager)
    ensures !restored ==> svc.manager.db.connections == old(svc.manager.db.connections) && svc.manager.db.users == old(svc.manager.db.users)
    ensures restored ==> PollStopped(MessageWarmUpPolls, observed, polls) && svc.manager.SessionStarted(job.userId, DefaultSession, setupFails)
    ensures var sent := SendSpec(svc.manager.CurrentView(job.userId, DefaultSession), env, CompositeKey(job.userId, DefaultSession),
                                 Jid(job.phone), job.content).result == Sent;
      outcome == (if sent then Completed else Threw(MessageFailReason)) &&
      svc.manager.db.messageLogs == MessageJobLogs(old(svc.manager.db.messageLogs), job, sent)
  {
    var sessionId := MessageJobSession(job);
    restored, polls := WarmUp(svc, job.userId, sessionId, MessageWarmUpPolls, freshCreds, credsReadFails, setupFails, observed);
    ghost var connections, users := svc.manager.db.connections, svc.manager.db.users;
    assert !restored ==> connections == old(svc.manager.db.connections) && users == old(svc.manager.db.users);
    var sent := svc.SendMessage(job.userId, job.phone, job.content, sessionId, env);
    outcome := RecordMessageOutcome(svc.manager.db, job, sent);
    assert svc.manager.db.connections == connections && svc.manager.db.users == users;
  }
}
