/** The OTP queue and its worker: warm up the session, render the message, send it, record the outcome. */
module OtpQueue {
  import opened Types
  import opened Text
  import opened Db
  import opened SessionStore
  import opened WhatsAppClients
  import opened WhatsAppFacade
  import opened Jobs

  const OtpJobOptions: QueueOptions := QueueOptions(3, 2000, 100, 200)
  const OtpWorkerConcurrency: nat := 10
  const OtpWarmUpPolls: nat := 8
  const OtpPlaceholder: string := "{{otp}}"

  /** An OTP job is tried three times, the retries 2 s and 4 s after the failures. */
  lemma OtpRetrySchedule()
    ensures OtpJobOptions.attempts == 3
    ensures RetryDelay(OtpJobOptions, 1) == 2000 && RetryDelay(OtpJobOptions, 2) == 4000
  {
  }

  /** The session a job uses: its own, else the default one. */
  function JobSession(job: OtpJob): SessionId {
    if job.sessionId.Some? then job.sessionId.value else DefaultSession
  }

  function DefaultOtpText(otp: string): string {
    "Your WOTP verification code is: *" + otp + "*\n\nThis code expires in 5 minutes. Do not share it with anyone."
  }

  /** No character of the code can be part of the placeholder. */
  predicate PlaceholderFree(otp: string) {
    forall i :: 0 <= i < |otp| ==> otp[i] !in OtpPlaceholder
  }

  /** The text sent: the default text, or the non-empty custom template with every placeholder replaced by the code. */
  function OtpMessage(otp: string, custom: Option<string>): (m: string)
    ensures custom.None? || custom == Some("") ==> m == DefaultOtpText(otp)
    ensures Truthy(custom) && Contains(custom.value, OtpPlaceholder) ==> Contains(m, otp)
    ensures Truthy(custom) && !Contains(custom.value, OtpPlaceholder) ==> m == custom.value
  {
    if custom.Some? && custom.value != "" then
      if Contains(custom.value, OtpPlaceholder) then
        ReplaceAllShowsReplacement(custom.value, OtpPlaceholder, otp);
        ReplaceAll(custom.value, OtpPlaceholder, otp)
      else
        ReplaceAllAbsent(custom.value, OtpPlaceholder, otp);
        ReplaceAll(custom.value, OtpPlaceholder, otp)
    else DefaultOtpText(otp)
  }

  /**
   * A custom template is rendered around its placeholders: the text up to the first one is kept, the
   * placeholder becomes the code, and the rest of the template is rendered the same way.
   */
  lemma CustomTemplateRendering(otp: string, pre: string, post: string)
    requires '{' !in pre
    ensures OtpMessage(otp, Some(pre + OtpPlaceholder + post)) == pre + otp + ReplaceAll(post, OtpPlaceholder, otp)
  {
    ReplaceAllSplice(pre, OtpPlaceholder, post, otp);
  }

  /** A custom template without the placeholder is sent verbatim. */
  lemma TemplateWithoutPlaceholder(otp: string, template: string)
    requires template != "" && !Contains(template, OtpPlaceholder)
    ensures OtpMessage(otp, Some(template)) == template
  {
    ReplaceAllAbsent(template, OtpPlaceholder, otp);
  }

  /** The default text shows the code, and no placeholder survives in a rendered custom template. */
  lemma OtpMessageHasNoPlaceholder(otp: string, custom: Option<string>)
    requires otp != [] && PlaceholderFree(otp)
    ensures !Contains(OtpMessage(otp, custom), OtpPlaceholder) || custom.None? || custom == Some("")
    ensures custom.None? || custom == Some("") ==> Contains(OtpMessage(otp, custom), otp)
  {
    if custom.Some? && custom.value != "" {
      ReplaceAllRemovesPattern(custom.value, OtpPlaceholder, otp);
    } else {
      var pre := "Your WOTP verification code is: *";
      var post := "*\n\nThis code expires in 5 minutes. Do not share it with anyone.";
      ContainsAfter(pre, otp, post);
    }
  }

  function FailReason(sessionId: SessionId): string {
    "WhatsApp session " + sessionId + " not connected"
  }

  function PendingOtp(userId: UserId, phone: string): OtpLog -> bool {
    OtpRowFilter(userId, phone, {OtpLogStatus.Pending})
  }

  /**
   * The log rows after one run of the job, as written: the newest pending row of (user, phone) records
   * the outcome; after a failure the error handler marks the newest row still pending as failed once more.
   */
  function OtpJobLogs(rows: seq<OtpLog>, userId: UserId, phone: string, reason: string, sent: bool): (r: seq<OtpLog>)
    ensures |r| == |rows|
  {
    var first := UpdateNewest(rows, PendingOtp(userId, phone), OtpCreatedAt,
                              SetOtpOutcome(if sent then OtpLogStatus.Delivered else OtpLogStatus.Failed,
                                            if sent then None else Some(reason)));
    if sent then first else UpdateNewest(first, PendingOtp(userId, phone), OtpCreatedAt, SetOtpOutcome(OtpLogStatus.Failed, Some(reason)))
  }

  /** The log rows after one run as the error handler's comment intends: only one row records the outcome. */
  function IntendedOtpJobLogs(rows: seq<OtpLog>, userId: UserId, phone: string, reason: string, sent: bool): (r: seq<OtpLog>)
    ensures |r| == |rows|
  {
    UpdateNewest(rows, PendingOtp(userId, phone), OtpCreatedAt,
                 SetOtpOutcome(if sent then OtpLogStatus.Delivered else OtpLogStatus.Failed, if sent then None else Some(reason)))
  }

  /** A delivery changes exactly the newest pending row of (user, phone), to delivered. */
  lemma DeliveryMarksNewestPending(rows: seq<OtpLog>, userId: UserId, phone: string, reason: string)
    ensures var r := OtpJobLogs(rows, userId, phone, reason, true);
      match Newest(rows, PendingOtp(userId, phone), OtpCreatedAt)
      case None => r == rows
      case Some(i) => r == rows[i := rows[i].(status := OtpLogStatus.Delivered, failReason := None)]
  {
  }

  /** As intended, a failed run changes at most one row, the newest pending one, to failed with the reason. */
  lemma IntendedFailureMarksOneRow(rows: seq<OtpLog>, userId: UserId, phone: string, reason: string)
    ensures var r := IntendedOtpJobLogs(rows, userId, phone, reason, false);
      match Newest(rows, PendingOtp(userId, phone), OtpCreatedAt)
      case None => r == rows
      case Some(i) => r == rows[i := rows[i].(status := OtpLogStatus.Failed, failReason := Some(reason))]
  {
  }

  /** As written, a failed run with two pending rows for the same phone marks both of them failed. */
  lemma FailureMarksTwoRows(userId: UserId, phone: string, reason: string)
    ensures var a := OtpLog(0, userId, "key", phone, OtpLogStatus.Pending, None, 1);
      var b := OtpLog(1, userId, "key", phone, OtpLogStatus.Pending, None, 2);
      var r := OtpJobLogs([a, b], userId, phone, reason, false);
      r[0].status == OtpLogStatus.Failed && r[1].status == OtpLogStatus.Failed &&
      IntendedOtpJobLogs([a, b], userId, phone, reason, false)[0] == a
  {
    var a := OtpLog(0, userId, "key", phone, OtpLogStatus.Pending, None, 1);
    var b := OtpLog(1, userId, "key", phone, OtpLogStatus.Pending, None, 2);
    var p := PendingOtp(userId, phone);
    assert [a, b][..1] == [a];
    assert Newest([a], p, OtpCreatedAt) == Some(0);
    assert Newest([a, b], p, OtpCreatedAt) == Some(1);
    var first := [a, b][1 := b.(status := OtpLogStatus.Failed, failReason := Some(reason))];
    assert first[..1] == [a];
    assert Newest(first, p, OtpCreatedAt) == Some(0);
  }

  /**
   * The log update after the send, and after a failure the throw, whose error handler marks the newest row
   * still pending failed once more before rethrowing.
   */
  method RecordOtpOutcome(db: Database, userId: UserId, phone: string, sessionId: SessionId, sent: bool)
    returns (outcome: JobOutcome)
    modifies db`otpLogs
    ensures outcome == if sent then Completed else Threw(FailReason(sessionId))
    ensures db.otpLogs == OtpJobLogs(old(db.otpLogs), userId, phone, FailReason(sessionId), sent)
  {
    var status := if sent then OtpLogStatus.Delivered else OtpLogStatus.Failed;
    var failReason := if sent then None else Some(FailReason(sessionId));
    db.otpLogs := UpdateNewest(db.otpLogs, PendingOtp(userId, phone), OtpCreatedAt, SetOtpOutcome(status, failReason));
    if !sent {
      // The error handler's update, made for every thrown error.
      db.otpLogs := UpdateNewest(db.otpLogs, PendingOtp(userId, phone), OtpCreatedAt, SetOtpOutcome(OtpLogStatus.Failed, Some(FailReason(sessionId))));
      return Threw(FailReason(sessionId));
    }
    outcome := Completed;
  }

  /**
   * The job processor after the warm-up: render, send through the façade (`env` is what the send's later
   * reads observe), record the outcome.
   */
  method DeliverOtp(svc: WhatsAppService, job: OtpJob, env: SendEnv) returns (outcome: JobOutcome)
    requires EnvCovers(env)
    modifies svc.manager.db`otpLogs
    ensures unchanged(svc.manager.db`connections, svc.manager.db`users)
    ensures var sent := SendSpec(svc.manager.CurrentView(job.userId, DefaultSession), env, CompositeKey(job.userId, DefaultSession),
                                 Jid(job.phone), OtpMessage(job.otp, job.message)).result == Sent;
      outcome == (if sent then Completed else Threw(FailReason(JobSession(job)))) &&
      svc.manager.db.otpLogs == OtpJobLogs(old(svc.manager.db.otpLogs), job.userId, job.phone, FailReason(JobSession(job)), sent)
  {
    var sessionId := JobSession(job);
    var message := OtpMessage(job.otp, job.message);
    var sent := svc.SendMessage(job.userId, job.phone, message, sessionId, env);
    assert svc.manager.db.otpLogs == old(svc.manager.db.otpLogs);
    ghost var view := svc.manager.CurrentView(job.userId, DefaultSession);
    outcome := RecordOtpOutcome(svc.manager.db, job.userId, job.phone, sessionId, sent);
    assert svc.manager.CurrentView(job.userId, DefaultSession) == view;
  }

  /** The job processor: warm-up (up to 8 polls, `observed`), then delivery. */
  method ProcessOtpJob(svc: WhatsAppService, job: OtpJob, freshCreds: Blob, credsReadFails: bool, setupFails: bool,
                       observed: seq<Option<ConnStatus>>, env: SendEnv)
    returns (outcome: JobOutcome, restored: bool, polls: nat)
    requires svc.manager.Valid() && |observed| >= OtpWarmUpPolls && EnvCovers(env)
    modifies svc.manager, svc.manager.db`connections, svc.manager.db`users, svc.manager.db`otpLogs
    ensures svc.manager.Valid()
    ensures restored <==> old(svc.GetStatus(job.userId, JobSession(job))) == Some(Disconnected)
    ensures restored ==> 1 <= polls <= OtpWarmUpPolls
    ensures !restored ==> polls == 0 && unchanged(svc.manager)
    ensures !restored ==> svc.manager.db.connections == old(svc.manager.db.connections) && svc.manager.db.users == old(svc.manager.db.users)
    ensures restored ==> PollStopped(OtpWarmUpPolls, observed, polls) && svc.manager.SessionStarted(job.userId, DefaultSession, setupFails)
    ensures var sent := SendSpec(svc.manager.CurrentView(job.userId, DefaultSession), env, CompositeKey(job.userId, DefaultSession),
                                 Jid(job.phone), OtpMessage(job.otp, job.message)).result == Sent;
      outcome == (if sent then Completed else Threw(FailReason(JobSession(job)))) &&
      svc.manager.db.otpLogs == OtpJobLogs(old(svc.manager.db.otpLogs), job.userId, job.phone, FailReason(JobSession(job)), sent)
  {
    restored, polls := WarmUp(svc, job.userId, JobSession(job), OtpWarmUpPolls, freshCreds, credsReadFails, setupFails, observed);
    ghost var connections, users := svc.manager.db.connections, svc.manager.db.users;
    assert !restored ==> connections == old(svc.manager.db.connections) && users == old(svc.manager.db.users);
    outcome := DeliverOtp(svc, job, env);
    assert svc.manager.db.connections == connections && svc.manager.db.users == users;
  }
}
