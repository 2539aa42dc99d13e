/** The HTTP endpoints of the service over its two registries: analysis jobs
    (`genome_jobs`) and chat sessions (`chat_sessions`). Fresh ids and the
    current time are parameters; every failure an endpoint raises as an
    `HTTPException` is an `Err` carrying the status code and detail. */
module Api {

  import opened Wrappers
  import opened Strings
  import opened Registry
  import opened Models
  import opened Intent
  import opened Pipeline
  import opened BrandAssistant

  datatype HttpError = HttpError(status: nat, detail: string)

  type Jobs = Registry<JobRecord>

  /** A record of the session registry. */
  datatype Session = Session(
    sessionId: string,
    brandHandle: string,
    assistant: AssistantState,
    createdAt: string,
    lastActivity: string)

  type Sessions = Registry<Session>

  /** `d[k]` leaves every other entry as it was. */
  predicate OthersUnchanged<V(==)>(before: map<string, V>, after: map<string, V>, k: string) {
    forall x :: x in before && x != k ==> x in after && after[x] == before[x]
  }

  /** Writing one key leaves every other entry as it was. */
  lemma PutKeepsOthers<V>(r: Registry<V>, k: string, v: V)
    ensures OthersUnchanged(r.entries, Put(r, k, v).entries, k)
  {
  }

  const MinInputLength: nat := 3
  const InputTooShort: string := "Brand input too short. Please provide a brand name, website, or social handle."
  const JobNotFound: string := "Job not found"
  const ReportNotFound: string := "Report not found"
  const SessionNotFound: string := "Session not found"
  const SessionNotInitialised: string := "Session not found. Please initialize chat first."

  /** A fresh job: PENDING, no report link, no email sent. */
  function PendingJob(jobId: string, brandInput: string, inputType: string, email: string, now: string,
                      message: string, chatSessionId: Option<string>): (j: JobRecord)
    ensures j.status == Pending && j.pdfUrl.None? && j.pdfPath.None? && !j.emailSent && j.completedAt.None?
    ensures j.jobId == jobId && j.brandInput == brandInput && j.inputType == inputType && j.email == email
    ensures j.fromChat <==> chatSessionId.Some?
  {
    JobRecord(jobId, Pending, message, brandInput, inputType, email, now, None, None, false, None,
              chatSessionId.Some?, chatSessionId)
  }

  /** Whether some completed job's input matches `handle`, found by the
      first-match lookup. */
  method HasContext(jobs: Jobs, handle: string) returns (found: bool)
    ensures found <==> exists k :: k in jobs.entries && ContextMatch(jobs.entries[k], handle)
  {
    var position := FindContext(jobs, handle);
    if position.Some? {
      var k := jobs.order[position.value];
      assert k in jobs.entries && ContextMatch(jobs.entries[k], handle);
    }
    found := position.Some?;
  }

  /** The body `/api/analyze` answers with. */
  datatype Accepted = Accepted(jobId: string, status: string, message: string, estimatedTime: string)

  /** `analyze_brand`: an input shorter than three characters is refused with
      400 and nothing is stored; otherwise a PENDING job is stored under the
      fresh id (its run is scheduled separately, see `RunJob`). */
  method AnalyzeBrand(jobs: Jobs, brandInput: string, inputType: string, email: string, freshId: string, now: string)
    returns (jobs': Jobs, r: Result<Accepted, HttpError>)
    ensures r.Err? <==> |brandInput| < MinInputLength
    ensures r.Err? ==> r.error == HttpError(400, InputTooShort) && jobs' == jobs
    ensures r.Ok? ==>
      && r.value.jobId == freshId && r.value.status == Wire(Pending)
      && freshId in jobs'.entries
      && jobs'.entries[freshId] == PendingJob(freshId, brandInput, inputType, email, now, "Analysis starting...", None)
      && OthersUnchanged(jobs.entries, jobs'.entries, freshId)
      && jobs'.entries.Keys == jobs.entries.Keys + {freshId}
      && jobs'.order == (if freshId in jobs.entries then jobs.order else jobs.order + [freshId])
  {
    if |brandInput| < MinInputLength {
      return jobs, Err(HttpError(400, InputTooShort));
    }
    var job := PendingJob(freshId, brandInput, inputType, email, now, "Analysis starting...", None);
    jobs' := Put(jobs, freshId, job);
    PutKeepsOthers(jobs, freshId, job);
    r := Ok(Accepted(freshId, Wire(Pending),
                     "Marketing Genome analysis started. Report will be emailed when complete.", "3-5 minutes"));
  }

  /** Two analyses under two new ids: both jobs are listed after the earlier
      ones, in call order. */
  method AnalyzeTwice(jobs: Jobs, brandInput: string, inputType: string, email: string, id1: string, id2: string, now: string)
    returns (jobs': Jobs)
    requires |brandInput| >= MinInputLength
    requires id1 != id2 && id1 !in jobs.entries && id2 !in jobs.entries
    ensures jobs'.order == jobs.order + [id1, id2]
    ensures jobs'.entries[id1].brandInput == jobs'.entries[id2].brandInput == brandInput
  {
    var j1, r1 := AnalyzeBrand(jobs, brandInput, inputType, email, id1, now);
    var j2, r2 := AnalyzeBrand(j1, brandInput, inputType, email, id2, now);
    jobs' := j2;
  }

  /** The scheduled background run of a stored job: the record is replaced by
      the run's final record; no other job and no iteration position changes. */
  method RunJob(jobs: Jobs, jobId: string, env: Env) returns (jobs': Jobs, run: RunResult)
    requires jobId in jobs.entries
    ensures run == Run(jobs.entries[jobId], env)
    ensures jobId in jobs'.entries && jobs'.entries[jobId] == run.job
    ensures IsTerminal(jobs'.entries[jobId].status)
    ensures OthersUnchanged(jobs.entries, jobs'.entries, jobId)
    ensures jobs'.order == jobs.order
  {
    run := Run(jobs.entries[jobId], env);
    RunSettles(jobs.entries[jobId], env);
    jobs' := Put(jobs, jobId, run.job);
    PutKeepsOthers(jobs, jobId, run.job);
  }

  /** The body of `/api/status/{job_id}`. */
  datatype StatusView = StatusView(
    jobId: string,
    status: JobStatus,
    message: string,
    brandInput: string,
    pdfUrl: Option<string>,
    emailSent: bool,
    createdAt: string,
    completedAt: Option<string>)

  /** `get_genome_status`: 404 for an unknown id, otherwise the record's view. */
  method GetGenomeStatus(jobs: Jobs, jobId: string) returns (r: Result<StatusView, HttpError>)
    ensures r.Err? <==> jobId !in jobs.entries
    ensures r.Err? ==> r.error == HttpError(404, JobNotFound)
    ensures r.Ok? ==>
      var j := jobs.entries[jobId];
      && r.value.jobId == jobId && r.value.status == j.status && r.value.message == j.message
      && r.value.brandInput == j.brandInput && r.value.createdAt == j.createdAt
      && r.value.pdfUrl == j.pdfUrl && r.value.emailSent == j.emailSent && r.value.completedAt == j.completedAt
  {
    if jobId !in jobs.entries {
      return Err(HttpError(404, JobNotFound));
    }
    var j := jobs.entries[jobId];
    r := Ok(StatusView(jobId, j.status, j.message, j.brandInput, j.pdfUrl, j.emailSent, j.createdAt, j.completedAt));
  }

  datatype JobSummary = JobSummary(jobId: string, status: JobStatus, brand: string, createdAt: string)

  /** `list_genome_jobs`: every stored job once, in insertion order. */
  method ListGenomeJobs(jobs: Jobs) returns (total: nat, list: seq<JobSummary>)
    ensures total == |jobs.entries| == |jobs.order| == |list|
    ensures forall i :: 0 <= i < |list| ==>
      && list[i].jobId == jobs.order[i]
      && list[i].status == jobs.entries[jobs.order[i]].status
      && list[i].brand == jobs.entries[jobs.order[i]].brandInput
      && list[i].createdAt == jobs.entries[jobs.order[i]].createdAt
  {
    OrderLength(jobs);
    total := |jobs.entries|;
    list := seq(|jobs.order|, i requires 0 <= i < |jobs.order| =>
      var j := jobs.entries[jobs.order[i]];
      JobSummary(jobs.order[i], j.status, j.brandInput, j.createdAt));
  }

  datatype Download = Download(path: string, mediaType: string, filename: string)

  /** `download_report`: 404 for an unknown job, and 404 again while no
      non-empty report path is recorded or the file is missing. `fileExists`
      stands for the file system. */
  method DownloadReport(jobs: Jobs, jobId: string, fileExists: string -> bool) returns (r: Result<Download, HttpError>)
    ensures jobId !in jobs.entries ==> r == Err(HttpError(404, JobNotFound))
    ensures jobId in jobs.entries ==>
      var p := jobs.entries[jobId].pdfPath;
      && (r.Ok? <==> p.Some? && p.value != "" && fileExists(p.value))
      && (r.Err? ==> r.error == HttpError(404, ReportNotFound))
    ensures r.Ok? ==>
      && Some(r.value.path) == jobs.entries[jobId].pdfPath
      && r.value.mediaType == "application/pdf"
      && r.value.filename == "marketing_genome_" + jobId + ".pdf"
  {
    if jobId !in jobs.entries {
      return Err(HttpError(404, JobNotFound));
    }
    var p := jobs.entries[jobId].pdfPath;
    if p.None? || p.value == "" || !fileExists(p.value) {
      return Err(HttpError(404, ReportNotFound));
    }
    r := Ok(Download(p.value, "application/pdf", "marketing_genome_" + jobId + ".pdf"));
  }

  /** A job whose analysis can seed a chat with `handle`: completed, and its
      brand input equal to the handle ignoring case. */
  predicate ContextMatch(job: JobRecord, handle: string) {
    job.status == Completed && Lower(job.brandInput) == Lower(handle)
  }

  predicate MatchesAt(jobs: Jobs, i: int, handle: string) {
    0 <= i < |jobs.order| && ContextMatch(jobs.entries[jobs.order[i]], handle)
  }

  /** The context lookup of `initialize_chat`: the position in iteration order
      of the first matching job, `None` when none matches. */
  method FindContext(jobs: Jobs, handle: string) returns (position: Option<nat>)
    ensures position.Some? ==>
      && MatchesAt(jobs, position.value, handle)
      && forall j :: 0 <= j < position.value ==> !MatchesAt(jobs, j, handle)
    ensures position.None? <==> forall k :: k in jobs.entries ==> !ContextMatch(jobs.entries[k], handle)
  {
    var i := 0;
    while i < |jobs.order|
      invariant 0 <= i <= |jobs.order|
      invariant forall j :: 0 <= j < i ==> !MatchesAt(jobs, j, handle)
    {
      if ContextMatch(jobs.entries[jobs.order[i]], handle) {
        return Some(i);
      }
      i := i + 1;
    }
    forall k | k in jobs.entries ensures !ContextMatch(jobs.entries[k], handle) {
      var j :| 0 <= j < |jobs.order| && jobs.order[j] == k;
      assert !MatchesAt(jobs, j, handle);
    }
    return None;
  }

  /** The greeting names the brand in bold. */
  function WelcomeMessage(handle: string): (r: string)
    ensures Contains(r, "**" + handle + "**")
  {
    var greeting := "Hi! I'm your personal AI strategist for ";
    var r := greeting + "**" + handle + "**.\n\n"
      + "I can help you with:\n"
      + "- Content creation (Instagram posts, captions, campaigns)\n"
      + "- Audience insights and personas\n"
      + "- Competitor analysis\n"
      + "- Growth strategies\n"
      + "- Engagement predictions\n"
      + "- Weekly content planning\n\n"
      + "What would you like to work on today?";
    var bold := "**" + handle + "**";
    assert r[|greeting|..|greeting| + |bold|] == bold;
    ContainsAt(r, bold, |greeting|);
    r
  }

  datatype ChatStarted = ChatStarted(sessionId: string, brandHandle: string, welcomeMessage: string, hasContext: bool)

  /** `initialize_chat`: always a new session under the fresh id, never one
      reused for the same brand. The assistant is seeded with the context
      built from the first matching job, whose three sections are empty since
      job records hold none of them; `clientError` is the failure of the AI
      client's construction, which answers 500 and stores nothing. */
  method InitializeChat(jobs: Jobs, sessions: Sessions, handle: string, freshId: string, now: string,
                        clientError: Option<string>)
    returns (sessions': Sessions, r: Result<ChatStarted, HttpError>)
    ensures clientError.Some? ==>
      r == Err(HttpError(500, "Failed to initialize chat: " + clientError.value)) && sessions' == sessions
    ensures clientError.None? ==> r.Ok?
    ensures r.Ok? ==>
      && r.value.sessionId == freshId && r.value.brandHandle == handle
      && r.value.welcomeMessage == WelcomeMessage(handle)
      && (r.value.hasContext <==> exists k :: k in jobs.entries && ContextMatch(jobs.entries[k], handle))
    ensures r.Ok? ==>
      && freshId in sessions'.entries
      && sessions'.entries[freshId]
         == Session(freshId, handle, NewAssistant(handle, if r.value.hasContext then Some(JobContext) else None), now, now)
    ensures r.Ok? ==>
      && OthersUnchanged(sessions.entries, sessions'.entries, freshId)
      && sessions'.entries.Keys == sessions.entries.Keys + {freshId}
      && sessions'.order == (if freshId in sessions.entries then sessions.order else sessions.order + [freshId])
      && (freshId !in sessions.entries ==> |sessions'.entries| == |sessions.entries| + 1)
  {
    if clientError.Some? {
      return sessions, Err(HttpError(500, "Failed to initialize chat: " + clientError.value));
    }
    var hasContext := HasContext(jobs, handle);
    var context := if hasContext then Some(JobContext) else None;
    var session := Session(freshId, handle, NewAssistant(handle, context), now, now);
    sessions' := Put(sessions, freshId, session);
    PutKeepsOthers(sessions, freshId, session);
    assert sessions'.entries[freshId] == session;
    r := Ok(ChatStarted(freshId, handle, WelcomeMessage(handle), hasContext));
  }

  /** The body of `/api/chat/message`. */
  datatype ChatResponse = ChatResponse(
    sessionId: string,
    response: string,
    actionType: string,
    needsReport: bool,
    imageUrl: Option<string>)

  /** `send_chat_message`: 404 for an unknown session; otherwise the session's
      assistant takes one chat turn and its activity time is renewed. */
  method SendChatMessage(sessions: Sessions, sessionId: string, message: string, backend: Backend, now: string)
    returns (sessions': Sessions, r: Result<ChatResponse, HttpError>)
    ensures r.Err? <==> sessionId !in sessions.entries
    ensures r.Err? ==> r.error == HttpError(404, SessionNotInitialised) && sessions' == sessions
    ensures r.Ok? ==>
      var before := sessions.entries[sessionId];
      var turn := Chat(before.assistant, message, backend);
      && sessionId in sessions'.entries
      && sessions'.entries[sessionId] == before.(assistant := turn.state, lastActivity := now)
      && sessions'.order == sessions.order
      && OthersUnchanged(sessions.entries, sessions'.entries, sessionId)
      && r.value.sessionId == sessionId
      && r.value.response == turn.reply.response
      && r.value.actionType == ActionLabel(turn.reply.action)
      && r.value.needsReport == turn.reply.needsReport
      && r.value.imageUrl == turn.reply.imageUrl
      && r.value.actionType in Labels + {"error"}
      && |turn.state.history| == |before.assistant.history| + (if r.value.actionType == "error" then 1 else 2)
  {
    if sessionId !in sessions.entries {
      return sessions, Err(HttpError(404, SessionNotInitialised));
    }
    var before := sessions.entries[sessionId];
    var turn := Chat(before.assistant, message, backend);
    sessions' := Put(sessions, sessionId, before.(assistant := turn.state, lastActivity := now));
    PutKeepsOthers(sessions, sessionId, before.(assistant := turn.state, lastActivity := now));
    ReplyLabel(before.assistant, message, backend);
    r := Ok(ChatResponse(sessionId, turn.reply.response, ActionLabel(turn.reply.action),
                         turn.reply.needsReport, turn.reply.imageUrl));
  }

  datatype ReportAccepted = ReportAccepted(success: bool, jobId: string, message: string, estimatedTime: string)

  /** `generate_chat_report`: 404 for an unknown session; otherwise a PENDING
      job for the session's brand, with type "auto" and a link back to the
      session, is stored under the fresh id. */
  method GenerateChatReport(jobs: Jobs, sessions: Sessions, sessionId: string, email: string, freshId: string, now: string)
    returns (jobs': Jobs, r: Result<ReportAccepted, HttpError>)
    ensures r.Err? <==> sessionId !in sessions.entries
    ensures r.Err? ==> r.error == HttpError(404, SessionNotFound) && jobs' == jobs
    ensures r.Ok? ==>
      var handle := sessions.entries[sessionId].brandHandle;
      && r.value.jobId == freshId
      && r.value.message == "Report is being generated for " + handle + " and will be sent to " + email
      && freshId in jobs'.entries
      && jobs'.entries[freshId]
         == PendingJob(freshId, handle, "auto", email, now, "Generating report from chat session...", Some(sessionId))
      && OthersUnchanged(jobs.entries, jobs'.entries, freshId)
      && jobs'.entries.Keys == jobs.entries.Keys + {freshId}
      && jobs'.order == (if freshId in jobs.entries then jobs.order else jobs.order + [freshId])
  {
    if sessionId !in sessions.entries {
      return jobs, Err(HttpError(404, SessionNotFound));
    }
    var handle := sessions.entries[sessionId].brandHandle;
    var job := PendingJob(freshId, handle, "auto", email, now, "Generating report from chat session...", Some(sessionId));
    jobs' := Put(jobs, freshId, job);
    PutKeepsOthers(jobs, freshId, job);
    r := Ok(ReportAccepted(true, freshId,
                           "Report is being generated for " + handle + " and will be sent to " + email, "3-5 minutes"));
  }

  datatype HistoryView = HistoryView(
    sessionId: string,
    brandHandle: string,
    conversation: seq<Message>,
    createdAt: string,
    lastActivity: string)

  /** `get_chat_history`: 404 for an unknown session, otherwise its full
      history in order with its creation and last-activity times. */
  method GetChatHistory(sessions: Sessions, sessionId: string) returns (r: Result<HistoryView, HttpError>)
    ensures r.Err? <==> sessionId !in sessions.entries
    ensures r.Err? ==> r.error == HttpError(404, SessionNotFound)
    ensures r.Ok? ==>
      var s := sessions.entries[sessionId];
      && r.value.sessionId == sessionId
      && r.value.conversation == s.assistant.history
      && r.value.brandHandle == s.brandHandle
      && r.value.createdAt == s.createdAt
      && r.value.lastActivity == s.lastActivity
  {
    if sessionId !in sessions.entries {
      return Err(HttpError(404, SessionNotFound));
    }
    var s := sessions.entries[sessionId];
    r := Ok(HistoryView(sessionId, s.brandHandle, s.assistant.history, s.createdAt, s.lastActivity));
  }

  datatype Ended = Ended(success: bool, message: string, exportPath: Option<string>)

  /** `end_chat_session`: 404 for an unknown session; otherwise the session is
      removed whether or not exporting its conversation (`exported`) succeeded,
      and the remaining sessions keep their listing order. */
  method EndChatSession(sessions: Sessions, sessionId: string, exported: Result<string, string>)
    returns (sessions': Sessions, r: Result<Ended, HttpError>)
    ensures r.Err? <==> sessionId !in sessions.entries
    ensures r.Err? ==> r.error == HttpError(404, SessionNotFound) && sessions' == sessions
    ensures r.Ok? ==>
      && sessions'.entries == sessions.entries - {sessionId}
      && sessionId !in sessions'.order
      && InOrder(sessions'.order, sessions.order)
      && r.value.exportPath == (if exported.Ok? then Some(exported.value) else None)
      && r.value.message == "Chat session ended"
  {
    if sessionId !in sessions.entries {
      return sessions, Err(HttpError(404, SessionNotFound));
    }
    var exportPath := if exported.Ok? then Some(exported.value) else None;
    sessions' := Remove(sessions, sessionId);
    RemoveKeepsOrder(sessions, sessionId);
    r := Ok(Ended(true, "Chat session ended", exportPath));
  }

  datatype SessionSummary = SessionSummary(sessionId: string, brandHandle: string, createdAt: string, lastActivity: string)

  /** `list_chat_sessions`: every live session once, in insertion order,
      without its assistant or history. */
  method ListChatSessions(sessions: Sessions) returns (total: nat, list: seq<SessionSummary>)
    ensures total == |sessions.entries| == |sessions.order| == |list|
    ensures forall i :: 0 <= i < |list| ==>
      && list[i].sessionId == sessions.order[i]
      && list[i].brandHandle == sessions.entries[sessions.order[i]].brandHandle
      && list[i].createdAt == sessions.entries[sessions.order[i]].createdAt
      && list[i].lastActivity == sessions.entries[sessions.order[i]].lastActivity
    ensures forall id :: id in sessions.entries <==> exists i :: 0 <= i < |list| && list[i].sessionId == id
  {
    OrderLength(sessions);
    total := |sessions.entries|;
    list := seq(|sessions.order|, i requires 0 <= i < |sessions.order| =>
      var s := sessions.entries[sessions.order[i]];
      SessionSummary(sessions.order[i], s.brandHandle, s.createdAt, s.lastActivity));
  }

  /** Sending a message, then asking for the history: the history view shows
      the renewed activity time, the unchanged creation time, and the user
      message right after the earlier entries. */
  method MessageThenHistory(sessions: Sessions, sessionId: string, message: string, backend: Backend, now: string)
    returns (sent: Result<ChatResponse, HttpError>, history: Result<HistoryView, HttpError>)
    requires sessionId in sessions.entries
    ensures sent.Ok? && history.Ok?
    ensures history.value.lastActivity == now
    ensures history.value.createdAt == sessions.entries[sessionId].createdAt
    ensures var before := sessions.entries[sessionId].assistant.history;
      && |history.value.conversation| > |before|
      && history.value.conversation[..|before| + 1] == before + [UserMessage(message)]
  {
    var after;
    after, sent := SendChatMessage(sessions, sessionId, message, backend, now);
    history := GetChatHistory(after, sessionId);
  }

  /** Ending a session, then asking for it again: the second request is a
      404 and the session no longer appears in the listing. */
  method EndThenLookUp(sessions: Sessions, sessionId: string, exported: Result<string, string>)
    returns (ended: Result<Ended, HttpError>, history: Result<HistoryView, HttpError>, listed: seq<SessionSummary>)
    requires sessionId in sessions.entries
    ensures ended.Ok?
    ensures history == Err(HttpError(404, SessionNotFound))
    ensures forall i :: 0 <= i < |listed| ==> listed[i].sessionId != sessionId
  {
    var after;
    after, ended := EndChatSession(sessions, sessionId, exported);
    history := GetChatHistory(after, sessionId);
    var _, l := ListChatSessions(after);
    listed := l;
  }

  /** Two chats opened for the same brand are two sessions. */
  method InitializeTwice(jobs: Jobs, sessions: Sessions, handle: string, id1: string, id2: string, now: string)
    returns (sessions': Sessions)
    requires id1 != id2 && id1 !in sessions.entries && id2 !in sessions.entries
    ensures id1 in sessions'.entries && id2 in sessions'.entries
    ensures |sessions'.entries| == |sessions.entries| + 2
    ensures sessions'.entries[id1].brandHandle == sessions'.entries[id2].brandHandle == handle
  {
    var s1, r1 := InitializeChat(jobs, sessions, handle, id1, now, None);
    var s2, r2 := InitializeChat(jobs, s1, handle, id2, now, None);
    sessions' := s2;
  }
}
