/** The background analysis run (`analyze_brand_genome`): seven stages in a
    fixed order, each announced by a progress message, the first failure
    aborting the run. The AI calls, the PDF renderer and the mailer are
    fields of an environment record; what the run does to the job record and
    the messages it shows are observable through the returned record and an
    event log. */
module Pipeline {

  import opened Wrappers
  import opened Models
  import opened Engine

  /** A record of the job registry. */
  datatype JobRecord = JobRecord(
    jobId: string,
    status: JobStatus,
    message: string,
    brandInput: string,
    inputType: string,
    email: string,
    createdAt: string,
    pdfUrl: Option<string>,
    pdfPath: Option<string>,
    emailSent: bool,
    completedAt: Option<string>,
    fromChat: bool,
    chatSessionId: Option<string>)

  /** The fields a run never writes. */
  predicate SameJob(a: JobRecord, b: JobRecord) {
    && a.jobId == b.jobId && a.brandInput == b.brandInput && a.inputType == b.inputType
    && a.email == b.email && a.createdAt == b.createdAt
    && a.fromChat == b.fromChat && a.chatSessionId == b.chatSessionId
  }

  datatype Stage = CollectData | ExtractDna | MapCompetitors | PlanGrowth | PlanContent | RenderReport | SendReport

  /** The stages in the order a run executes them. */
  const Stages: seq<Stage> :=
    [CollectData, ExtractDna, MapCompetitors, PlanGrowth, PlanContent, RenderReport, SendReport]

  /** The progress message set just before each stage runs. */
  function Progress(s: Stage): string {
    match s
    case CollectData => "Collecting brand data from multiple sources..."
    case ExtractDna => "Analyzing brand personality and positioning..."
    case MapCompetitors => "Analyzing competitor landscape..."
    case PlanGrowth => "Generating growth strategy..."
    case PlanContent => "Creating content strategy..."
    case RenderReport => "Creating Marketing Genome Report..."
    case SendReport => "Sending Marketing Genome Report..."
  }

  /** A progress message names the stage about to run: no two stages share one. */
  lemma ProgressIdentifiesStage(s: Stage, t: Stage)
    ensures Progress(s) == Progress(t) ==> s == t
  {
  }

  const StartMessage: string := "Analyzing brand data..."
  const DoneMessage: string := "Marketing Genome Report generated successfully!"
  const ErrorPrefix: string := "Error generating genome: "

  function ReportUrl(jobId: string): string {
    "/api/download/report/" + jobId
  }

  /** A dict produced by the AI service (brand DNA, competitor intelligence,
      growth roadmap, content strategy); its contents are not modelled. */
  type Analysis = map<string, string>

  /** Everything a run calls out to. Each AI stage and the renderer may
      raise (`Err`); the mailer reports success as a boolean and never raises.
      `apiKey` is the configured key the engine constructor checks. */
  datatype Env = Env(
    apiKey: Option<string>,
    fetch: string -> Result<Page, string>,
    extractDna: BrandData -> Result<Analysis, string>,
    mapCompetitors: (BrandData, Analysis) -> Result<Analysis, string>,
    planGrowth: (Analysis, Analysis) -> Result<Analysis, string>,
    planContent: Analysis -> Result<Analysis, string>,
    render: (string, string, Analysis, Analysis, Analysis, Analysis) -> Result<string, string>,
    deliver: (string, string, string) -> bool,
    now: string)

  /** The value a stage produces. */
  datatype Output = Collected(data: BrandData) | Analysed(result: Analysis) | Rendered(path: string) | Delivered(sent: bool)

  predicate Fits(s: Stage, o: Output) {
    match s
    case CollectData => o.Collected?
    case RenderReport => o.Rendered?
    case SendReport => o.Delivered?
    case _ => o.Analysed?
  }

  /** The outputs of the stages run so far, each of its stage's kind. */
  predicate WellTyped(done: seq<Output>) {
    |done| <= |Stages| && forall k :: 0 <= k < |done| ==> Fits(Stages[k], done[k])
  }

  /** An AI stage's dict as a stage output; its exception passes through. */
  function AsAnalysis(x: Result<Analysis, string>): (r: Result<Output, string>)
    ensures r.Ok? <==> x.Ok?
    ensures r.Ok? ==> r.value == Analysed(x.value)
    ensures r.Err? ==> r.error == x.error
  {
    match x
    case Ok(a) => Ok(Analysed(a))
    case Err(e) => Err(e)
  }

  /** Runs stage `i` on the outputs of the stages before it: each stage gets
      exactly the inputs the source passes it. */
  function Execute(i: nat, done: seq<Output>, job: JobRecord, env: Env): (r: Result<Output, string>)
    requires i == |done| < |Stages| && WellTyped(done)
    ensures r.Ok? ==> Fits(Stages[i], r.value)
    ensures i == 0 ==> r == Ok(Collected(CollectBrandData(job.brandInput, job.inputType, env.fetch)))
    ensures i == 1 ==> r == AsAnalysis(env.extractDna(done[0].data))
    ensures i == 2 ==> r == AsAnalysis(env.mapCompetitors(done[0].data, done[1].result))
    ensures i == 3 ==> r == AsAnalysis(env.planGrowth(done[1].result, done[2].result))
    ensures i == 4 ==> r == AsAnalysis(env.planContent(done[1].result))
    ensures i == 5 ==>
      var rendered := env.render(job.jobId, done[0].data.brandName, done[1].result, done[2].result, done[3].result, done[4].result);
      && (r.Ok? <==> rendered.Ok?)
      && (r.Ok? ==> r.value == Rendered(rendered.value))
      && (r.Err? ==> r.error == rendered.error)
    ensures i == 6 ==> r == Ok(Delivered(env.deliver(job.email, job.brandInput, done[5].path)))
  {
    match Stages[i]
    case CollectData => Ok(Collected(CollectBrandData(job.brandInput, job.inputType, env.fetch)))
    case ExtractDna => AsAnalysis(env.extractDna(done[0].data))
    case MapCompetitors => AsAnalysis(env.mapCompetitors(done[0].data, done[1].result))
    case PlanGrowth => AsAnalysis(env.planGrowth(done[1].result, done[2].result))
    case PlanContent => AsAnalysis(env.planContent(done[1].result))
    case RenderReport =>
      (match env.render(job.jobId, done[0].data.brandName, done[1].result, done[2].result, done[3].result, done[4].result)
       case Ok(p) => Ok(Rendered(p)) case Err(e) => Err(e))
    case SendReport => Ok(Delivered(env.deliver(job.email, job.brandInput, done[5].path)))
  }

  /** What the job record keeps of a stage's output: only the report's path
      and download link, and the delivery result. */
  function Record(i: nat, out: Output, job: JobRecord): (r: JobRecord)
    requires i < |Stages| && Fits(Stages[i], out)
    ensures SameJob(r, job) && r.status == job.status && r.message == job.message
    ensures i < 5 ==> r == job
  {
    if i == 5 then job.(pdfPath := Some(out.path), pdfUrl := Some(ReportUrl(job.jobId)))
    else if i == 6 then job.(emailSent := out.sent)
    else job
  }

  /** Once stage i has been recorded, the record reflects the report's path
      (the one the renderer returned for this job) and link, and the delivery
      result. */
  predicate Recorded(i: nat, done: seq<Output>, job: JobRecord, env: Env)
    requires i == |done| && WellTyped(done)
  {
    && (i > 5 ==> job.pdfPath == Some(done[5].path) && job.pdfUrl == Some(ReportUrl(job.jobId)))
    && (i > 5 ==> env.render(job.jobId, done[0].data.brandName, done[1].result, done[2].result, done[3].result, done[4].result)
                  == Ok(done[5].path))
    && (i > 6 ==> job.emailSent == done[6].sent == env.deliver(job.email, job.brandInput, done[5].path))
  }

  /** What a run makes observable, in order. */
  datatype Event =
    | StatusSet(status: JobStatus)
    | MessageSet(text: string)
    | StageRun(stage: Stage)
    | FailureNotified(email: string, brandInput: string, error: string)

  /** The stages run, in order. */
  function Ran(events: seq<Event>): (r: seq<Stage>)
    ensures |r| <= |events|
  {
    if |events| == 0 then []
    else (if events[0].StageRun? then [events[0].stage] else []) + Ran(events[1..])
  }

  /** The statuses set, in order. */
  function Statuses(events: seq<Event>): (r: seq<JobStatus>)
    ensures |r| <= |events|
  {
    if |events| == 0 then []
    else (if events[0].StatusSet? then [events[0].status] else []) + Statuses(events[1..])
  }

  /** A stage is among those run exactly when the log records running it,
      and a status is among those set exactly when the log records setting it. */
  lemma {:induction false} RanRecordsEvents(events: seq<Event>)
    ensures forall s :: s in Ran(events) <==> StageRun(s) in events
    ensures forall st :: st in Statuses(events) <==> StatusSet(st) in events
    decreases |events|
  {
    if |events| > 0 {
      RanRecordsEvents(events[1..]);
      assert events == [events[0]] + events[1..];
    }
  }

  /** Every stage runs right after its own progress message was set. */
  predicate Announced(events: seq<Event>) {
    forall k :: 0 <= k < |events| && events[k].StageRun? ==>
      k > 0 && events[k - 1] == MessageSet(Progress(events[k].stage))
  }

  lemma {:induction false} RanAppend(a: seq<Event>, b: seq<Event>)
    ensures Ran(a + b) == Ran(a) + Ran(b)
    ensures Statuses(a + b) == Statuses(a) + Statuses(b)
    decreases |a|
  {
    if |a| > 0 {
      assert (a + b)[1..] == a[1..] + b;
      RanAppend(a[1..], b);
    } else {
      assert a + b == b;
    }
  }

  lemma AnnouncedAppend(a: seq<Event>, b: seq<Event>)
    requires Announced(a) && Announced(b)
    ensures Announced(a + b)
  {
    forall k | 0 <= k < |a + b| && (a + b)[k].StageRun?
      ensures k > 0 && (a + b)[k - 1] == MessageSet(Progress((a + b)[k].stage))
    {
      if k >= |a| {
        assert (a + b)[k] == b[k - |a|];
        assert k - |a| > 0;
        assert (a + b)[k - 1] == b[k - 1 - |a|];
      } else {
        assert (a + b)[k] == a[k] && (a + b)[k - 1] == a[k - 1];
      }
    }
  }

  /** The outcome of a run: the final record, the events in order, the index
      just past the last stage run, and the error that aborted it if any. */
  datatype RunResult = RunResult(job: JobRecord, events: seq<Event>, reached: nat, error: Option<string>)

  /** The events of a run from stage `i`: the stages from `i` up to `reached`
      run in order, each announced, and exactly one status is set. */
  predicate EventsFrom(i: nat, r: RunResult) {
    && i <= r.reached <= |Stages|
    && Ran(r.events) == Stages[i..r.reached]
    && Announced(r.events)
    && Statuses(r.events) == [r.job.status]
  }

  /** `path` is a report the renderer returned for the job `jobId`. */
  ghost predicate RenderedBy(env: Env, jobId: string, path: string) {
    exists name, dna, competitors, roadmap, content :: env.render(jobId, name, dna, competitors, roadmap, content) == Ok(path)
  }

  /** The record after a run started on `job`: COMPLETED with the report link,
      the completion time and the delivery result exactly when no stage
      failed; otherwise FAILED with the error as message and the report
      fields as they were, the failure mail being the last thing done. */
  ghost predicate Settled(job: JobRecord, env: Env, r: RunResult) {
    && SameJob(r.job, job)
    && (r.job.status == Completed || r.job.status == Failed)
    && (r.job.status == Completed <==> r.error.None?)
    && (r.job.status == Completed ==>
          && r.reached == |Stages|
          && r.job.message == DoneMessage
          && r.job.completedAt == Some(env.now)
          && r.job.pdfUrl == Some(ReportUrl(job.jobId))
          && r.job.pdfPath.Some?
          && RenderedBy(env, job.jobId, r.job.pdfPath.value)
          && r.job.emailSent == env.deliver(job.email, job.brandInput, r.job.pdfPath.value))
    && (r.job.status == Failed ==>
          && r.reached <= 6
          && r.job.message == ErrorPrefix + r.error.value
          && r.job.pdfUrl == job.pdfUrl && r.job.pdfPath == job.pdfPath && r.job.emailSent == job.emailSent
          && r.job.completedAt == job.completedAt
          && |r.events| > 0
          && r.events[|r.events| - 1] == FailureNotified(job.email, job.brandInput, r.error.value))
  }

  /** The handler: status FAILED, the error as message, then the failure mail
      (whose own failure is swallowed). */
  function AbortEvents(job: JobRecord, e: string): (r: seq<Event>)
    ensures Ran(r) == [] && Statuses(r) == [Failed] && Announced(r)
  {
    var r := [StatusSet(Failed), MessageSet(ErrorPrefix + e), FailureNotified(job.email, job.brandInput, e)];
    assert r[1..][1..][1..] == [];
    assert Ran(r[2..]) == [] && Statuses(r[2..]) == [] by {
      assert r[2..][1..] == [];
    }
    assert r[1..][1..] == r[2..];
    r
  }

  function Abort(job: JobRecord, e: string): (r: JobRecord)
    ensures SameJob(r, job) && r.status == Failed && r.message == ErrorPrefix + e
    ensures r.pdfUrl == job.pdfUrl && r.pdfPath == job.pdfPath && r.emailSent == job.emailSent
  {
    job.(status := Failed, message := ErrorPrefix + e)
  }

  /** A stage's progress message followed by the stage itself. */
  function StageEvents(s: Stage): (r: seq<Event>)
    ensures Ran(r) == [s] && Statuses(r) == [] && Announced(r)
  {
    var r := [MessageSet(Progress(s)), StageRun(s)];
    assert r[1..][1..] == [];
    r
  }

  const DoneEvents: seq<Event> := [StatusSet(Completed), MessageSet(DoneMessage)]

  lemma DoneEventsShape()
    ensures Ran(DoneEvents) == [] && Statuses(DoneEvents) == [Completed] && Announced(DoneEvents)
  {
    assert DoneEvents[1..][1..] == [];
  }

  /** Stage `i` failing ends the run after it. */
  lemma AbortSettles(i: nat, job: JobRecord, env: Env, e: string)
    requires i < 6
    ensures var r := RunResult(Abort(job.(message := Progress(Stages[i])), e),
                               StageEvents(Stages[i]) + AbortEvents(job, e), i + 1, Some(e));
      EventsFrom(i, r) && Settled(job, env, r)
  {
    var head := StageEvents(Stages[i]);
    var tail := AbortEvents(job, e);
    RanAppend(head, tail);
    AnnouncedAppend(head, tail);
    assert Stages[i..i + 1] == [Stages[i]];
    assert (head + tail)[|head + tail| - 1] == tail[2];
  }

  /** Stage `i` succeeding, then the run from `i + 1`: the events of both
      read as the events of the run from `i`. */
  lemma StepEvents(i: nat, rest: RunResult)
    requires i < |Stages| && EventsFrom(i + 1, rest)
    ensures EventsFrom(i, RunResult(rest.job, StageEvents(Stages[i]) + rest.events, rest.reached, rest.error))
  {
    var head := StageEvents(Stages[i]);
    RanAppend(head, rest.events);
    AnnouncedAppend(head, rest.events);
    assert Stages[i..rest.reached] == [Stages[i]] + Stages[i + 1..rest.reached];
    assert Ran(head + rest.events) == Stages[i..rest.reached];
    assert Statuses(head + rest.events) == [rest.job.status];
  }

  /** ... and the record it leaves settles the run from `i`. */
  lemma StepSettles(i: nat, job: JobRecord, next: JobRecord, env: Env, rest: RunResult)
    requires i < |Stages|
    requires SameJob(next, job) && (i < 5 ==> next.pdfUrl == job.pdfUrl && next.pdfPath == job.pdfPath)
    requires i < 6 ==> next.emailSent == job.emailSent
    requires next.completedAt == job.completedAt
    requires Settled(next, env, rest)
    requires rest.job.status == Failed ==> i + 1 < rest.reached
    ensures Settled(job, env, RunResult(rest.job, StageEvents(Stages[i]) + rest.events, rest.reached, rest.error))
  {
    if rest.job.status == Failed {
      var ev := StageEvents(Stages[i]) + rest.events;
      assert ev[|ev| - 1] == rest.events[|rest.events| - 1];
    }
  }

  /** A stage that succeeded extends the outputs and the record consistently. */
  lemma Advance(i: nat, done: seq<Output>, job: JobRecord, env: Env, out: Output)
    requires i == |done| < |Stages| && WellTyped(done) && Recorded(i, done, job, env)
    requires Execute(i, done, job.(message := Progress(Stages[i])), env) == Ok(out)
    ensures WellTyped(done + [out])
    ensures Recorded(i + 1, done + [out], Record(i, out, job.(message := Progress(Stages[i]))), env)
  {
    var done' := done + [out];
    assert forall k :: 0 <= k < i ==> done'[k] == done[k];
    if i > 5 { assert done'[5] == done[5]; }
  }

  /** The run from stage `i` on, given the outputs of the stages before it. */
  function RunFrom(i: nat, done: seq<Output>, job: JobRecord, env: Env): (r: RunResult)
    requires i == |done| && WellTyped(done) && Recorded(i, done, job, env)
    ensures EventsFrom(i, r)
    ensures Settled(job, env, r)
    ensures r.job.status == Failed ==> i < r.reached
    decreases |Stages| - i
  {
    if i == |Stages| then
      DoneEventsShape();
      assert RenderedBy(env, job.jobId, job.pdfPath.value) by {
        assert env.render(job.jobId, done[0].data.brandName, done[1].result, done[2].result, done[3].result, done[4].result)
               == Ok(job.pdfPath.value);
      }
      RunResult(job.(status := Completed, message := DoneMessage, completedAt := Some(env.now)), DoneEvents, i, None)
    else
      var announced := job.(message := Progress(Stages[i]));
      match Execute(i, done, announced, env)
      case Err(e) =>
        AbortSettles(i, job, env, e);
        RunResult(Abort(announced, e), StageEvents(Stages[i]) + AbortEvents(job, e), i + 1, Some(e))
      case Ok(out) =>
        var done' := done + [out];
        Advance(i, done, job, env, out);
        var next := Record(i, out, announced);
        var rest := RunFrom(i + 1, done', next, env);
        StepEvents(i, rest);
        StepSettles(i, job, next, env, rest);
        RunResult(rest.job, StageEvents(Stages[i]) + rest.events, rest.reached, rest.error)
  }

  const StartEvents: seq<Event> := [StatusSet(Processing), MessageSet(StartMessage)]

  lemma StartEventsShape()
    ensures Ran(StartEvents) == [] && Statuses(StartEvents) == [Processing] && Announced(StartEvents)
  {
    assert StartEvents[1..][1..] == [];
  }

  /** The observable facts of a run that began with `StartEvents`. */
  ghost predicate Started(job: JobRecord, env: Env, r: RunResult) {
    && |r.events| >= 2 && r.events[..2] == StartEvents
    && Statuses(r.events) == [Processing, r.job.status]
    && r.reached <= |Stages|
    && Ran(r.events) == Stages[..r.reached]
    && Announced(r.events)
    && Settled(job, env, r)
  }

  /** Without an API key the run fails before any stage. */
  lemma MissingKeySettles(job: JobRecord, started: JobRecord, env: Env, e: string)
    requires SameJob(started, job) && started.pdfUrl == job.pdfUrl && started.pdfPath == job.pdfPath
    requires started.emailSent == job.emailSent && started.completedAt == job.completedAt
    ensures Started(job, env, RunResult(Abort(started, e), StartEvents + AbortEvents(job, e), 0, Some(e)))
  {
    var tail := AbortEvents(job, e);
    StartEventsShape();
    RanAppend(StartEvents, tail);
    AnnouncedAppend(StartEvents, tail);
    assert (StartEvents + tail)[|StartEvents + tail| - 1] == tail[2];
    assert (StartEvents + tail)[..2] == StartEvents;
  }

  /** A run of the stages behind `StartEvents` keeps its outcome. */
  lemma StagesSettle(job: JobRecord, started: JobRecord, env: Env, rest: RunResult)
    requires SameJob(started, job) && started.pdfUrl == job.pdfUrl && started.pdfPath == job.pdfPath
    requires started.emailSent == job.emailSent && started.completedAt == job.completedAt
    requires EventsFrom(0, rest) && Settled(started, env, rest)
    requires rest.job.status == Failed ==> 0 < rest.reached
    ensures Started(job, env, RunResult(rest.job, StartEvents + rest.events, rest.reached, rest.error))
  {
    StartEventsShape();
    RanAppend(StartEvents, rest.events);
    AnnouncedAppend(StartEvents, rest.events);
    assert (StartEvents + rest.events)[..2] == StartEvents;
    if rest.job.status == Failed {
      assert (StartEvents + rest.events)[|StartEvents + rest.events| - 1] == rest.events[|rest.events| - 1];
    }
  }

  /** `analyze_brand_genome`: status PROCESSING and the starting message, then
      the engine constructor (which raises without an API key), then the
      stages. */
  function Run(job: JobRecord, env: Env): (r: RunResult)
    ensures Started(job, env, r)
    ensures NewEngine(env.apiKey).Err? ==> r.reached == 0 && r.error == Some(MissingKeyError)
  {
    var started := job.(status := Processing, message := StartMessage);
    match NewEngine(env.apiKey)
    case Err(e) =>
      MissingKeySettles(job, started, env, e);
      RunResult(Abort(started, e), StartEvents + AbortEvents(job, e), 0, Some(e))
    case Ok(_) =>
      var rest := RunFrom(0, [], started, env);
      StagesSettle(job, started, env, rest);
      RunResult(rest.job, StartEvents + rest.events, rest.reached, rest.error)
  }

  /** Every run ends the job Completed or Failed. */
  lemma RunSettles(job: JobRecord, env: Env)
    ensures IsTerminal(Run(job, env).job.status)
  {
    assert Started(job, env, Run(job, env));
  }

  /** A fresh job whose run fails keeps no report: the failure comes before
      the mailer (which never raises), so neither path nor link is written. */
  lemma FailedRunLeavesNoReport(job: JobRecord, env: Env)
    requires job.pdfUrl.None? && job.pdfPath.None?
    ensures var r := Run(job, env);
      r.job.status == Failed ==> r.reached < |Stages| && r.job.pdfUrl.None? && r.job.pdfPath.None?
  {
    var r := Run(job, env);
    assert Started(job, env, r);
  }

  /** Every AI stage and the renderer return normally on every input. */
  ghost predicate NeverRaises(env: Env) {
    && (forall d :: env.extractDna(d).Ok?)
    && (forall d, a :: env.mapCompetitors(d, a).Ok?)
    && (forall a, b :: env.planGrowth(a, b).Ok?)
    && (forall a :: env.planContent(a).Ok?)
    && (forall id, name, a, b, c, d :: env.render(id, name, a, b, c, d).Ok?)
  }

  lemma {:induction false} RunFromCompletes(i: nat, done: seq<Output>, job: JobRecord, env: Env)
    requires i == |done| && WellTyped(done) && Recorded(i, done, job, env)
    requires NeverRaises(env)
    ensures RunFrom(i, done, job, env).job.status == Completed
    decreases |Stages| - i
  {
    if i < |Stages| {
      var announced := job.(message := Progress(Stages[i]));
      var out := Execute(i, done, announced, env);
      assert out.Ok?;
      var done' := done + [out.value];
      Advance(i, done, job, env, out.value);
      var next := Record(i, out.value, announced);
      RunFromCompletes(i + 1, done', next, env);
    }
  }

  /** With a key configured and no stage raising, the run completes whatever
      the mailer reports: a failed delivery is recorded, not fatal. The stored
      path is the one the renderer returned, and that path is what is mailed. */
  lemma AllStagesSucceed(job: JobRecord, env: Env)
    requires NewEngine(env.apiKey).Ok? && NeverRaises(env)
    ensures var r := Run(job, env);
      && r.job.status == Completed
      && Ran(r.events) == Stages
      && r.job.pdfUrl == Some(ReportUrl(job.jobId))
      && RenderedBy(env, job.jobId, r.job.pdfPath.value)
      && r.job.emailSent == env.deliver(job.email, job.brandInput, r.job.pdfPath.value)
  {
    RunCompletes(job, env);
    CompletedRun(job, env, Run(job, env));
  }

  lemma CompletedRun(job: JobRecord, env: Env, r: RunResult)
    requires Started(job, env, r) && r.job.status == Completed
    ensures
      && Ran(r.events) == Stages
      && r.job.pdfUrl == Some(ReportUrl(job.jobId))
      && RenderedBy(env, job.jobId, r.job.pdfPath.value)
      && r.job.emailSent == env.deliver(job.email, job.brandInput, r.job.pdfPath.value)
  {
    assert Stages[..|Stages|] == Stages;
  }

  lemma RunCompletes(job: JobRecord, env: Env)
    requires NewEngine(env.apiKey).Ok? && NeverRaises(env)
    ensures Run(job, env).job.status == Completed
  {
    var started := job.(status := Processing, message := StartMessage);
    var rest := RunFrom(0, [], started, env);
    RunFromCompletes(0, [], started, env);
    assert Run(job, env) == RunResult(rest.job, StartEvents + rest.events, rest.reached, rest.error);
  }

  /** A stage that raises is the last one run. */
  lemma RunFromStops(i: nat, done: seq<Output>, job: JobRecord, env: Env, e: string)
    requires i == |done| < |Stages| && WellTyped(done) && Recorded(i, done, job, env)
    requires Execute(i, done, job.(message := Progress(Stages[i])), env) == Err(e)
    ensures RunFrom(i, done, job, env).error == Some(e)
    ensures RunFrom(i, done, job, env).reached == i + 1
  {
  }

  /** A stage that returns hands its output to the run of the next one. */
  lemma RunFromContinues(i: nat, done: seq<Output>, job: JobRecord, env: Env, out: Output)
    requires i == |done| < |Stages| && WellTyped(done) && Recorded(i, done, job, env)
    requires Execute(i, done, job.(message := Progress(Stages[i])), env) == Ok(out)
    ensures WellTyped(done + [out])
    ensures Recorded(i + 1, done + [out], Record(i, out, job.(message := Progress(Stages[i]))), env)
    ensures var rest := RunFrom(i + 1, done + [out], Record(i, out, job.(message := Progress(Stages[i]))), env);
      && RunFrom(i, done, job, env).error == rest.error
      && RunFrom(i, done, job, env).reached == rest.reached
  {
    Advance(i, done, job, env, out);
  }

  /** A competitor analysis that always raises stops the run after the third
      stage: nothing is rendered or mailed and the error becomes the message. */
  lemma CompetitorFailureStopsRun(job: JobRecord, env: Env, e: string)
    requires NewEngine(env.apiKey).Ok?
    requires forall d :: env.extractDna(d).Ok?
    requires forall d, a :: env.mapCompetitors(d, a) == Err(e)
    ensures var r := Run(job, env);
      && r.job.status == Failed
      && Ran(r.events) == [CollectData, ExtractDna, MapCompetitors]
      && r.job.message == ErrorPrefix + e
      && r.job.pdfUrl == job.pdfUrl && r.job.pdfPath == job.pdfPath
  {
    RunStopsAtCompetitors(job, env, e);
    StoppedAfterThird(job, env, e, Run(job, env));
  }

  lemma StoppedAfterThird(job: JobRecord, env: Env, e: string, r: RunResult)
    requires Started(job, env, r) && r.error == Some(e) && r.reached == 3
    ensures
      && r.job.status == Failed
      && Ran(r.events) == [CollectData, ExtractDna, MapCompetitors]
      && r.job.message == ErrorPrefix + e
      && r.job.pdfUrl == job.pdfUrl && r.job.pdfPath == job.pdfPath
  {
    assert Stages[..3] == [CollectData, ExtractDna, MapCompetitors];
  }

  lemma RunStopsAtCompetitors(job: JobRecord, env: Env, e: string)
    requires NewEngine(env.apiKey).Ok?
    requires forall d :: env.extractDna(d).Ok?
    requires forall d, a :: env.mapCompetitors(d, a) == Err(e)
    ensures Run(job, env).error == Some(e) && Run(job, env).reached == 3
  {
    var started := job.(status := Processing, message := StartMessage);
    var o1, o2, k2 := FirstTwoStages(started, env);
    CompetitorStageFails(env, e, o1, o2, k2);
    var rest := RunFrom(0, [], started, env);
    assert Run(job, env) == RunResult(rest.job, StartEvents + rest.events, rest.reached, rest.error);
  }

  /** With a DNA extraction that never raises, the run from the first stage
      reaches the third with the outputs of the first two. */
  lemma FirstTwoStages(started: JobRecord, env: Env) returns (o1: Output, o2: Output, k2: JobRecord)
    requires forall d :: env.extractDna(d).Ok?
    ensures WellTyped([o1, o2]) && Recorded(2, [o1, o2], k2, env)
    ensures RunFrom(0, [], started, env).error == RunFrom(2, [o1, o2], k2, env).error
    ensures RunFrom(0, [], started, env).reached == RunFrom(2, [o1, o2], k2, env).reached
  {
    var k1;
    o1, k1 := CollectStage(started, env);
    o2, k2 := DnaStage(o1, k1, env);
  }

  lemma CollectStage(started: JobRecord, env: Env) returns (o1: Output, k1: JobRecord)
    ensures WellTyped([o1]) && Recorded(1, [o1], k1, env)
    ensures RunFrom(0, [], started, env).error == RunFrom(1, [o1], k1, env).error
    ensures RunFrom(0, [], started, env).reached == RunFrom(1, [o1], k1, env).reached
  {
    var j0 := started.(message := Progress(CollectData));
    o1 := Execute(0, [], j0, env).value;
    RunFromContinues(0, [], started, env, o1);
    assert [] + [o1] == [o1];
    k1 := Record(0, o1, j0);
  }

  lemma DnaStage(o1: Output, k1: JobRecord, env: Env) returns (o2: Output, k2: JobRecord)
    requires WellTyped([o1]) && Recorded(1, [o1], k1, env)
    requires forall d :: env.extractDna(d).Ok?
    ensures WellTyped([o1, o2]) && Recorded(2, [o1, o2], k2, env)
    ensures RunFrom(1, [o1], k1, env).error == RunFrom(2, [o1, o2], k2, env).error
    ensures RunFrom(1, [o1], k1, env).reached == RunFrom(2, [o1, o2], k2, env).reached
  {
    var j1 := k1.(message := Progress(ExtractDna));
    var r2 := Execute(1, [o1], j1, env);
    assert r2.Ok?;
    o2 := r2.value;
    RunFromContinues(1, [o1], k1, env, o2);
    assert [o1] + [o2] == [o1, o2];
    k2 := Record(1, o2, j1);
  }

  lemma CompetitorStageFails(env: Env, e: string, o1: Output, o2: Output, k2: JobRecord)
    requires forall d, a :: env.mapCompetitors(d, a) == Err(e)
    requires WellTyped([o1, o2]) && Recorded(2, [o1, o2], k2, env)
    ensures RunFrom(2, [o1, o2], k2, env).error == Some(e)
    ensures RunFrom(2, [o1, o2], k2, env).reached == 3
  {
    assert Execute(2, [o1, o2], k2.(message := Progress(MapCompetitors)), env) == Err(e);
    RunFromStops(2, [o1, o2], k2, env, e);
  }
}
