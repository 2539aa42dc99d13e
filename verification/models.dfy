/** The job status enumeration and the status-response record of `models.py`. */
module Models {

  import opened Wrappers

  /** `JobStatus`: exactly four members. */
  datatype JobStatus = Pending | Processing | Completed | Failed

  /** A terminal status: no run moves a job out of it. */
  predicate IsTerminal(s: JobStatus) {
    s == Completed || s == Failed
  }

  /** The enum's string value, which is what the HTTP layer serialises. */
  function Wire(s: JobStatus): string {
    match s
    case Pending => "pending"
    case Processing => "processing"
    case Completed => "completed"
    case Failed => "failed"
  }

  /** `JobStatus(w)`: the member with value `w`, or `None` where Python raises
      `ValueError`. */
  function ParseWire(w: string): (r: Option<JobStatus>)
    ensures r.Some? ==> Wire(r.value) == w
  {
    if w == "pending" then Some(Pending)
    else if w == "processing" then Some(Processing)
    else if w == "completed" then Some(Completed)
    else if w == "failed" then Some(Failed)
    else None
  }

  /** Every member parses back from its own string value, so the encoding is
      injective and the four strings are pairwise distinct. */
  lemma WireRoundTrip(s: JobStatus)
    ensures ParseWire(Wire(s)) == Some(s)
  {
  }

  lemma WireInjective(s: JobStatus, t: JobStatus)
    ensures Wire(s) == Wire(t) ==> s == t
  {
    WireRoundTrip(s);
    WireRoundTrip(t);
  }

  /** `JobStatusResponse` */
  datatype JobStatusResponse = JobStatusResponse(
    jobId: string,
    status: JobStatus,
    message: Option<string>,
    enhancedImageUrl: Option<string>,
    videoUrl: Option<string>,
    emailSent: bool)

  /** The pydantic constructor: fields not supplied take their declared
      defaults. */
  function NewJobStatusResponse(
    jobId: string,
    status: JobStatus,
    message: Option<string> := None,
    enhancedImageUrl: Option<string> := None,
    videoUrl: Option<string> := None,
    emailSent: bool := false): JobStatusResponse
  {
    JobStatusResponse(jobId, status, message, enhancedImageUrl, videoUrl, emailSent)
  }

  /** A response built from the two required fields alone carries no message
      and no media links, and reports no email sent. */
  lemma JobStatusResponseDefaults(jobId: string, status: JobStatus)
    ensures var r := NewJobStatusResponse(jobId, status);
      && r.jobId == jobId && r.status == status
      && r.message == None && r.enhancedImageUrl == None && r.videoUrl == None
      && r.emailSent == false
  {
  }
}
