/** The replies of the Gemini file and generateContent endpoints, as both Gemini
    clients see them, and the status poll that waits for an upload to be usable.
    Each reply is an input: the network is not modelled. */
module FileApi {
  import opened Wrappers
  import opened Text
  import opened KeyPool
  import opened Types

  /** At most this many status checks, two seconds apart. */
  const MAX_POLLS: nat := 60

  /** One status check of an uploaded file. */
  datatype PollReply = PollSendFailed | PollUnparsable | PollStatus(state: string, uri: string)

  /** The upload steps before polling, in source order: read the file, start a
      resumable upload, find the upload URL header, send the bytes, parse the
      reply naming the stored file. */
  datatype UploadReply =
    | ReadFailed
    | InitFailed
    | NoUploadUrl
    | TransferFailed
    | ResponseUnparsable
    | Uploaded(name: string, uri: string)

  /** The message of each failed upload step. */
  function UploadFailure(u: UploadReply): string
    requires !u.Uploaded?
  {
    match u
    case ReadFailed => "Failed to read video file"
    case InitFailed => "Failed to initiate upload"
    case NoUploadUrl => "No upload URL in response"
    case TransferFailed => "Failed to upload video"
    case ResponseUnparsable => "Failed to parse upload response"
  }

  /** The `error` object of a generateContent reply. */
  datatype ApiError = ApiError(message: string, code: Option<int>, status: Option<string>)
  datatype Part = Part(text: Option<string>)
  datatype Candidate = Candidate(parts: seq<Part>)

  /** A generateContent call: the request fails, the body is not a reply, or a reply. */
  datatype AnalyzeReply =
    | SendFailed
    | BodyUnparsable
    | Body(error: Option<ApiError>, candidates: Option<seq<Candidate>>)

  /** The text of the first part of the first candidate, if there is one. */
  function FirstText(c: Option<seq<Candidate>>): Option<string>
  {
    if c.Some? && |c.value| > 0 && |c.value[0].parts| > 0 then c.value[0].parts[0].text else None
  }

  /** `wait_for_file_active` from check `i` on: "ACTIVE" ends the wait; when
      `stopOnFailed`, so does "FAILED"; a failed request or an unreadable status
      ends it with an error; after the last check it times out. The Ok value is
      the uri the status reply names. */
  function PollFrom(polls: nat -> PollReply, stopOnFailed: bool, i: nat): Result<string>
    decreases MAX_POLLS - i
  {
    if i >= MAX_POLLS then Err("File processing timed out")
    else match polls(i)
      case PollSendFailed => Err("Failed to check file status")
      case PollUnparsable => Err("Failed to parse file status")
      case PollStatus(state, uri) =>
        if state == "ACTIVE" then Ok(uri)
        else if stopOnFailed && state == "FAILED" then Err("File processing failed")
        else PollFrom(polls, stopOnFailed, i + 1)
  }

  /** A poll reply that lets the wait go on. */
  predicate Pending(r: PollReply, stopOnFailed: bool)
  {
    r.PollStatus? && r.state != "ACTIVE" && !(stopOnFailed && r.state == "FAILED")
  }

  /** The poll loop: at most MAX_POLLS checks, stopping at the first decisive reply. */
  method WaitForFileActive(polls: nat -> PollReply, stopOnFailed: bool) returns (r: Result<string>, checks: nat)
    ensures r == PollFrom(polls, stopOnFailed, 0)
    ensures 0 < checks <= MAX_POLLS
    ensures forall j :: 0 <= j < checks - 1 ==> Pending(polls(j), stopOnFailed)
    ensures r.Ok? ==> polls(checks - 1) == PollStatus("ACTIVE", r.value)
  {
    checks := 0;
    for i := 0 to MAX_POLLS
      invariant checks == i
      invariant forall j :: 0 <= j < i ==> Pending(polls(j), stopOnFailed)
      invariant PollFrom(polls, stopOnFailed, i) == PollFrom(polls, stopOnFailed, 0)
    {
      checks := checks + 1;
      var reply := polls(i);
      if reply.PollSendFailed? {
        return Err("Failed to check file status"), checks;
      }
      if reply.PollUnparsable? {
        return Err("Failed to parse file status"), checks;
      }
      if reply.state == "ACTIVE" {
        return Ok(reply.uri), checks;
      }
      if stopOnFailed && reply.state == "FAILED" {
        return Err("File processing failed"), checks;
      }
    }
    return Err("File processing timed out"), checks;
  }

  /** Only the first MAX_POLLS replies matter: the status is checked at most 60 times. */
  lemma {:induction false} PollOnlyFirstChecks(p1: nat -> PollReply, p2: nat -> PollReply, stopOnFailed: bool, i: nat)
    requires forall j :: i <= j < MAX_POLLS ==> p1(j) == p2(j)
    ensures PollFrom(p1, stopOnFailed, i) == PollFrom(p2, stopOnFailed, i)
    decreases MAX_POLLS - i
  {
    if i < MAX_POLLS {
      PollOnlyFirstChecks(p1, p2, stopOnFailed, i + 1);
    }
  }

  /** If the first 60 replies all say "still processing", the wait times out. */
  lemma {:induction false} PollTimesOut(polls: nat -> PollReply, stopOnFailed: bool, i: nat)
    requires forall j :: i <= j < MAX_POLLS ==> Pending(polls(j), stopOnFailed)
    ensures PollFrom(polls, stopOnFailed, i) == Err("File processing timed out")
    decreases MAX_POLLS - i
  {
    if i < MAX_POLLS {
      PollTimesOut(polls, stopOnFailed, i + 1);
    }
  }

  /** A successful wait ends at the first "ACTIVE" reply and yields its uri. */
  lemma {:induction false} PollActive(polls: nat -> PollReply, stopOnFailed: bool, i: nat)
    requires PollFrom(polls, stopOnFailed, i).Ok?
    ensures exists j :: i <= j < MAX_POLLS && polls(j) == PollStatus("ACTIVE", PollFrom(polls, stopOnFailed, i).value)
              && forall l :: i <= l < j ==> Pending(polls(l), stopOnFailed)
    decreases MAX_POLLS - i
  {
    if polls(i) != PollStatus("ACTIVE", PollFrom(polls, stopOnFailed, i).value) {
      PollActive(polls, stopOnFailed, i + 1);
      var j :| i + 1 <= j < MAX_POLLS && polls(j) == PollStatus("ACTIVE", PollFrom(polls, stopOnFailed, i + 1).value)
               && forall l :: i + 1 <= l < j ==> Pending(polls(l), stopOnFailed);
      assert forall l :: i <= l < j ==> Pending(polls(l), stopOnFailed);
    }
  }

  /** How a retry loop ends: it returns, or it would still be retrying when the
      modelled replies run out. */
  datatype Outcome = Returned(result: Result<seq<Moment>>) | Retrying

  /** A loop's outcome, the pool it leaves and the key index used by each attempt. */
  datatype Run = Run(outcome: Outcome, pool: Pool, used: seq<nat>)

  function Prepend(k: nat, r: Run): (q: Run)
    ensures q.outcome == r.outcome && q.pool == r.pool && q.used == [k] + r.used
  {
    Run(r.outcome, r.pool, [k] + r.used)
  }

  function Extend(used: seq<nat>, r: Run): Run
  {
    Run(r.outcome, r.pool, used + r.used)
  }
}
