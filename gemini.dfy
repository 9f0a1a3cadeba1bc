/** The older single-module Gemini client: the upload fails over nothing (any
    enabled key), the analysis retries over the key pool, disabling a key on a
    rate-limit error and rotating on transient failures. */
module Gemini {
  import opened Wrappers
  import opened Text
  import opened Types
  import opened KeyPool
  import opened Moments
  import opened FileApi

  const NO_ACTIVE_KEYS := "No active API keys available"
  const NO_KEYS := "No API keys available"
  const NO_CONTENT := "No response content from Gemini"

  /** What `upload_video` returns and the pool it leaves. */
  datatype Upload = Upload(result: Result<string>, pool: Pool)

  /** `upload_video`: read the file, take an enabled key, run the upload
      steps, wait for the file (taking a key again, and not stopping on
      "FAILED"), and rotate once the upload succeeded. The uri is the one the
      status check reports. */
  function UploadRun(p: Pool, upload: UploadReply, polls: nat -> PollReply): Upload
  {
    if upload.ReadFailed? then Upload(Err(UploadFailure(upload)), p)
    else if ActiveIndex(p).None? then Upload(Err(NO_ACTIVE_KEYS), p)
    else if !upload.Uploaded? then Upload(Err(UploadFailure(upload)), p)
    else match PollFrom(polls, false, 0)
      case Err(e) => Upload(Err(e), p)
      case Ok(uri) => Upload(Ok(uri), Rotated(p))
  }

  /** The upload changes the pool only by the one rotation after success,
      and a successful upload names the uri of the first "ACTIVE" check. */
  lemma UploadEffect(p: Pool, upload: UploadReply, polls: nat -> PollReply)
    ensures var u := UploadRun(p, upload, polls);
      && (u.result.Ok? ==> u.pool == Rotated(p) && upload.Uploaded? && ActiveIndex(p).Some?)
      && (u.result.Err? ==> u.pool == p)
      && (u.result.Ok? ==> exists j :: 0 <= j < MAX_POLLS && polls(j) == PollStatus("ACTIVE", u.result.value))
  {
    if UploadRun(p, upload, polls).result.Ok? {
      PollActive(polls, false, 0);
    }
  }

  /** A rate-limit error: code 429, status RESOURCE_EXHAUSTED, or a message
      that mentions a quota. */
  predicate IsLimit(e: ApiError)
  {
    e.code == Some(429) || e.status == Some("RESOURCE_EXHAUSTED") || Contains(e.message, "quota")
  }

  /** What the analysis loop does with the reply to one request. */
  datatype Verdict =
    | Succeeded(moments: seq<Moment>)  // rotate, then return the moments
    | Stopped(error: string)           // return the error, the pool as it is
    | RotateAndRetry
    | DisableAndRetry

  /** The branch of `analyze_video`'s loop body each reply takes. */
  function ReplyVerdict(r: AnalyzeReply, parse: string -> Option<seq<Moment>>, offset: nat): Verdict
  {
    match r
    case SendFailed => RotateAndRetry
    case BodyUnparsable => RotateAndRetry
    case Body(error, candidates) =>
      if error.Some? then
        if IsLimit(error.value) then DisableAndRetry
        else Stopped("Gemini API error: " + error.value.message)
      else match FirstText(candidates)
        case None => Stopped(NO_CONTENT)
        case Some(text) =>
          match parse(StripFences(text))
          case None => RotateAndRetry
          case Some(ms) => Succeeded(Rebased(ms, offset))
  }

  /** `analyze_video` from pool `p` over the replies still to come. */
  function AnalyzeRun(p: Pool, replies: seq<AnalyzeReply>, parse: string -> Option<seq<Moment>>, offset: nat): Run
    decreases |replies|
  {
    match ActiveIndex(p)
    case None => Run(Returned(Err(NO_KEYS)), p, [])
    case Some(k) =>
      if replies == [] then Run(Retrying, p, [])
      else match ReplyVerdict(replies[0], parse, offset)
        case Succeeded(ms) => Run(Returned(Ok(ms)), Rotated(p), [k])
        case Stopped(e) => Run(Returned(Err(e)), p, [k])
        case RotateAndRetry => Prepend(k, AnalyzeRun(Rotated(p), replies[1..], parse, offset))
        case DisableAndRetry => Prepend(k, AnalyzeRun(Disabled(p, p.keys[k].value), replies[1..], parse, offset))
  }

  /** The pool after retrying with key `k` on the given verdict. */
  function AfterRetry(p: Pool, k: nat, v: Verdict): Pool
    requires k < |p.keys|
  {
    if v.DisableAndRetry? then Disabled(p, p.keys[k].value) else Rotated(p)
  }

  /** One step of the loop with an enabled key `k` and a reply to read. */
  lemma AnalyzeStep(p: Pool, replies: seq<AnalyzeReply>, parse: string -> Option<seq<Moment>>, offset: nat, k: nat)
    requires ActiveIndex(p) == Some(k) && replies != []
    ensures var v := ReplyVerdict(replies[0], parse, offset);
      && (v.Succeeded? ==> AnalyzeRun(p, replies, parse, offset) == Run(Returned(Ok(v.moments)), Rotated(p), [k]))
      && (v.Stopped? ==> AnalyzeRun(p, replies, parse, offset) == Run(Returned(Err(v.error)), p, [k]))
      && (v.RotateAndRetry? || v.DisableAndRetry? ==>
            AnalyzeRun(p, replies, parse, offset)
            == Prepend(k, AnalyzeRun(AfterRetry(p, k, v), replies[1..], parse, offset)))
  {
  }

  /** How the analysis can fail: with every key disabled, or because the
      last reply read was an API error that is not a rate limit or an empty
      reply (AnalyzeErrorMessage gives the message of the first case). */
  lemma {:induction false} AnalyzeErrors(p: Pool, replies: seq<AnalyzeReply>, parse: string -> Option<seq<Moment>>, offset: nat)
    ensures var r := AnalyzeRun(p, replies, parse, offset);
      r.outcome.Returned? && r.outcome.result.Err? ==>
        AllDisabled(r.pool)
        || (1 <= |r.used| <= |replies|
            && ReplyVerdict(replies[|r.used| - 1], parse, offset) == Stopped(r.outcome.result.error))
    decreases |replies|
  {
    var r := AnalyzeRun(p, replies, parse, offset);
    if ActiveIndex(p).Some? && replies != [] {
      var k := ActiveIndex(p).value;
      var v := ReplyVerdict(replies[0], parse, offset);
      AnalyzeStep(p, replies, parse, offset, k);
      if v.RotateAndRetry? || v.DisableAndRetry? {
        var q := AfterRetry(p, k, v);
        AnalyzeErrors(q, replies[1..], parse, offset);
        var rest := AnalyzeRun(q, replies[1..], parse, offset);
        assert r == Prepend(k, rest);
        if 1 <= |rest.used| <= |replies| - 1 {
          assert replies[1..][|rest.used| - 1] == replies[|r.used| - 1];
        }
      }
    }
  }

  /** An error not decided by the last reply is "No API keys available". */
  lemma {:induction false} AnalyzeErrorMessage(p: Pool, replies: seq<AnalyzeReply>, parse: string -> Option<seq<Moment>>, offset: nat)
    ensures var r := AnalyzeRun(p, replies, parse, offset);
      r.outcome.Returned? && r.outcome.result.Err?
      && !(1 <= |r.used| <= |replies| && ReplyVerdict(replies[|r.used| - 1], parse, offset).Stopped?) ==>
        r.outcome.result.error == NO_KEYS
    decreases |replies|
  {
    var r := AnalyzeRun(p, replies, parse, offset);
    if ActiveIndex(p).Some? && replies != [] {
      var k := ActiveIndex(p).value;
      var v := ReplyVerdict(replies[0], parse, offset);
      AnalyzeStep(p, replies, parse, offset, k);
      if v.RotateAndRetry? || v.DisableAndRetry? {
        var q := AfterRetry(p, k, v);
        AnalyzeErrorMessage(q, replies[1..], parse, offset);
        var rest := AnalyzeRun(q, replies[1..], parse, offset);
        assert r == Prepend(k, rest);
        if 1 <= |rest.used| <= |replies| - 1 {
          assert replies[1..][|rest.used| - 1] == replies[|r.used| - 1];
        }
      }
    }
  }

  /** Returned moments are the verdict on the last reply read. */
  lemma {:induction false} AnalyzeOkFromLastReply(p: Pool, replies: seq<AnalyzeReply>, parse: string -> Option<seq<Moment>>, offset: nat)
    ensures var r := AnalyzeRun(p, replies, parse, offset);
      r.outcome.Returned? && r.outcome.result.Ok? ==>
        1 <= |r.used| <= |replies|
        && ReplyVerdict(replies[|r.used| - 1], parse, offset) == Succeeded(r.outcome.result.value)
    decreases |replies|
  {
    if ActiveIndex(p).Some? && replies != [] {
      var k := ActiveIndex(p).value;
      var v := ReplyVerdict(replies[0], parse, offset);
      AnalyzeStep(p, replies, parse, offset, k);
      if v.RotateAndRetry? || v.DisableAndRetry? {
        var q := AfterRetry(p, k, v);
        AnalyzeOkFromLastReply(q, replies[1..], parse, offset);
        var rest := AnalyzeRun(q, replies[1..], parse, offset);
        if rest.outcome.Returned? && rest.outcome.result.Ok? {
          assert replies[1..][|rest.used| - 1] == replies[|rest.used|];
        }
      }
    }
  }

  /** The loop never re-enables a key, and every request used a key that was
      enabled when the loop began. */
  lemma {:induction false} AnalyzeKeysMonotone(p: Pool, replies: seq<AnalyzeReply>, parse: string -> Option<seq<Moment>>, offset: nat)
    ensures var r := AnalyzeRun(p, replies, parse, offset);
      Weaker(p, r.pool) && |r.used| <= |replies|
      && forall j :: 0 <= j < |r.used| ==> Enabled(p, r.used[j])
    decreases |replies|
  {
    var r := AnalyzeRun(p, replies, parse, offset);
    if ActiveIndex(p).Some? && replies != [] {
      var k := ActiveIndex(p).value;
      var v := ReplyVerdict(replies[0], parse, offset);
      AnalyzeStep(p, replies, parse, offset, k);
      RotatedWeaker(p);
      assert Weaker(p, p);
      if v.RotateAndRetry? || v.DisableAndRetry? {
        var q := AfterRetry(p, k, v);
        DisabledWeaker(p, p.keys[k].value);
        AnalyzeKeysMonotone(q, replies[1..], parse, offset);
        var rest := AnalyzeRun(q, replies[1..], parse, offset);
        WeakerTrans(p, q, rest.pool);
        forall j | 0 <= j < |r.used|
          ensures Enabled(p, r.used[j])
        {
          if j > 0 {
            assert r.used[j] == rest.used[j - 1];
          }
        }
      }
    }
  }

  /** An API error that is not a rate limit ends the loop at once, with the
      key kept. */
  lemma OtherApiErrorStops(p: Pool, replies: seq<AnalyzeReply>, parse: string -> Option<seq<Moment>>, offset: nat)
    requires ActiveIndex(p).Some? && replies != []
    requires replies[0].Body? && replies[0].error.Some? && !IsLimit(replies[0].error.value)
    ensures AnalyzeRun(p, replies, parse, offset)
         == Run(Returned(Err("Gemini API error: " + replies[0].error.value.message)), p, [ActiveIndex(p).value])
  {
    AnalyzeStep(p, replies, parse, offset, ActiveIndex(p).value);
  }

  /** With distinct key values, if every reply is a rate-limit error, each
      enabled key is disabled once and the analysis then fails. */
  lemma {:induction false} LimitsExhaustPool(p: Pool, replies: seq<AnalyzeReply>, parse: string -> Option<seq<Moment>>, offset: nat)
    requires DistinctValues(p)
    requires |replies| >= CountEnabled(p.keys)
    requires forall j :: 0 <= j < |replies| ==> replies[j].Body? && replies[j].error.Some? && IsLimit(replies[j].error.value)
    ensures AnalyzeRun(p, replies, parse, offset).outcome == Returned(Err(NO_KEYS))
    ensures |AnalyzeRun(p, replies, parse, offset).used| == CountEnabled(p.keys)
    decreases |replies|
  {
    CountEnabledZero(p.keys);
    if ActiveIndex(p).Some? {
      var k := ActiveIndex(p).value;
      AnalyzeStep(p, replies, parse, offset, k);
      DisableChosenCount(p, k);
      LimitsExhaustPool(Disabled(p, p.keys[k].value), replies[1..], parse, offset);
    }
  }

  /** The client: its key pool and the model chosen at construction. */
  class GeminiClient {
    const ring: KeyRing
    const model: string

    constructor(apiKeys: seq<(string, string)>, useFastModel: bool)
      ensures fresh(ring) && ring.State() == NewPool(apiKeys)
      ensures model == if useFastModel then "gemini-3-flash-preview" else "gemini-3-pro-preview"
    {
      ring := new KeyRing(apiKeys);
      model := if useFastModel then "gemini-3-flash-preview" else "gemini-3-pro-preview";
    }

    /** `wait_for_file_active`: takes a key, then polls without a "FAILED" stop. */
    method WaitForFileActive(polls: nat -> PollReply) returns (r: Result<string>)
      ensures r == if ActiveIndex(ring.State()).None? then Err(NO_ACTIVE_KEYS) else PollFrom(polls, false, 0)
    {
      var key := ring.GetActiveKey();
      if key.None? {
        return Err(NO_ACTIVE_KEYS);
      }
      var waited, _ := FileApi.WaitForFileActive(polls, false);
      return waited;
    }

    /** `upload_video` */
    method UploadVideo(upload: UploadReply, polls: nat -> PollReply) returns (r: Result<string>)
      modifies ring
      ensures Upload(r, ring.State()) == UploadRun(old(ring.State()), upload, polls)
    {
      if upload.ReadFailed? {
        return Err(UploadFailure(upload));
      }
      var key := ring.GetActiveKey();
      if key.None? {
        return Err(NO_ACTIVE_KEYS);
      }
      if !upload.Uploaded? {
        return Err(UploadFailure(upload));
      }
      var uri := WaitForFileActive(polls);
      if uri.Err? {
        return uri;
      }
      ring.RotateKey();
      return uri;
    }

    /** The loop body of `analyze_video` for one reply, read with key `k`:
        rebases the parsed moments in place. */
    method HandleReply(k: nat, reply: AnalyzeReply, parse: string -> Option<seq<Moment>>, offset: nat)
      returns (v: Verdict)
      requires k < |ring.keys|
      modifies ring
      ensures v == ReplyVerdict(reply, parse, offset)
      ensures ring.State() == if v.Stopped? then old(ring.State())
                              else AfterRetry(old(ring.State()), k, v)
    {
      match reply
      case SendFailed =>
        ring.RotateKey();
        return RotateAndRetry;
      case BodyUnparsable =>
        ring.RotateKey();
        return RotateAndRetry;
      case Body(error, candidates) =>
        if error.Some? {
          if IsLimit(error.value) {
            ring.DisableKey(ring.keys[k].value);
            return DisableAndRetry;
          }
          return Stopped("Gemini API error: " + error.value.message);
        }
        var text := FirstText(candidates);
        if text.None? {
          return Stopped(NO_CONTENT);
        }
        var parsed := parse(StripFences(text.value));
        if parsed.None? {
          ring.RotateKey();
          return RotateAndRetry;
        }
        var moments := RebaseInPlace(parsed.value, offset);
        ring.RotateKey();
        return Succeeded(moments);
    }

    /** `analyze_video`: the retry loop over the replies the network gives. */
    method AnalyzeVideo(replies: seq<AnalyzeReply>, parse: string -> Option<seq<Moment>>, offset: nat)
      returns (outcome: Outcome, used: seq<nat>)
      modifies ring
      ensures Run(outcome, ring.State(), used) == AnalyzeRun(old(ring.State()), replies, parse, offset)
    {
      used := [];
      var i := 0;
      while true
        invariant 0 <= i <= |replies|
        invariant Extend(used, AnalyzeRun(ring.State(), replies[i..], parse, offset))
               == AnalyzeRun(old(ring.State()), replies, parse, offset)
        decreases |replies| - i
      {
        var key := ring.GetActiveKey();
        if key.None? {
          return Returned(Err(NO_KEYS)), used;
        }
        if i == |replies| {
          return Retrying, used;
        }
        var k := key.value;
        assert replies[i..][0] == replies[i] && replies[i..][1..] == replies[i + 1..];
        AnalyzeStep(ring.State(), replies[i..], parse, offset, k);
        var v := HandleReply(k, replies[i], parse, offset);
        if v.Succeeded? {
          return Returned(Ok(v.moments)), used + [k];
        }
        if v.Stopped? {
          return Returned(Err(v.error)), used + [k];
        }
        used, i := used + [k], i + 1;
      }
    }
  }
}
