/** The Google Gemini client: upload, poll and analysis with one key per
    attempt ("sticky session"), retried over the key pool until a chunk is
    analysed or every key is disabled. */
module Google {
  import opened Wrappers
  import opened Text
  import opened Decimal
  import opened Types
  import opened KeyPool
  import opened Moments
  import opened FileApi

  const NO_ACTIVE_KEYS := "No active API keys available"

  /** What the network answers during one attempt: the upload steps, the
      status checks, and the generateContent call. */
  datatype Attempt = Attempt(upload: UploadReply, polls: nat -> PollReply, analysis: AnalyzeReply)

  /** `upload_video_internal`: the upload steps, then the wait (which stops on
      "FAILED"); the uri comes from the upload reply. */
  function UploadOutcome(a: Attempt): Result<string>
  {
    match a.upload
    case Uploaded(_, uri) =>
      (match PollFrom(a.polls, true, 0)
       case Ok(_) => Ok(uri)
       case Err(e) => Err(e))
    case _ => Err(UploadFailure(a.upload))
  }

  /** `{:?}` of an `Option<i32>`. */
  function DebugCode(c: Option<int>): string
  {
    match c
    case None => "None"
    case Some(n) => "Some(" + (if n < 0 then "-" + Digits(-n) else Digits(n)) + ")"
  }

  /** `{:?}` of an `Option<String>`, without escaping inside the quotes. */
  function DebugStatus(s: Option<string>): string
  {
    match s
    case None => "None"
    case Some(t) => "Some(\"" + t + "\")"
  }

  /** The message of an API error reply. */
  function ApiErrorText(e: ApiError): string
  {
    "Gemini API error: " + e.message + " (Code: " + DebugCode(e.code) + ", Status: " + DebugStatus(e.status) + ")"
  }

  /** Why `analyze_video_internal` failed. */
  datatype AnalysisError = CallFailed | ReplyUnparsable | ApiFailed(api: ApiError) | NoResponse | MomentsUnparsable

  /** What `analyze_video_internal` returns: the moments, or why there are none. */
  datatype Analysis = Analysed(moments: seq<Moment>) | Failed(reason: AnalysisError)

  /** The text `to_string` gives for each failure (the outermost context only). */
  function Message(e: AnalysisError): string
  {
    match e
    case CallFailed => "Failed to call Gemini API"
    case ReplyUnparsable => "Failed to parse Gemini response"
    case ApiFailed(api) => ApiErrorText(api)
    case NoResponse => "No response from Gemini"
    case MomentsUnparsable => "Failed to parse structured moments JSON"
  }

  /** The `Result` the source returns for an analysis. */
  function AsResult(a: Analysis): Result<seq<Moment>>
  {
    match a
    case Analysed(ms) => Ok(ms)
    case Failed(e) => Err(Message(e))
  }

  /** `analyze_video_internal`: the moments of the reply, fence-stripped,
      parsed by `parse` and rebased by `offset`; each failure has its reason. */
  function AnalyzeOutcome(r: AnalyzeReply, parse: string -> Option<seq<Moment>>, offset: nat): Analysis
  {
    match r
    case SendFailed => Failed(CallFailed)
    case BodyUnparsable => Failed(ReplyUnparsable)
    case Body(error, candidates) =>
      if error.Some? then Failed(ApiFailed(error.value))
      else match FirstText(candidates)
        case None => Failed(NoResponse)
        case Some(text) =>
          match parse(StripFences(text))
          case None => Failed(MomentsUnparsable)
          case Some(ms) => Analysed(Rebased(ms, offset))
  }

  /** The quota test `process_chunk` applies to an analysis error's text. */
  predicate IsQuotaText(e: string)
  {
    Contains(e, "quota") || Contains(e, "429") || Contains(e, "RESOURCE_EXHAUSTED")
  }

  /** The failures the quota test picks out: only API errors whose text
      passes it (QuotaFailureIsQuotaText). */
  predicate QuotaFailure(e: AnalysisError)
  {
    e.ApiFailed? && IsQuotaText(ApiErrorText(e.api))
  }

  /** The moments an attempt yields, when its upload and analysis both succeed. */
  function AttemptResult(a: Attempt, parse: string -> Option<seq<Moment>>, offset: nat): Option<seq<Moment>>
  {
    if UploadOutcome(a).Ok? && AnalyzeOutcome(a.analysis, parse, offset).Analysed?
    then Some(AnalyzeOutcome(a.analysis, parse, offset).moments)
    else None
  }

  /** An attempt that uploads fine and whose analysis reports a quota error. */
  predicate QuotaAttempt(a: Attempt, parse: string -> Option<seq<Moment>>, offset: nat)
  {
    UploadOutcome(a).Ok? && AnalyzeOutcome(a.analysis, parse, offset).Failed?
    && QuotaFailure(AnalyzeOutcome(a.analysis, parse, offset).reason)
  }

  /** The pool after a failed attempt with key `k`: a quota error disables
      the key, any other failure rotates. */
  function AfterAttempt(p: Pool, k: nat, a: Attempt, parse: string -> Option<seq<Moment>>, offset: nat): Pool
    requires k < |p.keys|
  {
    if QuotaAttempt(a, parse, offset) then Disabled(p, p.keys[k].value) else Rotated(p)
  }

  lemma AfterAttemptWeaker(p: Pool, k: nat, a: Attempt, parse: string -> Option<seq<Moment>>, offset: nat)
    requires k < |p.keys|
    ensures Weaker(p, AfterAttempt(p, k, a, parse, offset))
  {
    RotatedWeaker(p);
    DisabledWeaker(p, p.keys[k].value);
  }

  /** `process_chunk` from pool `p` over the attempts still to come. */
  function ChunkRun(p: Pool, attempts: seq<Attempt>, parse: string -> Option<seq<Moment>>, offset: nat): Run
    decreases |attempts|
  {
    match ActiveIndex(p)
    case None => Run(Returned(Err(NO_ACTIVE_KEYS)), p, [])
    case Some(k) =>
      if attempts == [] then Run(Retrying, p, [])
      else match AttemptResult(attempts[0], parse, offset)
        case Some(ms) => Run(Returned(Ok(ms)), Rotated(p), [k])
        case None => Prepend(k, ChunkRun(AfterAttempt(p, k, attempts[0], parse, offset), attempts[1..], parse, offset))
  }

  /** `process_chunk` fails only when every key is disabled (or there is none). */
  lemma {:induction false} ChunkErrOnlyWhenExhausted(p: Pool, attempts: seq<Attempt>, parse: string -> Option<seq<Moment>>, offset: nat)
    ensures var r := ChunkRun(p, attempts, parse, offset);
      r.outcome.Returned? && r.outcome.result.Err? ==> r.outcome.result.error == NO_ACTIVE_KEYS && AllDisabled(r.pool)
    decreases |attempts|
  {
    if ActiveIndex(p).Some? && attempts != [] {
      var k := ActiveIndex(p).value;
      ChunkErrOnlyWhenExhausted(AfterAttempt(p, k, attempts[0], parse, offset), attempts[1..], parse, offset);
    }
  }

  /** The run never re-enables a key, and every attempt used a key that was
      enabled when the run began. */
  lemma {:induction false} ChunkKeysMonotone(p: Pool, attempts: seq<Attempt>, parse: string -> Option<seq<Moment>>, offset: nat)
    ensures var r := ChunkRun(p, attempts, parse, offset);
      Weaker(p, r.pool) && |r.used| <= |attempts|
      && forall j :: 0 <= j < |r.used| ==> Enabled(p, r.used[j])
    decreases |attempts|
  {
    if ActiveIndex(p).Some? && attempts != [] {
      var k := ActiveIndex(p).value;
      var a := attempts[0];
      ChunkStep(p, attempts, parse, offset, k);
      RotatedWeaker(p);
      if AttemptResult(a, parse, offset).None? {
        var q := AfterAttempt(p, k, a, parse, offset);
        AfterAttemptWeaker(p, k, a, parse, offset);
        ChunkKeysMonotone(q, attempts[1..], parse, offset);
        var rest := ChunkRun(q, attempts[1..], parse, offset);
        var r := ChunkRun(p, attempts, parse, offset);
        assert r.pool == rest.pool && r.used == [k] + rest.used;
        WeakerTrans(p, q, rest.pool);
        forall j | 0 <= j < |r.used|
          ensures Enabled(p, r.used[j])
        {
          if j > 0 {
            assert r.used[j] == rest.used[j - 1];
            assert Enabled(q, rest.used[j - 1]);
          }
        }
      }
    }
  }

  /** A returned list of moments is what the last attempt yields. */
  lemma {:induction false} ChunkOkFromLastAttempt(p: Pool, attempts: seq<Attempt>, parse: string -> Option<seq<Moment>>, offset: nat)
    ensures var r := ChunkRun(p, attempts, parse, offset);
      r.outcome.Returned? && r.outcome.result.Ok? ==>
        1 <= |r.used| <= |attempts|
        && AttemptResult(attempts[|r.used| - 1], parse, offset) == Some(r.outcome.result.value)
    decreases |attempts|
  {
    if ActiveIndex(p).Some? && attempts != [] {
      var k := ActiveIndex(p).value;
      ChunkStep(p, attempts, parse, offset, k);
      if AttemptResult(attempts[0], parse, offset).None? {
        var q := AfterAttempt(p, k, attempts[0], parse, offset);
        ChunkOkFromLastAttempt(q, attempts[1..], parse, offset);
        var rest := ChunkRun(q, attempts[1..], parse, offset);
        var r := ChunkRun(p, attempts, parse, offset);
        assert r.outcome == rest.outcome && r.used == [k] + rest.used;
        if rest.outcome.Returned? && rest.outcome.result.Ok? {
          ShiftedAttempt(attempts, |rest.used| - 1, parse, offset);
        }
      }
    }
  }

  lemma ShiftedAttempt(attempts: seq<Attempt>, j: nat, parse: string -> Option<seq<Moment>>, offset: nat)
    requires j + 1 < |attempts|
    ensures AttemptResult(attempts[1..][j], parse, offset) == AttemptResult(attempts[j + 1], parse, offset)
  {
    assert attempts[1..][j] == attempts[j + 1];
  }

  /** An attempt yields moments exactly when its upload succeeds and its
      analysis returns them. */
  lemma AttemptResultMeans(a: Attempt, parse: string -> Option<seq<Moment>>, offset: nat, ms: seq<Moment>)
    ensures AttemptResult(a, parse, offset) == Some(ms)
      <==> UploadOutcome(a).Ok? && AnalyzeOutcome(a.analysis, parse, offset) == Analysed(ms)
  {
  }

  /** With distinct key values, if every attempt hits a quota error, each
      enabled key is disabled once and the chunk then fails. */
  lemma {:induction false} QuotaExhaustsPool(p: Pool, attempts: seq<Attempt>, parse: string -> Option<seq<Moment>>, offset: nat)
    requires DistinctValues(p)
    requires |attempts| >= CountEnabled(p.keys)
    requires forall j :: 0 <= j < |attempts| ==> QuotaAttempt(attempts[j], parse, offset)
    ensures ChunkRun(p, attempts, parse, offset).outcome == Returned(Err(NO_ACTIVE_KEYS))
    ensures |ChunkRun(p, attempts, parse, offset).used| == CountEnabled(p.keys)
    decreases |attempts|
  {
    CountEnabledZero(p.keys);
    if ActiveIndex(p).Some? {
      var k := ActiveIndex(p).value;
      DisableChosenCount(p, k);
      QuotaExhaustsPool(Disabled(p, p.keys[k].value), attempts[1..], parse, offset);
    }
  }

  /** An API error with code 429 is a quota error. */
  lemma CodeIsQuota(e: ApiError)
    requires e.code == Some(429)
    ensures IsQuotaText(ApiErrorText(e))
  {
    var prefix := "Gemini API error: " + e.message + " (Code: ";
    var rest := ", Status: " + DebugStatus(e.status) + ")";
    var d := DebugCode(e.code);
    assert Digits(429) == "429";
    assert OccursAt(d, "429", 5);
    OccursContains(d, "429", 5);
    ContainsRight(prefix, d, "429");
    ContainsLeft(prefix + d, rest, "429");
    assert ApiErrorText(e) == prefix + d + rest;
  }

  /** An API error with status RESOURCE_EXHAUSTED is a quota error. */
  lemma StatusIsQuota(e: ApiError)
    requires e.status == Some("RESOURCE_EXHAUSTED")
    ensures IsQuotaText(ApiErrorText(e))
  {
    var prefix := "Gemini API error: " + e.message + " (Code: " + DebugCode(e.code) + ", Status: ";
    var d := DebugStatus(e.status);
    assert OccursAt(d, "RESOURCE_EXHAUSTED", 6);
    OccursContains(d, "RESOURCE_EXHAUSTED", 6);
    ContainsRight(prefix, d, "RESOURCE_EXHAUSTED");
    ContainsLeft(prefix + d, ")", "RESOURCE_EXHAUSTED");
    assert ApiErrorText(e) == prefix + d + ")";
  }

  /** An API error whose message mentions "quota" is a quota error. */
  lemma MessageIsQuota(e: ApiError)
    requires Contains(e.message, "quota")
    ensures IsQuotaText(ApiErrorText(e))
  {
    var rest := " (Code: " + DebugCode(e.code) + ", Status: " + DebugStatus(e.status) + ")";
    ContainsRight("Gemini API error: ", e.message, "quota");
    ContainsLeft("Gemini API error: " + e.message, rest, "quota");
    assert ApiErrorText(e) == "Gemini API error: " + e.message + rest;
  }

  /** A text without any of the markers' first characters ('q', '4', 'R')
      does not pass the quota test. */
  lemma LacksMarkers(msg: string)
    requires forall i :: 0 <= i < |msg| ==> msg[i] != 'q' && msg[i] != '4' && msg[i] != 'R'
    ensures !IsQuotaText(msg)
  {
    NotContainsWithoutFirstChar(msg, "quota");
    NotContainsWithoutFirstChar(msg, "429");
    NotContainsWithoutFirstChar(msg, "RESOURCE_EXHAUSTED");
  }

  /** "Failed to call Gemini API" does not pass the quota test. */
  lemma CallFailedIsNotQuota()
    ensures !IsQuotaText("Failed to call Gemini API")
  {
    LacksMarkers("Failed to call Gemini API");
  }

  /** "Failed to parse Gemini response" does not pass the quota test. */
  lemma ReplyUnparsableIsNotQuota()
    ensures !IsQuotaText("Failed to parse Gemini response")
  {
    LacksMarkers("Failed to parse Gemini response");
  }

  /** "No response from Gemini" does not pass the quota test. */
  lemma NoResponseIsNotQuota()
    ensures !IsQuotaText("No response from Gemini")
  {
    LacksMarkers("No response from Gemini");
  }

  /** "Failed to parse structured moments JSON" does not pass the quota test. */
  lemma MomentsUnparsableIsNotQuota()
    ensures !IsQuotaText("Failed to parse structured moments JSON")
  {
    LacksMarkers("Failed to parse structured moments JSON");
  }

  /** The quota test on the text of a failure picks out exactly the API
      errors whose text mentions a quota: a failed request, an unreadable
      reply, an empty reply or unparsable moments only rotate the key. */
  lemma QuotaFailureIsQuotaText(e: AnalysisError)
    ensures IsQuotaText(Message(e)) <==> QuotaFailure(e)
  {
    match e
    case CallFailed => CallFailedIsNotQuota();
    case ReplyUnparsable => ReplyUnparsableIsNotQuota();
    case ApiFailed(_) =>
    case NoResponse => NoResponseIsNotQuota();
    case MomentsUnparsable => MomentsUnparsableIsNotQuota();
  }

  /** One step of `process_chunk` with an enabled key `k` and an attempt to make. */
  lemma ChunkStep(p: Pool, attempts: seq<Attempt>, parse: string -> Option<seq<Moment>>, offset: nat, k: nat)
    requires ActiveIndex(p) == Some(k) && attempts != []
    ensures AttemptResult(attempts[0], parse, offset).Some? ==>
      ChunkRun(p, attempts, parse, offset) == Run(Returned(Ok(AttemptResult(attempts[0], parse, offset).value)), Rotated(p), [k])
    ensures AttemptResult(attempts[0], parse, offset).None? ==>
      ChunkRun(p, attempts, parse, offset)
      == Prepend(k, ChunkRun(AfterAttempt(p, k, attempts[0], parse, offset), attempts[1..], parse, offset))
  {
  }

  /** After a successful upload, what the analysis returns decides the
      attempt: it yields moments exactly when the analysis does, and the
      quota test on the analysis error's text is the one AfterAttempt applies. */
  lemma AttemptDecided(a: Attempt, parse: string -> Option<seq<Moment>>, offset: nat,
                       uploaded: Result<string>, analysed: Result<seq<Moment>>)
    requires uploaded == UploadOutcome(a)
    requires analysed == AsResult(AnalyzeOutcome(a.analysis, parse, offset))
    requires uploaded.Ok?
    ensures analysed.Ok? ==> AttemptResult(a, parse, offset) == Some(analysed.value)
    ensures analysed.Err? ==> AttemptResult(a, parse, offset).None?
    ensures analysed.Err? ==> (IsQuotaText(analysed.error) <==> QuotaAttempt(a, parse, offset))
  {
    if AnalyzeOutcome(a.analysis, parse, offset).Failed? {
      QuotaFailureIsQuotaText(AnalyzeOutcome(a.analysis, parse, offset).reason);
    }
  }

  /** A failed upload yields nothing and is never a quota error. */
  lemma UploadFailureDecides(a: Attempt, parse: string -> Option<seq<Moment>>, offset: nat)
    requires UploadOutcome(a).Err?
    ensures AttemptResult(a, parse, offset).None? && !QuotaAttempt(a, parse, offset)
  {
  }

  /** The client: its key pool and the model chosen at construction. */
  class GoogleClient {
    const ring: KeyRing
    const model: string

    constructor(apiKeys: seq<(string, string)>, useFastModel: bool)
      ensures fresh(ring) && ring.State() == NewPool(apiKeys)
      ensures model == if useFastModel then "gemini-3-flash-preview" else "gemini-3-pro-preview"
    {
      ring := new KeyRing(apiKeys);
      model := if useFastModel then "gemini-3-flash-preview" else "gemini-3-pro-preview";
    }

    /** `upload_video_internal` */
    static method UploadVideoInternal(a: Attempt) returns (r: Result<string>)
      ensures r == UploadOutcome(a)
    {
      if !a.upload.Uploaded? {
        return Err(UploadFailure(a.upload));
      }
      var waited, _ := WaitForFileActive(a.polls, true);
      if waited.Err? {
        return Err(waited.error);
      }
      return Ok(a.upload.uri);
    }

    /** `analyze_video_internal` */
    static method AnalyzeVideoInternal(reply: AnalyzeReply, parse: string -> Option<seq<Moment>>, offset: nat)
      returns (r: Result<seq<Moment>>)
      ensures r == AsResult(AnalyzeOutcome(reply, parse, offset))
    {
      match reply
      case SendFailed => return Err(Message(CallFailed));
      case BodyUnparsable => return Err(Message(ReplyUnparsable));
      case Body(error, candidates) =>
        if error.Some? {
          return Err(Message(ApiFailed(error.value)));
        }
        var text := FirstText(candidates);
        if text.None? {
          return Err(Message(NoResponse));
        }
        var parsed := parse(StripFences(text.value));
        if parsed.None? {
          return Err(Message(MomentsUnparsable));
        }
        var moments := RebaseInPlace(parsed.value, offset);
        return Ok(moments);
    }

    /** The quota test on an analysis error's text; it picks out the
        failures QuotaFailure names. */
    static method QuotaTest(error: string, ghost reason: AnalysisError) returns (quota: bool)
      requires error == Message(reason)
      ensures quota == QuotaFailure(reason)
    {
      QuotaFailureIsQuotaText(reason);
      quota := IsQuotaText(error);
    }

    /** One attempt of `process_chunk` with key `k`: upload, then analyse;
        success and any failure but a quota error rotate, a quota error
        disables the key. */
    method TryKey(k: nat, a: Attempt, parse: string -> Option<seq<Moment>>, offset: nat)
      returns (moments: Option<seq<Moment>>)
      requires k < |ring.keys|
      modifies ring
      ensures moments == AttemptResult(a, parse, offset)
      ensures ring.State() == if moments.Some? then Rotated(old(ring.State()))
                              else AfterAttempt(old(ring.State()), k, a, parse, offset)
    {
      var uploaded := UploadVideoInternal(a);
      if uploaded.Err? {
        UploadFailureDecides(a, parse, offset);
        ring.RotateKey();
        return None;
      }
      var analysed := AnalyzeVideoInternal(a.analysis, parse, offset);
      AttemptDecided(a, parse, offset, uploaded, analysed);
      if analysed.Ok? {
        ring.RotateKey();
        return Some(analysed.value);
      }
      var quota := QuotaTest(analysed.error, AnalyzeOutcome(a.analysis, parse, offset).reason);
      if quota {
        ring.DisableKey(ring.keys[k].value);
      } else {
        ring.RotateKey();
      }
      return None;
    }

    /** `process_chunk`: the retry loop over the attempts the network answers. */
    method ProcessChunk(attempts: seq<Attempt>, parse: string -> Option<seq<Moment>>, offset: nat)
      returns (outcome: Outcome, used: seq<nat>)
      modifies ring
      ensures Run(outcome, ring.State(), used) == ChunkRun(old(ring.State()), attempts, parse, offset)
    {
      used := [];
      var i := 0;
      while true
        invariant 0 <= i <= |attempts|
        invariant Extend(used, ChunkRun(ring.State(), attempts[i..], parse, offset))
               == ChunkRun(old(ring.State()), attempts, parse, offset)
        decreases |attempts| - i
      {
        var key := ring.GetActiveKey();
        if key.None? {
          return Returned(Err(NO_ACTIVE_KEYS)), used;
        }
        if i == |attempts| {
          return Retrying, used;
        }
        var k := key.value;
        assert attempts[i..][0] == attempts[i] && attempts[i..][1..] == attempts[i + 1..];
        ChunkStep(ring.State(), attempts[i..], parse, offset, k);
        var moments := TryKey(k, attempts[i], parse, offset);
        if moments.Some? {
          return Returned(Ok(moments.value)), used + [k];
        }
        used, i := used + [k], i + 1;
      }
    }
  }
}
