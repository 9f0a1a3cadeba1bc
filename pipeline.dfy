/** The session loop of the program: adopting a saved session, rebuilding the
    chunk list of a resumed session, analysing the chunks in order while the
    session file is rewritten after each success, the moments listing and the
    clip file names. */
module Pipeline {
  import opened Wrappers
  import opened Text
  import opened Decimal
  import opened Types
  import opened Video

  // ---------------------------------------------------------------- resume

  /** temp.json as found at start-up: missing, present but unreadable, or its text. */
  datatype SavedFile = Absent | Unreadable(error: string) | Present(content: string)

  /** The resume decision. A saved session is adopted only when the file
      exists, reads, parses and the user agrees; a file that does not parse
      counts as no session, and a file that cannot be read aborts. */
  function ResumeSession(file: SavedFile, parse: string -> Option<SessionState>, resume: bool)
    : (r: Result<Option<SessionState>>)
    ensures r.Err? <==> file.Unreadable?
    ensures r.Ok? && r.value.Some? <==> file.Present? && parse(file.content).Some? && resume
    ensures r.Ok? && r.value.Some? ==> r.value.value == parse(file.content).value
  {
    match file
    case Absent => Ok(None)
    case Unreadable(e) => Err(e)
    case Present(content) =>
      match parse(content)
      case None => Ok(None)
      case Some(s) => if resume then Ok(Some(s)) else Ok(None)
  }

  /** Where the run starts: the adopted session, or a new one with the entered
      URL, no moments and a fresh temp directory. */
  function StartingPoint(session: Option<SessionState>, url: string, tempDir: string): (s: SessionState)
    ensures session.None? ==> s.moments == [] && s.youtubeUrl == url && s.tempDir == tempDir
    ensures session.Some? ==> s == session.value
  {
    if session.Some? then session.value else SessionState(url, [], tempDir)
  }

  // ------------------------------------------------------ chunk rebuilding

  /** The file of planned chunk `i`. */
  function ChunkPath(dir: string, i: nat): string
  {
    dir + "/chunk_" + Digits(i) + ".mp4"
  }

  /** The chunk list rebuilt from the first `n` planned chunks: chunk `i` is
      kept, with its planned start, when its file exists. */
  function Kept(plan: seq<Segment>, dir: string, isFile: string -> bool, n: nat): seq<VideoChunk>
    requires n <= |plan|
  {
    if n == 0 then []
    else
      var i := n - 1;
      Kept(plan, dir, isFile, i)
      + (if isFile(ChunkPath(dir, i)) then [VideoChunk(plan[i].0, ChunkPath(dir, i))] else [])
  }

  /** Every rebuilt chunk is a planned chunk whose file exists. */
  lemma {:induction false} KeptSound(plan: seq<Segment>, dir: string, isFile: string -> bool, n: nat)
    requires n <= |plan|
    ensures |Kept(plan, dir, isFile, n)| <= n
    ensures forall c :: c in Kept(plan, dir, isFile, n) ==>
      exists i :: 0 <= i < n && c == VideoChunk(plan[i].0, ChunkPath(dir, i)) && isFile(ChunkPath(dir, i))
  {
    if n > 0 {
      KeptSound(plan, dir, isFile, n - 1);
    }
  }

  /** Every planned chunk whose file exists is rebuilt. */
  lemma {:induction false} KeptComplete(plan: seq<Segment>, dir: string, isFile: string -> bool, n: nat, i: nat)
    requires i < n <= |plan| && isFile(ChunkPath(dir, i))
    ensures VideoChunk(plan[i].0, ChunkPath(dir, i)) in Kept(plan, dir, isFile, n)
  {
    if i < n - 1 {
      KeptComplete(plan, dir, isFile, n - 1, i);
    }
  }

  /** With no chunk file present nothing is rebuilt, which sends the run back
      to splitting. */
  lemma {:induction false} KeptNone(plan: seq<Segment>, dir: string, isFile: string -> bool, n: nat)
    requires n <= |plan|
    requires forall i :: 0 <= i < n ==> !isFile(ChunkPath(dir, i))
    ensures Kept(plan, dir, isFile, n) == []
  {
    if n > 0 {
      KeptNone(plan, dir, isFile, n - 1);
    }
  }

  /** The chunks of a run: the rebuilt list when the chunk directory has
      entries and some planned chunk file exists, otherwise a new split. */
  function ChunksFor(duration: nat, dir: string, dirHasEntries: bool, isFile: string -> bool,
                     split: seq<Segment> -> Result<seq<VideoChunk>>): Result<seq<VideoChunk>>
  {
    var plan := Plan(duration);
    if dirHasEntries && Kept(plan, dir, isFile, |plan|) != [] then Ok(Kept(plan, dir, isFile, |plan|))
    else split(plan)
  }

  /** The choice between reusing and re-splitting. */
  lemma ChunksForChoice(duration: nat, dir: string, dirHasEntries: bool, isFile: string -> bool,
                        split: seq<Segment> -> Result<seq<VideoChunk>>)
    ensures var plan := Plan(duration);
      var r := ChunksFor(duration, dir, dirHasEntries, isFile, split);
      && (!dirHasEntries ==> r == split(plan))
      && (dirHasEntries && (forall i :: 0 <= i < |plan| ==> !isFile(ChunkPath(dir, i))) ==> r == split(plan))
      && (dirHasEntries && (exists i :: 0 <= i < |plan| && isFile(ChunkPath(dir, i)))
          ==> r.Ok? && r.value == Kept(plan, dir, isFile, |plan|))
  {
    var plan := Plan(duration);
    if dirHasEntries && forall i :: 0 <= i < |plan| ==> !isFile(ChunkPath(dir, i)) {
      KeptNone(plan, dir, isFile, |plan|);
    }
    if exists i :: 0 <= i < |plan| && isFile(ChunkPath(dir, i)) {
      var i :| 0 <= i < |plan| && isFile(ChunkPath(dir, i));
      KeptComplete(plan, dir, isFile, |plan|, i);
    }
  }

  /** The loop that rebuilds the chunk list with pushes. */
  method RebuildChunks(plan: seq<Segment>, dir: string, isFile: string -> bool) returns (chunks: seq<VideoChunk>)
    ensures chunks == Kept(plan, dir, isFile, |plan|)
  {
    chunks := [];
    for i := 0 to |plan|
      invariant chunks == Kept(plan, dir, isFile, i)
    {
      var path := ChunkPath(dir, i);
      if isFile(path) {
        chunks := chunks + [VideoChunk(plan[i].0, path)];
      }
    }
  }

  /** Step 6 of the run: reuse the chunk files of a resumed run, or split. */
  method SelectChunks(duration: nat, dir: string, dirHasEntries: bool, isFile: string -> bool,
                      split: seq<Segment> -> Result<seq<VideoChunk>>) returns (r: Result<seq<VideoChunk>>)
    ensures r == ChunksFor(duration, dir, dirHasEntries, isFile, split)
  {
    var plan := CalculateChunks(duration);
    if dirHasEntries {
      var rebuilt := RebuildChunks(plan, dir, isFile);
      if rebuilt == [] {
        return split(plan);
      }
      return Ok(rebuilt);
    }
    return split(plan);
  }

  // ------------------------------------------------------- chunk analysis

  /** What the upload and the analysis of one chunk gave. */
  datatype ChunkReport = UploadFailed(error: string) | AnalysisFailed(error: string) | Analysed(moments: seq<Moment>)

  /** The moments a chunk contributes: none when its upload or analysis failed. */
  function Found(r: ChunkReport): seq<Moment>
  {
    if r.Analysed? then r.moments else []
  }

  /** The moments of the first `n` chunks, in chunk order. */
  function Gathered(reports: nat -> ChunkReport, n: nat): seq<Moment>
  {
    if n == 0 then [] else Gathered(reports, n - 1) + Found(reports(n - 1))
  }

  /** The session writes made while analysing the first `n` chunks: one after
      each analysed chunk, holding every moment gathered so far. */
  function SavesDuring(url: string, tempDir: string, reports: nat -> ChunkReport, n: nat): seq<SessionState>
  {
    if n == 0 then []
    else SavesDuring(url, tempDir, reports, n - 1)
         + (if reports(n - 1).Analysed? then [SessionState(url, Gathered(reports, n), tempDir)] else [])
  }

  /** The number of analysed chunks among the first `n`. */
  function AnalysedCount(reports: nat -> ChunkReport, n: nat): nat
  {
    if n == 0 then 0 else AnalysedCount(reports, n - 1) + (if reports(n - 1).Analysed? then 1 else 0)
  }

  /** Earlier chunks' moments come first: the moments of the first `m` chunks
      are a prefix of those of the first `n`. */
  lemma {:induction false} GatheredPrefix(reports: nat -> ChunkReport, m: nat, n: nat)
    requires m <= n
    ensures |Gathered(reports, m)| <= |Gathered(reports, n)|
    ensures Gathered(reports, n)[..|Gathered(reports, m)|] == Gathered(reports, m)
    decreases n - m
  {
    if m < n {
      GatheredPrefix(reports, m, n - 1);
      var a := Gathered(reports, m);
      var b := Gathered(reports, n - 1);
      assert Gathered(reports, n) == b + Found(reports(n - 1));
      assert (b + Found(reports(n - 1)))[..|a|] == b[..|a|];
    }
  }

  /** Every gathered moment was returned by the analysis of one of the chunks. */
  lemma {:induction false} GatheredFromAnalysed(reports: nat -> ChunkReport, n: nat)
    ensures forall m :: m in Gathered(reports, n) ==>
      exists i :: 0 <= i < n && reports(i).Analysed? && m in reports(i).moments
  {
    if n > 0 {
      GatheredFromAnalysed(reports, n - 1);
    }
  }

  /** When no chunk is analysed, nothing is gathered and nothing is saved. */
  lemma {:induction false} NothingAnalysed(url: string, tempDir: string, reports: nat -> ChunkReport, n: nat)
    requires forall i :: 0 <= i < n ==> !reports(i).Analysed?
    ensures Gathered(reports, n) == [] && SavesDuring(url, tempDir, reports, n) == []
  {
    if n > 0 {
      NothingAnalysed(url, tempDir, reports, n - 1);
    }
  }

  /** One save per analysed chunk. */
  lemma {:induction false} SavesCount(url: string, tempDir: string, reports: nat -> ChunkReport, n: nat)
    ensures |SavesDuring(url, tempDir, reports, n)| == AnalysedCount(reports, n)
  {
    if n > 0 {
      SavesCount(url, tempDir, reports, n - 1);
    }
  }

  /** Every save keeps the run's URL and temp directory. */
  lemma {:induction false} SavesKeepSession(url: string, tempDir: string, reports: nat -> ChunkReport, n: nat)
    ensures forall s :: s in SavesDuring(url, tempDir, reports, n) ==> s.youtubeUrl == url && s.tempDir == tempDir
  {
    if n > 0 {
      SavesKeepSession(url, tempDir, reports, n - 1);
    }
  }

  /** Every save holds a prefix of the final moment list, so a resumed run
      never loses a moment that was already saved. */
  lemma {:induction false} SavesArePrefixes(url: string, tempDir: string, reports: nat -> ChunkReport, n: nat)
    ensures forall s :: s in SavesDuring(url, tempDir, reports, n) ==>
      |s.moments| <= |Gathered(reports, n)| && Gathered(reports, n)[..|s.moments|] == s.moments
  {
    if n > 0 {
      SavesArePrefixes(url, tempDir, reports, n - 1);
      var g := Gathered(reports, n - 1);
      var whole := Gathered(reports, n);
      GatheredPrefix(reports, n - 1, n);
      forall s | s in SavesDuring(url, tempDir, reports, n - 1)
        ensures |s.moments| <= |whole| && whole[..|s.moments|] == s.moments
      {
        assert whole[..|g|][..|s.moments|] == g[..|s.moments|];
      }
    }
  }

  /** The last save holds every moment gathered. */
  lemma {:induction false} SavesLastIsGathered(url: string, tempDir: string, reports: nat -> ChunkReport, n: nat)
    requires SavesDuring(url, tempDir, reports, n) != []
    ensures var saves := SavesDuring(url, tempDir, reports, n);
      saves[|saves| - 1].moments == Gathered(reports, n)
  {
    if !reports(n - 1).Analysed? {
      SavesLastIsGathered(url, tempDir, reports, n - 1);
    }
  }

  /** temp.json's successive contents, one entry per `save_session`. */
  class SessionFile {
    var saved: seq<SessionState>

    constructor()
      ensures saved == []
    {
      saved := [];
    }

    /** `save_session`: the file is rewritten with the URL, the moments and
        the temp directory. */
    method Save(url: string, moments: seq<Moment>, tempDir: string)
      modifies this
      ensures saved == old(saved) + [SessionState(url, moments, tempDir)]
    {
      saved := saved + [SessionState(url, moments, tempDir)];
    }

    /** Step 7 of the run: analyse the chunks in order, extending the moment
        list and saving after each analysed chunk; a failed chunk is skipped. */
    method AnalyzeChunks(url: string, tempDir: string, chunks: seq<VideoChunk>, reports: nat -> ChunkReport)
      returns (all: seq<Moment>)
      modifies this
      ensures all == Gathered(reports, |chunks|)
      ensures saved == old(saved) + SavesDuring(url, tempDir, reports, |chunks|)
    {
      all := [];
      for i := 0 to |chunks|
        invariant all == Gathered(reports, i)
        invariant saved == old(saved) + SavesDuring(url, tempDir, reports, i)
      {
        match reports(i) {
          case Analysed(moments) =>
            all := all + moments;
            Save(url, all, tempDir);
          case AnalysisFailed(_) =>
          case UploadFailed(_) =>
        }
      }
    }

    /** The run after start-up: save the starting session, analyse the chunks
        unless the session already has moments, save again, write the listing
        and name one clip per moment when there are moments and shorts are wanted. */
    method RunSession(start: SessionState, chunks: seq<VideoChunk>, reports: nat -> ChunkReport,
                      shortsDir: string, generate: bool)
      returns (moments: seq<Moment>, listing: string, clips: seq<string>)
      modifies this
      ensures moments == if start.moments == [] then Gathered(reports, |chunks|) else start.moments
      ensures saved == old(saved) + [start]
        + (if start.moments == [] then SavesDuring(start.youtubeUrl, start.tempDir, reports, |chunks|) else [])
        + [SessionState(start.youtubeUrl, moments, start.tempDir)]
      ensures listing == Listing(moments)
      ensures clips == if moments != [] && generate then ClipPaths(shortsDir, moments) else []
    {
      Save(start.youtubeUrl, start.moments, start.tempDir);
      moments := start.moments;
      if moments == [] {
        moments := AnalyzeChunks(start.youtubeUrl, start.tempDir, chunks, reports);
      }
      Save(start.youtubeUrl, moments, start.tempDir);
      listing := BuildListing(moments);
      clips := [];
      if moments != [] && generate {
        clips := NameClips(shortsDir, moments);
      }
    }
  }

  // --------------------------------------------------------- moments.txt

  const LISTING_HEADER := "=== YouTube Shorts Moments ===\n\n"

  /** The listing entry of a moment with its 1-based number. */
  function Entry(number: nat, m: Moment): string
  {
    Digits(number) + ". [" + m.startTime + " - " + m.endTime + "] (" + m.category + ")\n   " + m.description + "\n\n"
  }

  /** The entries of `ms`, numbered from `first`. */
  function Entries(ms: seq<Moment>, first: nat): (r: seq<string>)
    ensures |r| == |ms|
    ensures forall i :: 0 <= i < |ms| ==> r[i] == Entry(first + i, ms[i])
  {
    seq(|ms|, i requires 0 <= i < |ms| => Entry(first + i, ms[i]))
  }

  /** moments.txt: the header, then one entry per moment numbered from 1. */
  function Listing(ms: seq<Moment>): string
  {
    LISTING_HEADER + Concat(Entries(ms, 1))
  }

  lemma EntriesAt(ms: seq<Moment>, i: nat)
    requires i < |ms|
    ensures Concat(Entries(ms, 1))
      == Concat(Entries(ms[..i], 1)) + (Entry(i + 1, ms[i]) + Concat(Entries(ms[i + 1..], i + 2)))
  {
    var before, entry, after := Entries(ms[..i], 1), Entry(i + 1, ms[i]), Entries(ms[i + 1..], i + 2);
    assert Entries(ms, 1) == before + ([entry] + after);
    ConcatAppend(before, [entry] + after);
    assert ([entry] + after)[0] == entry && ([entry] + after)[1..] == after;
  }

  /** Moment `i` appears as entry number i + 1, after the entries of the
      moments before it and before those of the moments after it. */
  lemma ListingAt(ms: seq<Moment>, i: nat)
    requires i < |ms|
    ensures Listing(ms) == LISTING_HEADER
      + (Concat(Entries(ms[..i], 1)) + (Entry(i + 1, ms[i]) + Concat(Entries(ms[i + 1..], i + 2))))
  {
    EntriesAt(ms, i);
  }

  /** Appending the entry of moment `i` extends the listing of the moments before it. */
  lemma ListingSnoc(ms: seq<Moment>, i: nat)
    requires i < |ms|
    ensures Listing(ms[..i + 1]) == Listing(ms[..i]) + Entry(i + 1, ms[i])
  {
    var done, entry := Entries(ms[..i], 1), Entry(i + 1, ms[i]);
    assert Entries(ms[..i + 1], 1) == done + [entry];
    ConcatAppend(done, [entry]);
    ConcatOne(entry);
  }

  /** The loop that builds moments.txt with `push_str`. */
  method BuildListing(ms: seq<Moment>) returns (txt: string)
    ensures txt == Listing(ms)
  {
    txt := LISTING_HEADER;
    assert ms[..0] == [];
    for i := 0 to |ms|
      invariant txt == Listing(ms[..i])
    {
      ListingSnoc(ms, i);
      txt := txt + Entry(i + 1, ms[i]);
    }
    assert ms[..|ms|] == ms;
  }

  // ------------------------------------------------------------ clip names

  /** The category part of a clip name: spaces become '_', letters lower case. */
  function ClipSlug(category: string): string
  {
    AsciiLower(ReplaceChar(category, ' ', "_"))
  }

  /** What follows the clip number in a clip name. */
  function ClipSuffix(category: string): (r: string)
    ensures |r| > 0 && r[0] == '_'
  {
    "_" + ClipSlug(category) + ".mp4"
  }

  /** The output path of clip `i`. */
  function ClipPath(dir: string, i: nat, category: string): string
  {
    dir + "/short_" + Digits(i + 1) + ClipSuffix(category)
  }

  function ClipPaths(dir: string, ms: seq<Moment>): seq<string>
  {
    seq(|ms|, i requires 0 <= i < |ms| => ClipPath(dir, i, ms[i].category))
  }

  /** A clip name never contains a space. */
  lemma SlugHasNoSpace(category: string)
    ensures ' ' !in ClipSlug(category)
  {
    var r := ReplaceChar(category, ' ', "_");
    assert ' ' !in r;
    forall k | 0 <= k < |r|
      ensures ClipSlug(category)[k] != ' '
    {
      assert r[k] != ' ';
    }
  }

  /** Two names made of a common prefix, a number and a rest starting with
      '_' differ when the numbers are different digit strings. */
  lemma NumberedNamesDiffer(p: string, d1: string, r1: string, d2: string, r2: string)
    requires AllDigits(d1) && AllDigits(d2) && d1 != d2
    requires |r1| > 0 && r1[0] == '_' && |r2| > 0 && r2[0] == '_'
    ensures p + d1 + r1 != p + d2 + r2
  {
    var s1, s2 := p + d1 + r1, p + d2 + r2;
    if |d1| == |d2| {
      assert s1[|p|..|p| + |d1|] == d1;
      assert s2[|p|..|p| + |d2|] == d2;
    } else if |d1| < |d2| {
      assert s1[|p| + |d1|] == '_';
      assert s2[|p| + |d1|] == d2[|d1|];
    } else {
      assert s2[|p| + |d2|] == '_';
      assert s1[|p| + |d2|] == d1[|d2|];
    }
  }

  /** Different clips get different paths, whatever their categories, so no
      clip overwrites another. */
  lemma ClipPathsDistinct(dir: string, i: nat, j: nat, a: string, b: string)
    requires i != j
    ensures ClipPath(dir, i, a) != ClipPath(dir, j, b)
  {
    ValueOfDigits(i + 1);
    ValueOfDigits(j + 1);
    NumberedNamesDiffer(dir + "/short_", Digits(i + 1), ClipSuffix(a), Digits(j + 1), ClipSuffix(b));
  }

  /** The clip loop: one output path per moment, numbered from 1. */
  method NameClips(dir: string, ms: seq<Moment>) returns (paths: seq<string>)
    ensures paths == ClipPaths(dir, ms)
  {
    paths := [];
    for i := 0 to |ms|
      invariant |paths| == i
      invariant forall k :: 0 <= k < i ==> paths[k] == ClipPath(dir, k, ms[k].category)
    {
      paths := paths + [ClipPath(dir, i, ms[i].category)];
    }
  }
}
