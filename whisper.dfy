/** Subtitles for a short: the ASS timestamp format, the ASS document that is
    written for a list of segments, and the filter applied to the segments the
    speech recogniser returns. */
module Whisper {
  import opened Wrappers
  import opened Text
  import opened Decimal

  /** One subtitle: start and end in milliseconds, and its text. The
      recogniser's times are never negative. */
  datatype SubtitleSegment = SubtitleSegment(startMs: nat, endMs: nat, text: string)

  // ---------------------------------------------------------------------
  // format_ass_timestamp
  // ---------------------------------------------------------------------

  /** `format_ass_timestamp`: "H:MM:SS.CC" with the hours unpadded and the
      hundredths truncated. On values that are not negative Rust's `/` and
      `%` are Dafny's. */
  function FormatAssTimestamp(ms: nat): string
  {
    var totalSeconds := ms / 1000;
    var centiseconds := ms % 1000 / 10;
    var hours := totalSeconds / 3600;
    var minutes := totalSeconds % 3600 / 60;
    var seconds := totalSeconds % 60;
    Digits(hours) + ":" + Pad2(minutes) + ":" + Pad2(seconds) + "." + Pad2(centiseconds)
  }

  /** The timestamp of a time given as a number of hundredths of a second:
      hours, minutes, seconds and hundredths, each field but the hours two
      digits wide. */
  function Layout(c: nat): string
  {
    Digits(c / 360000) + ":" + Pad2(c / 6000 % 60) + ":" + Pad2(c / 100 % 60) + "." + Pad2(c % 100)
  }

  /** Euclidean division is determined by quotient and remainder. */
  lemma DivModUnique(x: int, n: int, q: int, r: int)
    requires n > 0 && 0 <= r < n && x == q * n + r
    ensures x / n == q && x % n == r
  {
    ModUnique(x, n, q, r);
    assert (x / n - q) * n == (x / n) * n - q * n == 0;
    ProductZero(x / n - q, n);
  }

  lemma ProductZero(d: int, n: int)
    requires n > 0 && d * n == 0
    ensures d == 0
  {
  }

  lemma MulMono(a: nat, b: nat, c: nat)
    requires b <= c
    ensures a * b <= a * c
  {
  }

  /** Dividing twice is dividing by the product; the remainder of the product
      divided by the first divisor is the second remainder. */
  lemma DivDiv(x: nat, a: nat, b: nat)
    requires a > 0 && b > 0
    ensures x / a / b == x / (a * b)
    ensures x % (a * b) / a == x / a % b
  {
    var q, r := x / a, x % a;
    var q2, r2 := q / b, q % b;
    assert a * q == a * b * q2 + a * r2 by {
      assert q == b * q2 + r2;
    }
    MulMono(a, r2, b - 1);
    assert a * (b - 1) == a * b - a;
    DivModUnique(x, a * b, q2, a * r2 + r);
    DivModUnique(a * r2 + r, a, r2, r);
  }

  /** For a time that is not negative the source's arithmetic computes the
      fields of the time counted in whole hundredths of a second. */
  lemma AssTimestampLayout(ms: nat)
    ensures FormatAssTimestamp(ms) == Layout(ms / 10)
  {
    var c := ms / 10;
    var total := ms / 1000;
    DivDiv(ms, 10, 100);
    DivDiv(c, 100, 3600);
    DivDiv(total, 60, 60);
    DivDiv(c, 100, 60);
  }

  /** The four fields are at fixed distances from the end of the timestamp. */
  lemma LayoutParts(c: nat)
    ensures var s, n := Layout(c), |Digits(c / 360000)|;
      && |s| == n + 9
      && s[..n] == Digits(c / 360000)
      && s[n + 1..n + 3] == Pad2(c / 6000 % 60)
      && s[n + 4..n + 6] == Pad2(c / 100 % 60)
      && s[n + 7..] == Pad2(c % 100)
  {
  }

  /** The fields give the number of hundredths back. */
  lemma Recompose(c: nat)
    ensures c == 100 * (60 * (60 * (c / 360000) + c / 6000 % 60) + c / 100 % 60) + c % 100
  {
    DivDiv(c, 100, 60);
    DivDiv(c, 6000, 60);
  }

  lemma Pad2Injective(m: nat, n: nat)
    requires Pad2(m) == Pad2(n)
    ensures m == n
  {
    ValueOfPad2(m);
    ValueOfPad2(n);
  }

  lemma LayoutInjective(c: nat, d: nat)
    requires Layout(c) == Layout(d)
    ensures c == d
  {
    LayoutParts(c);
    LayoutParts(d);
    DigitsInjective(c / 360000, d / 360000);
    Pad2Injective(c / 6000 % 60, d / 6000 % 60);
    Pad2Injective(c / 100 % 60, d / 100 % 60);
    Pad2Injective(c % 100, d % 100);
    Recompose(c);
    Recompose(d);
  }

  /** Two times that are not negative get the same ASS timestamp exactly when
      they fall in the same hundredth of a second. */
  lemma AssTimestampSameCentisecond(a: nat, b: nat)
    ensures FormatAssTimestamp(a) == FormatAssTimestamp(b) <==> a / 10 == b / 10
  {
    AssTimestampLayout(a);
    AssTimestampLayout(b);
    if FormatAssTimestamp(a) == FormatAssTimestamp(b) {
      LayoutInjective(a / 10, b / 10);
    }
  }

  /** The formatter's own examples, and the end time of the first subtitle
      of the document example. */
  lemma AssTimestampZero()
    ensures FormatAssTimestamp(0) == "0:00:00.00"
  {
  }

  lemma AssTimestampHundredths()
    ensures FormatAssTimestamp(1500) == "0:00:01.50"
  {
  }

  lemma AssTimestampSeconds()
    ensures FormatAssTimestamp(2000) == "0:00:02.00"
  {
  }

  lemma AssTimestampMinutes()
    ensures FormatAssTimestamp(61000) == "0:01:01.00"
  {
  }

  lemma AssTimestampHours()
    ensures FormatAssTimestamp(3661500) == "1:01:01.50"
  {
  }

  // ---------------------------------------------------------------------
  // generate_ass_subtitle
  // ---------------------------------------------------------------------

  // The header, line by line. It is assembled from named pieces so that the
  // lemmas about where its sections start never look inside the literals.

  const SCRIPT_INFO_HEADING := "[Script Info]\r\n"
  const SCRIPT_NAMES := "Title: YT ShortMaker Subtitles\r\n" + "ScriptType: v4.00+\r\n"
  const PLAY_RES_X := "PlayResX: 1080\r\n"
  const PLAY_RES_Y := "PlayResY: 1920\r\n"
  const SCRIPT_TAIL := "WrapStyle: 0\r\n" + "\r\n"
  const SCRIPT_INFO := SCRIPT_INFO_HEADING + (SCRIPT_NAMES + (PLAY_RES_X + (PLAY_RES_Y + SCRIPT_TAIL)))

  const STYLES_HEADING := "[V4+ Styles]\r\n"
  const STYLES_BODY := "Format: Name, Fontname, Fontsize, PrimaryColour, SecondaryColour, OutlineColour, BackColour, Bold, Italic, Underline, StrikeOut, ScaleX, ScaleY, Spacing, Angle, BorderStyle, Outline, Shadow, Alignment, MarginL, MarginR, MarginV, Encoding\r\n"
    + "Style: Default,Arial,72,&H00FFFFFF,&H000000FF,&H00000000,&H80000000,1,0,0,0,100,100,0,0,1,4,2,2,40,40,120,1\r\n"
    + "\r\n"
  const STYLES := STYLES_HEADING + STYLES_BODY

  const EVENTS_HEADING := "[Events]\r\n"
  const EVENTS_BODY := "Format: Layer, Start, End, Style, Name, MarginL, MarginR, MarginV, Effect, Text\r\n"
  const EVENTS := EVENTS_HEADING + EVENTS_BODY

  /** Everything before the first dialogue line. */
  const ASS_HEADER := SCRIPT_INFO + (STYLES + EVENTS)

  /** `text.replace('\n', "\\N")`: a line break becomes ASS's hard break. */
  function EscapeBreaks(text: string): (r: string)
    ensures '\n' !in r
  {
    ReplaceChar(text, '\n', "\\N")
  }

  /** The event line of one segment. */
  function DialogueLine(seg: SubtitleSegment): string
  {
    "Dialogue: 0," + FormatAssTimestamp(seg.startMs) + "," + FormatAssTimestamp(seg.endMs)
      + ",Default,,0,0,0,," + EscapeBreaks(seg.text) + "\r\n"
  }

  function DialogueLines(segs: seq<SubtitleSegment>): (r: seq<string>)
    ensures |r| == |segs| && forall i :: 0 <= i < |segs| ==> r[i] == DialogueLine(segs[i])
  {
    seq(|segs|, i requires 0 <= i < |segs| => DialogueLine(segs[i]))
  }

  /** The event lines of the segments, in the order given. */
  function Events(segs: seq<SubtitleSegment>): string
  {
    Concat(DialogueLines(segs))
  }

  /** The subtitle file: the header, then one event line per segment. */
  function AssDocument(segs: seq<SubtitleSegment>): string
  {
    ASS_HEADER + Events(segs)
  }

  /** One more segment appends its event line. */
  lemma EventsSnoc(segs: seq<SubtitleSegment>, i: nat)
    requires i < |segs|
    ensures Events(segs[..i + 1]) == Events(segs[..i]) + DialogueLine(segs[i])
  {
    var done := DialogueLines(segs[..i]);
    var line := DialogueLine(segs[i]);
    assert DialogueLines(segs[..i + 1]) == done + [line];
    ConcatAppend(done, [line]);
    ConcatOne(line);
  }

  /** The content built by `generate_ass_subtitle` before it is written to
      the file. */
  method GenerateAssContent(segments: seq<SubtitleSegment>) returns (content: string)
    ensures content == AssDocument(segments)
  {
    content := ASS_HEADER;
    assert Events(segments[..0]) == "";
    for i := 0 to |segments|
      invariant content == ASS_HEADER + Events(segments[..i])
    {
      var start := FormatAssTimestamp(segments[i].startMs);
      var end := FormatAssTimestamp(segments[i].endMs);
      var text := EscapeBreaks(segments[i].text);
      var line := "Dialogue: 0," + start + "," + end + ",Default,,0,0,0,," + text + "\r\n";
      assert line == DialogueLine(segments[i]);
      EventsSnoc(segments, i);
      Assoc(ASS_HEADER, Events(segments[..i]), line);
      content := content + line;
    }
    assert segments[..|segments|] == segments;
  }

  /** A timestamp never contains a line break. */
  lemma TimestampHasNoBreak(ms: nat)
    ensures '\n' !in FormatAssTimestamp(ms)
  {
    forall n: nat
      ensures '\n' !in Digits(n) && '\n' !in Pad2(n)
    {
      DigitsShape(n);
    }
  }

  /** Every event line is one line of the file: it holds exactly one line
      break, its last character. */
  lemma DialogueIsOneLine(seg: SubtitleSegment)
    ensures Count(DialogueLine(seg), '\n') == 1
    ensures EndsWith(DialogueLine(seg), "\r\n")
  {
    var body := "Dialogue: 0," + FormatAssTimestamp(seg.startMs) + "," + FormatAssTimestamp(seg.endMs)
      + ",Default,,0,0,0,," + EscapeBreaks(seg.text);
    TimestampHasNoBreak(seg.startMs);
    TimestampHasNoBreak(seg.endMs);
    assert '\n' !in body;
    CountAbsent(body, '\n');
    CountConcat(body, "\r\n", '\n');
  }

  /** The lines of the event section, one per segment. */
  lemma {:induction false} DialogueLineCount(segs: seq<SubtitleSegment>)
    ensures Count(Events(segs), '\n') == |segs|
    decreases |segs|
  {
    if segs != [] {
      var lines := DialogueLines(segs);
      assert lines[1..] == DialogueLines(segs[1..]);
      DialogueLineCount(segs[1..]);
      DialogueIsOneLine(segs[0]);
      CountConcat(lines[0], Concat(lines[1..]), '\n');
    }
  }

  /** The file has exactly one line per segment after the header. */
  lemma DocumentLineCount(segs: seq<SubtitleSegment>)
    ensures Count(AssDocument(segs), '\n') == Count(ASS_HEADER, '\n') + |segs|
  {
    DialogueLineCount(segs);
    CountConcat(ASS_HEADER, Events(segs), '\n');
  }

  lemma ContainsSelf(s: string)
    ensures Contains(s, s)
  {
    OccursContains(s, s, 0);
  }

  /** The event line of a segment shows its start, its end and its text with
      line breaks escaped. */
  lemma DialogueShowsSegment(seg: SubtitleSegment)
    ensures Contains(DialogueLine(seg), FormatAssTimestamp(seg.startMs))
    ensures Contains(DialogueLine(seg), FormatAssTimestamp(seg.endMs))
    ensures Contains(DialogueLine(seg), EscapeBreaks(seg.text))
  {
    var start, end, text := FormatAssTimestamp(seg.startMs), FormatAssTimestamp(seg.endMs), EscapeBreaks(seg.text);
    var a := "Dialogue: 0,";
    var b := ",Default,,0,0,0,,";
    ContainsSelf(start);
    ContainsRight(a, start, start);
    ContainsLeft(a + start, ",", start);
    ContainsLeft(a + start + ",", end, start);
    ContainsLeft(a + start + "," + end, b, start);
    ContainsLeft(a + start + "," + end + b, text, start);
    ContainsLeft(a + start + "," + end + b + text, "\r\n", start);
    ContainsSelf(end);
    ContainsRight(a + start + ",", end, end);
    ContainsLeft(a + start + "," + end, b, end);
    ContainsLeft(a + start + "," + end + b, text, end);
    ContainsLeft(a + start + "," + end + b + text, "\r\n", end);
    ContainsSelf(text);
    ContainsRight(a + start + "," + end + b, text, text);
    ContainsLeft(a + start + "," + end + b + text, "\r\n", text);
  }

  /** Every segment's event line is in the file. */
  lemma DocumentHasEverySegment(segs: seq<SubtitleSegment>, i: nat)
    requires i < |segs|
    ensures Contains(AssDocument(segs), DialogueLine(segs[i]))
  {
    var lines := DialogueLines(segs);
    ConcatHasEach(lines, i);
    ContainsRight(ASS_HEADER, Concat(lines), lines[i]);
  }

  lemma Assoc(a: string, b: string, c: string)
    ensures (a + b) + c == a + (b + c)
  {
  }

  lemma OccursShifted(a: string, b: string, p: string, i: nat)
    requires OccursAt(b, p, i)
    ensures OccursAt(a + b, p, |a| + i)
  {
    assert (a + b)[|a| + i..|a| + i + |p|] == b[i..i + |p|];
  }

  lemma OccursFirst(p: string, b: string)
    ensures OccursAt(p + b, p, 0) && StartsWith(p + b, p)
  {
    assert (p + b)[..|p|] == p;
  }

  /** The [Script Info] section sets the 1080x1920 play resolution. */
  lemma ScriptInfoSetsResolution()
    ensures Contains(SCRIPT_INFO, PLAY_RES_X) && Contains(SCRIPT_INFO, PLAY_RES_Y)
  {
    var tail := PLAY_RES_Y + SCRIPT_TAIL;
    OccursFirst(PLAY_RES_X, tail);
    OccursShifted(SCRIPT_NAMES, PLAY_RES_X + tail, PLAY_RES_X, 0);
    OccursContains(SCRIPT_NAMES + (PLAY_RES_X + tail), PLAY_RES_X, |SCRIPT_NAMES|);
    ContainsRight(SCRIPT_INFO_HEADING, SCRIPT_NAMES + (PLAY_RES_X + tail), PLAY_RES_X);
    OccursFirst(PLAY_RES_Y, SCRIPT_TAIL);
    OccursShifted(PLAY_RES_X, tail, PLAY_RES_Y, 0);
    OccursShifted(SCRIPT_NAMES, PLAY_RES_X + tail, PLAY_RES_Y, |PLAY_RES_X|);
    OccursContains(SCRIPT_NAMES + (PLAY_RES_X + tail), PLAY_RES_Y, |SCRIPT_NAMES| + |PLAY_RES_X|);
    ContainsRight(SCRIPT_INFO_HEADING, SCRIPT_NAMES + (PLAY_RES_X + tail), PLAY_RES_Y);
  }

  lemma HeaderShape(rest: string)
    ensures ASS_HEADER + rest == SCRIPT_INFO + (STYLES + (EVENTS + rest))
  {
    Assoc(SCRIPT_INFO, STYLES + EVENTS, rest);
    Assoc(STYLES, EVENTS, rest);
  }

  lemma HeaderOpens(after: string)
    ensures StartsWith(SCRIPT_INFO + after, SCRIPT_INFO_HEADING)
  {
    var body := SCRIPT_NAMES + (PLAY_RES_X + (PLAY_RES_Y + SCRIPT_TAIL));
    Assoc(SCRIPT_INFO_HEADING, body, after);
    OccursFirst(SCRIPT_INFO_HEADING, body + after);
  }

  /** A section's heading stands where the section starts. */
  lemma HeadingAfter(before: string, heading: string, body: string, rest: string)
    ensures OccursAt(before + ((heading + body) + rest), heading, |before|)
  {
    Assoc(heading, body, rest);
    OccursFirst(heading, body + rest);
    OccursShifted(before, (heading + body) + rest, heading, 0);
  }

  lemma StylesFollow(events: string)
    ensures OccursAt(SCRIPT_INFO + (STYLES + events), STYLES_HEADING, |SCRIPT_INFO|)
  {
    HeadingAfter(SCRIPT_INFO, STYLES_HEADING, STYLES_BODY, events);
  }

  lemma EventsFollow(rest: string)
    ensures OccursAt(SCRIPT_INFO + (STYLES + (EVENTS + rest)), EVENTS_HEADING, |SCRIPT_INFO| + |STYLES|)
  {
    HeadingAfter(STYLES, EVENTS_HEADING, EVENTS_BODY, rest);
    OccursShifted(SCRIPT_INFO, STYLES + (EVENTS + rest), EVENTS_HEADING, |STYLES|);
  }

  /** The header opens with the [Script Info] section, which sets the
      1080x1920 play resolution; the [V4+ Styles] section follows it and the
      [Events] section follows that, whatever comes after the header. */
  lemma HeaderSections(rest: string)
    ensures var doc := ASS_HEADER + rest;
      && StartsWith(doc, SCRIPT_INFO_HEADING)
      && Contains(doc, PLAY_RES_X) && Contains(doc, PLAY_RES_Y)
      && OccursAt(doc, STYLES_HEADING, |SCRIPT_INFO|)
      && OccursAt(doc, EVENTS_HEADING, |SCRIPT_INFO| + |STYLES|)
      && |SCRIPT_INFO| < |SCRIPT_INFO| + |STYLES|
  {
    var after := STYLES + (EVENTS + rest);
    HeaderShape(rest);
    HeaderOpens(after);
    ScriptInfoSetsResolution();
    ContainsLeft(SCRIPT_INFO, after, PLAY_RES_X);
    ContainsLeft(SCRIPT_INFO, after, PLAY_RES_Y);
    StylesFollow(EVENTS + rest);
    EventsFollow(rest);
  }

  /** The subtitle file has the three sections in order. */
  lemma DocumentSections(segs: seq<SubtitleSegment>)
    ensures var doc := AssDocument(segs);
      && StartsWith(doc, SCRIPT_INFO_HEADING)
      && Contains(doc, PLAY_RES_X) && Contains(doc, PLAY_RES_Y)
      && OccursAt(doc, STYLES_HEADING, |SCRIPT_INFO|)
      && OccursAt(doc, EVENTS_HEADING, |SCRIPT_INFO| + |STYLES|)
  {
    HeaderSections(Events(segs));
  }

  // ---------------------------------------------------------------------
  // The segment loop of `transcribe`
  // ---------------------------------------------------------------------

  /** What the recogniser's getters return for one segment: its start and
      end in hundredths of a second, and its text; each may fail with the
      recogniser's error text. */
  datatype RawSegment = RawSegment(t0: Result<nat>, t1: Result<nat>, text: Result<string>)

  /** All three getters succeed. */
  predicate Readable(r: RawSegment)
  {
    r.t0.Ok? && r.t1.Ok? && r.text.Ok?
  }

  /** The error that ends the loop at this segment. */
  function ReadError(r: RawSegment): string
    requires !Readable(r)
  {
    if r.t0.Err? then "Failed to get segment start: " + r.t0.error
    else if r.t1.Err? then "Failed to get segment end: " + r.t1.error
    else "Failed to get segment text: " + r.text.error
  }

  /** A readable segment is kept when its trimmed text is not empty. */
  predicate Spoken(r: RawSegment)
    requires Readable(r)
  {
    Trim(r.text.value) != []
  }

  /** The subtitle a kept segment becomes: times in milliseconds, text trimmed. */
  function Converted(r: RawSegment): SubtitleSegment
    requires Readable(r)
  {
    SubtitleSegment(r.t0.value * 10, r.t1.value * 10, Trim(r.text.value))
  }

  /** What one segment adds to the result: an error, nothing, or its subtitle. */
  function Step(r: RawSegment): (s: Result<seq<SubtitleSegment>>)
    ensures s.Err? <==> !Readable(r)
    ensures s.Err? ==> s.error == ReadError(r)
    ensures s.Ok? ==> s.value == (if Spoken(r) then [Converted(r)] else [])
  {
    if r.t0.Err? then Err("Failed to get segment start: " + r.t0.error)
    else if r.t1.Err? then Err("Failed to get segment end: " + r.t1.error)
    else if r.text.Err? then Err("Failed to get segment text: " + r.text.error)
    else
      var text := Trim(r.text.value);
      if text == [] then Ok([])
      else Ok([SubtitleSegment(r.t0.value * 10, r.t1.value * 10, text)])
  }

  function Steps(raw: seq<RawSegment>): (r: seq<Result<seq<SubtitleSegment>>>)
    ensures |r| == |raw| && forall i :: 0 <= i < |raw| ==> r[i] == Step(raw[i])
  {
    seq(|raw|, i requires 0 <= i < |raw| => Step(raw[i]))
  }

  /** The steps joined in order; the first error ends the loop. */
  function Gather(steps: seq<Result<seq<SubtitleSegment>>>): Result<seq<SubtitleSegment>>
  {
    if steps == [] then Ok([])
    else
      match Gather(steps[..|steps| - 1])
      case Err(e) => Err(e)
      case Ok(done) =>
        match steps[|steps| - 1]
        case Err(e) => Err(e)
        case Ok(more) => Ok(done + more)
  }

  /** The loop over the recogniser's segments, in order, stopping at the
      first getter that fails. */
  function Collect(raw: seq<RawSegment>): Result<seq<SubtitleSegment>>
  {
    Gather(Steps(raw))
  }

  lemma StepsPrefix(raw: seq<RawSegment>, i: nat)
    requires i <= |raw|
    ensures Steps(raw[..i]) == Steps(raw)[..i]
  {
  }

  /** A successful step appends what it yields. */
  lemma GatherSnoc(steps: seq<Result<seq<SubtitleSegment>>>, i: nat)
    requires i < |steps| && Gather(steps[..i]).Ok? && steps[i].Ok?
    ensures Gather(steps[..i + 1]) == Ok(Gather(steps[..i]).value + steps[i].value)
  {
    assert steps[..i + 1][..i] == steps[..i];
  }

  /** The first failing step ends the run with its error. */
  lemma GatherStopsAt(steps: seq<Result<seq<SubtitleSegment>>>, i: nat)
    requires i < |steps| && Gather(steps[..i]).Ok? && steps[i].Err?
    ensures Gather(steps) == Err(steps[i].error)
  {
    assert steps[..i + 1][..i] == steps[..i];
    GatherErrorSticks(steps, i + 1);
  }

  /** An error in a prefix is the error of the whole run. */
  lemma {:induction false} GatherErrorSticks(steps: seq<Result<seq<SubtitleSegment>>>, i: nat)
    requires i <= |steps| && Gather(steps[..i]).Err?
    ensures Gather(steps) == Gather(steps[..i])
    decreases |steps| - i
  {
    if i < |steps| {
      assert steps[..i + 1][..i] == steps[..i];
      GatherErrorSticks(steps, i + 1);
    } else {
      assert steps[..i] == steps;
    }
  }

  lemma {:induction false} GatherOkIff(steps: seq<Result<seq<SubtitleSegment>>>)
    ensures Gather(steps).Ok? <==> forall i :: 0 <= i < |steps| ==> steps[i].Ok?
    decreases |steps|
  {
    if steps != [] {
      var init := steps[..|steps| - 1];
      GatherOkIff(init);
      assert forall i :: 0 <= i < |init| ==> init[i] == steps[i];
    }
  }

  lemma {:induction false} GatherAppend(a: seq<Result<seq<SubtitleSegment>>>, b: seq<Result<seq<SubtitleSegment>>>)
    requires Gather(a).Ok? && Gather(b).Ok?
    ensures Gather(a + b) == Ok(Gather(a).value + Gather(b).value)
    decreases |b|
  {
    if b == [] {
      assert a + b == a;
      assert Gather(a).value + Gather(b).value == Gather(a).value;
    } else {
      var b0 := b[..|b| - 1];
      assert (a + b)[..|a + b| - 1] == a + b0;
      assert (a + b)[|a + b| - 1] == b[|b| - 1];
      GatherOkIff(b);
      GatherOkIff(b0);
      assert forall i :: 0 <= i < |b0| ==> b0[i] == b[i];
      GatherAppend(a, b0);
      var last := b[|b| - 1];
      assert last.Ok?;
      var ga, gb0 := Gather(a).value, Gather(b0).value;
      assert Gather(b) == Ok(gb0 + last.value);
      assert Gather(a + b) == Ok((ga + gb0) + last.value);
      assert (ga + gb0) + last.value == ga + (gb0 + last.value);
    }
  }

  /** What the successful steps contribute, in order. */
  lemma {:induction false} GatherMembers(steps: seq<Result<seq<SubtitleSegment>>>)
    requires Gather(steps).Ok?
    ensures forall i :: 0 <= i < |steps| ==> steps[i].Ok?
    ensures forall s :: s in Gather(steps).value <==>
      exists i :: 0 <= i < |steps| && steps[i].Ok? && s in steps[i].value
    decreases |steps|
  {
    GatherOkIff(steps);
    if steps != [] {
      var init := steps[..|steps| - 1];
      GatherOkIff(init);
      GatherMembers(init);
      assert forall i :: 0 <= i < |init| ==> init[i] == steps[i];
    }
  }

  /** When every step yields exactly one subtitle, the run is those subtitles
      in order. */
  lemma {:induction false} GatherSingles(steps: seq<Result<seq<SubtitleSegment>>>)
    requires forall i :: 0 <= i < |steps| ==> steps[i].Ok? && |steps[i].value| == 1
    ensures Gather(steps).Ok? && |Gather(steps).value| == |steps|
    ensures forall i :: 0 <= i < |steps| ==> Gather(steps).value[i] == steps[i].value[0]
    decreases |steps|
  {
    if steps != [] {
      var init := steps[..|steps| - 1];
      assert forall i :: 0 <= i < |init| ==> init[i] == steps[i];
      GatherSingles(init);
    }
  }

  /** The loop of `transcribe`, with the getters' results given as a sequence. */
  method CollectSegments(raw: seq<RawSegment>) returns (r: Result<seq<SubtitleSegment>>)
    ensures r == Collect(raw)
  {
    var segments: seq<SubtitleSegment> := [];
    for i := 0 to |raw|
      invariant Gather(Steps(raw)[..i]) == Ok(segments)
    {
      var seg := raw[i];
      ghost var step := Steps(raw)[i];
      assert step == Step(seg);
      if seg.t0.Err? {
        r := Err("Failed to get segment start: " + seg.t0.error);
        GatherStopsAt(Steps(raw), i);
        return;
      }
      var startMs := seg.t0.value * 10;
      if seg.t1.Err? {
        r := Err("Failed to get segment end: " + seg.t1.error);
        GatherStopsAt(Steps(raw), i);
        return;
      }
      var endMs := seg.t1.value * 10;
      if seg.text.Err? {
        r := Err("Failed to get segment text: " + seg.text.error);
        GatherStopsAt(Steps(raw), i);
        return;
      }
      var text := Trim(seg.text.value);
      assert Readable(seg) && step.Ok?;
      GatherSnoc(Steps(raw), i);
      if text != [] {
        assert step.value == [SubtitleSegment(startMs, endMs, text)];
        segments := segments + [SubtitleSegment(startMs, endMs, text)];
      } else {
        assert step.value == [] && segments + [] == segments;
      }
    }
    assert Steps(raw)[..|raw|] == Steps(raw);
    r := Ok(segments);
  }

  /** The loop succeeds exactly when every getter of every segment succeeds. */
  lemma CollectOkIff(raw: seq<RawSegment>)
    ensures Collect(raw).Ok? <==> forall i :: 0 <= i < |raw| ==> Readable(raw[i])
  {
    GatherOkIff(Steps(raw));
  }

  /** The loop fails with the error of the first segment that cannot be read. */
  lemma FirstFailureReported(raw: seq<RawSegment>, k: nat)
    requires k < |raw| && !Readable(raw[k])
    requires forall j :: 0 <= j < k ==> Readable(raw[j])
    ensures Collect(raw) == Err(ReadError(raw[k]))
  {
    var steps := Steps(raw);
    GatherOkIff(steps[..k]);
    assert steps[..k + 1][..k] == steps[..k];
    GatherErrorSticks(steps, k + 1);
  }

  /** The loop over two runs of segments is the loop over the first, then the
      loop over the second: the order of the segments is kept. */
  lemma CollectAppend(a: seq<RawSegment>, b: seq<RawSegment>)
    requires Collect(a).Ok? && Collect(b).Ok?
    ensures Collect(a + b) == Ok(Collect(a).value + Collect(b).value)
  {
    StepsAppend(a, b);
    GatherAppend(Steps(a), Steps(b));
  }

  lemma StepsAppend(a: seq<RawSegment>, b: seq<RawSegment>)
    ensures Steps(a + b) == Steps(a) + Steps(b)
  {
    forall i | 0 <= i < |a + b|
      ensures Steps(a + b)[i] == (Steps(a) + Steps(b))[i]
    {
      if i < |a| {
        assert (a + b)[i] == a[i];
      } else {
        assert (a + b)[i] == b[i - |a|];
      }
    }
  }

  /** A subtitle is in the result exactly when it is the conversion of a
      segment whose trimmed text is not empty. */
  lemma CollectMembers(raw: seq<RawSegment>)
    requires Collect(raw).Ok?
    ensures forall i :: 0 <= i < |raw| ==> Readable(raw[i])
    ensures forall s :: s in Collect(raw).value <==>
      exists i :: 0 <= i < |raw| && Spoken(raw[i]) && s == Converted(raw[i])
  {
    var steps := Steps(raw);
    GatherMembers(steps);
    forall s
      ensures s in Collect(raw).value <==> exists i :: 0 <= i < |raw| && Spoken(raw[i]) && s == Converted(raw[i])
    {
      if s in Collect(raw).value {
        var i :| 0 <= i < |steps| && steps[i].Ok? && s in steps[i].value;
        assert Spoken(raw[i]) && s == Converted(raw[i]);
      }
      if exists i :: 0 <= i < |raw| && Spoken(raw[i]) && s == Converted(raw[i]) {
        var i :| 0 <= i < |raw| && Spoken(raw[i]) && s == Converted(raw[i]);
        assert s in steps[i].value;
      }
    }
  }

  /** Every subtitle the loop returns has text that is trimmed and not empty. */
  lemma CollectTextsSpoken(raw: seq<RawSegment>)
    requires Collect(raw).Ok?
    ensures forall s :: s in Collect(raw).value ==> s.text != [] && IsTrimmed(s.text)
  {
    CollectMembers(raw);
    forall s | s in Collect(raw).value
      ensures s.text != [] && IsTrimmed(s.text)
    {
      var i :| 0 <= i < |raw| && Spoken(raw[i]) && s == Converted(raw[i]);
      TrimIsTrimmed(raw[i].text.value);
    }
  }

  /** When every segment is readable and has words, every one is kept, in
      order, with its times multiplied by ten. */
  lemma CollectKeepsSpoken(raw: seq<RawSegment>)
    requires forall i :: 0 <= i < |raw| ==> Readable(raw[i]) && Spoken(raw[i])
    ensures Collect(raw).Ok?
    ensures |Collect(raw).value| == |raw|
    ensures forall i :: 0 <= i < |raw| ==> Collect(raw).value[i] == Converted(raw[i])
  {
    GatherSingles(Steps(raw));
  }
}
