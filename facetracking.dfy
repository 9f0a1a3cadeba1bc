/** facetracking.rs: reading the crop ffmpeg's cropdetect filter reports,
    and deciding whether the sampled face regions stay in one place. */
module FaceTracking {
  import opened Wrappers
  import opened Text
  import opened Decimal

  // ---------------------------------------------------------------------
  // Lines of text

  /** A line ended by "\r\n" loses its '\r'. */
  function StripCr(line: string): string
  {
    if |line| > 0 && line[|line| - 1] == '\r' then line[..|line| - 1] else line
  }

  /** The lines made of the pieces between '\n's: each piece ended by a
      '\n' loses a '\r' before it, and an empty last piece is no line. */
  function LinesOf(parts: seq<string>): seq<string>
    requires |parts| >= 1
  {
    var terminated := parts[..|parts| - 1];
    var last := parts[|parts| - 1];
    seq(|terminated|, i requires 0 <= i < |terminated| => StripCr(terminated[i]))
      + (if last == [] then [] else [last])
  }

  /** `str::lines`: a final '\n' does not start another line. */
  function Lines(s: string): seq<string>
  {
    LinesOf(Split(s, '\n'))
  }

  /** A line that can be written on its own: no '\n' in it and no '\r' at its end. */
  predicate IsLine(line: string)
  {
    '\n' !in line && (line == [] || line[|line| - 1] != '\r')
  }

  lemma LinesOfTerminatedPieces(ls: seq<string>)
    requires forall i :: 0 <= i < |ls| ==> IsLine(ls[i])
    ensures LinesOf(ls + [[]]) == ls
  {
    var parts := ls + [[]];
    assert parts[..|parts| - 1] == ls;
    var r := LinesOf(parts);
    assert |r| == |ls|;
    forall i | 0 <= i < |ls|
      ensures r[i] == ls[i]
    {
      assert StripCr(ls[i]) == ls[i];
    }
  }

  /** Writing lines each followed by '\n' and reading them back gives the same lines. */
  lemma LinesOfTerminated(ls: seq<string>)
    requires forall i :: 0 <= i < |ls| ==> IsLine(ls[i])
    ensures Lines(Join(ls + [[]], '\n')) == ls
  {
    var parts := ls + [[]];
    forall i | 0 <= i < |parts|
      ensures '\n' !in parts[i]
    {
      if i < |ls| {
        assert parts[i] == ls[i];
      }
    }
    SplitJoin(parts, '\n');
    LinesOfTerminatedPieces(ls);
  }

  // ---------------------------------------------------------------------
  // cropdetect output

  /** A crop rectangle in the order cropdetect prints it: width, height,
      left edge, top edge. */
  datatype Crop = Crop(w: nat, h: nat, x: nat, y: nat)

  const CROP_KEY := "crop="

  /** Every field fits a `u32`. */
  predicate FitsU32(c: Crop)
  {
    c.w <= U32_MAX && c.h <= U32_MAX && c.x <= U32_MAX && c.y <= U32_MAX
  }

  /** The text after the first "crop=" of the line, if there is one. */
  function AfterKey(line: string): (r: Option<string>)
    ensures r.None? <==> !Contains(line, CROP_KEY)
    ensures r.Some? ==>
      var pos := |line| - |r.value| - |CROP_KEY|;
      pos >= 0 && OccursAt(line, CROP_KEY, pos) && line[pos + |CROP_KEY|..] == r.value
      && forall j :: 0 <= j < pos ==> !OccursAt(line, CROP_KEY, j)
  {
    FindContains(line, CROP_KEY);
    match Find(line, CROP_KEY)
    case None => None
    case Some(pos) => Some(line[pos + |CROP_KEY|..])
  }

  /** The first four ':'-separated fields as `u32`s; only the fourth is
      trimmed, and any further fields are ignored. */
  function ParseFields(parts: seq<string>): (r: Option<Crop>)
    ensures r.Some? ==> |parts| >= 4 && FitsU32(r.value)
    ensures |parts| < 4 ==> r.None?
  {
    if |parts| < 4 then None
    else
      var w, h := ParseUnsigned(parts[0], U32_MAX), ParseUnsigned(parts[1], U32_MAX);
      var x, y := ParseUnsigned(parts[2], U32_MAX), ParseUnsigned(Trim(parts[3]), U32_MAX);
      if w.Some? && h.Some? && x.Some? && y.Some? then Some(Crop(w.value, h.value, x.value, y.value))
      else None
  }

  /** The crop one line reports: the fields after its first "crop=". */
  function CropOf(line: string): (r: Option<Crop>)
    ensures r.Some? ==> Contains(line, CROP_KEY) && FitsU32(r.value)
  {
    match AfterKey(line)
    case None => None
    case Some(rest) => ParseFields(Split(rest, ':'))
  }

  /** What each line reports. */
  function Crops(lines: seq<string>): (r: seq<Option<Crop>>)
    ensures |r| == |lines| && forall i :: 0 <= i < |lines| ==> r[i] == CropOf(lines[i])
  {
    seq(|lines|, i requires 0 <= i < |lines| => CropOf(lines[i]))
  }

  /** The last value reported, if any. */
  function LastReported(reports: seq<Option<Crop>>): Option<Crop>
  {
    if reports == [] then None
    else if reports[|reports| - 1].Some? then reports[|reports| - 1]
    else LastReported(reports[..|reports| - 1])
  }

  /** The crop of the last line that reports one. */
  function LastCrop(lines: seq<string>): Option<Crop>
  {
    LastReported(Crops(lines))
  }

  /** One more report replaces the last one when it is a value. */
  lemma LastReportedSnoc(reports: seq<Option<Crop>>, i: nat)
    requires i < |reports|
    ensures LastReported(reports[..i + 1])
      == if reports[i].Some? then reports[i] else LastReported(reports[..i])
  {
    assert reports[..i + 1][..i] == reports[..i];
  }

  /** `parse_cropdetect_output`: every line is read in turn, and each
      well-formed crop replaces the one found before it. */
  method ParseCropdetectOutput(stderr: string) returns (lastCrop: Option<Crop>)
    ensures lastCrop == LastCrop(Lines(stderr))
  {
    var lines := Lines(stderr);
    lastCrop := None;
    for i := 0 to |lines|
      invariant lastCrop == LastReported(Crops(lines)[..i])
    {
      var line := lines[i];
      LastReportedSnoc(Crops(lines), i);
      var pos := Find(line, CROP_KEY);
      FindContains(line, CROP_KEY);
      if pos.Some? {
        var cropStr := line[pos.value + 5..];
        assert AfterKey(line) == Some(cropStr);
        var parts := Split(cropStr, ':');
        if |parts| >= 4 {
          var w := ParseUnsigned(parts[0], U32_MAX);
          var h := ParseUnsigned(parts[1], U32_MAX);
          var x := ParseUnsigned(parts[2], U32_MAX);
          var y := ParseUnsigned(Trim(parts[3]), U32_MAX);
          if w.Some? && h.Some? && x.Some? && y.Some? {
            lastCrop := Some(Crop(w.value, h.value, x.value, y.value));
          }
        }
      }
    }
    assert Crops(lines)[..|lines|] == Crops(lines);
  }

  /** Nothing is reported exactly when no report is a value. */
  lemma {:induction false} NoneReportedIff(reports: seq<Option<Crop>>)
    ensures LastReported(reports).None? <==> forall i :: 0 <= i < |reports| ==> reports[i].None?
    decreases |reports|
  {
    if reports != [] {
      var init := reports[..|reports| - 1];
      NoneReportedIff(init);
      assert forall i :: 0 <= i < |init| ==> init[i] == reports[i];
    }
  }

  /** Nothing is reported exactly when no line holds a well-formed crop. */
  lemma NoCropIffNoneWellFormed(lines: seq<string>)
    ensures LastCrop(lines).None? <==> forall i :: 0 <= i < |lines| ==> CropOf(lines[i]).None?
  {
    NoneReportedIff(Crops(lines));
  }

  /** The value reported last is one after which nothing else is reported. */
  lemma {:induction false} LastReportedWins(reports: seq<Option<Crop>>) returns (k: nat)
    requires LastReported(reports).Some?
    ensures k < |reports| && reports[k] == LastReported(reports)
    ensures forall j :: k < j < |reports| ==> reports[j].None?
    decreases |reports|
  {
    var last := |reports| - 1;
    if reports[last].Some? {
      k := last;
    } else {
      var init := reports[..last];
      k := LastReportedWins(init);
      assert reports[k] == init[k];
      forall j | k < j < |reports|
        ensures reports[j].None?
      {
        if j < last {
          assert reports[j] == init[j];
        }
      }
    }
  }

  /** The reported crop is that of a line after which no line holds one. */
  lemma LastWellFormedWins(lines: seq<string>) returns (k: nat)
    requires LastCrop(lines).Some?
    ensures k < |lines| && CropOf(lines[k]) == LastCrop(lines)
    ensures forall j :: k < j < |lines| ==> CropOf(lines[j]).None?
  {
    k := LastReportedWins(Crops(lines));
  }

  /** A malformed line leaves the crop found so far in place. */
  lemma MalformedLineSkipped(lines: seq<string>, line: string)
    requires CropOf(line).None?
    ensures LastCrop(lines + [line]) == LastCrop(lines)
  {
    assert Crops(lines + [line])[..|lines|] == Crops(lines);
  }

  /** A well-formed line replaces the crop found so far. */
  lemma WellFormedLineReplaces(lines: seq<string>, line: string)
    requires CropOf(line).Some?
    ensures LastCrop(lines + [line]) == CropOf(line)
  {
    assert Crops(lines + [line])[|lines|] == CropOf(line);
  }

  /** The rectangle as cropdetect prints it: "w:h:x:y". */
  function Rendered(c: Crop): string
  {
    Join([Digits(c.w), Digits(c.h), Digits(c.x), Digits(c.y)], ':')
  }

  /** A number's digits contain no ':' and are trimmed. */
  lemma DigitsAreField(n: nat)
    ensures ':' !in Digits(n) && IsTrimmed(Digits(n))
  {
    DigitsShape(n);
    var d := Digits(n);
    assert forall i :: 0 <= i < |d| ==> IsDigit(d[i]);
  }

  /** Reading a rendered rectangle gives it back, fields in the same order. */
  lemma ParseRendered(c: Crop)
    requires FitsU32(c)
    ensures ParseFields(Split(Rendered(c), ':')) == Some(c)
  {
    var ds := [Digits(c.w), Digits(c.h), Digits(c.x), Digits(c.y)];
    DigitsAreField(c.w);
    DigitsAreField(c.h);
    DigitsAreField(c.x);
    DigitsAreField(c.y);
    SplitJoin(ds, ':');
    TrimOfTrimmed(Digits(c.y));
    ParseDigits(c.w, U32_MAX);
    ParseDigits(c.h, U32_MAX);
    ParseDigits(c.x, U32_MAX);
    ParseDigits(c.y, U32_MAX);
  }

  /** "crop=" cannot start inside an occurrence of itself other than at its start. */
  lemma KeyAfterText(prefix: string, rest: string)
    requires !Contains(prefix, CROP_KEY)
    ensures forall j :: 0 <= j < |prefix| ==> !OccursAt(prefix + CROP_KEY + rest, CROP_KEY, j)
  {
    var line := prefix + CROP_KEY + rest;
    forall j | 0 <= j < |prefix|
      ensures !OccursAt(line, CROP_KEY, j)
    {
      if j + |CROP_KEY| <= |prefix| {
        if OccursAt(line, CROP_KEY, j) {
          assert line[j..j + |CROP_KEY|] == prefix[j..j + |CROP_KEY|];
          OccursContains(prefix, CROP_KEY, j);
        }
      } else if j + |CROP_KEY| <= |line| {
        var d := |prefix| - j;
        assert 1 <= d < |CROP_KEY|;
        assert line[|prefix|] == 'c';
        assert line[j..j + |CROP_KEY|][d] == line[|prefix|];
        assert CROP_KEY[d] != 'c';
      }
    }
  }

  /** A line whose first "crop=" is followed by a rendered rectangle reports
      that rectangle, whatever comes before it. */
  lemma CropOfRenderedLine(prefix: string, c: Crop)
    requires !Contains(prefix, CROP_KEY) && FitsU32(c)
    ensures CropOf(prefix + CROP_KEY + Rendered(c)) == Some(c)
  {
    var line := prefix + CROP_KEY + Rendered(c);
    KeyAfterText(prefix, Rendered(c));
    assert line[|prefix|..|prefix| + |CROP_KEY|] == CROP_KEY;
    assert OccursAt(line, CROP_KEY, |prefix|);
    OccursContains(line, CROP_KEY, |prefix|);
    var r := AfterKey(line);
    var pos := |line| - |r.value| - |CROP_KEY|;
    assert OccursAt(line, CROP_KEY, pos);
    assert pos >= |prefix|;
    assert pos <= |prefix|;
    assert r.value == Rendered(c);
    ParseRendered(c);
  }

  /** A field that starts with white space is not a number. */
  lemma PaddedNotNumber(field: string)
    requires |field| > 0 && IsWhitespace(field[0])
    ensures ParseUnsigned(field, U32_MAX).None?
  {
    assert !IsDigit(field[0]);
  }

  /** Only the fourth field is trimmed: white space at the start of any of
      the first three fields makes the line malformed. */
  lemma LeadingSpaceRejected(parts: seq<string>, i: nat)
    requires |parts| >= 4 && i < 3 && |parts[i]| > 0 && IsWhitespace(parts[i][0])
    ensures ParseFields(parts).None?
  {
    PaddedNotNumber(parts[i]);
  }

  /** White space around the fourth field is dropped. */
  lemma FourthFieldTrimmed(c: Crop, before: string, after: string)
    requires FitsU32(c) && AllWhitespace(before) && AllWhitespace(after)
    ensures ParseFields([Digits(c.w), Digits(c.h), Digits(c.x), before + Digits(c.y) + after]) == Some(c)
  {
    DigitsAreField(c.y);
    PaddedTrim(before, Digits(c.y), after);
    ParseDigits(c.w, U32_MAX);
    ParseDigits(c.h, U32_MAX);
    ParseDigits(c.x, U32_MAX);
    ParseDigits(c.y, U32_MAX);
  }

  /** The fields after the fourth are not looked at. */
  lemma ExtraFieldsIgnored(parts: seq<string>, more: seq<string>)
    requires |parts| == 4
    ensures ParseFields(parts + more) == ParseFields(parts)
  {
    assert (parts + more)[..4] == parts;
  }

  /** Two reporting lines, as in cropdetect's output for two frames: the
      later crop wins, whatever the lines before it. */
  lemma LaterCropWins(earlier: seq<string>, p1: string, c1: Crop, p2: string, c2: Crop)
    requires !Contains(p2, CROP_KEY) && FitsU32(c2)
    ensures LastCrop(earlier + [p1 + CROP_KEY + Rendered(c1), p2 + CROP_KEY + Rendered(c2)]) == Some(c2)
  {
    var lines := earlier + [p1 + CROP_KEY + Rendered(c1), p2 + CROP_KEY + Rendered(c2)];
    CropOfRenderedLine(p2, c2);
    assert lines[|lines| - 1] == p2 + CROP_KEY + Rendered(c2);
    LastReportedSnoc(Crops(lines), |lines| - 1);
    assert Crops(lines)[..|lines|] == Crops(lines);
  }

  // ---------------------------------------------------------------------
  // Consistent face region

  /** One sampled region, positions and sizes as fractions of the frame. */
  datatype FaceRegion = FaceRegion(timestampMs: nat, x: real, y: real, width: real, height: real, confidence: real)

  /** The regions whose confidence is above one half, in their order. */
  function Confident(regions: seq<FaceRegion>): (r: seq<FaceRegion>)
    ensures |r| <= |regions|
    ensures forall g :: g in r <==> g in regions && g.confidence > 0.5
  {
    if regions == [] then []
    else
      var init := Confident(regions[..|regions| - 1]);
      var g := regions[|regions| - 1];
      assert regions == regions[..|regions| - 1] + [g];
      if g.confidence > 0.5 then init + [g] else init
  }

  function Sum(xs: seq<real>): real
  {
    if xs == [] then 0.0 else Sum(xs[..|xs| - 1]) + xs[|xs| - 1]
  }

  function Mean(xs: seq<real>): real
    requires |xs| > 0
  {
    Sum(xs) / |xs| as real
  }

  /** The mean squared distance from the mean. */
  function Variance(xs: seq<real>): real
    requires |xs| > 0
  {
    Sum(SquaredDeviations(xs, Mean(xs))) / |xs| as real
  }

  function SquaredDeviations(xs: seq<real>, m: real): (r: seq<real>)
    ensures |r| == |xs| && forall i :: 0 <= i < |xs| ==> r[i] == (xs[i] - m) * (xs[i] - m)
  {
    seq(|xs|, i requires 0 <= i < |xs| => (xs[i] - m) * (xs[i] - m))
  }

  function Xs(rs: seq<FaceRegion>): (r: seq<real>)
    ensures |r| == |rs| && forall i :: 0 <= i < |rs| ==> r[i] == rs[i].x
  {
    seq(|rs|, i requires 0 <= i < |rs| => rs[i].x)
  }

  function Ys(rs: seq<FaceRegion>): (r: seq<real>)
    ensures |r| == |rs| && forall i :: 0 <= i < |rs| ==> r[i] == rs[i].y
  {
    seq(|rs|, i requires 0 <= i < |rs| => rs[i].y)
  }

  /** `detect_consistent_region`: at least three samples, at least two of
      them confident, and the confident ones' positions spread by a
      variance under 0.05 on both axes. */
  function DetectConsistentRegion(regions: seq<FaceRegion>): (r: bool)
    ensures |regions| < 3 ==> !r
    ensures r ==> |Confident(regions)| >= 2
  {
    if |regions| < 3 then false
    else
      var good := Confident(regions);
      if |good| < 2 then false
      else Variance(Xs(good)) < 0.05 && Variance(Ys(good)) < 0.05
  }

  /** Samples below the confidence threshold play no part once there are
      three samples. */
  lemma UnconfidentSampleIgnored(regions: seq<FaceRegion>, g: FaceRegion)
    requires |regions| >= 3 && g.confidence <= 0.5
    ensures DetectConsistentRegion(regions + [g]) == DetectConsistentRegion(regions)
  {
    assert (regions + [g])[..|regions|] == regions;
  }

  /** The sum of equal values is their count times the value. */
  lemma {:induction false} SumConstant(xs: seq<real>, c: real)
    requires forall i :: 0 <= i < |xs| ==> xs[i] == c
    ensures Sum(xs) == |xs| as real * c
    decreases |xs|
  {
    if xs != [] {
      var init := xs[..|xs| - 1];
      assert forall i :: 0 <= i < |init| ==> init[i] == xs[i];
      SumConstant(init, c);
    }
  }

  /** Samples that do not move have no variance. */
  lemma ConstantVariance(xs: seq<real>, c: real)
    requires |xs| > 0 && forall i :: 0 <= i < |xs| ==> xs[i] == c
    ensures Variance(xs) == 0.0
  {
    SumConstant(xs, c);
    assert Mean(xs) == c;
    var sq := SquaredDeviations(xs, Mean(xs));
    assert forall i :: 0 <= i < |sq| ==> sq[i] == 0.0;
    SumConstant(sq, 0.0);
  }

  /** Three or more samples, two or more of them confident, all confident
      ones at the same place: a streamer is detected. */
  lemma SteadyRegionDetected(regions: seq<FaceRegion>, x: real, y: real)
    requires |regions| >= 3 && |Confident(regions)| >= 2
    requires forall g :: g in regions && g.confidence > 0.5 ==> g.x == x && g.y == y
    ensures DetectConsistentRegion(regions)
  {
    var good := Confident(regions);
    assert forall i :: 0 <= i < |good| ==> good[i] in good;
    ConstantVariance(Xs(good), x);
    ConstantVariance(Ys(good), y);
  }

  /** When every sample is confident, all of them are kept. */
  lemma {:induction false} AllConfident(regions: seq<FaceRegion>)
    requires forall i :: 0 <= i < |regions| ==> regions[i].confidence > 0.5
    ensures Confident(regions) == regions
    decreases |regions|
  {
    if regions != [] {
      var init := regions[..|regions| - 1];
      assert forall i :: 0 <= i < |init| ==> init[i] == regions[i];
      AllConfident(init);
      assert init + [regions[|regions| - 1]] == regions;
    }
  }

  lemma SumThree(a: real, b: real, c: real)
    ensures Sum([a, b, c]) == a + b + c
  {
    assert [a, b, c][..2] == [a, b];
    assert [a, b][..1] == [a];
    assert [a][..0] == [];
    assert Sum([a]) == a;
    assert Sum([a, b]) == a + b;
  }

  /** The variance of three samples, written out. */
  lemma VarianceThree(a: real, b: real, c: real)
    ensures var m := (a + b + c) / 3.0;
      Variance([a, b, c]) == ((a - m) * (a - m) + (b - m) * (b - m) + (c - m) * (c - m)) / 3.0
  {
    SumThree(a, b, c);
    var m := Mean([a, b, c]);
    var sq := SquaredDeviations([a, b, c], m);
    assert sq == [(a - m) * (a - m), (b - m) * (b - m), (c - m) * (c - m)] by {
      assert sq[0] == (a - m) * (a - m) && sq[1] == (b - m) * (b - m) && sq[2] == (c - m) * (c - m);
    }
    SumThree((a - m) * (a - m), (b - m) * (b - m), (c - m) * (c - m));
  }

  /** Three confident samples close together, as in the module's unit test. */
  lemma CloseSamplesDetected()
    ensures DetectConsistentRegion([
      FaceRegion(0, 0.3, 0.2, 0.2, 0.3, 0.9),
      FaceRegion(1000, 0.31, 0.21, 0.2, 0.3, 0.85),
      FaceRegion(2000, 0.29, 0.19, 0.2, 0.3, 0.88)])
  {
    var rs := [
      FaceRegion(0, 0.3, 0.2, 0.2, 0.3, 0.9),
      FaceRegion(1000, 0.31, 0.21, 0.2, 0.3, 0.85),
      FaceRegion(2000, 0.29, 0.19, 0.2, 0.3, 0.88)];
    AllConfident(rs);
    assert Xs(rs) == [0.3, 0.31, 0.29];
    assert Ys(rs) == [0.2, 0.21, 0.19];
    VarianceThree(0.3, 0.31, 0.29);
    VarianceThree(0.2, 0.21, 0.19);
  }
}
