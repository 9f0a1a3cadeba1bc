/** The chunk planner and the HH:MM:SS timestamp codec of the video helpers. */
module Video {
  import opened Wrappers
  import opened Text
  import opened Decimal

  /** Length of a standard chunk: 30 minutes. */
  const CHUNK_SIZE: nat := 30 * 60
  /** A tail of at most 45 minutes is kept whole. */
  const MAX_LAST_CHUNK: nat := 45 * 60

  /** A planned chunk: (start second, length in seconds). */
  type Segment = (nat, nat)

  /** The chunks still to plan when the plan has reached second `from`. */
  function PlanFrom(total: nat, from: nat): seq<Segment>
    decreases total - from
  {
    if from >= total then []
    else if total - from <= MAX_LAST_CHUNK then [(from, total - from)]
    else [(from, CHUNK_SIZE)] + PlanFrom(total, from + CHUNK_SIZE)
  }

  /** The whole plan for a video of `total` seconds. */
  function Plan(total: nat): seq<Segment>
  {
    PlanFrom(total, 0)
  }

  function SumLengths(c: seq<Segment>): nat
  {
    if c == [] then 0 else c[0].1 + SumLengths(c[1..])
  }

  /** `calculate_chunks`: advances a cursor by 30 minutes at a time and keeps a
      tail of 45 minutes or less as one chunk. */
  method CalculateChunks(total: nat) returns (chunks: seq<Segment>)
    ensures chunks == Plan(total)
  {
    chunks := [];
    var current: nat := 0;
    while current < total
      invariant chunks + PlanFrom(total, current) == Plan(total)
      decreases total - current
    {
      var remaining := total - current;
      if remaining <= MAX_LAST_CHUNK {
        chunks := chunks + [(current, remaining)];
        break;
      } else {
        chunks := chunks + [(current, CHUNK_SIZE)];
        current := current + CHUNK_SIZE;
      }
    }
  }

  /** A plan from second `from` starts there, ends at `total`, has a last
      segment in (0, 45 minutes] and lengths adding up to the rest of the video. */
  lemma {:induction false} PlanFromEnds(total: nat, from: nat)
    ensures var c := PlanFrom(total, from);
      && (c == [] <==> from >= total)
      && (c != [] ==> c[0].0 == from && c[|c| - 1].0 + c[|c| - 1].1 == total)
      && (c != [] ==> 0 < c[|c| - 1].1 <= MAX_LAST_CHUNK)
      && SumLengths(c) == (if from >= total then 0 else total - from)
    decreases total - from
  {
    if from < total && total - from > MAX_LAST_CHUNK {
      var c := PlanFrom(total, from);
      var rest := PlanFrom(total, from + CHUNK_SIZE);
      PlanFromEnds(total, from + CHUNK_SIZE);
      assert c == [(from, CHUNK_SIZE)] + rest;
      assert c[1..] == rest && c[|c| - 1] == rest[|rest| - 1];
    }
  }

  /** In a plan from second `from`, every segment but the last is 30 minutes
      long and each starts where the one before it ends. */
  lemma {:induction false} PlanFromSteps(total: nat, from: nat)
    ensures var c := PlanFrom(total, from);
      && (forall i :: 0 <= i < |c| - 1 ==> c[i].1 == CHUNK_SIZE)
      && (forall i :: 1 <= i < |c| ==> c[i].0 == c[i - 1].0 + c[i - 1].1)
    decreases total - from
  {
    if from < total && total - from > MAX_LAST_CHUNK {
      var c := PlanFrom(total, from);
      var rest := PlanFrom(total, from + CHUNK_SIZE);
      PlanFromSteps(total, from + CHUNK_SIZE);
      PlanFromEnds(total, from + CHUNK_SIZE);
      assert c == [(from, CHUNK_SIZE)] + rest;
      forall i | 1 <= i < |c|
        ensures c[i].0 == c[i - 1].0 + c[i - 1].1
      {
        if i > 1 {
          assert c[i] == rest[i - 1] && c[i - 1] == rest[i - 2];
        }
      }
      forall i | 0 <= i < |c| - 1
        ensures c[i].1 == CHUNK_SIZE
      {
        if i > 0 {
          assert c[i] == rest[i - 1];
        }
      }
    }
  }

  /** `calculate_chunks` covers [0, total) exactly, in order, without gaps or
      overlaps; all segments but the last are 30 minutes long and the last is
      longer than zero and at most 45 minutes. */
  lemma PlanShape(total: nat)
    ensures var c := Plan(total);
      && (c == [] <==> total == 0)
      && (c != [] ==> c[0].0 == 0 && c[|c| - 1].0 + c[|c| - 1].1 == total)
      && (c != [] ==> 0 < c[|c| - 1].1 <= MAX_LAST_CHUNK)
      && (forall i :: 0 <= i < |c| - 1 ==> c[i].1 == CHUNK_SIZE)
      && (forall i :: 1 <= i < |c| ==> c[i].0 == c[i - 1].0 + c[i - 1].1)
      && SumLengths(c) == total
  {
    PlanFromEnds(total, 0);
    PlanFromSteps(total, 0);
  }

  /** A video of at most 45 minutes (and more than zero) is one chunk. */
  lemma PlanShort(total: nat)
    requires 0 < total <= MAX_LAST_CHUNK
    ensures Plan(total) == [(0, total)]
  {
  }

  /** The number of chunks: one per 30 minutes that must be cut off before the
      rest fits in 45 minutes, plus the tail. */
  lemma {:induction false} PlanFromCount(total: nat, from: nat, k: nat)
    requires from < total
    requires total - from <= MAX_LAST_CHUNK + k * CHUNK_SIZE
    requires k == 0 || total - from > MAX_LAST_CHUNK + (k - 1) * CHUNK_SIZE
    ensures |PlanFrom(total, from)| == k + 1
    decreases k
  {
    if k > 0 {
      PlanFromCount(total, from + CHUNK_SIZE, k - 1);
    }
  }

  /** The test cases of the planner: 20 minutes is one chunk, 90 minutes is
      three chunks of 30 minutes. */
  lemma PlanExamples()
    ensures Plan(20 * 60) == [(0, 1200)]
    ensures |Plan(90 * 60)| == 3
    ensures Plan(90 * 60) == [(0, 1800), (1800, 1800), (3600, 1800)]
  {
    PlanFromCount(5400, 0, 2);
    assert PlanFrom(5400, 3600) == [(3600, 1800)];
    assert PlanFrom(5400, 1800) == [(1800, 1800), (3600, 1800)];
  }

  /** `format_seconds_to_timestamp`: "HH:MM:SS", each field at least two digits. */
  function FormatTimestamp(seconds: nat): string
  {
    Pad2(seconds / 3600) + ":" + Pad2((seconds % 3600) / 60) + ":" + Pad2(seconds % 60)
  }

  /** `parse_timestamp_to_seconds`: exactly three ':'-separated unsigned 64-bit
      fields, combined as h*3600 + m*60 + s with no range check on m or s. */
  function ParseTimestamp(t: string): (r: Result<nat>)
  {
    var parts := Split(t, ':');
    if |parts| != 3 then Err("Invalid timestamp format: " + t)
    else
      match (ParseUnsigned(parts[0], U64_MAX), ParseUnsigned(parts[1], U64_MAX), ParseUnsigned(parts[2], U64_MAX))
      case (None, _, _) => Err("Invalid hours")
      case (_, None, _) => Err("Invalid minutes")
      case (_, _, None) => Err("Invalid seconds")
      case (Some(h), Some(m), Some(s)) => Ok(h * 3600 + m * 60 + s)
  }

  lemma SplitThree(a: string, b: string, c: string)
    requires ':' !in a && ':' !in b && ':' !in c
    ensures Split(a + ":" + b + ":" + c, ':') == [a, b, c]
  {
    var parts := [a, b, c];
    assert Join(parts[2..], ':') == c;
    assert Join(parts[1..], ':') == b + [':'] + c;
    assert Join(parts, ':') == a + ":" + b + ":" + c;
    SplitJoin(parts, ':');
  }

  lemma DigitsHaveNoColon(s: string)
    requires AllDigits(s)
    ensures ':' !in s
  {
    forall i | 0 <= i < |s|
      ensures s[i] != ':'
    {
      assert IsDigit(s[i]);
    }
  }

  /** The formatted fields: minutes and seconds are two digits below 60, and
      the string splits back into the three padded fields. */
  lemma FormatFields(seconds: nat)
    ensures (seconds % 3600) / 60 < 60 && seconds % 60 < 60
    ensures Split(FormatTimestamp(seconds), ':')
         == [Pad2(seconds / 3600), Pad2((seconds % 3600) / 60), Pad2(seconds % 60)]
    ensures |Pad2((seconds % 3600) / 60)| == 2 && |Pad2(seconds % 60)| == 2
    ensures seconds < 360000 ==> |FormatTimestamp(seconds)| == 8
  {
    var h, m, s := Pad2(seconds / 3600), Pad2((seconds % 3600) / 60), Pad2(seconds % 60);
    DigitsShape(seconds / 3600);
    DigitsShape((seconds % 3600) / 60);
    DigitsShape(seconds % 60);
    DigitsHaveNoColon(h);
    DigitsHaveNoColon(m);
    DigitsHaveNoColon(s);
    SplitThree(h, m, s);
  }

  /** Parsing a formatted timestamp gives the seconds back. */
  /** Hours, minutes and seconds recombine into the total. */
  lemma RecombineFields(seconds: nat)
    ensures (seconds / 3600) * 3600 + ((seconds % 3600) / 60) * 60 + seconds % 60 == seconds
  {
    var q, r := seconds / 3600, seconds % 3600;
    var a, b := r / 60, r % 60;
    assert seconds == (60 * q + a) * 60 + b;
    ModUnique(seconds, 60, 60 * q + a, b);
  }

  lemma ParseFormat(seconds: nat)
    requires seconds <= U64_MAX
    ensures ParseTimestamp(FormatTimestamp(seconds)) == Ok(seconds)
  {
    RecombineFields(seconds);
    FormatFields(seconds);
    ParsePad2(seconds / 3600, U64_MAX);
    ParsePad2((seconds % 3600) / 60, U64_MAX);
    ParsePad2(seconds % 60, U64_MAX);
  }

  /** Any three unsigned fields are accepted, whatever their range. */
  lemma ParseFields(a: string, b: string, c: string)
    requires ':' !in a && ':' !in b && ':' !in c
    requires ParseUnsigned(a, U64_MAX).Some? && ParseUnsigned(b, U64_MAX).Some? && ParseUnsigned(c, U64_MAX).Some?
    ensures ParseTimestamp(a + ":" + b + ":" + c)
         == Ok(ParseUnsigned(a, U64_MAX).value * 3600 + ParseUnsigned(b, U64_MAX).value * 60 + ParseUnsigned(c, U64_MAX).value)
  {
    SplitThree(a, b, c);
  }

  /** A string without exactly two ':' is rejected. */
  lemma ParseNeedsTwoColons(t: string)
    requires Count(t, ':') != 2
    ensures ParseTimestamp(t) == Err("Invalid timestamp format: " + t)
  {
    SplitCount(t, ':');
  }

  /** The test cases of the codec. */
  lemma FormatExamples()
    ensures FormatTimestamp(3661) == "01:01:01"
    ensures FormatTimestamp(0) == "00:00:00"
  {
    assert Pad2(1) == "01" && Pad2(0) == "00";
  }

  lemma ParseExamples()
    ensures ParseTimestamp("01:01:01") == Ok(3661)
    ensures ParseTimestamp("00:00:00") == Ok(0)
  {
    FormatExamples();
    ParseFormat(3661);
    ParseFormat(0);
  }

  /** `validate_youtube_url` */
  predicate ValidateYoutubeUrl(url: string)
  {
    Contains(url, "youtube.com/watch") || Contains(url, "youtu.be/")
  }

  /** A valid URL stays valid when text is added around it. */
  lemma ValidateExtends(pre: string, url: string, post: string)
    requires ValidateYoutubeUrl(url)
    ensures ValidateYoutubeUrl(pre + url + post)
  {
    if Contains(url, "youtube.com/watch") {
      ContainsRight(pre, url, "youtube.com/watch");
      ContainsLeft(pre + url, post, "youtube.com/watch");
    } else {
      ContainsRight(pre, url, "youtu.be/");
      ContainsLeft(pre + url, post, "youtu.be/");
    }
  }

  /** The test cases of the validator: a watch URL is accepted, ... */
  lemma ValidateAcceptsWatch()
    ensures ValidateYoutubeUrl("https://www.youtube.com/watch?v=abc123")
  {
    var url := "https://www.youtube.com/watch?v=abc123";
    assert url[12..] == "youtube.com/watch?v=abc123";
    assert StartsWith(url[12..], "youtube.com/watch");
    OccursContains(url, "youtube.com/watch", 12);
  }

  /** ... so is a short URL, ... */
  lemma ValidateAcceptsShort()
    ensures ValidateYoutubeUrl("https://youtu.be/abc123")
  {
    OccursContains("https://youtu.be/abc123", "youtu.be/", 8);
  }

  /** ... and a URL of another site is not. */
  lemma ValidateRejectsVimeo()
    ensures !ValidateYoutubeUrl("https://vimeo.com/video")
  {
    NotContainsWithoutFirstChar("https://vimeo.com/video", "youtube.com/watch");
    NotContainsWithoutFirstChar("https://vimeo.com/video", "youtu.be/");
  }
}
