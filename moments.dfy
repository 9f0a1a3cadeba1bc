/** What both Gemini clients do to the model's reply text: strip a markdown
    code fence, and rebase chunk-relative timestamps onto the whole video. */
module Moments {
  import opened Wrappers
  import opened Text
  import opened Decimal
  import opened Types
  import opened Video

  const FENCE := "```"
  const JSON_FENCE := "```json"

  /** trim, drop leading "```json" then "```", drop trailing "```", trim. */
  function StripFences(text: string): string
  {
    Trim(TrimEndMatches(TrimStartMatches(TrimStartMatches(Trim(text), JSON_FENCE), FENCE), FENCE))
  }

  /** The stripped text is trimmed and no longer than the reply. */
  lemma StripFencesShape(text: string)
    ensures IsTrimmed(StripFences(text)) && |StripFences(text)| <= |text|
  {
    TrimShape(text);
    TrimShape(TrimEndMatches(TrimStartMatches(TrimStartMatches(Trim(text), JSON_FENCE), FENCE), FENCE));
    TrimIsTrimmed(TrimEndMatches(TrimStartMatches(TrimStartMatches(Trim(text), JSON_FENCE), FENCE), FENCE));
  }

  lemma TrimStartSkipsNewline(t: string)
    ensures TrimStart("\n" + t) == TrimStart(t)
  {
    assert ("\n" + t)[0] == '\n' && ("\n" + t)[1..] == t;
  }

  lemma TrimEndSkipsNewline(b: string)
    ensures TrimEnd(b + "\n") == TrimEnd(b)
  {
    var t := b + "\n";
    assert t[|t| - 1] == '\n' && t[..|t| - 1] == b;
  }

  lemma TrimNewlines(body: string)
    requires IsTrimmed(body)
    ensures Trim("\n" + body + "\n") == body
  {
    var t := body + "\n";
    assert "\n" + body + "\n" == "\n" + t;
    TrimStartSkipsNewline(t);
    if body == [] {
      assert t == "\n" + [];
      TrimStartSkipsNewline([]);
    } else {
      assert t[0] == body[0];
      TrimEndSkipsNewline(body);
    }
  }

  lemma NotStartsWithFence(s: string, p: string)
    requires |s| > 0 && |p| > 0 && s[0] != p[0]
    ensures !StartsWith(s, p)
  {
    if |p| <= |s| {
      assert s[..|p|][0] == s[0];
    }
  }

  lemma NotEndsWithFence(s: string, p: string)
    requires |s| > 0 && |p| > 0 && s[|s| - 1] != p[|p| - 1]
    ensures !EndsWith(s, p)
  {
    if |p| <= |s| {
      assert s[|s| - |p|..][|p| - 1] == s[|s| - 1];
    }
  }

  lemma TrimJsonFenced(rest: string)
    requires |rest| > 0 && rest[|rest| - 1] == '`'
    ensures Trim(JSON_FENCE + rest) == JSON_FENCE + rest
  {
    TrimOfTrimmed(JSON_FENCE + rest);
  }

  lemma DropJsonFence(rest: string)
    requires |rest| > 0 && rest[0] == '\n'
    ensures TrimStartMatches(JSON_FENCE + rest, JSON_FENCE) == rest
  {
    var t := JSON_FENCE + rest;
    assert t[..|JSON_FENCE|] == JSON_FENCE && t[|JSON_FENCE|..] == rest;
    NotStartsWithFence(rest, JSON_FENCE);
  }

  lemma KeepUnfenced(rest: string)
    requires |rest| > 0 && rest[0] == '\n'
    ensures TrimStartMatches(rest, FENCE) == rest
  {
    NotStartsWithFence(rest, FENCE);
  }

  /** Stripping "```json" + rest, where rest starts with a newline and ends
      with a backtick, leaves the trimmed rest without its closing fence. */
  lemma StripOpening(rest: string)
    requires |rest| > 0 && rest[0] == '\n' && rest[|rest| - 1] == '`'
    ensures StripFences(JSON_FENCE + rest) == Trim(TrimEndMatches(rest, FENCE))
  {
    TrimJsonFenced(rest);
    DropJsonFence(rest);
    KeepUnfenced(rest);
  }

  lemma DropClosingFence(inner: string)
    requires |inner| > 0 && inner[|inner| - 1] == '\n'
    ensures TrimEndMatches(inner + FENCE, FENCE) == inner
  {
    var rest := inner + FENCE;
    assert rest[|rest| - |FENCE|..] == FENCE && rest[..|rest| - |FENCE|] == inner;
    NotEndsWithFence(inner, FENCE);
  }

  /** A reply fenced as "```json\n…\n```" yields the trimmed body. */
  lemma StripJsonFence(body: string)
    requires IsTrimmed(body)
    ensures StripFences(JSON_FENCE + ("\n" + body + "\n" + FENCE)) == body
  {
    var inner := "\n" + body + "\n";
    var rest := inner + FENCE;
    assert rest[0] == inner[0] == '\n';
    assert rest[|rest| - 1] == FENCE[2] == '`';
    assert inner[|inner| - 1] == '\n';
    StripOpening(rest);
    DropClosingFence(inner);
    TrimNewlines(body);
  }

  /** A reply without fences is only trimmed. */
  lemma StripUnfenced(text: string)
    requires !StartsWith(Trim(text), FENCE) && !EndsWith(Trim(text), FENCE)
    ensures StripFences(text) == Trim(text)
  {
    var t := Trim(text);
    assert !StartsWith(t, JSON_FENCE) by {
      if |JSON_FENCE| <= |t| {
        assert t[..3] == t[..|JSON_FENCE|][..3];
      }
    }
    TrimIdempotent(text);
  }

  /** `parse_timestamp_to_seconds(t).unwrap_or(0)` */
  function SecondsOrZero(t: string): nat
  {
    match ParseTimestamp(t)
    case Ok(v) => v
    case Err(_) => 0
  }

  /** One timestamp moved by `offset` seconds. */
  function RebaseTime(t: string, offset: nat): string
  {
    FormatTimestamp(SecondsOrZero(t) + offset)
  }

  function RebaseDialogue(d: Dialogue, offset: nat): Dialogue
  {
    d.(start := RebaseTime(d.start, offset), end := RebaseTime(d.end, offset))
  }

  function RebaseMoment(m: Moment, offset: nat): Moment
  {
    m.(startTime := RebaseTime(m.startTime, offset),
       endTime := RebaseTime(m.endTime, offset),
       dialogue := seq(|m.dialogue|, i requires 0 <= i < |m.dialogue| => RebaseDialogue(m.dialogue[i], offset)))
  }

  /** The moments of a chunk starting at `offset`, on the whole video's clock. */
  function Rebased(ms: seq<Moment>, offset: nat): seq<Moment>
  {
    if offset == 0 then ms
    else seq(|ms|, i requires 0 <= i < |ms| => RebaseMoment(ms[i], offset))
  }

  /** Rebasing keeps the moments, their order, categories, descriptions and
      phrases; an offset of 0 leaves them untouched. */
  lemma RebasedKeeps(ms: seq<Moment>, offset: nat)
    ensures var r := Rebased(ms, offset);
      && |r| == |ms|
      && (offset == 0 ==> r == ms)
      && (forall i :: 0 <= i < |ms| ==>
            r[i].category == ms[i].category && r[i].description == ms[i].description
            && |r[i].dialogue| == |ms[i].dialogue|
            && forall j :: 0 <= j < |ms[i].dialogue| ==> r[i].dialogue[j].phrase == ms[i].dialogue[j].phrase)
  {
  }

  /** With a positive offset every moment and dialogue time is rebased. */
  lemma RebasedTimes(ms: seq<Moment>, offset: nat, i: nat)
    requires offset > 0 && i < |ms|
    ensures Rebased(ms, offset)[i].startTime == RebaseTime(ms[i].startTime, offset)
    ensures Rebased(ms, offset)[i].endTime == RebaseTime(ms[i].endTime, offset)
    ensures forall j :: 0 <= j < |ms[i].dialogue| ==>
              Rebased(ms, offset)[i].dialogue[j].start == RebaseTime(ms[i].dialogue[j].start, offset)
              && Rebased(ms, offset)[i].dialogue[j].end == RebaseTime(ms[i].dialogue[j].end, offset)
  {
  }

  /** A formatted time moves by exactly the offset. */
  lemma RebaseFormatted(s: nat, offset: nat)
    requires s <= U64_MAX
    ensures RebaseTime(FormatTimestamp(s), offset) == FormatTimestamp(s + offset)
  {
    ParseFormat(s);
  }

  /** Moving `t` by `a` seconds stays within a u64. */
  predicate TimeFits(t: string, a: nat)
  {
    SecondsOrZero(t) + a <= U64_MAX
  }

  /** Every time of the moment fits in a u64 once moved by `a` seconds. */
  predicate MomentFits(m: Moment, a: nat)
  {
    && TimeFits(m.startTime, a) && TimeFits(m.endTime, a)
    && forall j :: 0 <= j < |m.dialogue| ==> TimeFits(m.dialogue[j].start, a) && TimeFits(m.dialogue[j].end, a)
  }

  /** A time that does not parse counts as the chunk's start. */
  lemma RebaseUnparsable(t: string, offset: nat)
    requires ParseTimestamp(t).Err?
    ensures RebaseTime(t, offset) == FormatTimestamp(offset)
  {
  }

  /** The loop over `moments.iter_mut()` that rewrites each moment. */
  method RebaseInPlace(ms: seq<Moment>, offset: nat) returns (r: seq<Moment>)
    ensures r == Rebased(ms, offset)
  {
    r := ms;
    if offset > 0 {
      var i := 0;
      while i < |r|
        invariant 0 <= i <= |r| == |ms|
        invariant forall k :: 0 <= k < i ==> r[k] == RebaseMoment(ms[k], offset)
        invariant forall k :: i <= k < |r| ==> r[k] == ms[k]
      {
        r := r[i := RebaseMoment(r[i], offset)];
        i := i + 1;
      }
    }
  }
}
