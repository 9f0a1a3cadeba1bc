/** Composition laws of chunk rebasing: moving the moments of a chunk by
    one offset and then another is moving them by the sum. */
module Rebasing {
  import opened Types
  import opened Decimal
  import opened Video
  import opened Moments

  /** A formatted time reads back as its seconds. */
  lemma FormattedReadsBack(x: nat)
    requires x <= U64_MAX
    ensures SecondsOrZero(FormatTimestamp(x)) == x
  {
    ParseFormat(x);
  }

  /** A rebased time reads back as the original seconds plus the offset. */
  lemma RebaseReadsBack(t: string, a: nat)
    requires TimeFits(t, a)
    ensures SecondsOrZero(RebaseTime(t, a)) == SecondsOrZero(t) + a
  {
    var x := SecondsOrZero(t) + a;
    var r := RebaseTime(t, a);
    assert r == FormatTimestamp(x);
    FormattedReadsBack(x);
  }

  /** Equal seconds format to the same text. */
  lemma FormatSame(x: nat, y: nat)
    requires x == y
    ensures FormatTimestamp(x) == FormatTimestamp(y)
  {
  }

  /** Rebasing depends only on the seconds a time reads as: a time `a`
      seconds later than `t`, moved by `b`, is `t` moved by `a + b`. */
  lemma RebaseBySeconds(u: string, t: string, a: nat, b: nat)
    requires SecondsOrZero(u) == SecondsOrZero(t) + a
    ensures RebaseTime(u, b) == RebaseTime(t, a + b)
  {
    var x := SecondsOrZero(u) + b;
    var y := SecondsOrZero(t) + (a + b);
    FormatSame(x, y);
  }

  /** Rebasing by `a` and then by `b` is rebasing by `a + b`, as long as
      the first rebased time still fits in a u64. */
  lemma RebaseCompose(t: string, a: nat, b: nat)
    requires TimeFits(t, a)
    ensures RebaseTime(RebaseTime(t, a), b) == RebaseTime(t, a + b)
  {
    RebaseReadsBack(t, a);
    RebaseBySeconds(RebaseTime(t, a), t, a, b);
  }

  /** A moment's own times and every dialogue time compose. */
  lemma RebaseMomentCompose(m: Moment, a: nat, b: nat)
    requires MomentFits(m, a)
    ensures RebaseMoment(RebaseMoment(m, a), b) == RebaseMoment(m, a + b)
  {
    RebaseCompose(m.startTime, a, b);
    RebaseCompose(m.endTime, a, b);
    var once := RebaseMoment(m, a);
    forall j | 0 <= j < |m.dialogue|
      ensures RebaseDialogue(once.dialogue[j], b) == RebaseDialogue(m.dialogue[j], a + b)
    {
      RebaseCompose(m.dialogue[j].start, a, b);
      RebaseCompose(m.dialogue[j].end, a, b);
    }
  }

  /** What the sum of the offsets is when one of them is 0. */
  lemma SumWithZero(a: nat, b: nat)
    ensures a == 0 ==> a + b == b
    ensures b == 0 ==> a + b == a
  {
  }

  /** A first rebase by 0 leaves the moments as they are. */
  lemma RebasedComposeZeroFirst(ms: seq<Moment>, b: nat)
    ensures Rebased(Rebased(ms, 0), b) == Rebased(ms, b)
  {
  }

  /** A second rebase by 0 leaves the moments as they are. */
  lemma RebasedComposeZeroSecond(ms: seq<Moment>, a: nat)
    ensures Rebased(Rebased(ms, a), 0) == Rebased(ms, a)
  {
  }

  /** Two positive rebases compose moment by moment. */
  lemma RebasedComposePositive(ms: seq<Moment>, a: nat, b: nat)
    requires a > 0 && b > 0
    requires forall i :: 0 <= i < |ms| ==> MomentFits(ms[i], a)
    ensures Rebased(Rebased(ms, a), b) == Rebased(ms, a + b)
  {
    var once := Rebased(ms, a);
    forall i | 0 <= i < |ms|
      ensures Rebased(once, b)[i] == Rebased(ms, a + b)[i]
    {
      assert once[i] == RebaseMoment(ms[i], a);
      RebaseMomentCompose(ms[i], a, b);
    }
  }

  /** Rebasing a chunk's moments twice is rebasing them once by the sum of
      the offsets; an offset of 0 on either side is the identity. */
  lemma RebasedCompose(ms: seq<Moment>, a: nat, b: nat)
    requires forall i :: 0 <= i < |ms| ==> MomentFits(ms[i], a)
    ensures Rebased(Rebased(ms, a), b) == Rebased(ms, a + b)
  {
    SumWithZero(a, b);
    if a == 0 {
      RebasedComposeZeroFirst(ms, b);
    } else if b == 0 {
      RebasedComposeZeroSecond(ms, a);
    } else {
      RebasedComposePositive(ms, a, b);
    }
  }
}
