/** String helpers with the semantics of the Rust `str` methods the source uses:
    `contains`, `starts_with`, `split`, `trim`, `trim_start_matches`,
    `trim_end_matches`, `find`, `replace` and (ASCII) `to_lowercase`. */
module Text {
  import opened Wrappers

  /** `p` occurs in `s` at position `i`. */
  predicate OccursAt(s: string, p: string, i: int)
  {
    0 <= i && i + |p| <= |s| && s[i..i + |p|] == p
  }

  /** `s.contains(p)`: `p` is a prefix of some suffix of `s`. */
  predicate Contains(s: string, p: string)
    decreases |s|
  {
    StartsWith(s, p) || (s != [] && Contains(s[1..], p))
  }

  predicate StartsWith(s: string, p: string)
  {
    |p| <= |s| && s[..|p|] == p
  }

  predicate EndsWith(s: string, p: string)
  {
    |p| <= |s| && s[|s| - |p|..] == p
  }

  /** An occurrence at a position makes `contains` hold. */
  lemma {:induction false} OccursContains(s: string, p: string, i: int)
    requires OccursAt(s, p, i)
    ensures Contains(s, p)
    decreases i
  {
    if i > 0 {
      assert s[1..][i - 1..i - 1 + |p|] == s[i..i + |p|];
      OccursContains(s[1..], p, i - 1);
    }
  }

  /** `contains` holds only at a position where `p` occurs. */
  lemma {:induction false} ContainsOccurs(s: string, p: string) returns (i: nat)
    requires Contains(s, p)
    ensures i <= |s| - |p| && OccursAt(s, p, i)
    decreases |s|
  {
    if StartsWith(s, p) {
      i := 0;
    } else {
      var j := ContainsOccurs(s[1..], p);
      assert s[1..][j..j + |p|] == s[j + 1..j + 1 + |p|];
      i := j + 1;
    }
  }

  lemma ContainsLeft(a: string, b: string, p: string)
    requires Contains(a, p)
    ensures Contains(a + b, p)
  {
    var i := ContainsOccurs(a, p);
    assert (a + b)[i..i + |p|] == a[i..i + |p|];
    OccursContains(a + b, p, i);
  }

  lemma ContainsRight(a: string, b: string, p: string)
    requires Contains(b, p)
    ensures Contains(a + b, p)
  {
    var i := ContainsOccurs(b, p);
    assert (a + b)[|a| + i..|a| + i + |p|] == b[i..i + |p|];
    OccursContains(a + b, p, |a| + i);
  }

  /** A pattern whose first character does not occur in `s` does not occur in `s`. */
  lemma {:induction false} NotContainsWithoutFirstChar(s: string, p: string)
    requires |p| > 0 && p[0] !in s
    ensures !Contains(s, p)
    decreases |s|
  {
    if |p| <= |s| {
      assert s[..|p|][0] == s[0];
    }
    if s != [] {
      assert forall c :: c in s[1..] ==> c in s;
      NotContainsWithoutFirstChar(s[1..], p);
    }
  }

  /** `s.find(p)`: the first position where `p` occurs. */
  function Find(s: string, p: string): (r: Option<nat>)
    ensures r.Some? ==> OccursAt(s, p, r.value) && forall j :: 0 <= j < r.value ==> !OccursAt(s, p, j)
    ensures r.None? ==> forall j :: !OccursAt(s, p, j)
  {
    FindFrom(s, p, 0)
  }

  function FindFrom(s: string, p: string, k: nat): (r: Option<nat>)
    requires forall j :: 0 <= j < k ==> !OccursAt(s, p, j)
    ensures r.Some? ==> k <= r.value && OccursAt(s, p, r.value) && forall j :: 0 <= j < r.value ==> !OccursAt(s, p, j)
    ensures r.None? ==> forall j :: !OccursAt(s, p, j)
    decreases |s| - k
  {
    if k + |p| > |s| then
      assert forall j :: k <= j ==> !OccursAt(s, p, j);
      None
    else if s[k..k + |p|] == p then assert OccursAt(s, p, k); Some(k)
    else FindFrom(s, p, k + 1)
  }

  /** `find` succeeds exactly when `contains` holds. */
  lemma FindContains(s: string, p: string)
    ensures Find(s, p).Some? <==> Contains(s, p)
  {
    if Find(s, p).Some? {
      OccursContains(s, p, Find(s, p).value);
    }
    if Contains(s, p) {
      var i := ContainsOccurs(s, p);
    }
  }

  /** `s.split(sep)` for a single-character separator: always at least one piece. */
  function Split(s: string, sep: char): (parts: seq<string>)
    ensures |parts| >= 1
  {
    SplitAcc(s, sep, [])
  }

  function SplitAcc(s: string, sep: char, cur: string): (parts: seq<string>)
    ensures |parts| >= 1
    decreases |s|
  {
    if s == [] then [cur]
    else if s[0] == sep then [cur] + SplitAcc(s[1..], sep, [])
    else SplitAcc(s[1..], sep, cur + [s[0]])
  }

  lemma {:induction false} SplitAccNoSep(s: string, sep: char, cur: string)
    requires sep !in cur
    ensures forall i :: 0 <= i < |SplitAcc(s, sep, cur)| ==> sep !in SplitAcc(s, sep, cur)[i]
    decreases |s|
  {
    if s != [] {
      if s[0] == sep {
        SplitAccNoSep(s[1..], sep, []);
      } else {
        SplitAccNoSep(s[1..], sep, cur + [s[0]]);
      }
    }
  }

  /** No piece of a split contains the separator. */
  lemma SplitNoSep(s: string, sep: char)
    ensures forall i :: 0 <= i < |Split(s, sep)| ==> sep !in Split(s, sep)[i]
  {
    SplitAccNoSep(s, sep, []);
  }

  lemma {:induction false} SplitAccCount(s: string, sep: char, cur: string)
    ensures |SplitAcc(s, sep, cur)| == Count(s, sep) + 1
    decreases |s|
  {
    if s != [] {
      if s[0] == sep {
        SplitAccCount(s[1..], sep, []);
      } else {
        SplitAccCount(s[1..], sep, cur + [s[0]]);
      }
    }
  }

  /** `split` yields one more piece than there are separators. */
  lemma SplitCount(s: string, sep: char)
    ensures |Split(s, sep)| == Count(s, sep) + 1
  {
    SplitAccCount(s, sep, []);
  }

  /** Joins pieces with `sep` between them (the inverse of Split). */
  function Join(parts: seq<string>, sep: char): string
  {
    if parts == [] then []
    else if |parts| == 1 then parts[0]
    else parts[0] + [sep] + Join(parts[1..], sep)
  }

  lemma {:induction false} SplitAccJoin(parts: seq<string>, sep: char, cur: string)
    requires |parts| >= 1 && sep !in cur
    requires forall i :: 0 <= i < |parts| ==> sep !in parts[i]
    ensures SplitAcc(Join(parts, sep), sep, cur) == [cur + parts[0]] + parts[1..]
    decreases |parts|, |parts[0]|
  {
    if |parts| == 1 {
      if parts[0] == [] {
        assert cur + parts[0] == cur;
      } else {
        var p := parts[0];
        assert sep !in p[1..];
        SplitAccJoin([p[1..]], sep, cur + [p[0]]);
        assert cur + [p[0]] + p[1..] == cur + p;
      }
    } else {
      var p := parts[0];
      var j := Join(parts, sep);
      assert j == p + [sep] + Join(parts[1..], sep);
      if p == [] {
        assert j == [sep] + Join(parts[1..], sep);
        assert j[1..] == Join(parts[1..], sep);
        SplitAccJoin(parts[1..], sep, []);
        assert [] + parts[1..][0] == parts[1];
        assert [parts[1]] + parts[2..] == parts[1..];
        assert cur + p == cur;
      } else {
        assert j[0] == p[0];
        var rest := [p[1..]] + parts[1..];
        assert forall i :: 0 <= i < |rest| ==> sep !in rest[i];
        assert Join(rest, sep) == p[1..] + [sep] + Join(parts[1..], sep);
        assert j[1..] == Join(rest, sep);
        SplitAccJoin(rest, sep, cur + [p[0]]);
        assert cur + [p[0]] + p[1..] == cur + p;
        assert rest[1..] == parts[1..];
      }
    }
  }

  /** Splitting a join gives the pieces back, when no piece contains the separator. */
  lemma SplitJoin(parts: seq<string>, sep: char)
    requires |parts| >= 1
    requires forall i :: 0 <= i < |parts| ==> sep !in parts[i]
    ensures Split(Join(parts, sep), sep) == parts
  {
    SplitAccJoin(parts, sep, []);
    assert [] + parts[0] == parts[0];
    assert [parts[0]] + parts[1..] == parts;
  }

  /** `char::is_whitespace`: the Unicode White_Space property. */
  predicate IsWhitespace(c: char)
  {
    ('\U{0009}' <= c <= '\U{000D}') || c == ' ' || c == '\U{0085}' || c == '\U{00A0}'
    || c == '\U{1680}' || ('\U{2000}' <= c <= '\U{200A}') || c == '\U{2028}' || c == '\U{2029}'
    || c == '\U{202F}' || c == '\U{205F}' || c == '\U{3000}'
  }

  function TrimStart(s: string): string
  {
    if s != [] && IsWhitespace(s[0]) then TrimStart(s[1..]) else s
  }

  function TrimEnd(s: string): string
  {
    if s != [] && IsWhitespace(s[|s| - 1]) then TrimEnd(s[..|s| - 1]) else s
  }

  /** `trim_start` keeps a suffix that does not begin with white space. */
  lemma {:induction false} TrimStartShape(s: string)
    ensures var r := TrimStart(s); |r| <= |s| && r == s[|s| - |r|..]
    ensures var r := TrimStart(s); r == [] || !IsWhitespace(r[0])
    decreases |s|
  {
    if s != [] && IsWhitespace(s[0]) {
      TrimStartShape(s[1..]);
    }
  }

  /** `trim_end` keeps a prefix that does not end with white space. */
  lemma {:induction false} TrimEndShape(s: string)
    ensures var r := TrimEnd(s); |r| <= |s| && r == s[..|r|]
    ensures var r := TrimEnd(s); r == [] || !IsWhitespace(r[|r| - 1])
    decreases |s|
  {
    if s != [] && IsWhitespace(s[|s| - 1]) {
      TrimEndShape(s[..|s| - 1]);
    }
  }

  /** `trim` keeps a contiguous part of the text, no longer than it. */
  lemma TrimShape(s: string)
    ensures |Trim(s)| <= |s|
    ensures forall c :: c in Trim(s) ==> c in s
  {
    var t := TrimStart(s);
    TrimStartShape(s);
    TrimEndShape(t);
    assert forall c :: c in TrimEnd(t) ==> c in t;
    assert forall c :: c in t ==> c in s;
  }

  /** `s.trim()` */
  function Trim(s: string): string
  {
    TrimEnd(TrimStart(s))
  }

  predicate IsTrimmed(s: string)
  {
    s == [] || (!IsWhitespace(s[0]) && !IsWhitespace(s[|s| - 1]))
  }

  lemma {:induction false} TrimEndKeepsStart(s: string)
    requires s == [] || !IsWhitespace(s[0])
    ensures TrimEnd(s) == [] || !IsWhitespace(TrimEnd(s)[0])
  {
    var r := TrimEnd(s);
    TrimEndShape(s);
    if r != [] {
      assert r[0] == s[0];
    }
  }

  lemma TrimIsTrimmed(s: string)
    ensures IsTrimmed(Trim(s))
  {
    TrimStartShape(s);
    TrimEndShape(TrimStart(s));
    TrimEndKeepsStart(TrimStart(s));
  }

  lemma TrimOfTrimmed(s: string)
    requires IsTrimmed(s)
    ensures Trim(s) == s
  {
  }

  /** Trimming twice is trimming once. */
  lemma TrimIdempotent(s: string)
    ensures Trim(Trim(s)) == Trim(s)
  {
    TrimIsTrimmed(s);
    TrimOfTrimmed(Trim(s));
  }

  /** `s.trim_start_matches(p)`: removes every leading repetition of `p`. */
  function TrimStartMatches(s: string, p: string): (r: string)
    requires |p| > 0
    ensures |r| <= |s| && r == s[|s| - |r|..]
    ensures !StartsWith(r, p)
    decreases |s|
  {
    if StartsWith(s, p) then TrimStartMatches(s[|p|..], p) else s
  }

  /** `s.trim_end_matches(p)`: removes every trailing repetition of `p`. */
  function TrimEndMatches(s: string, p: string): (r: string)
    requires |p| > 0
    ensures |r| <= |s| && r == s[..|r|]
    ensures !EndsWith(r, p)
    decreases |s|
  {
    if EndsWith(s, p) then TrimEndMatches(s[..|s| - |p|], p) else s
  }

  /** `s.replace(from, to)` for a single character `from`. */
  function ReplaceChar(s: string, from: char, to: string): (r: string)
    ensures from !in to ==> from !in r
  {
    if s == [] then []
    else (if s[0] == from then to else [s[0]]) + ReplaceChar(s[1..], from, to)
  }

  /** Number of occurrences of `c` in `s`. */
  function Count(s: string, c: char): nat
  {
    if s == [] then 0 else (if s[0] == c then 1 else 0) + Count(s[1..], c)
  }

  lemma {:induction false} CountConcat(a: string, b: string, c: char)
    ensures Count(a + b, c) == Count(a, c) + Count(b, c)
  {
    if a == [] {
      assert a + b == b;
    } else {
      assert (a + b)[1..] == a[1..] + b;
      CountConcat(a[1..], b, c);
    }
  }

  lemma {:induction false} CountAbsent(s: string, c: char)
    requires c !in s
    ensures Count(s, c) == 0
  {
    if s != [] {
      assert c !in s[1..];
      CountAbsent(s[1..], c);
    }
  }

  function AsciiLowerChar(c: char): char
  {
    if 'A' <= c <= 'Z' then (c as int + 32) as char else c
  }

  /** `to_lowercase` on ASCII letters; other characters are kept. */
  function AsciiLower(s: string): (r: string)
    ensures |r| == |s|
    ensures forall i :: 0 <= i < |s| ==> r[i] == AsciiLowerChar(s[i])
  {
    if s == [] then [] else [AsciiLowerChar(s[0])] + AsciiLower(s[1..])
  }

  /** Lower-casing twice is lower-casing once. */
  lemma AsciiLowerIdempotent(s: string)
    ensures AsciiLower(AsciiLower(s)) == AsciiLower(s)
  {
    var l := AsciiLower(s);
    forall i | 0 <= i < |s|
      ensures AsciiLower(l)[i] == l[i]
    {
      assert AsciiLowerChar(AsciiLowerChar(s[i])) == AsciiLowerChar(s[i]);
    }
  }

  /** Every character of `s` is white space. */
  predicate AllWhitespace(s: string)
  {
    forall i :: 0 <= i < |s| ==> IsWhitespace(s[i])
  }

  /** `s.trim().is_empty()` holds exactly when `s` is all white space. */
  lemma {:induction false} TrimEmptyIffAllWhitespace(s: string)
    ensures Trim(s) == [] <==> AllWhitespace(s)
  {
    var t := TrimStart(s);
    TrimStartShape(s);
    TrimStartAllWhitespace(s);
    if t != [] {
      TrimEndNonEmpty(t);
    }
  }

  lemma {:induction false} TrimEndNonEmpty(t: string)
    requires t != [] && !IsWhitespace(t[0])
    ensures TrimEnd(t) != []
    decreases |t|
  {
    if IsWhitespace(t[|t| - 1]) {
      var u := t[..|t| - 1];
      assert u[0] == t[0];
      TrimEndNonEmpty(u);
    }
  }

  lemma {:induction false} TrimStartAllWhitespace(s: string)
    ensures TrimStart(s) == [] <==> AllWhitespace(s)
    decreases |s|
  {
    if s != [] {
      TrimStartAllWhitespace(s[1..]);
      assert forall i :: 1 <= i < |s| ==> s[i] == s[1..][i - 1];
    }
  }

  /** Leading white space is dropped up to the first other character. */
  lemma {:induction false} TrimStartPadded(before: string, s: string)
    requires AllWhitespace(before) && s != [] && !IsWhitespace(s[0])
    ensures TrimStart(before + s) == s
    decreases |before|
  {
    if before == [] {
      assert before + s == s;
    } else {
      assert (before + s)[1..] == before[1..] + s;
      TrimStartPadded(before[1..], s);
    }
  }

  /** Trailing white space is dropped back to the last other character. */
  lemma {:induction false} TrimEndPadded(s: string, after: string)
    requires AllWhitespace(after) && s != [] && !IsWhitespace(s[|s| - 1])
    ensures TrimEnd(s + after) == s
    decreases |after|
  {
    if after == [] {
      assert s + after == s;
    } else {
      var shorter := after[..|after| - 1];
      assert (s + after)[..|s + after| - 1] == s + shorter;
      TrimEndPadded(s, shorter);
    }
  }

  /** Trimming a trimmed text with white space around it gives the text back. */
  lemma PaddedTrim(before: string, s: string, after: string)
    requires AllWhitespace(before) && AllWhitespace(after) && s != [] && IsTrimmed(s)
    ensures Trim(before + s + after) == s
  {
    assert before + s + after == before + (s + after);
    TrimStartPadded(before, s + after);
    TrimEndPadded(s, after);
  }

  /** The pieces written one after the other. */
  function Concat(ss: seq<string>): string
  {
    if ss == [] then "" else ss[0] + Concat(ss[1..])
  }

  lemma {:induction false} ConcatAppend(a: seq<string>, b: seq<string>)
    ensures Concat(a + b) == Concat(a) + Concat(b)
  {
    if a == [] {
      assert a + b == b;
    } else {
      assert (a + b)[1..] == a[1..] + b;
      ConcatAppend(a[1..], b);
      assert a[0] + (Concat(a[1..]) + Concat(b)) == (a[0] + Concat(a[1..])) + Concat(b);
    }
  }

  /** Every piece is in the concatenation. */
  lemma ConcatHasEach(ss: seq<string>, i: nat)
    requires i < |ss|
    ensures Contains(Concat(ss), ss[i])
  {
    var line := ss[i];
    assert ss == ss[..i] + ([line] + ss[i + 1..]);
    ConcatAppend(ss[..i], [line] + ss[i + 1..]);
    OccursContains(line, line, 0);
    ContainsLeft(line, Concat(ss[i + 1..]), line);
    ContainsRight(Concat(ss[..i]), line + Concat(ss[i + 1..]), line);
  }

  lemma ConcatOne(x: string)
    ensures Concat([x]) == x
  {
    assert [x][1..] == [];
  }
}
