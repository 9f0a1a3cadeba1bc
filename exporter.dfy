/** The template ("plano") layer of the short exporter: pixel resolution of
    positions and sizes, crop presence, removal of `//` comments from a
    template file, and the built-in default template. */
module Exporter {
  import opened Wrappers
  import opened Text
  import opened Decimal

  const I32_MIN: int := -0x8000_0000
  const I32_MAX: int := 0x7FFF_FFFF

  type I32 = x: int | I32_MIN <= x <= I32_MAX
  type U32 = x: int | 0 <= x <= U32_MAX

  const OUTPUT_WIDTH: U32 := 1080
  const OUTPUT_HEIGHT: U32 := 1920

  // ------------------------------------------------------------ numbers

  /** `as` from a float to an integer: truncation toward zero. */
  function Truncate(x: real): (r: int)
    ensures x >= 0.0 ==> r as real <= x < r as real + 1.0
    ensures x < 0.0 ==> r as real - 1.0 < x <= r as real
  {
    if x >= 0.0 then x.Floor else -((-x).Floor)
  }

  /** A float cast to i32 saturates at the bounds of the type. */
  function SaturateI32(x: int): (r: I32)
    ensures I32_MIN <= x <= I32_MAX ==> r == x
    ensures x < I32_MIN ==> r == I32_MIN
    ensures x > I32_MAX ==> r == I32_MAX
  {
    if x < I32_MIN then I32_MIN else if x > I32_MAX then I32_MAX else x
  }

  /** A float cast to u32 saturates at 0 and at the largest u32. */
  function SaturateU32(x: int): (r: U32)
    ensures 0 <= x <= U32_MAX ==> r == x
    ensures x < 0 ==> r == 0
    ensures x > U32_MAX ==> r == U32_MAX
  {
    if x < 0 then 0 else if x > U32_MAX then U32_MAX else x
  }

  /** Integer division truncating toward zero, as on Rust's signed integers. */
  function TruncDiv2(x: int): (r: int)
    ensures x >= 0 ==> 2 * r == x || 2 * r == x - 1
    ensures x < 0 ==> 2 * r == x || 2 * r == x + 1
  {
    if x >= 0 then x / 2 else -((-x) / 2)
  }

  // ------------------------------------------------------- position values

  /** A coordinate: a pixel value or a keyword ("center", "NN%"). */
  datatype PositionValue = PositionPixels(px: I32) | PositionKeyword(keyword: string)

  /** A size: a pixel value or a keyword ("full", "NN%"). */
  datatype SizeValue = SizePixels(size: U32) | SizeKeyword(word: string)

  /** `x * (pct / 100)` on the container size, cast to the target integer. */
  function Percent(reference: U32, pct: real): int
  {
    Truncate(reference as real * (pct / 100.0))
  }

  /** The keyword with its trailing '%' signs removed, when it ends in one. */
  function PercentBody(keyword: string): Option<string>
  {
    var lower := AsciiLower(keyword);
    if EndsWith(lower, "%") then Some(TrimEndMatches(lower, "%")) else None
  }

  /** `SizeValue::resolve`: pixels are taken as they are; "full", any other
      keyword and a percentage that does not parse give the reference size;
      a parsed percentage scales the reference size. `parseFloat` stands for
      Rust's `f32` parser. */
  function ResolveSize(v: SizeValue, reference: U32, parseFloat: string -> Option<real>): (r: U32)
    ensures v.SizePixels? ==> r == v.size
    ensures v.SizeKeyword? && PercentBody(v.word).None? ==> r == reference
    ensures v.SizeKeyword? && AsciiLower(v.word) == "full" ==> r == reference
    ensures v.SizeKeyword? && PercentBody(v.word).Some? && parseFloat(PercentBody(v.word).value).None?
            ==> r == reference
  {
    match v
    case SizePixels(px) => px
    case SizeKeyword(kw) =>
      if AsciiLower(kw) == "full" then reference
      else
        var body := PercentBody(kw);
        if body.None? then reference
        else
          var pct := parseFloat(body.value);
          if pct.None? then reference else SaturateU32(Percent(reference, pct.value))
  }

  /** The centring offset `(container - element) / 2` as the code computes
      it: a u32 subtraction, which wraps (release build) when the element is
      larger than the container. */
  function CenterAsWritten(container: U32, element: U32): int
  {
    ((container - element) % (U32_MAX + 1)) / 2
  }

  /** The centring offset with signed arithmetic: the margins left and
      right of the element differ by at most one pixel, on both sides of the
      container also when the element is the larger. */
  function CenterOffset(container: U32, element: U32): (r: I32)
    ensures var right := container - element - r; -1 <= r - right <= 1
    ensures element <= container ==> 0 <= r && r + element <= container
    ensures element > container ==> r <= 0 && r + element >= container
  {
    TruncDiv2(container - element)
  }

  /** `PositionValue::resolve`: pixels are kept; "center" centres the
      element; a parsed percentage scales the container size; every other
      keyword, and a percentage that does not parse, gives 0. */
  function ResolvePosition(v: PositionValue, container: U32, element: U32,
                           parseFloat: string -> Option<real>): (r: I32)
    ensures v.PositionPixels? ==> r == v.px
    ensures v.PositionKeyword? && AsciiLower(v.keyword) == "center" ==> r == CenterOffset(container, element)
    ensures v.PositionKeyword? && AsciiLower(v.keyword) != "center" && PercentBody(v.keyword).None? ==> r == 0
    ensures (v.PositionKeyword? && AsciiLower(v.keyword) != "center" && PercentBody(v.keyword).Some?
             && parseFloat(PercentBody(v.keyword).value).None?) ==> r == 0
  {
    match v
    case PositionPixels(px) => px
    case PositionKeyword(kw) =>
      if AsciiLower(kw) == "center" then CenterOffset(container, element)
      else
        var body := PercentBody(kw);
        if body.None? then 0
        else
          var pct := parseFloat(body.value);
          if pct.None? then 0 else SaturateI32(Percent(container, pct.value))
  }

  /** The keyword match ignores the case of the keyword. */
  lemma SizeIgnoresCase(kw: string, reference: U32, parseFloat: string -> Option<real>)
    ensures ResolveSize(SizeKeyword(kw), reference, parseFloat)
         == ResolveSize(SizeKeyword(AsciiLower(kw)), reference, parseFloat)
  {
    AsciiLowerIdempotent(kw);
  }

  lemma PositionIgnoresCase(kw: string, container: U32, element: U32, parseFloat: string -> Option<real>)
    ensures ResolvePosition(PositionKeyword(kw), container, element, parseFloat)
         == ResolvePosition(PositionKeyword(AsciiLower(kw)), container, element, parseFloat)
  {
    AsciiLowerIdempotent(kw);
  }

  /** A percentage between 0 and 100 gives a size between 0 and the reference. */
  lemma PercentSizeWithin(kw: string, reference: U32, parseFloat: string -> Option<real>)
    requires PercentBody(kw).Some? && parseFloat(PercentBody(kw).value).Some?
    requires 0.0 <= parseFloat(PercentBody(kw).value).value <= 100.0
    ensures ResolveSize(SizeKeyword(kw), reference, parseFloat) <= reference
  {
    PercentWithin(reference, parseFloat(PercentBody(kw).value).value);
  }

  lemma PercentWithin(reference: U32, pct: real)
    requires 0.0 <= pct <= 100.0
    ensures 0 <= Percent(reference, pct) <= reference
  {
    var f := Fraction(pct);
    ScaleAtMost(reference, f);
  }

  function Fraction(pct: real): (f: real)
    requires 0.0 <= pct <= 100.0
    ensures 0.0 <= f <= 1.0 && f == pct / 100.0
  {
    pct / 100.0
  }

  lemma ScaleAtMost(a: int, f: real)
    requires a >= 0 && 0.0 <= f <= 1.0
    ensures 0 <= Truncate(a as real * f) <= a
  {
    var b := a as real;
    var x := b * f;
    MulNonnegative(b, f);
    MulNonnegative(b, 1.0 - f);
    assert x + b * (1.0 - f) == b;
    TruncateWithin(x, a);
  }

  lemma MulNonnegative(x: real, y: real)
    requires x >= 0.0 && y >= 0.0
    ensures x * y >= 0.0
  {
  }

  lemma TruncateWithin(x: real, bound: int)
    requires 0.0 <= x <= bound as real
    ensures 0 <= Truncate(x) <= bound
  {
  }

  /** As the code computes it, centring an element wider than its container
      gives an offset far beyond the container's far edge. */
  lemma CenterAsWrittenWraps()
    ensures CenterAsWritten(100, 200) == 2147483598
    ensures CenterAsWritten(100, 200) > 100
    ensures CenterOffset(100, 200) == -50
  {
  }

  /** When the element fits, the code's offset is the intended one. */
  lemma CenterAsWrittenWhenFits(container: U32, element: U32)
    requires element <= container
    ensures CenterAsWritten(container, element) == CenterOffset(container, element)
  {
  }

  /** The size values the source's unit tests name. */
  lemma SizeExamples(parseFloat: string -> Option<real>)
    requires parseFloat("50") == Some(50.0)
    ensures ResolveSize(SizePixels(500), 1080, parseFloat) == 500
    ensures ResolveSize(SizeKeyword("full"), 1080, parseFloat) == 1080
    ensures ResolveSize(SizeKeyword("50%"), 1000, parseFloat) == 500
  {
    FullIsReference(1080, parseFloat);
    HalfPercent(parseFloat);
  }

  lemma HalfPercent(parseFloat: string -> Option<real>)
    requires parseFloat("50") == Some(50.0)
    ensures ResolveSize(SizeKeyword("50%"), 1000, parseFloat) == 500
  {
    assert AsciiLower("50%") == "50%";
    assert EndsWith("50%", "%");
    assert TrimEndMatches("50%", "%") == "50" by {
      assert "50%"[..2] == "50";
      assert !EndsWith("50", "%");
    }
    assert PercentBody("50%") == Some("50");
    assert "50%" != "full";
    assert Percent(1000, 50.0) == 500;
  }

  /** The position values the source's unit tests name. */
  lemma PositionExamples(parseFloat: string -> Option<real>)
    ensures ResolvePosition(PositionPixels(100), 1000, 200, parseFloat) == 100
    ensures ResolvePosition(PositionKeyword("center"), 1000, 200, parseFloat) == 400
  {
    CenterKeyword(1000, 200, parseFloat);
  }

  // ----------------------------------------------------------------- crop

  /** An optional crop rectangle of a clip layer. */
  datatype Crop = Crop(xFrom: Option<int>, xTo: Option<int>, yFrom: Option<int>, yTo: Option<int>)

  /** `Crop::default()`: nothing set. */
  const NO_CROP := Crop(None, None, None, None)

  /** `Crop::is_specified`: some bound is set. */
  predicate IsSpecified(c: Crop)
  {
    c.xFrom.Some? || c.xTo.Some? || c.yFrom.Some? || c.yTo.Some?
  }

  /** A crop is unspecified exactly when it is the default crop. */
  lemma UnspecifiedIsDefault(c: Crop)
    ensures !IsSpecified(c) <==> c == NO_CROP
  {
  }

  // --------------------------------------------------------------- layers

  datatype Fit = Cover | Contain | Stretch

  datatype ShaderEffect = Blur(intensity: U32)

  /** Where a layer goes and how large it is. */
  datatype Position = Position(x: PositionValue, y: PositionValue, width: SizeValue, height: SizeValue)

  /** One layer of a template; earlier layers are further back. */
  datatype PlanoObject =
    | Clip(position: Position, crop: Option<Crop>, fit: Fit, comment: Option<string>)
    | Image(path: string, position: Position, opacity: real, comment: Option<string>)
    | Shader(effect: ShaderEffect, position: Position, comment: Option<string>)
    | Video(path: string, position: Position, loopVideo: bool, opacity: real, fit: Fit, comment: Option<string>)

  /** The full-screen box at the origin. */
  function FullScreen(): Position
  {
    Position(PositionPixels(0), PositionPixels(0), SizeKeyword("full"), SizeKeyword("full"))
  }

  /** Full width, 1200 pixels high, centred vertically. */
  function MainBox(): Position
  {
    Position(PositionPixels(0), PositionKeyword("center"), SizeKeyword("full"), SizePixels(1200))
  }

  /** `create_default_plano`: a full-screen clip, a blur of intensity 20 over
      it, and the clip again at full width and 1200 pixels high, centred
      vertically. */
  function DefaultPlano(): (layers: seq<PlanoObject>)
    ensures |layers| == 3
    ensures layers[0].Clip? && layers[1].Shader? && layers[2].Clip?
    ensures layers[1].effect == Blur(20)
  {
    [ Clip(FullScreen(), None, Cover, Some("Fondo desenfocado del clip original")),
      Shader(Blur(20), FullScreen(), Some("Shader de blur sobre el fondo")),
      Clip(MainBox(), None, Cover, Some("Video principal del clip")) ]
  }

  /** The box a layer's position resolves to on the 1080x1920 output. */
  function Box(p: Position, parseFloat: string -> Option<real>): (int, int, int, int)
  {
    var w := ResolveSize(p.width, OUTPUT_WIDTH, parseFloat);
    var h := ResolveSize(p.height, OUTPUT_HEIGHT, parseFloat);
    (ResolvePosition(p.x, OUTPUT_WIDTH, w, parseFloat), ResolvePosition(p.y, OUTPUT_HEIGHT, h, parseFloat), w, h)
  }

  /** The default template's first two layers cover the whole output, and
      its main clip is full width and sits 360 pixels from the top and the
      bottom. */
  lemma DefaultPlanoBoxes(parseFloat: string -> Option<real>)
    ensures forall k :: 0 <= k < 2 ==> Box(DefaultPlano()[k].position, parseFloat) == (0, 0, 1080, 1920)
    ensures Box(DefaultPlano()[2].position, parseFloat) == (0, 360, 1080, 1200)
  {
    FullScreenBox(parseFloat);
    MainBoxBox(parseFloat);
    var layers := DefaultPlano();
    assert layers[0].position == FullScreen() && layers[1].position == FullScreen();
    assert layers[2].position == MainBox();
  }

  lemma FullScreenBox(parseFloat: string -> Option<real>)
    ensures Box(FullScreen(), parseFloat) == (0, 0, 1080, 1920)
  {
    FullIsReference(OUTPUT_WIDTH, parseFloat);
    FullIsReference(OUTPUT_HEIGHT, parseFloat);
  }

  lemma MainBoxBox(parseFloat: string -> Option<real>)
    ensures Box(MainBox(), parseFloat) == (0, 360, 1080, 1200)
  {
    FullIsReference(OUTPUT_WIDTH, parseFloat);
    CenterKeyword(OUTPUT_HEIGHT, 1200, parseFloat);
  }

  lemma FullIsReference(reference: U32, parseFloat: string -> Option<real>)
    ensures ResolveSize(SizeKeyword("full"), reference, parseFloat) == reference
  {
    assert AsciiLower("full") == "full";
  }

  lemma CenterKeyword(container: U32, element: U32, parseFloat: string -> Option<real>)
    ensures ResolvePosition(PositionKeyword("center"), container, element, parseFloat)
         == CenterOffset(container, element)
  {
    assert AsciiLower("center") == "center";
  }

  // ---------------------------------------------------- comment removal

  /** The number of '\' at the end of `s`. */
  function TrailingBackslashes(s: string): (n: nat)
    ensures n <= |s|
    ensures forall k :: |s| - n <= k < |s| ==> s[k] == '\\'
    ensures n < |s| ==> s[|s| - n - 1] != '\\'
  {
    if s != [] && s[|s| - 1] == '\\' then TrailingBackslashes(s[..|s| - 1]) + 1 else 0
  }

  /** The rest of a line: everything from the first '\n' on (kept). */
  function LineRest(s: string): (r: string)
    ensures |r| <= |s| && r == s[|s| - |r|..]
    ensures r == [] || r[0] == '\n'
    ensures '\n' !in s[..|s| - |r|]
  {
    if s == [] || s[0] == '\n' then s else LineRest(s[1..])
  }

  /** What `remove_js_comments` appends to `out` for the remaining input
      `s`, when `inString` says whether a string literal is open: a '"'
      opens a literal, a '"' after an even number of '\' closes it, and
      outside literals "//" drops the rest of the line but not its '\n'. */
  function Uncommented(s: string, inString: bool, out: string): string
    decreases |s|
  {
    if s == [] then out
    else
      var c := s[0];
      if c == '"' && !inString then Uncommented(s[1..], true, out + [c])
      else if c == '"' then Uncommented(s[1..], TrailingBackslashes(out) % 2 == 1, out + [c])
      else if !inString && c == '/' && |s| > 1 && s[1] == '/' then Uncommented(LineRest(s[2..]), false, out)
      else Uncommented(s[1..], inString, out + [c])
  }

  /** `remove_js_comments` as a function of its input. */
  function RemoveComments(content: string): string
  {
    Uncommented(content, false, "")
  }

  /** Input without "//" is copied unchanged, whatever the string state. */
  lemma {:induction false} NoCommentsKept(s: string, inString: bool, out: string)
    requires !Contains(s, "//")
    ensures Uncommented(s, inString, out) == out + s
    decreases |s|
  {
    if s != [] {
      assert !StartsWith(s, "//") && !Contains(s[1..], "//");
      if |s| > 1 {
        assert s[..2] == [s[0], s[1]];
      }
      var next := if s[0] == '"' && !inString then true
                  else if s[0] == '"' then TrailingBackslashes(out) % 2 == 1
                  else inString;
      NoCommentsKept(s[1..], next, out + [s[0]]);
      assert out + [s[0]] + s[1..] == out + s;
    }
  }

  /** Inside a string literal every character up to the next '"' is copied,
      "//" included. */
  lemma {:induction false} LiteralCopied(t: string, rest: string, out: string)
    requires '"' !in t
    ensures Uncommented(t + rest, true, out) == Uncommented(rest, true, out + t)
    decreases |t|
  {
    if t != [] {
      assert (t + rest)[0] == t[0] && (t + rest)[1..] == t[1..] + rest;
      assert t[0] in t && t[0] != '"';
      assert '"' !in t[1..];
      LiteralCopied(t[1..], rest, out + [t[0]]);
      assert out + [t[0]] + t[1..] == out + t;
    } else {
      assert t + rest == rest && out + t == out;
    }
  }

  /** A complete string literal is copied verbatim and leaves the literal
      state; its closing quote is one not preceded by an odd number of '\\'. */
  lemma LiteralKept(body: string, rest: string, out: string)
    requires '"' !in body
    requires TrailingBackslashes(out + "\"" + body) % 2 == 0
    ensures Uncommented("\"" + body + "\"" + rest, false, out)
         == Uncommented(rest, false, out + "\"" + body + "\"")
  {
    var s := "\"" + body + "\"" + rest;
    assert s[0] == '"' && s[1..] == body + ("\"" + rest);
    LiteralCopied(body, "\"" + rest, out + "\"");
    var o := out + "\"" + body;
    assert ("\"" + rest)[0] == '"' && ("\"" + rest)[1..] == rest;
    assert o + "\"" == out + "\"" + body + "\"";
  }

  /** A quote after an odd number of '\\' is part of the literal: the text
      after it is still copied as literal text. */
  lemma EscapedQuoteKept(body: string, more: string, rest: string, out: string)
    requires '"' !in body && '"' !in more
    requires TrailingBackslashes(out + "\"" + body) % 2 == 1
    ensures Uncommented("\"" + body + "\"" + more + rest, false, out)
         == Uncommented(rest, true, out + "\"" + body + "\"" + more)
  {
    var s := "\"" + body + "\"" + more + rest;
    assert s[0] == '"' && s[1..] == body + ("\"" + more + rest);
    LiteralCopied(body, "\"" + more + rest, out + "\"");
    var o := out + "\"" + body;
    assert ("\"" + more + rest)[0] == '"' && ("\"" + more + rest)[1..] == more + rest;
    LiteralCopied(more, rest, o + "\"");
    assert o + "\"" + more == out + "\"" + body + "\"" + more;
  }

  /** Outside literals, "//" and the rest of its line are dropped; the '\n'
      that ends the line is kept. */
  lemma CommentDropped(c: string, rest: string, out: string)
    requires '\n' !in c
    ensures Uncommented("//" + c + "\n" + rest, false, out) == Uncommented(rest, false, out + "\n")
  {
    var s := "//" + c + "\n" + rest;
    assert s[0] == '/' && s[1] == '/' && s[2..] == c + ("\n" + rest);
    LineRestSkips(c, "\n" + rest);
    assert ("\n" + rest)[0] == '\n' && ("\n" + rest)[1..] == rest;
  }

  /** A comment on the last line removes everything after "//". */
  lemma CommentAtEnd(c: string, out: string)
    requires '\n' !in c
    ensures Uncommented("//" + c, false, out) == out
  {
    var s := "//" + c;
    assert s[0] == '/' && s[1] == '/' && s[2..] == c + [];
    LineRestSkips(c, []);
  }

  lemma {:induction false} LineRestSkips(c: string, rest: string)
    requires '\n' !in c
    requires rest == [] || rest[0] == '\n'
    ensures LineRest(c + rest) == rest
    decreases |c|
  {
    if c != [] {
      assert (c + rest)[0] == c[0] && (c + rest)[1..] == c[1..] + rest;
      assert '\n' !in c[1..];
      LineRestSkips(c[1..], rest);
    } else {
      assert c + rest == rest;
    }
  }

  /** The output so far is never changed, only extended, and it grows by at
      most the input's length. */
  lemma {:induction false} UncommentedExtends(s: string, inString: bool, out: string)
    ensures var r := Uncommented(s, inString, out);
      |out| <= |r| <= |out| + |s| && r[..|out|] == out
    decreases |s|
  {
    if s != [] {
      var c := s[0];
      if c == '"' && !inString {
        UncommentedExtends(s[1..], true, out + [c]);
      } else if c == '"' {
        UncommentedExtends(s[1..], TrailingBackslashes(out) % 2 == 1, out + [c]);
      } else if !inString && c == '/' && |s| > 1 && s[1] == '/' {
        UncommentedExtends(LineRest(s[2..]), false, out);
      } else {
        UncommentedExtends(s[1..], inString, out + [c]);
      }
      var r := Uncommented(s, inString, out);
      assert (out + [c])[..|out|] == out;
    }
  }

  /** Advancing past a character that is not '\n' leaves the line rest unchanged. */
  lemma LineRestStep(s: string, i: nat)
    requires i < |s| && s[i] != '\n'
    ensures LineRest(s[i..]) == LineRest(s[i + 1..])
  {
    assert s[i..][0] == s[i] && s[i..][1..] == s[i + 1..];
  }

  /** `remove_js_comments`: copies the template text, dropping `//` comments
      outside string literals. */
  method RemoveJsComments(content: string) returns (result: string)
    ensures result == RemoveComments(content)
  {
    result := "";
    var inString := false;
    var i := 0;
    while i < |content|
      invariant 0 <= i <= |content|
      invariant Uncommented(content[i..], inString, result) == RemoveComments(content)
      decreases |content| - i
    {
      var c := content[i];
      assert content[i..][0] == c && content[i..][1..] == content[i + 1..];
      if c == '"' && !inString {
        inString := true;
        result := result + [c];
        i := i + 1;
      } else if c == '"' && inString {
        var backslashes := TrailingBackslashes(result);
        if backslashes % 2 == 0 {
          inString := false;
        }
        result := result + [c];
        i := i + 1;
      } else if !inString && c == '/' && i + 1 < |content| && content[i + 1] == '/' {
        assert content[i..][2..] == content[i + 2..];
        ghost var line := LineRest(content[i + 2..]);
        i := i + 2;
        while i < |content| && content[i] != '\n'
          invariant i <= |content|
          invariant LineRest(content[i..]) == line
          decreases |content| - i
        {
          LineRestStep(content, i);
          i := i + 1;
        }
        assert content[i..] == line;
      } else {
        result := result + [c];
        i := i + 1;
      }
    }
  }
}
