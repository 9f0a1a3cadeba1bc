/** The state of the terminal interface: the log panel, the URL editor with
    its cursor, the confirmation screens and the messages background tasks
    send. Rendering is not part of this model. */
module Tui {
  import opened Wrappers
  import opened Text
  import opened Types

  /** How many log entries the panel keeps. */
  const MAX_LOGS := 100

  datatype LogLevel = Info | Success | Warning | Error

  /** A log line; the timestamp is the clock reading taken when it was logged. */
  datatype LogEntry = LogEntry(level: LogLevel, message: string, timestamp: string)

  datatype AppScreen =
    | Setup
    | ResumePrompt(url: string)
    | UrlInput
    | FormatConfirm
    | Processing
    | ShortsConfirm(count: nat)
    | GpuDetectionPrompt
    | Done

  /** The keys the interface reacts to; every other key is `OtherKey`. */
  datatype KeyCode = Enter | CharKey(c: char) | Backspace | Delete | Left | Right | Esc | OtherKey

  /** What background tasks send to the interface. */
  datatype AppMessage =
    | Status(text: string)
    | LogMessage(level: LogLevel, message: string)
    | Progress(fraction: real, caption: string)
    | MomentFound(moment: Moment)
    | Complete(message: string)
    | ErrorMessage(message: string)
    | RequestUrl
    | RequestFormatConfirm
    | RequestShortsConfirm(count: nat)
    | Finished

  /** The fields of the app that keys and messages change. The cursor is
      counted in characters (see the findings on byte positions). */
  datatype UiState = UiState(
    screen: AppScreen,
    status: string,
    logs: seq<LogEntry>,
    progress: real,
    progressLabel: string,
    moments: seq<Moment>,
    input: string,
    cursor: nat,
    shouldQuit: bool,
    confirmResponse: Option<bool>)

  /** What every reachable state satisfies: the cursor is inside the input
      and the log holds at most 100 entries. */
  predicate Valid(s: UiState)
  {
    s.cursor <= |s.input| && |s.logs| <= MAX_LOGS
  }

  /** `App::new` */
  function Initial(): (s: UiState)
    ensures Valid(s) && s.screen == Setup && s.logs == [] && s.moments == [] && s.input == []
  {
    UiState(Setup, "Initializing...", [], 0.0, "", [], "", 0, false, None)
  }

  // ------------------------------------------------------------------ log

  /** The log after pushing an entry: the oldest entry goes once there are more than 100. */
  function Pushed(logs: seq<LogEntry>, e: LogEntry): seq<LogEntry>
  {
    var l := logs + [e];
    if |l| > MAX_LOGS then l[1..] else l
  }

  /** The log after the entries `es` were logged in order, from an empty log. */
  function LogOf(es: seq<LogEntry>): seq<LogEntry>
  {
    if es == [] then [] else Pushed(LogOf(es[..|es| - 1]), es[|es| - 1])
  }

  /** The panel keeps exactly the newest 100 entries, oldest first. */
  lemma {:induction false} LogKeepsNewest(es: seq<LogEntry>)
    ensures |LogOf(es)| == if |es| <= MAX_LOGS then |es| else MAX_LOGS
    ensures LogOf(es) == es[|es| - |LogOf(es)|..]
  {
    if es != [] {
      var init := es[..|es| - 1];
      LogKeepsNewest(init);
      var prev := LogOf(init);
      var l := prev + [es[|es| - 1]];
      assert l == es[|init| - |prev|..];
      if |l| > MAX_LOGS {
        assert l[1..] == es[|init| - |prev| + 1..];
      }
    }
  }

  // ----------------------------------------------------------------- keys

  /** The input with `c` inserted before position `i`. */
  function InsertAt(s: string, i: nat, c: char): (r: string)
    requires i <= |s|
    ensures |r| == |s| + 1 && r[i] == c && r[..i] == s[..i] && r[i + 1..] == s[i..]
  {
    s[..i] + [c] + s[i..]
  }

  /** The input without its character at position `i`. */
  function RemoveAt(s: string, i: nat): (r: string)
    requires i < |s|
    ensures |r| == |s| - 1 && r[..i] == s[..i] && r[i..] == s[i + 1..]
  {
    s[..i] + s[i + 1..]
  }

  /** The keys of the URL editor. */
  function UrlKey(s: UiState, key: KeyCode): (r: UiState)
    requires Valid(s)
    ensures Valid(r)
  {
    match key
    case Enter => if !AllWhitespace(s.input) then s.(confirmResponse := Some(true)) else s
    case CharKey(c) => s.(input := InsertAt(s.input, s.cursor, c), cursor := s.cursor + 1)
    case Backspace =>
      if s.cursor > 0 then s.(cursor := s.cursor - 1, input := RemoveAt(s.input, s.cursor - 1)) else s
    case Delete => if s.cursor < |s.input| then s.(input := RemoveAt(s.input, s.cursor)) else s
    case Left => if s.cursor > 0 then s.(cursor := s.cursor - 1) else s
    case Right => if s.cursor < |s.input| then s.(cursor := s.cursor + 1) else s
    case Esc => s.(shouldQuit := true)
    case OtherKey => s
  }

  /** The screens that ask a yes/no question. */
  predicate IsConfirmScreen(screen: AppScreen)
  {
    screen.ResumePrompt? || screen.FormatConfirm? || screen.ShortsConfirm? || screen.GpuDetectionPrompt?
  }

  /** The keys of a yes/no screen. */
  function ConfirmKey(s: UiState, key: KeyCode): UiState
  {
    if key == CharKey('y') || key == CharKey('Y') || key == Enter then s.(confirmResponse := Some(true))
    else if key == CharKey('n') || key == CharKey('N') then s.(confirmResponse := Some(false))
    else if key == Esc then s.(shouldQuit := true)
    else s
  }

  /** `App::handle_key` */
  function KeyStep(s: UiState, key: KeyCode): (r: UiState)
    requires Valid(s)
    ensures Valid(r)
    ensures r.screen == s.screen && r.logs == s.logs && r.moments == s.moments
  {
    match s.screen
    case UrlInput => UrlKey(s, key)
    case Processing => if key == CharKey('q') || key == Esc then s.(shouldQuit := true) else s
    case Done => if key == CharKey('q') || key == Esc || key == Enter then s.(shouldQuit := true) else s
    case Setup => if key == Esc || key == CharKey('q') then s.(shouldQuit := true) else s
    case _ => ConfirmKey(s, key)
  }

  /** A typed character goes in at the cursor, which moves past it; the
      other characters keep their order on both sides. */
  lemma TypedCharInserted(s: UiState, c: char)
    requires Valid(s) && s.screen == UrlInput
    ensures var r := KeyStep(s, CharKey(c));
      && r.cursor == s.cursor + 1
      && r.input == s.input[..s.cursor] + [c] + s.input[s.cursor..]
  {
  }

  /** Backspace undoes typing a character. */
  lemma BackspaceUndoesChar(s: UiState, c: char)
    requires Valid(s) && s.screen == UrlInput
    ensures KeyStep(KeyStep(s, CharKey(c)), Backspace) == s
  {
    var t := KeyStep(s, CharKey(c));
    var r := KeyStep(t, Backspace);
    assert r.input == t.input[..s.cursor] + t.input[s.cursor + 1..];
    assert t.input[..s.cursor] == s.input[..s.cursor] && t.input[s.cursor + 1..] == s.input[s.cursor..];
    assert s.input[..s.cursor] + s.input[s.cursor..] == s.input;
  }

  /** Left followed by Delete removes the same character as Backspace. */
  lemma LeftDeleteIsBackspace(s: UiState)
    requires Valid(s) && s.screen == UrlInput && s.cursor > 0
    ensures KeyStep(KeyStep(s, Left), Delete) == KeyStep(s, Backspace)
  {
  }

  /** Right then Left returns to the same position. */
  lemma RightLeftReturns(s: UiState)
    requires Valid(s) && s.screen == UrlInput && s.cursor < |s.input|
    ensures KeyStep(KeyStep(s, Right), Left) == s
  {
  }

  /** Enter confirms the URL exactly when it is not blank, and changes nothing else. */
  lemma EnterConfirmsNonBlank(s: UiState)
    requires Valid(s) && s.screen == UrlInput
    ensures var r := KeyStep(s, Enter);
      && (Trim(s.input) != [] ==> r == s.(confirmResponse := Some(true)))
      && (Trim(s.input) == [] ==> r == s)
      && r.input == s.input && r.cursor == s.cursor
  {
    TrimEmptyIffAllWhitespace(s.input);
  }

  /** On a yes/no screen: y, Y and Enter answer yes; n and N answer no; Esc
      quits; nothing else changes. The input is never touched. */
  lemma ConfirmKeys(s: UiState, key: KeyCode)
    requires Valid(s) && IsConfirmScreen(s.screen)
    ensures var r := KeyStep(s, key);
      && (key in {CharKey('y'), CharKey('Y'), Enter} ==> r == s.(confirmResponse := Some(true)))
      && (key in {CharKey('n'), CharKey('N')} ==> r == s.(confirmResponse := Some(false)))
      && (key == Esc ==> r == s.(shouldQuit := true))
      && (key !in {CharKey('y'), CharKey('Y'), Enter, CharKey('n'), CharKey('N'), Esc} ==> r == s)
  {
  }

  /** Outside the URL editor the input and the cursor never change. */
  lemma OnlyEditorEdits(s: UiState, key: KeyCode)
    requires Valid(s) && s.screen != UrlInput
    ensures KeyStep(s, key).input == s.input && KeyStep(s, key).cursor == s.cursor
  {
  }

  // ------------------------------------------------------------- messages

  /** `App::handle_message`; `timestamp` is the clock reading a log entry gets. */
  function MessageStep(s: UiState, msg: AppMessage, timestamp: string): (r: UiState)
    requires Valid(s)
    ensures Valid(r)
  {
    match msg
    case Status(text) => s.(status := text)
    case LogMessage(level, message) => s.(logs := Pushed(s.logs, LogEntry(level, message, timestamp)))
    case Progress(p, caption) => s.(progress := p, progressLabel := caption)
    case MomentFound(m) => s.(moments := s.moments + [m])
    case Complete(message) => s.(logs := Pushed(s.logs, LogEntry(Success, message, timestamp)))
    case ErrorMessage(message) => s.(logs := Pushed(s.logs, LogEntry(Error, message, timestamp)))
    case RequestUrl => s.(screen := UrlInput, input := "", cursor := 0)
    case RequestFormatConfirm => s.(screen := FormatConfirm, confirmResponse := None)
    case RequestShortsConfirm(n) => s.(screen := ShortsConfirm(n), confirmResponse := None)
    case Finished => s.(screen := Done)
  }

  /** Opening the URL editor starts from an empty input with the cursor at 0;
      a confirmation request clears the previous answer. */
  lemma RequestsReset(s: UiState, n: nat, timestamp: string)
    requires Valid(s)
    ensures var r := MessageStep(s, RequestUrl, timestamp);
      r.screen == UrlInput && r.input == [] && r.cursor == 0
    ensures MessageStep(s, RequestFormatConfirm, timestamp).confirmResponse == None
    ensures MessageStep(s, RequestShortsConfirm(n), timestamp).confirmResponse == None
    ensures MessageStep(s, RequestShortsConfirm(n), timestamp).screen == ShortsConfirm(n)
  {
  }

  /** Found moments are kept in arrival order. */
  lemma {:induction false} MomentsInArrivalOrder(s: UiState, found: seq<Moment>, timestamp: string)
    requires Valid(s)
    ensures MessagesStep(s, seq(|found|, i requires 0 <= i < |found| => MomentFound(found[i])), timestamp).moments
            == s.moments + found
    decreases |found|
  {
    var msgs := seq(|found|, i requires 0 <= i < |found| => MomentFound(found[i]));
    if found != [] {
      var init := found[..|found| - 1];
      var initMsgs := seq(|init|, i requires 0 <= i < |init| => MomentFound(init[i]));
      assert msgs[..|msgs| - 1] == initMsgs;
      MomentsInArrivalOrder(s, init, timestamp);
      assert init + [found[|found| - 1]] == found;
    }
  }

  /** The state after the messages `msgs`, in order. */
  function MessagesStep(s: UiState, msgs: seq<AppMessage>, timestamp: string): (r: UiState)
    requires Valid(s)
    ensures Valid(r)
  {
    if msgs == [] then s else MessageStep(MessagesStep(s, msgs[..|msgs| - 1], timestamp), msgs[|msgs| - 1], timestamp)
  }

  /** Logging through messages keeps the newest entries: each log, complete
      and error message pushes one entry. */
  lemma LogMessagePushes(s: UiState, level: LogLevel, message: string, timestamp: string)
    requires Valid(s)
    ensures var r := MessageStep(s, LogMessage(level, message), timestamp);
      && r.logs[|r.logs| - 1] == LogEntry(level, message, timestamp)
      && (|s.logs| < MAX_LOGS ==> r.logs == s.logs + [LogEntry(level, message, timestamp)])
      && (|s.logs| == MAX_LOGS ==> r.logs == s.logs[1..] + [LogEntry(level, message, timestamp)])
  {
  }

  // ------------------------------------------------------------ the app

  /** `App`: the interface state, updated in place by keys and messages. */
  class App {
    var screen: AppScreen
    var status: string
    var logs: seq<LogEntry>
    var progress: real
    var progressLabel: string
    var moments: seq<Moment>
    var input: string
    var cursor: nat
    var shouldQuit: bool
    var confirmResponse: Option<bool>
    const outputDir: string

    function State(): UiState
      reads this
    {
      UiState(screen, status, logs, progress, progressLabel, moments, input, cursor, shouldQuit, confirmResponse)
    }

    constructor(outputDir: string)
      ensures State() == Initial() && this.outputDir == outputDir
    {
      screen := Setup;
      status := "Initializing...";
      logs := [];
      progress := 0.0;
      progressLabel := "";
      moments := [];
      input := "";
      cursor := 0;
      shouldQuit := false;
      confirmResponse := None;
      this.outputDir := outputDir;
    }

    /** `App::log` */
    method Log(level: LogLevel, message: string, timestamp: string)
      modifies this
      ensures State() == old(State()).(logs := Pushed(old(logs), LogEntry(level, message, timestamp)))
    {
      logs := logs + [LogEntry(level, message, timestamp)];
      if |logs| > MAX_LOGS {
        logs := logs[1..];
      }
    }

    /** `App::handle_key` */
    method HandleKey(key: KeyCode)
      requires Valid(State())
      modifies this
      ensures State() == KeyStep(old(State()), key)
    {
      match screen {
        case UrlInput => EditUrl(key);
        case Processing =>
          if key == CharKey('q') || key == Esc {
            shouldQuit := true;
          }
        case Done =>
          if key == CharKey('q') || key == Esc || key == Enter {
            shouldQuit := true;
          }
        case Setup =>
          if key == Esc || key == CharKey('q') {
            shouldQuit := true;
          }
        case _ =>
          if key == CharKey('y') || key == CharKey('Y') || key == Enter {
            confirmResponse := Some(true);
          } else if key == CharKey('n') || key == CharKey('N') {
            confirmResponse := Some(false);
          } else if key == Esc {
            shouldQuit := true;
          }
      }
    }

    /** The URL editor's keys. */
    method EditUrl(key: KeyCode)
      requires Valid(State())
      modifies this
      ensures State() == UrlKey(old(State()), key)
    {
      match key {
        case Enter =>
          if !AllWhitespace(input) {
            confirmResponse := Some(true);
          }
        case CharKey(c) =>
          input := InsertAt(input, cursor, c);
          cursor := cursor + 1;
        case Backspace =>
          if cursor > 0 {
            cursor := cursor - 1;
            input := RemoveAt(input, cursor);
          }
        case Delete =>
          if cursor < |input| {
            input := RemoveAt(input, cursor);
          }
        case Left =>
          if cursor > 0 {
            cursor := cursor - 1;
          }
        case Right =>
          if cursor < |input| {
            cursor := cursor + 1;
          }
        case Esc =>
          shouldQuit := true;
        case OtherKey =>
      }
    }

    /** `App::handle_message` */
    method HandleMessage(msg: AppMessage, timestamp: string)
      requires Valid(State())
      modifies this
      ensures State() == MessageStep(old(State()), msg, timestamp)
    {
      match msg {
        case Status(text) => status := text;
        case LogMessage(level, message) => Log(level, message, timestamp);
        case Progress(p, caption) =>
          progress := p;
          progressLabel := caption;
        case MomentFound(m) => moments := moments + [m];
        case Complete(message) => Log(Success, message, timestamp);
        case ErrorMessage(message) => Log(Error, message, timestamp);
        case RequestUrl =>
          screen := UrlInput;
          input := "";
          cursor := 0;
        case RequestFormatConfirm =>
          screen := FormatConfirm;
          confirmResponse := None;
        case RequestShortsConfirm(n) =>
          screen := ShortsConfirm(n);
          confirmResponse := None;
        case Finished => screen := Done;
      }
    }
  }

  // ------------------------------------------- byte positions as written

  /** The number of bytes of `c` in UTF-8. */
  function Utf8Len(c: char): nat
  {
    if c as int < 0x80 then 1 else if c as int < 0x800 then 2 else if c as int < 0x10000 then 3 else 4
  }

  /** Byte position `b` starts a character of `s` (or is its end). */
  predicate IsCharBoundary(s: string, b: nat)
    decreases |s|
  {
    b == 0 || (s != [] && b >= Utf8Len(s[0]) && IsCharBoundary(s[1..], b - Utf8Len(s[0])))
  }

  /** The character index at byte boundary `b`. */
  function CharIndex(s: string, b: nat): (k: nat)
    requires IsCharBoundary(s, b)
    ensures k <= |s|
    decreases |s|
  {
    if b == 0 then 0 else 1 + CharIndex(s[1..], b - Utf8Len(s[0]))
  }

  /** Typing a character as the code does it: `String::insert` at the byte
      position held in the cursor, which panics (None) off a character
      boundary, then the cursor moves on by one byte. */
  function InsertAsWritten(s: string, cursor: nat, c: char): Option<(string, nat)>
  {
    if IsCharBoundary(s, cursor) then
      var k := CharIndex(s, cursor);
      Some((s[..k] + [c] + s[k..], cursor + 1))
    else None
  }

  /** Typing "é" and then any character makes `insert` panic: the cursor
      stands on the second byte of "é". */
  lemma WideCharThenInsertPanics(c: char)
    ensures InsertAsWritten("", 0, 'é') == Some(("é", 1))
    ensures InsertAsWritten("é", 1, c).None?
  {
    var empty: string := "";
    assert empty[..0] + ['é'] + empty[0..] == "é";
    assert Utf8Len('é') == 2;
    assert !IsCharBoundary("é"[1..], 1) by {
      assert "é"[1..] == [];
    }
  }

  /** On ASCII text byte positions are character positions, so the code's
      insert does what the character-counted editor does. */
  lemma {:induction false} AsciiBoundaries(s: string, b: nat)
    requires forall i :: 0 <= i < |s| ==> s[i] as int < 0x80
    requires b <= |s|
    ensures IsCharBoundary(s, b) && CharIndex(s, b) == b
    decreases |s|
  {
    if b > 0 {
      assert forall i :: 0 <= i < |s[1..]| ==> s[1..][i] == s[i + 1];
      AsciiBoundaries(s[1..], b - 1);
    }
  }

  /** `input.len()`: the length of the text in bytes. */
  function ByteLen(s: string): nat
  {
    if s == [] then 0 else Utf8Len(s[0]) + ByteLen(s[1..])
  }

  /** `String::remove` at byte position `b`: panics (None) unless `b` starts
      a character of `s`. */
  function RemoveAsWritten(s: string, b: nat): Option<string>
  {
    if IsCharBoundary(s, b) && CharIndex(s, b) < |s| then Some(RemoveAt(s, CharIndex(s, b))) else None
  }

  /** The URL editor's keys as the code runs them: the cursor is a byte
      offset, bounded by the byte length, and None is a panic. */
  function UrlKeyAsWritten(s: UiState, key: KeyCode): Option<UiState>
  {
    match key
    case Enter => Some(if !AllWhitespace(s.input) then s.(confirmResponse := Some(true)) else s)
    case CharKey(c) =>
      (match InsertAsWritten(s.input, s.cursor, c)
       case Some((t, b)) => Some(s.(input := t, cursor := b))
       case None => None)
    case Backspace =>
      if s.cursor > 0 then
        (match RemoveAsWritten(s.input, s.cursor - 1)
         case Some(t) => Some(s.(cursor := s.cursor - 1, input := t))
         case None => None)
      else Some(s)
    case Delete =>
      if s.cursor < ByteLen(s.input) then
        (match RemoveAsWritten(s.input, s.cursor)
         case Some(t) => Some(s.(input := t))
         case None => None)
      else Some(s)
    case Left => Some(if s.cursor > 0 then s.(cursor := s.cursor - 1) else s)
    case Right => Some(if s.cursor < ByteLen(s.input) then s.(cursor := s.cursor + 1) else s)
    case Esc => Some(s.(shouldQuit := true))
    case OtherKey => Some(s)
  }

  /** After typing "é" into an empty field the cursor is 1 and the text is
      two bytes long: Delete removes at byte 1 and panics, Right moves the
      cursor to byte 2, and Backspace from there removes at byte 1 and
      panics, where the character-counted editor deletes the "é". */
  lemma WideCharRightBackspacePanics(s: UiState)
    requires Valid(s) && s.screen == UrlInput && s.input == "" && s.cursor == 0
    ensures var typed := s.(input := "é", cursor := 1);
      && UrlKeyAsWritten(s, CharKey('é')) == Some(typed)
      && UrlKeyAsWritten(typed, Delete).None?
      && UrlKeyAsWritten(typed, Right) == Some(typed.(cursor := 2))
      && UrlKeyAsWritten(typed.(cursor := 2), Backspace).None?
      && KeyStep(KeyStep(typed, Right), Backspace).input == ""
  {
    var typed := s.(input := "é", cursor := 1);
    WideCharThenInsertPanics('x');
    assert Utf8Len('é') == 2;
    assert ByteLen("é") == 2 by {
      assert "é"[1..] == [];
    }
    assert !IsCharBoundary("é", 1) by {
      assert "é"[1..] == [];
    }
  }

  /** On ASCII text the byte length is the number of characters. */
  lemma {:induction false} AsciiByteLen(s: string)
    requires forall i :: 0 <= i < |s| ==> s[i] as int < 0x80
    ensures ByteLen(s) == |s|
    decreases |s|
  {
    if s != [] {
      assert forall i :: 0 <= i < |s[1..]| ==> s[1..][i] == s[i + 1];
      AsciiByteLen(s[1..]);
    }
  }

  /** On ASCII text every key of the URL editor does what the
      character-counted editor does, and none of them panics. */
  lemma AsciiKeysAgree(s: UiState, key: KeyCode)
    requires Valid(s) && s.screen == UrlInput
    requires forall i :: 0 <= i < |s.input| ==> s.input[i] as int < 0x80
    ensures UrlKeyAsWritten(s, key) == Some(KeyStep(s, key))
  {
    match key
    case CharKey(_) =>
      AsciiBoundaries(s.input, s.cursor);
    case Backspace =>
      if s.cursor > 0 {
        AsciiBoundaries(s.input, s.cursor - 1);
      }
    case Delete =>
      AsciiByteLen(s.input);
      if s.cursor < |s.input| {
        AsciiBoundaries(s.input, s.cursor);
      }
    case Right =>
      AsciiByteLen(s.input);
    case _ =>
  }
}
