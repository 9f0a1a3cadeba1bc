/** The OpenRouter client: a plain list of keys with a cursor kept in range,
    and a bounded loop of at most max(n, 3) chat requests per chunk. */
module OpenRouter {
  import opened Wrappers
  import opened Types
  import opened Moments

  const NO_KEYS := "No OpenRouter API keys available"
  const EXHAUSTED := "Failed to process chunk with OpenRouter after multiple attempts"
  /** The text of reqwest's error for a success reply whose body is not a chat reply. */
  const BODY_UNDECODABLE := "error decoding response body"

  /** A moment as the model writes it, with times in seconds. */
  datatype RawMoment = RawMoment(start: real, end: real, category: string, description: string)

  datatype Choice = Choice(content: Option<string>)

  /** One chat request: it fails to send, gets a non-success status, or gets
      a success status with a body that is or is not a chat reply. */
  datatype ChatReply =
    | RequestFailed
    | FailureStatus(status: nat)
    | SuccessUndecodable
    | SuccessBody(choices: seq<Choice>)

  /** The request count of one chunk: the number of keys, but at least three. */
  function MaxAttempts(n: nat): (m: nat)
    ensures m >= 3 && m >= n && (m == 3 || m == n)
  {
    if n > 3 then n else 3
  }

  /** The cursor after `get_current_key`: an out-of-range cursor is reset to 0. */
  function CurrentIndex(n: nat, cursor: nat): (i: nat)
    requires n > 0
    ensures i < n
    ensures cursor < n ==> i == cursor
  {
    if cursor >= n then 0 else cursor
  }

  /** The cursor after `rotate_key`: one step round the list, when there is
      more than one key. */
  function RotatedCursor(n: nat, cursor: nat): nat
  {
    if n > 1 then (cursor + 1) % n else cursor
  }

  /** Rotation keeps an in-range cursor in range, does nothing with at most
      one key, and otherwise moves to the next key, wrapping at the end. */
  lemma RotatedCursorRange(n: nat, cursor: nat)
    requires cursor < n
    ensures RotatedCursor(n, cursor) < n
    ensures n <= 1 ==> RotatedCursor(n, cursor) == cursor
    ensures n > 1 && cursor + 1 < n ==> RotatedCursor(n, cursor) == cursor + 1
    ensures n > 1 && cursor + 1 == n ==> RotatedCursor(n, cursor) == 0
  {
  }

  /** The statuses that make the loop change key. */
  predicate RotatesOn(status: nat)
  {
    status == 429 || status == 401 || status == 402
  }

  /** A raw moment shifted by the chunk offset; `fmt` renders seconds as "{:.2}" does. */
  function ConvertRaw(raw: RawMoment, offset: nat, fmt: real -> string): Moment
  {
    Moment(fmt(raw.start + offset as real), fmt(raw.end + offset as real), raw.category, raw.description, [])
  }

  /** The moments of a success body: those of the first choice's content,
      fence-stripped and parsed; none when there is no content or it does not parse. */
  function BodyMoments(choices: seq<Choice>, parse: string -> Option<seq<RawMoment>>, offset: nat, fmt: real -> string): seq<Moment>
  {
    if |choices| == 0 || choices[0].content.None? then []
    else
      var raws := parse(StripFences(choices[0].content.value));
      if raws.None? then [] else ConvertAllOf(raws.value, offset, fmt)
  }

  /** Every raw moment converted, in order. */
  function ConvertAllOf(raws: seq<RawMoment>, offset: nat, fmt: real -> string): seq<Moment>
  {
    seq(|raws|, i requires 0 <= i < |raws| => ConvertRaw(raws[i], offset, fmt))
  }

  /** How one chunk ends: the file could not be read, there are no keys,
      every request failed, or a success reply came back, as a chat reply or not. */
  datatype Ending =
    | ReadFailed(error: string)
    | NoKeys
    | Exhausted
    | Undecodable
    | Answered(choices: seq<Choice>)

  /** The error text of an ending other than an answer. */
  function EndingError(e: Ending): string
  {
    match e
    case ReadFailed(error) => error
    case NoKeys => NO_KEYS
    case Exhausted => EXHAUSTED
    case Undecodable => BODY_UNDECODABLE
    case Answered(_) => ""
  }

  /** What `process_chunk` returns for an ending. */
  function EndingResult(e: Ending, parse: string -> Option<seq<RawMoment>>, offset: nat, fmt: real -> string): Result<seq<Moment>>
  {
    if e.Answered? then Ok(BodyMoments(e.choices, parse, offset, fmt)) else Err(EndingError(e))
  }

  /** How a chunk ends, the cursor it leaves and the key index of each
      request it sent. */
  datatype ChatRun = ChatRun(ending: Ending, cursor: nat, used: seq<nat>)

  /** The request loop from request `i` on, with `n` keys. */
  function ChatFrom(n: nat, cursor: nat, i: nat, replies: nat -> ChatReply): ChatRun
    decreases MaxAttempts(n) - i
  {
    if i >= MaxAttempts(n) then ChatRun(Exhausted, cursor, [])
    else if n == 0 then ChatRun(NoKeys, cursor, [])
    else
      var k := CurrentIndex(n, cursor);
      match replies(i)
      case RequestFailed => PrependKey(k, ChatFrom(n, RotatedCursor(n, k), i + 1, replies))
      case FailureStatus(s) =>
        PrependKey(k, ChatFrom(n, if RotatesOn(s) then RotatedCursor(n, k) else k, i + 1, replies))
      case SuccessUndecodable => ChatRun(Undecodable, k, [k])
      case SuccessBody(choices) => ChatRun(Answered(choices), k, [k])
  }

  function PrependKey(k: nat, r: ChatRun): ChatRun
  {
    ChatRun(r.ending, r.cursor, [k] + r.used)
  }

  /** `process_chunk`: a failed read ends it at once; then the request loop. */
  function ChatRunOf(n: nat, cursor: nat, readError: Option<string>, replies: nat -> ChatReply): ChatRun
  {
    if readError.Some? then ChatRun(ReadFailed(readError.value), cursor, [])
    else ChatFrom(n, cursor, 0, replies)
  }

  /** At most max(n, 3) requests are sent, each with an in-range key, and
      the cursor is in range afterwards whenever a request was sent. */
  lemma {:induction false} ChatBounds(n: nat, cursor: nat, i: nat, replies: nat -> ChatReply)
    requires i <= MaxAttempts(n)
    ensures var r := ChatFrom(n, cursor, i, replies);
      && |r.used| <= MaxAttempts(n) - i
      && (forall j :: 0 <= j < |r.used| ==> r.used[j] < n)
      && (|r.used| > 0 || cursor < n ==> r.cursor < n)
    decreases MaxAttempts(n) - i
  {
    if i < MaxAttempts(n) && n > 0 {
      var k := CurrentIndex(n, cursor);
      RotatedCursorRange(n, k);
      match replies(i)
      case RequestFailed =>
        ChatBounds(n, RotatedCursor(n, k), i + 1, replies);
      case FailureStatus(s) =>
        ChatBounds(n, if RotatesOn(s) then RotatedCursor(n, k) else k, i + 1, replies);
      case SuccessUndecodable =>
      case SuccessBody(_) =>
    }
  }

  /** A reply that lets the loop go on to the next request. */
  predicate Retries(r: ChatReply)
  {
    r.RequestFailed? || r.FailureStatus?
  }

  /** With keys, the loop reports exhaustion exactly when the first max(n, 3)
      replies all fail; it then sent max(n, 3) requests. */
  lemma {:induction false} ChatExhausted(n: nat, cursor: nat, i: nat, replies: nat -> ChatReply)
    requires i <= MaxAttempts(n) && n > 0
    ensures var r := ChatFrom(n, cursor, i, replies);
      (forall j :: i <= j < MaxAttempts(n) ==> Retries(replies(j))) <==> r.ending == Exhausted
    ensures var r := ChatFrom(n, cursor, i, replies);
      r.ending == Exhausted ==> |r.used| == MaxAttempts(n) - i
    decreases MaxAttempts(n) - i
  {
    if i < MaxAttempts(n) {
      var k := CurrentIndex(n, cursor);
      match replies(i)
      case RequestFailed =>
        ChatExhausted(n, RotatedCursor(n, k), i + 1, replies);
      case FailureStatus(s) =>
        ChatExhausted(n, if RotatesOn(s) then RotatedCursor(n, k) else k, i + 1, replies);
      case SuccessUndecodable =>
      case SuccessBody(_) =>
    }
  }

  /** Without keys the loop sends nothing and reports the missing keys. */
  lemma NoKeysEnds(cursor: nat, i: nat, replies: nat -> ChatReply)
    requires i < MaxAttempts(0)
    ensures ChatFrom(0, cursor, i, replies) == ChatRun(NoKeys, cursor, [])
  {
  }

  /** A success status ends the loop with the key it used, whether or not the
      body is a chat reply. */
  lemma SuccessEnds(n: nat, cursor: nat, i: nat, replies: nat -> ChatReply)
    requires n > 0 && i < MaxAttempts(n) && (replies(i).SuccessBody? || replies(i).SuccessUndecodable?)
    ensures var k := CurrentIndex(n, cursor);
      ChatFrom(n, cursor, i, replies)
      == ChatRun(if replies(i).SuccessBody? then Answered(replies(i).choices) else Undecodable, k, [k])
  {
  }

  /** A non-success status changes key only for 429, 401 and 402; a failed
      request always changes key. */
  lemma FailureKeys(n: nat, cursor: nat, i: nat, replies: nat -> ChatReply)
    requires n > 0 && i < MaxAttempts(n) && Retries(replies(i))
    ensures var k := CurrentIndex(n, cursor);
      var next := if replies(i).FailureStatus? && !RotatesOn(replies(i).status) then k else RotatedCursor(n, k);
      ChatFrom(n, cursor, i, replies) == PrependKey(k, ChatFrom(n, next, i + 1, replies))
  {
  }

  lemma SeqShift(a: seq<nat>, k: nat, b: seq<nat>)
    ensures (a + [k]) + b == a + ([k] + b)
  {
  }

  /** An answer is never an error: a reply without content, or whose content
      does not parse, gives an empty list. */
  lemma AnsweredIsOk(choices: seq<Choice>, parse: string -> Option<seq<RawMoment>>, offset: nat, fmt: real -> string)
    ensures EndingResult(Answered(choices), parse, offset, fmt).Ok?
    ensures |choices| == 0 || choices[0].content.None? || parse(StripFences(choices[0].content.value)).None?
      ==> EndingResult(Answered(choices), parse, offset, fmt) == Ok([])
  {
  }

  /** A parsed reply's moments are its raw moments converted. */
  lemma BodyMomentsParsed(choices: seq<Choice>, parse: string -> Option<seq<RawMoment>>, offset: nat, fmt: real -> string)
    requires |choices| > 0 && choices[0].content.Some?
    requires parse(StripFences(choices[0].content.value)).Some?
    ensures BodyMoments(choices, parse, offset, fmt)
         == ConvertAllOf(parse(StripFences(choices[0].content.value)).value, offset, fmt)
  {
  }

  /** Conversion keeps one moment per raw moment, in order, with its category
      and description, the shifted times and no dialogue. */
  lemma ConvertAllKeeps(raws: seq<RawMoment>, offset: nat, fmt: real -> string)
    ensures var ms := ConvertAllOf(raws, offset, fmt);
      |ms| == |raws|
      && forall i :: 0 <= i < |raws| ==>
           ms[i].category == raws[i].category && ms[i].description == raws[i].description
           && ms[i].dialogue == [] && ms[i].startTime == fmt(raws[i].start + offset as real)
           && ms[i].endTime == fmt(raws[i].end + offset as real)
  {
  }

  /** The client: the key list and a cursor. */
  class OpenRouterClient {
    const keys: seq<string>
    var cursor: nat
    const model: string

    constructor(apiKeys: seq<(string, string)>, model: string)
      ensures |keys| == |apiKeys| && forall i :: 0 <= i < |apiKeys| ==> keys[i] == apiKeys[i].1
      ensures cursor == 0 && this.model == model
    {
      keys := seq(|apiKeys|, i requires 0 <= i < |apiKeys| => apiKeys[i].1);
      cursor := 0;
      this.model := model;
    }

    /** `get_current_key`: fails iff there are no keys; resets an
        out-of-range cursor to 0. */
    method GetCurrentKey() returns (r: Result<nat>)
      modifies this
      ensures |keys| == 0 <==> r.Err?
      ensures r.Err? ==> r.error == NO_KEYS && cursor == old(cursor)
      ensures r.Ok? ==> r.value == CurrentIndex(|keys|, old(cursor)) && cursor == r.value
    {
      if |keys| == 0 {
        return Err(NO_KEYS);
      }
      if cursor >= |keys| {
        cursor := 0;
        return Ok(0);
      }
      return Ok(cursor);
    }

    /** `rotate_key` */
    method RotateKey()
      modifies this
      ensures cursor == RotatedCursor(|keys|, old(cursor))
    {
      if |keys| > 1 {
        cursor := (cursor + 1) % |keys|;
      }
    }

    /** The loop that builds the moment list with pushes. */
    static method ConvertAll(raws: seq<RawMoment>, offset: nat, fmt: real -> string) returns (ms: seq<Moment>)
      ensures |ms| == |raws|
      ensures forall i :: 0 <= i < |raws| ==> ms[i] == ConvertRaw(raws[i], offset, fmt)
    {
      ms := [];
      for i := 0 to |raws|
        invariant |ms| == i
        invariant forall j :: 0 <= j < i ==> ms[j] == ConvertRaw(raws[j], offset, fmt)
      {
        ms := ms + [ConvertRaw(raws[i], offset, fmt)];
      }
    }

    /** The handling of a success body. */
    static method ReadBody(choices: seq<Choice>, parse: string -> Option<seq<RawMoment>>, offset: nat, fmt: real -> string)
      returns (ms: seq<Moment>)
      ensures ms == BodyMoments(choices, parse, offset, fmt)
    {
      if |choices| > 0 && choices[0].content.Some? {
        var raws := parse(StripFences(choices[0].content.value));
        if raws.Some? {
          ms := ConvertAll(raws.value, offset, fmt);
          BodyMomentsParsed(choices, parse, offset, fmt);
          return;
        }
      }
      return [];
    }

    /** The key change after a failed request: always for a request that
        could not be sent, and for the statuses 429, 401 and 402. */
    method RotateAfter(reply: ChatReply)
      requires Retries(reply)
      modifies this
      ensures cursor == if reply.FailureStatus? && !RotatesOn(reply.status) then old(cursor)
                        else RotatedCursor(|keys|, old(cursor))
    {
      match reply {
        case RequestFailed =>
          RotateKey();
        case FailureStatus(s) =>
          if RotatesOn(s) {
            RotateKey();
          }
      }
    }

    /** The result of a success reply. */
    static method Finish(reply: ChatReply, parse: string -> Option<seq<RawMoment>>, offset: nat, fmt: real -> string)
      returns (r: Result<seq<Moment>>)
      requires !Retries(reply)
      ensures r == EndingResult(if reply.SuccessBody? then Answered(reply.choices) else Undecodable, parse, offset, fmt)
    {
      if reply.SuccessUndecodable? {
        return Err(BODY_UNDECODABLE);
      }
      var ms := ReadBody(reply.choices, parse, offset, fmt);
      return Ok(ms);
    }

    /** `process_chunk`: read the file, then send at most max(n, 3) requests. */
    method ProcessChunk(readError: Option<string>, replies: nat -> ChatReply,
                        parse: string -> Option<seq<RawMoment>>, offset: nat, fmt: real -> string)
      returns (r: Result<seq<Moment>>, used: seq<nat>)
      modifies this
      ensures var run := ChatRunOf(|keys|, old(cursor), readError, replies);
        r == EndingResult(run.ending, parse, offset, fmt) && cursor == run.cursor && used == run.used
    {
      if readError.Some? {
        return Err(readError.value), [];
      }
      r, used := RequestLoop(replies, parse, offset, fmt);
    }

    /** The request loop of `process_chunk`. */
    method RequestLoop(replies: nat -> ChatReply, parse: string -> Option<seq<RawMoment>>, offset: nat, fmt: real -> string)
      returns (r: Result<seq<Moment>>, used: seq<nat>)
      modifies this
      ensures var run := ChatFrom(|keys|, old(cursor), 0, replies);
        r == EndingResult(run.ending, parse, offset, fmt) && cursor == run.cursor && used == run.used
    {
      used := [];
      var attempts := 0;
      var maxAttempts := if |keys| > 3 then |keys| else 3;
      while attempts < maxAttempts
        invariant 0 <= attempts <= maxAttempts == MaxAttempts(|keys|)
        invariant var rest := ChatFrom(|keys|, cursor, attempts, replies);
          ChatRun(rest.ending, rest.cursor, used + rest.used) == ChatFrom(|keys|, old(cursor), 0, replies)
        decreases maxAttempts - attempts
      {
        ghost var before := cursor;
        var key := GetCurrentKey();
        if key.Err? {
          NoKeysEnds(before, attempts, replies);
          return Err(key.error), used;
        }
        var k := key.value;
        var reply := replies(attempts);
        if !Retries(reply) {
          SuccessEnds(|keys|, before, attempts, replies);
          r := Finish(reply, parse, offset, fmt);
          return r, used + [k];
        }
        RotateAfter(reply);
        FailureKeys(|keys|, before, attempts, replies);
        SeqShift(used, k, ChatFrom(|keys|, cursor, attempts + 1, replies).used);
        used := used + [k];
        attempts := attempts + 1;
      }
      return Err(EXHAUSTED), used;
    }
  }
}
