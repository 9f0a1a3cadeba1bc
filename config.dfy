/** settings.json: the API-key list typed at first start-up and the checks
    made when the file is loaded. */
module Config {
  import opened Wrappers
  import opened Text

  /** The stored settings. */
  datatype AppConfig = AppConfig(
    googleApiKeys: seq<string>,
    defaultOutputDir: string,
    extractShortsWhenFinished: bool,
    useCookies: bool,
    cookiesPath: string)

  const FORMAT_CHANGED := "Configuration file format has changed. Please delete settings.json and restart to re-configure."
  const NO_STORED_KEYS := "No API keys found in configuration. Please delete settings.json and restart."
  const KEY_REQUIRED := "At least one API key is required."
  const DEFAULT_COOKIES := "./cookies.json"

  /** Each piece trimmed. */
  function TrimAll(pieces: seq<string>): (r: seq<string>)
    ensures |r| == |pieces| && forall i :: 0 <= i < |pieces| ==> r[i] == Trim(pieces[i])
  {
    seq(|pieces|, i requires 0 <= i < |pieces| => Trim(pieces[i]))
  }

  /** The pieces that are not empty, in their order. */
  function NonEmpty(pieces: seq<string>): seq<string>
  {
    if pieces == [] then []
    else (if pieces[0] == [] then [] else [pieces[0]]) + NonEmpty(pieces[1..])
  }

  /** The key list typed by the user: split on ',', each piece trimmed,
      empty pieces dropped. */
  function ParseKeys(input: string): seq<string>
  {
    NonEmpty(TrimAll(Split(input, ',')))
  }

  /** A well-formed key: not empty, trimmed and without ','. */
  predicate IsKey(k: string)
  {
    k != [] && IsTrimmed(k) && ',' !in k
  }

  /** Dropping empty pieces commutes with concatenation, so the order of the
      pieces is kept. */
  lemma {:induction false} NonEmptyConcat(a: seq<string>, b: seq<string>)
    ensures NonEmpty(a + b) == NonEmpty(a) + NonEmpty(b)
  {
    if a == [] {
      assert a + b == b;
    } else {
      assert (a + b)[0] == a[0] && (a + b)[1..] == a[1..] + b;
      NonEmptyConcat(a[1..], b);
    }
  }

  /** Every piece that is kept is in the input and is not empty, and every
      non-empty piece of the input is kept. */
  lemma {:induction false} NonEmptyMembers(pieces: seq<string>)
    ensures forall k :: k in NonEmpty(pieces) <==> k in pieces && k != []
  {
    if pieces != [] {
      NonEmptyMembers(pieces[1..]);
      assert pieces == [pieces[0]] + pieces[1..];
    }
  }

  /** Nothing is kept exactly when every piece is empty. */
  lemma NoKeysIffBlank(input: string)
    ensures ParseKeys(input) == [] <==> forall i :: 0 <= i < |Split(input, ',')| ==> Trim(Split(input, ',')[i]) == []
  {
    var t := TrimAll(Split(input, ','));
    NonEmptyMembers(t);
    if ParseKeys(input) != [] {
      assert ParseKeys(input)[0] in ParseKeys(input);
    }
    if exists i :: 0 <= i < |t| && t[i] != [] {
      var i :| 0 <= i < |t| && t[i] != [];
      assert t[i] in t;
    }
  }

  /** Trimming keeps a contiguous part of the text. */
  lemma TrimIsSlice(s: string)
    ensures forall c :: c in Trim(s) ==> c in s
  {
    TrimShape(s);
  }

  /** Every parsed key is a well-formed key. */
  lemma ParsedAreKeys(input: string)
    ensures forall k :: k in ParseKeys(input) ==> IsKey(k)
  {
    var pieces := Split(input, ',');
    var t := TrimAll(pieces);
    SplitNoSep(input, ',');
    NonEmptyMembers(t);
    forall k | k in ParseKeys(input)
      ensures IsKey(k)
    {
      var i :| 0 <= i < |t| && t[i] == k;
      TrimIsTrimmed(pieces[i]);
      TrimIsSlice(pieces[i]);
    }
  }

  /** Non-empty pieces are all kept. */
  lemma {:induction false} NonEmptyKeepsAll(pieces: seq<string>)
    requires forall i :: 0 <= i < |pieces| ==> pieces[i] != []
    ensures NonEmpty(pieces) == pieces
  {
    if pieces != [] {
      assert forall i :: 0 <= i < |pieces[1..]| ==> pieces[1..][i] == pieces[i + 1];
      NonEmptyKeepsAll(pieces[1..]);
      assert [pieces[0]] + pieces[1..] == pieces;
    }
  }

  /** Typing the keys joined by ',' gives the same keys back. */
  lemma KeysRoundTrip(keys: seq<string>)
    requires |keys| >= 1
    requires forall i :: 0 <= i < |keys| ==> IsKey(keys[i])
    ensures ParseKeys(Join(keys, ',')) == keys
  {
    SplitJoin(keys, ',');
    forall i | 0 <= i < |keys|
      ensures Trim(keys[i]) == keys[i]
    {
      TrimOfTrimmed(keys[i]);
    }
    assert TrimAll(keys) == keys;
    NonEmptyKeepsAll(keys);
  }

  /** The configuration written at first start-up: the typed keys, the
      chosen output directory, extraction and cookies off, and the default
      cookies path; no key at all is an error. */
  function NewConfig(keysInput: string, outputDir: string): (r: Result<AppConfig>)
    ensures r.Err? <==> ParseKeys(keysInput) == []
    ensures r.Err? ==> r.error == KEY_REQUIRED
    ensures r.Ok? ==> r.value.googleApiKeys == ParseKeys(keysInput) && r.value.defaultOutputDir == outputDir
    ensures r.Ok? ==> !r.value.extractShortsWhenFinished && !r.value.useCookies && r.value.cookiesPath == DEFAULT_COOKIES
  {
    var keys := ParseKeys(keysInput);
    if keys == [] then Err(KEY_REQUIRED)
    else Ok(AppConfig(keys, outputDir, false, false, DEFAULT_COOKIES))
  }

  /** settings.json as found at start-up. */
  datatype ConfigFile = Missing | Unreadable(error: string) | Found(content: string)

  /** A stored configuration is accepted only when it parses and names at least one key. */
  function LoadStored(content: string, parse: string -> Option<AppConfig>): (r: Result<AppConfig>)
    ensures r.Ok? <==> parse(content).Some? && parse(content).value.googleApiKeys != []
    ensures r.Ok? ==> r.value == parse(content).value
    ensures parse(content).None? ==> r == Err(FORMAT_CHANGED)
    ensures parse(content).Some? && parse(content).value.googleApiKeys == [] ==> r == Err(NO_STORED_KEYS)
  {
    var parsed := parse(content);
    if parsed.None? then Err(FORMAT_CHANGED)
    else if parsed.value.googleApiKeys == [] then Err(NO_STORED_KEYS)
    else Ok(parsed.value)
  }

  /** `load_or_create`: load the file when it exists, otherwise build the
      configuration from the typed answers. */
  function LoadOrCreate(file: ConfigFile, parse: string -> Option<AppConfig>,
                        keysInput: string, outputDir: string): (r: Result<AppConfig>)
    ensures file.Missing? ==> r == NewConfig(keysInput, outputDir)
    ensures file.Unreadable? ==> r == Err(file.error)
    ensures file.Found? ==> r == LoadStored(file.content, parse)
  {
    match file
    case Missing => NewConfig(keysInput, outputDir)
    case Unreadable(e) => Err(e)
    case Found(content) => LoadStored(content, parse)
  }

  /** A configuration the program goes on with always has at least one key,
      and every typed key is well formed. */
  lemma ConfigHasKeys(file: ConfigFile, parse: string -> Option<AppConfig>, keysInput: string, outputDir: string)
    ensures var r := LoadOrCreate(file, parse, keysInput, outputDir);
      r.Ok? ==> |r.value.googleApiKeys| >= 1
    ensures var r := LoadOrCreate(file, parse, keysInput, outputDir);
      r.Ok? && file.Missing? ==> forall k :: k in r.value.googleApiKeys ==> IsKey(k)
  {
    ParsedAreKeys(keysInput);
  }
}
