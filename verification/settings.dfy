/**
 The settings `main` derives from its command line before any request: the
 output format and file name, the two validity checks that end the program,
 the OAuth scopes to ask for, and how to log in.

 Parsing the command line is not modelled: `Args` holds the parsed values,
 `dump` being a comma-separated list of the sections `playlists`, `liked`
 and `top`. The clock is a parameter: `timestamp` is the `%Y%m%d-%H%M%S`
 text of the current time.
 */
module Settings {
  import opened Wrappers
  import opened Text

  datatype Format = Json | Txt

  datatype TopType = Artists | Tracks | Both

  datatype TimeRange = ShortTerm | MediumTerm | LongTerm

  /** The parameter value of a time range. */
  function RangeName(t: TimeRange): string {
    match t
    case ShortTerm => "short_term"
    case MediumTerm => "medium_term"
    case LongTerm => "long_term"
  }

  /** `time_range.replace("_", " ").title()` for the three values the option accepts. */
  function RangeHeading(t: TimeRange): string {
    match t
    case ShortTerm => "Short Term"
    case MediumTerm => "Medium Term"
    case LongTerm => "Long Term"
  }

  /** Parsed command-line values; `None` is an option that was not given. */
  datatype Args = Args(
    token: Option<string>,
    dump: string,
    topType: TopType,
    timeRange: TimeRange,
    topLimit: int,
    format: Format,
    file: Option<string>)

  function Extension(f: Format): string {
    match f
    case Json => "json"
    case Txt => "txt"
  }

  /** The name used when no file is given: `playlists-<timestamp>.<extension>`. */
  function DefaultFileName(f: Format, timestamp: string): (r: string)
    ensures StartsWith(r, "playlists-")
    ensures EndsWith(r, "." + Extension(f))
    ensures |r| == |"playlists-"| + |timestamp| + |"." + Extension(f)|
    ensures r[|"playlists-"|..|"playlists-"| + |timestamp|] == timestamp
  {
    var r := "playlists-" + timestamp + "." + Extension(f);
    assert r[..10] == "playlists-";
    assert r[10..10 + |timestamp|] == timestamp;
    assert r[|r| - |"." + Extension(f)|..] == "." + Extension(f);
    r
  }

  /** The format a given file name selects: its lower-cased text after the last `.`, when that is `json`. */
  function FormatOf(file: string): (r: Format)
    ensures r == Json <==> LowerAscii(LastPiece(file, '.')) == "json"
  {
    var ext := LowerAscii(LastPiece(file, '.'));
    if ext == "json" then Json
    else if ext == "txt" then Txt
    else Txt
  }

  /** The output format and file, before validation. */
  function Output(args: Args, timestamp: string): (r: (Format, string))
    ensures args.file.None? || args.file == Some("") ==>
      r.0 == args.format && r.1 == DefaultFileName(args.format, timestamp)
    ensures args.file.Some? && args.file.value != "" ==> r.1 == args.file.value
    ensures args.file.Some? && args.file.value != "" ==> r.0 == FormatOf(args.file.value)
  {
    match args.file
    case Some(f) =>
      if f == "" then (args.format, DefaultFileName(args.format, timestamp))
      else (FormatOf(f), f)
    case None => (args.format, DefaultFileName(args.format, timestamp))
  }

  /** The extension after the last `.` is what `FormatOf` reads. */
  lemma FormatFromExtension(stem: string, ext: string)
    requires '.' !in ext
    ensures FormatOf(stem + "." + ext) == Json <==> LowerAscii(ext) == "json"
  {
    LastPieceAfter(stem, '.', ext);
  }

  /** A default file name selects, when given back as the file, the format it was made for. */
  lemma DefaultNameKeepsFormat(f: Format, timestamp: string)
    ensures FormatOf(DefaultFileName(f, timestamp)) == f
  {
    var ext := Extension(f);
    assert '.' !in ext;
    LastPieceAfter("playlists-" + timestamp, '.', ext);
    assert DefaultFileName(f, timestamp) == "playlists-" + timestamp + "." + ext;
    assert LowerAscii(ext) == ext;
  }

  /** The last piece of `stem + [sep] + ext` is `ext` when `ext` holds no `sep`. */
  lemma LastPieceAfter(stem: string, sep: char, ext: string)
    requires sep !in ext
    ensures LastPiece(stem + [sep] + ext, sep) == ext
  {
    var s := stem + [sep] + ext;
    var r := LastPiece(s, sep);
    var k := |s| - |r|;
    SuffixBound(s, k, |stem|, sep);
    assert s[|stem| + 1..] == ext;
    SuffixBound(s, |stem| + 1, k - 1, sep);
    assert r == s[|stem| + 1..];
  }

  /** A suffix `s[k..]` that starts at or before a `c` of `s` holds that `c`. */
  lemma SuffixBound(s: string, k: nat, j: nat, c: char)
    requires k <= |s| && j < |s| && s[j] == c
    ensures k <= j ==> c in s[k..]
  {
    if k <= j {
      assert s[k..][j - k] == c;
    }
  }

  /** Why the program stops before doing anything. */
  datatype Invalid = BadTopLimit | BadToken

  /** How the program logs in: with the given token, or through the browser asking for `scope`. */
  datatype Login = WithToken(token: string) | ThroughBrowser(scope: string)

  datatype Settings = Settings(format: Format, file: string, login: Login, scopes: seq<string>)

  datatype Configured = Proceed(settings: Settings) | Stop(reason: Invalid)

  /** `--top-limit` must lie in 1..50. */
  predicate TopLimitValid(n: int) {
    1 <= n <= 50
  }

  /** A given, non-empty token is refused when it is all whitespace or shorter than 50 characters. */
  predicate TokenRefused(token: Option<string>) {
    token.Some? && token.value != "" && (Strip(token.value) == "" || |token.value| < 50)
  }

  const ReadScopes: seq<string> := ["playlist-read-private", "playlist-read-collaborative", "user-library-read"]

  const TopScope := "user-top-read"

  /** `dump` names playlists or liked songs, as a substring test. */
  predicate NeedsLibrary(dump: string) {
    Contains(dump, "playlists") || Contains(dump, "liked")
  }

  /** The scopes asked for: the three read scopes when the library is dumped, then the top scope when top items are. */
  function Scopes(dump: string): (r: seq<string>)
    ensures forall s :: s in r <==> (NeedsLibrary(dump) && s in ReadScopes) || (Contains(dump, "top") && s == TopScope)
    ensures NeedsLibrary(dump) ==> |r| >= 3 && r[..3] == ReadScopes
    ensures Contains(dump, "top") ==> |r| >= 1 && r[|r| - 1] == TopScope
    ensures |r| == (if NeedsLibrary(dump) then |ReadScopes| else 0) + (if Contains(dump, "top") then 1 else 0)
  {
    (if NeedsLibrary(dump) then ReadScopes else []) + (if Contains(dump, "top") then [TopScope] else [])
  }

  /** The `scope` parameter of the authorize URL. */
  function ScopeString(dump: string): string {
    Join(Scopes(dump), " ")
  }

  /** The space-joined scope string reads back as the scope list. */
  lemma ScopeStringRoundTrip(dump: string)
    requires |Scopes(dump)| >= 1
    ensures Split(ScopeString(dump), ' ') == Scopes(dump)
  {
    var r := Scopes(dump);
    forall i | 0 <= i < |r| ensures ' ' !in r[i] {
      NoSpaceInScope(r[i]);
    }
    SplitJoin(r, ' ');
  }

  /** No scope name holds a space. */
  lemma NoSpaceInScope(s: string)
    requires s in ReadScopes || s == TopScope
    ensures ' ' !in s
  {
    if s != TopScope {
      assert s == ReadScopes[0] || s == ReadScopes[1] || s == ReadScopes[2];
    }
  }

  /** `main` up to logging in: output settings, then the top-limit check, then the token check. */
  function Configure(args: Args, timestamp: string): (r: Configured)
    ensures r == Stop(BadTopLimit) <==> !TopLimitValid(args.topLimit)
    ensures r == Stop(BadToken) <==> TopLimitValid(args.topLimit) && TokenRefused(args.token)
    ensures r.Proceed? ==> r.settings.scopes == Scopes(args.dump)
    ensures r.Proceed? ==> (r.settings.login.WithToken? <==> args.token.Some? && args.token.value != "")
    ensures r.Proceed? && r.settings.login.WithToken? ==>
      r.settings.login.token == args.token.value && |args.token.value| >= 50 && Strip(args.token.value) != ""
    ensures r.Proceed? && r.settings.login.ThroughBrowser? ==> r.settings.login.scope == ScopeString(args.dump)
    ensures r.Proceed? ==> (r.settings.format, r.settings.file) == Output(args, timestamp)
  {
    var out := Output(args, timestamp);
    if !TopLimitValid(args.topLimit) then Stop(BadTopLimit)
    else if TokenRefused(args.token) then Stop(BadToken)
    else
      var login := if args.token.Some? && args.token.value != "" then WithToken(args.token.value)
                   else ThroughBrowser(ScopeString(args.dump));
      Proceed(Settings(out.0, out.1, login, Scopes(args.dump)))
  }

  /** The sections a `--dump` value lists, by splitting it on commas. */
  function Sections(dump: string): seq<string> {
    Split(dump, ',')
  }

  /**
   Every section a `--dump` value lists gets the scopes it needs:
   `playlist-read-private` and `playlist-read-collaborative` for playlists,
   `user-library-read` for liked songs and albums, `user-top-read` for top items.
   */
  lemma ListedSectionsGetScopes(dump: string)
    ensures "playlists" in Sections(dump) ==>
      "playlist-read-private" in Scopes(dump) && "playlist-read-collaborative" in Scopes(dump)
    ensures "liked" in Sections(dump) ==> "user-library-read" in Scopes(dump)
    ensures "top" in Sections(dump) ==> TopScope in Scopes(dump)
  {
    if "playlists" in Sections(dump) {
      SplitPieceOccurs(dump, ',', "playlists");
    }
    if "liked" in Sections(dump) {
      SplitPieceOccurs(dump, ',', "liked");
    }
    if "top" in Sections(dump) {
      SplitPieceOccurs(dump, ',', "top");
    }
  }
}
