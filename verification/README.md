# spotify-backup, modelled in Dafny

`spotify-backup.py` exports a Spotify user's playlists, liked songs and
albums, and top artists and tracks, to a JSON or tab-separated text file. This
project models its core and proves properties of the model:

- **Api** (`api.dfy`): `SpotifyAPI.get`. It resolves a path against
  `https://api.spotify.com/v1/` and appends the URL-encoded params after `?`
  or `&`. It sends the bearer token. Its retry loop stops at a decoded body
  or a 401, and otherwise gives up after `tries` attempts. Each failure picks
  its own backoff.
- **UrlEncoding** (`urlencoding.dfy`): `urllib.parse.urlencode` with
  `quote_plus`, as `get` and `authorize` use it.
- **Paging** (`paging.dfy`): `SpotifyAPI.list`. It requests the first page
  with the caller's params, follows every truthy `next` link as given, and
  concatenates the `items` of all pages.
- **Capture** (`capture.dfy`): `SpotifyAPI.authorize`. This covers the
  authorize URL, `_AuthorizationHandler.do_GET`, and the serving loop that
  ends when a token is captured.
- **Settings** (`settings.dfy`): the parts of `main` that run before any
  request. These are the output format and file name, the top-limit and
  token checks that end the program, the OAuth scopes, and how to log in.
- **Export** (`export.dfy`): `load_playlist_tracks`, `get_top_items` and
  the collection in `main`. Collection reads the profile, then liked songs
  and albums, then playlists with their tracks, then top items. It also
  covers the JSON document.
- **TextWriter** (`textwriter.dfy`): the tab-separated writer. One version
  follows the program as written; the other is a corrected version (see
  Findings).
- **Text** (`text.dfy`): the `str` operations the program uses.
- **Wrappers** (`wrappers.dfy`): the `Option` type.

The service is modelled as a scripted server. For a request (full URL plus
`Authorization` header) and a 0-based attempt number, it gives how that
attempt ends: a decoded body, an HTTP error code, a network error, undecodable
JSON, or another exception. `sys.exit` becomes an `Exit` result. An exception
that nothing catches becomes `Crashed`.

## Model

| member | source | states |
|---|---|---|
| `UrlEncoding.QuotePlus` | spotify-backup.py:60 | The output contains only always-safe characters, `+` and `%`. Text made only of always-safe characters comes out unchanged. |
| `UrlEncoding.QuotePlusRoundTrip` | spotify-backup.py:60 | Decoding the quoted text as `unquote_plus` does (`+` is a space, `%XX` is the byte it spells, any other character its own UTF-8 bytes) gives exactly the UTF-8 bytes of the original text. |
| `UrlEncoding.UrlEncode` | spotify-backup.py:59-60 | The query is empty exactly when there are no params, and otherwise starts with the first param's `key=value` pair. |
| `UrlEncoding.QueryRoundTrip` | spotify-backup.py:60 | Splitting an encoded query on `&` gives one piece per parameter, in insertion order. Each piece splits on `=` into exactly the encoded key and the encoded value. |
| `Api.AbsoluteSpec` | spotify-backup.py:57-58 | A resolved URL starts with the API base and ends with the given path. A URL that already starts with the base is kept unchanged; any other is prefixed with the base. |
| `Api.BuildUrlSpec` | spotify-backup.py:57-60 | With no params, the URL is the resolved path. With params, the resolved path is followed by `&` exactly when it already holds a `?`, and by `?` exactly when it does not; the encoded params follow. |
| `Api.NextUrlVerbatim` | spotify-backup.py:57-60 | A URL that already names an API resource and comes with no params is requested verbatim. This is how `next` links are requested. |
| `Api.QueryAfterPath` | spotify-backup.py:59-60 | When the path holds no `?`, the first `?` of the URL ends the path. The text after it reads back as one `key=value` pair per param, in order. |
| `Api.Backoff` | spotify-backup.py:70-94 | A success or a 401 never waits. A 429 always waits exactly `10*(a+1)` seconds, even after the last attempt. Any other HTTP error, and a network error, waits exactly `2*(a+1)` seconds when another attempt follows and not at all after the last one. Undecodable JSON and any other exception wait a flat 2 seconds when another attempt follows and not at all after the last one. |
| `Api.Get` | spotify-backup.py:55-69 | The request carries the built URL and the client's bearer header. At most `tries` attempts are made, and none when `tries` is not positive. |
| `Api.AttemptsSpec` | spotify-backup.py:63-98 | The loop stops at the first attempt that succeeds or gets a 401, and makes no attempt after it. It gives up (exit 1) exactly when no attempt in the budget stops it, and then it has used the whole budget. Its sleeps are the backoff schedule of the attempts it made. |
| `Api.GetSpec` | spotify-backup.py:63-98 | `get` returns a body exactly when some attempt within the budget decodes before any attempt stops the loop. The body returned is that attempt's body. An authentication exit comes from a 401 on the last attempt made. Exhaustion happens exactly when no attempt stops the loop. |
| `Api.UnauthorizedIsFinal` | spotify-backup.py:70-73 | A 401 at attempt `k` ends the program at once with exit 1, after exactly `k+1` attempts. |
| `Api.FirstSuccessIsReturned` | spotify-backup.py:64-69 | The first decoding attempt's body is returned, after exactly that many attempts. |
| `Api.WaitBound` | spotify-backup.py:74-92 | However the attempts end, one call sleeps at most `5*tries*(tries+1)` seconds in all. |
| `Api.AllRateLimited` | spotify-backup.py:74-76 | When every attempt is rate limited, the client sleeps 10, 20, …, `10*tries` seconds, the last sleep coming after the final attempt. It then gives up. |
| `Api.AllTransientErrors` | spotify-backup.py:77-84 | When every attempt from `a` on is a network error or an HTTP error other than 401 and 429, the client sleeps `2*(a+1)`, `2*(a+2)`, … between attempts and not after the last one. It then gives up. |
| `Api.AllUnreadable` | spotify-backup.py:85-92 | When every attempt from `a` on yields undecodable JSON or an unexpected exception, the client sleeps a flat 2 seconds between attempts and not after the last one. It then gives up. |
| `Api.FirstStopEnds` | spotify-backup.py:63-73 | When attempt `k` is the first to succeed or get a 401, the loop ends with that attempt's outcome after exactly `k+1` attempts. |
| `Api.RateLimitThenSuccess` | spotify-backup.py:74-76 | A 429 followed by a decoded body gives that body after two attempts and a single 10-second wait. |
| `Paging.Follow` | spotify-backup.py:107-113 | The walk only appends to the URLs it was given, with at most one request per `next` followed. Listed items extend the items collected so far. A page with no truthy `next` ends the walk at once with those items. |
| `Paging.List` | spotify-backup.py:102-114 | The first request is the built URL with the caller's params. If the first page has no truthy `next`, that is the only request and its items are the result. An exit on the first request ends the listing with that exit. A first page without `items` or `next` ends it with an exception, after that one request. |
| `Paging.FollowEnd` | spotify-backup.py:107-113 | A walk that ends in an exit or an exception ends on a request it made itself. The last URL it requested either exited with that same exit, or returned a page without `items` or `next`. A `sys.exit` inside a later `get` is never turned into a caught exception. |
| `Paging.ListEnd` | spotify-backup.py:102-114 | The same holds for `list` as a whole. An exit or exception comes from the last URL it requested, with that request's exit or unreadable page. |
| `Paging.FollowOne` | spotify-backup.py:111-113 | One turn of the loop. The `next` link is requested with no params. An exit there ends the walk with that exit. A page without `items` or `next` ends it with an exception. A readable page extends the items and the walk goes on from that page. |
| `Paging.FollowStops` | spotify-backup.py:107-113 | Conversely, take pages that lead on, each fetched from the previous page's `next`, until a `next` fetch exits or returns an unreadable page. The walk then ends in that exit (`Halted`), or in an exception (`Raised`). The pages read before do not change how it ends. |
| `Paging.ListStops` | spotify-backup.py:102-114 | For `list`, suppose the first request returns the first of such pages. If they lead on to a later `get` that calls `sys.exit`, the listing halts with that exit. If they lead on to a later page without `items` or `next`, the listing raises. |
| `Paging.ListFollowsChain` | spotify-backup.py:102-114 | For a chain of linked pages, `list` returns the in-order concatenation of every page's items. It makes one request per page: the first with the params, each later one with the previous page's `next` link. |
| `Paging.ListedMeansChain` | spotify-backup.py:102-114 | Conversely, whenever `list` returns items, a chain of linked pages exists whose concatenated items and request URLs they are. |
| `Paging.ListIgnoresTotals` | spotify-backup.py:107-113 | The `total` a page reports never changes what `list` returns or requests. |
| `Capture.AuthorizeQuery` | spotify-backup.py:119-124 | The query reads back as exactly four pairs, in order: `response_type=token`, then the encoded client id, the scope, and the `http://127.0.0.1:43019/redirect` redirect URI. |
| `Capture.ExtractToken` | spotify-backup.py:168-172 | A token is found exactly when the path contains `access_token=`. It is the text after the first occurrence, up to the next `&` or the end. |
| `Capture.TokenAtUnique` | spotify-backup.py:168-172 | At most one position and one text fit that description, so the captured token is determined by the path. |
| `Capture.HandleGet` | spotify-backup.py:152-177 | A path starting with `/redirect` gets the bridge page. Otherwise a `/token?` path gets the thank-you page and captures its token when it has `access_token=`, and gets a 400 when it does not. Any other path gets a 404. Each case holds exactly under its condition. |
| `Capture.RedirectYieldsToken` | spotify-backup.py:155-174 | The redirect URI's path gets the bridge page. The `/token?` request the bridge page makes from the fragment `access_token=<t>&…` captures exactly `t`, whatever follows. |
| `Capture.Step` | spotify-backup.py:132-135 | A listening server captures exactly on a thank-you reply, and captures that reply's token. A captured token never changes. |
| `Capture.Serve` | spotify-backup.py:131-135 | The loop answers requests in order until the first one that captures a token. It then returns a client holding exactly that token. If no request captures one, it is still waiting after answering all of them. |
| `Capture.Run` | spotify-backup.py:131-135 | A captured token is kept whatever replies follow. A listening machine is still listening exactly when no reply thanked. It is captured only with the token of a thank-you reply that no earlier thank-you reply precedes. |
| `Capture.RunFirstCapture` | spotify-backup.py:131-135 | The listening machine ends holding the token of the first capturing reply, whatever replies follow it. |
| `Capture.ServeAgreesWithRun` | spotify-backup.py:131-135 | The loop authorizes with token `t` exactly when the two-state machine, fed the replies to the same requests, ends `Captured(t)`. It keeps waiting exactly when the machine is still listening. |
| `Capture.Authorize` | spotify-backup.py:118-137 | The user is shown the authorize URL. The client returned holds the token the listening machine captures from the requests that arrive. |
| `Settings.DefaultFileName` | spotify-backup.py:243-247 | The generated name is `playlists-`, then exactly the timestamp, then `.` plus the format's extension, and nothing else. |
| `Settings.FormatOf` | spotify-backup.py:251-256 | A given file name selects JSON exactly when the lower-cased text after its last `.` is `json`; every other extension selects text. |
| `Settings.Output` | spotify-backup.py:243-256 | With no file or an empty one, the `--format` and a generated name are used. A given file is kept as the output name, and its extension decides the format, overriding `--format`. |
| `Settings.FormatFromExtension` | spotify-backup.py:251-256 | `stem.ext` selects JSON exactly when `ext` lower-cased is `json`, whatever dots the stem holds. |
| `Settings.DefaultNameKeepsFormat` | spotify-backup.py:243-256 | A generated file name, given back as the file, selects the format it was generated for. |
| `Settings.Scopes` | spotify-backup.py:269-273 | A scope is requested exactly when its section is named: the three read scopes, in order, when `dump` mentions playlists or liked, then `user-top-read` last when it mentions top. The list is exactly that long: three read scopes when they are needed, plus one when top is mentioned. |
| `Settings.ScopeStringRoundTrip` | spotify-backup.py:279-280 | The space-joined `scope` parameter splits back into the scope list. |
| `Settings.Configure` | spotify-backup.py:243-280 | The program stops with the top-limit error exactly when the limit is outside 1..50. It stops with the token error exactly when the limit is valid and a non-empty token is all whitespace or shorter than 50 characters. Otherwise it logs in with the given token when there is one, and through the browser with the scope string when there is not. |
| `Settings.ListedSectionsGetScopes` | spotify-backup.py:229-273 | Every section that a `--dump` value lists is granted the scopes that reading it needs. |
| `Export.LoadPlaylistTracks` | spotify-backup.py:188-196 | Loading never crashes. A playlist that already holds its tracks is unchanged. If the track pages list, the result is the playlist with its reference replaced by exactly the listed entries. If the listing raises, the playlist is left unchanged. It exits exactly when `get` exits, with that exit. |
| `Export.LoadFromChain` | spotify-backup.py:188-196 | A playlist whose track pages form a chain gets exactly the chain's entries, in order. The first request carries `limit=100`. |
| `Export.Sequence` | spotify-backup.py:326-328 | Stages run in order yield all values exactly when every stage finishes, with value `i` from stage `i`. Otherwise the run crashes only if some stage crashes. |
| `Export.FirstStop` | spotify-backup.py:326-328 | When the stages do not all finish, the first unfinished stage decides whether and how the run exits or crashes. |
| `Export.ResolveAll` | spotify-backup.py:320-328 | Loading tracks never crashes. It finishes exactly when every playlist's load finishes, and then holds each playlist's loaded form in place. |
| `Export.ExitCause` | spotify-backup.py:320-328 | An exit while loading tracks is the exit of the first playlist whose load did not finish; all earlier loads finished. |
| `Export.ResolveKeepsOrder` | spotify-backup.py:327-330 | Loading tracks keeps every playlist in its listed position under its name. |
| `Export.ResolveFromChains` | spotify-backup.py:327-330 | When every playlist's track pages form a chain, the loading finishes and each playlist gets exactly its own chain's entries. |
| `Export.GetTopItems` | spotify-backup.py:199-208 | The listed items are returned. An exception yields no items and never crashes. A `get` exit passes through uncaught. |
| `Export.TopFromChain` | spotify-backup.py:199-208 | For a chain, the top items are the chain's items. The one request that carries params is `…/me/top/<kind>?time_range=…&limit=…`. |
| `Export.LoadLiked` | spotify-backup.py:293-297 | The liked songs become one playlist named `Liked Songs`, holding exactly the listed entries, next to the liked albums. It finishes exactly when both listings do. An exception in either listing is not caught. It exits exactly when the songs listing exits, or when the songs listing finishes and the albums listing exits. That exit is the one that listing exited with. |
| `Export.LoadPlaylists` | spotify-backup.py:300-330 | The listed playlists then have their tracks loaded. An exception while listing them is not caught. |
| `Export.Then` | spotify-backup.py:333-337 | Two stages in sequence: the second matters only when the first finishes. The pair finishes exactly when both do; otherwise the first unfinished one decides the exit or crash. |
| `Export.LoadTop` | spotify-backup.py:333-337 | The top artists are fetched exactly when the top type is `artists` or `both`, the top tracks exactly when it is `tracks` or `both`. Each fetched list is what `get_top_items` returned. It finishes exactly when every requested fetch finishes. It exits exactly when the first requested fetch that does not finish exits (artists before tracks), with that exit. It never crashes. |
| `Export.TopNeverCrashes` | spotify-backup.py:199-208 | Loading top items never ends the program with an exception. |
| `Export.Collect` | spotify-backup.py:282-337 | An exit on the profile request ends everything, and a profile without `id` or `display_name` crashes. Otherwise the liked, playlists and top stages run in that order, each only when `dump` mentions it. Collection finishes exactly when all three finish. It exits or crashes exactly when the first stage that does not finish does, with that stage's exit. On success, the playlists are `Liked Songs` first and then the loaded playlists. The albums and top items are there only when their sections are mentioned. |
| `Export.Gather` | spotify-backup.py:287-337 | Three stages in program order yield the collected data exactly when all three finish. Otherwise the first that does not finish decides whether the collection exits (and with which exit) or crashes. |
| `Export.CollectOrder` | spotify-backup.py:287-330 | The playlists written are `Liked Songs`, when liked songs are dumped, followed by the user's playlists under their listed names in listed order. |
| `Export.OrderFromParts` | spotify-backup.py:297-330 | The names of a liked-songs playlist, when present, come before the names of the fetched playlists. |
| `Export.ToJson` | spotify-backup.py:348-357 | The document reads back as exactly the collected data, with an absent top key read as an empty list. Its keys include `top_artists` exactly when there are top artists, and `top_tracks` exactly when there are top tracks. |
| `Export.JsonKeys` | spotify-backup.py:349-356 | The keys are exactly `playlists`, `albums`, then `top_artists` when present, then `top_tracks` when present, in that order and with no other key. |
| `TextWriter.Row` | spotify-backup.py:367-373 | Every line ends with CRLF. |
| `TextWriter.RowReadsBack` | spotify-backup.py:367-373 | A row of clean fields is exactly one line. With its CRLF removed, it splits on tabs back into its fields. |
| `TextWriter.TrackLineReadsBack` | spotify-backup.py:364-373 | A playlist track line is one line. It reads back as name, artists, album name, uri and release date. |
| `TextWriter.EntryLinesReadBack` | spotify-backup.py:364-373 | A playlist's track lines are, in order, one row per entry whose track is not `null`, each row the tab-joined fields of that track. |
| `TextWriter.AlbumLinesReadBack` | spotify-backup.py:377-384 | The liked-album lines are, in order, one row per album: name, artists, `-`, uri and release date, tab-joined. |
| `TextWriter.ArtistLinesReadBack` | spotify-backup.py:389-394 | The top-artist lines are, in order, one row per artist: its 1-based rank, name, genres or `No genres`, `<n> followers` and uri, tab-joined. |
| `TextWriter.TopTrackLinesReadBack` | spotify-backup.py:399-405 | The top-track lines are, in order, one row per track: its 1-based rank, name, artists, album, uri and release date, tab-joined. |
| `TextWriter.ReadUnlines` | spotify-backup.py:361-405 | Lines without line feeds, each written with CRLF, split back into exactly those lines. |
| `TextWriter.EntryLinesCount` | spotify-backup.py:364-373 | A playlist has one line per entry whose track is not `null`; `null` tracks are skipped. |
| `TextWriter.AlbumLinesCount` | spotify-backup.py:377-384 | One line per liked album. |
| `TextWriter.ArtistLinesCount` | spotify-backup.py:389-394 | One line per top artist. |
| `TextWriter.TopTrackLinesCount` | spotify-backup.py:399-405 | One line per top track. |
| `TextWriter.WriteText` | spotify-backup.py:359-405 | The corrected text file is its lines, each followed by CRLF: the `Playlists: ` heading and a blank line, then each playlist's name, its track rows and a blank line, then the liked-album heading and rows, then each non-empty top section's blank line, title, blank line and numbered rows. When no copied text holds a tab or line break, reading the file back line by line gives exactly those lines. |
| `TextWriter.WriteTextAsWritten` | spotify-backup.py:359-405 | The program's text writer fails part-way exactly when some playlist's tracks never loaded. What it wrote by then starts with the `Playlists: ` heading and is a proper prefix of the heading and playlist blocks of the corrected file. Otherwise it writes the corrected file when there are liked albums, and the corrected file without top sections when there are none. |
| `TextWriter.BlocksAsWritten` | spotify-backup.py:362-374 | The program's playlist loop fails exactly when some playlist's tracks never loaded. What it wrote by then is a proper prefix of the corrected playlist blocks. |
| `TextWriter.FirstStubPrefix` | spotify-backup.py:362-366 | With the first playlist whose tracks never loaded at position `i`, the loop has written the blocks of the playlists before it and that playlist's name line when it fails. |
| `TextWriter.TruncatedText` | spotify-backup.py:361-366 | The program's text writer then has written exactly the `Playlists: ` heading, the blocks of the playlists before position `i`, and the name line at `i`. |
| `TextWriter.StubCrashesWriter` | spotify-backup.py:362-366 | One playlist whose tracks never loaded makes the program's text writer fail part-way. |
| `TextWriter.TopDroppedWithoutAlbums` | spotify-backup.py:375-405 | Without liked albums, the program's text file is the same whatever the top artists and tracks are. |
| `TextWriter.TopArtistsLostWithoutAlbums` | spotify-backup.py:386-394 | With top artists and no liked albums, the program's file is short of the corrected file by at least the top-artists heading lines and one line per artist. |
| `TextWriter.AsWrittenAgrees` | spotify-backup.py:361-405 | When every playlist's tracks loaded, and either liked albums exist or there are no top items, the program writes exactly the corrected file. |
| `TextWriter.TextLineCount` | spotify-backup.py:361-405 | The corrected text file has 2 heading lines, then per playlist its name, one line per available track and a blank line. Each non-empty section follows with its heading lines and one line per entry; the top sections are included whether or not there are liked albums. |
| `TextWriter.WriteFile` | spotify-backup.py:346-405 | The JSON format writes the JSON document and the text format the corrected text file, each built from the collected data. |
| `TextWriter.WriteFileAsWritten` | spotify-backup.py:346-405 | The file the program leaves, and whether writing it raised. For the JSON format, the JSON document, and it does not raise. For the text format, it raises exactly when some playlist's tracks never loaded, and the file then holds a proper prefix of the corrected file. Otherwise the file is the corrected file, stripped of its top sections when there are no liked albums. |
| `TextWriter.TruncatedFile` | spotify-backup.py:346-366 | With the first playlist whose tracks never loaded at position `i`, the text format raises and leaves a file holding exactly the `Playlists: ` heading, the blocks of the playlists before `i`, and the name line at `i`. |
| `TextWriter.FileAgrees` | spotify-backup.py:346-405 | When every playlist's tracks loaded, and liked albums exist or there are no top items, the program writes exactly the corrected file in either format, and does not raise. |
| `TextWriter.FormatsAgree` | spotify-backup.py:353-356 | The JSON document has a `top_artists` key exactly when the corrected text file has a top-artists section, and likewise for top tracks. |

## Left out

- Network, files and clock. The service is a scripted server, the current time is a `timestamp` parameter, and the output file is returned as a value rather than written. The file's text is what `f.write` receives. The file is opened in text mode with the default newline handling, so it matches that text only where `os.linesep` is `\n`; on Windows each `\n` is written as `\r\n`, and every CRLF line ending lands on disk as `\r\r\n`. `webbrowser.open` and the local HTTP server socket are not modelled, and neither is `server_close`.
- Sleeping and logging. The backoff durations are returned as data instead of slept. `log_message`, the `rich` console, the progress bar and the banner write nothing the output depends on.
- `Paging.ListIgnoresTotals`: the progress log in `list` (spotify-backup.py:108-110) is not modelled, and every page carries a `total`. When more than 15 seconds have passed, that log reads `response['total']`, so a page without `total` raises `KeyError` there. `load_playlist_tracks` and `get_top_items` would catch it; the liked and playlist listings would crash. Whether this happens depends on the clock, which the model does not have.
- JSON decoding and serialisation. Pages and profiles are the fields the program reads. A body missing `items` or `next` is `Unreadable`, and a profile missing `id` or `display_name` is `Incomplete`. `json.dump` formatting is not modelled; only the document's keys and values are.
- Concurrency. Playlist tracks load through a thread pool when `rich` is available. The model loads them one after the other, as the fallback branch does, and the first exit in playlist order ends the stage. With threads, the exit that `as_completed` reaches first ends it instead, and other loads may already have run.
- `UrlEncoding.UrlEncode`: its own contract states only emptiness and the first pair. The full pair-by-pair read-back is `UrlEncoding.QueryRoundTrip`. It is kept out of the function's contract because that contract would apply at every URL the model builds.
- `UrlEncoding.QuotePlus`: its own contract states the output alphabet. What it encodes is stated by `UrlEncoding.QuotePlusRoundTrip`, which decodes to bytes. Decoding those bytes back to characters as UTF-8 is not modelled.
- `TextWriter.WriteFile`: its text branch is the corrected writer, not the program's. What the program writes is `TextWriter.WriteFileAsWritten`, and `TextWriter.FileAgrees` states where the two agree. The two Findings below are where they differ.
- `Paging.List`: the source loop is unbounded. The model bounds it by `fuel`, the number of `next` links it may follow, and reports `OutOfFuel` (`Unfinished`) when it would go further. The chain lemmas require a fuel at least the chain's length.
- Command-line parsing. `Args` holds parsed values. The `choices` restrictions of argparse are not enforced, so the model also covers `--dump` values the parser would refuse.
- `Text.LowerAscii`: `str.lower` is modelled on ASCII letters only. No other character lowercases to a letter of `json` or `txt`, so the format choice is unaffected.
- `Settings.RangeHeading`: `str.title()` is written out for the three time ranges the option accepts, not modelled in general.
- `Capture.HandleGet`: the response bytes and headers are not modelled. A `/token?` request without `access_token` first gets the thank-you headers and body and then the 400 error page; the model records only the 400.
- `Export.TopFromChain`: requires `'?' !in kind`. Only `artists` and `tracks` are passed.
- Exceptions raised while serving a request (for example a broken connection) go through `handle_error`, which re-raises them; they are not modelled.
- The client id passed to `authorize` is a fixed string of the program and is not part of `Settings.Login`.

## Findings

| source | as written | input that shows it | evidently intended | confidence | as-written member | corrected member |
|---|---|---|---|---|---|---|
| spotify-backup.py:362-366 | `load_playlist_tracks` catches an exception and leaves `playlist['tracks']` as the `{href, total}` reference. The text writer then iterates that dict's keys and indexes the string `'href'` with `'track'`, which raises `TypeError` after the stub's name line: the file is left truncated and the program crashes. | A listed playlist whose first track page lacks `items` (an `Unreadable` page), with `--format txt`. | Write the playlist's name with no track lines, as for an empty playlist. | not executed | `TextWriter.TruncatedFile` | `TextWriter.TextLineCount` |
| spotify-backup.py:375-405 | The top-artists and top-tracks sections sit inside `if len(liked_albums) > 0`, so they are written only when liked albums exist. | `--dump top` with `--format txt` and a non-empty top-artists list: liked albums are never loaded, so the file has no top sections. | Write each non-empty top section regardless of liked albums, as the JSON writer does. | not executed | `TextWriter.TopArtistsLostWithoutAlbums` | `TextWriter.TextLineCount` |

The corrected writer is `TextWriter.WriteText`. `TextWriter.WriteFile` uses it. `TextWriter.AsWrittenAgrees` proves that it agrees with the program's writer wherever neither finding applies.
