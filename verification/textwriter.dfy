/**
 The tab-separated output file: a `Playlists:` section with each playlist's
 name followed by one line per available track, then the liked albums, the
 top artists and the top tracks. Every line ends with CRLF; fields are
 separated by tabs.

 Two definitions are given. `WriteTextAsWritten` follows the program line by
 line, including a playlist whose tracks never loaded (the writer iterates
 the keys of its `{href, total}` reference and fails on the first, leaving
 the file holding what it wrote until then) and the top sections that sit
 inside the liked-albums branch. `WriteText` writes
 such a playlist with no track lines and writes the top sections on their
 own; it is the writer the model uses.
 */
module TextWriter {
  import opened Wrappers
  import opened Text
  import opened Settings
  import opened Export

  const CRLF := "\r\n"

  /** One output line: the fields joined by tabs, then CRLF. */
  function Row(fields: seq<string>): (r: string)
    ensures |r| >= 2 && r[|r| - 2..] == CRLF
  {
    Join(fields, "\t") + CRLF
  }

  /** Artist names joined with `, `. */
  function ArtistNames(artists: seq<Artist>): (r: string) {
    Join(NameList(artists), ", ")
  }

  function NameList(artists: seq<Artist>): (r: seq<string>)
    ensures |r| == |artists|
    ensures forall i :: 0 <= i < |artists| ==> r[i] == artists[i].name
  {
    if |artists| == 0 then [] else [artists[0].name] + NameList(artists[1..])
  }

  /** The fields of a playlist track line: name, artists, album, uri, release date. */
  function TrackFields(t: Track): seq<string> {
    [t.name, ArtistNames(t.artists), t.album.name, t.uri, t.album.releaseDate]
  }

  /** The fields of a liked album line: name, artists, `-`, uri, release date. */
  function AlbumFields(a: SavedAlbum): seq<string> {
    [a.album.name, ArtistNames(a.album.artists), "-", a.album.uri, a.album.releaseDate]
  }

  /** The genres of a top artist, or `No genres` when it has none. */
  function Genres(a: TopArtist): string {
    if |a.genres| > 0 then Join(a.genres, ", ") else "No genres"
  }

  /** The fields of a top artist line, numbered from 1: rank, name, genres, followers, uri. */
  function ArtistFields(rank: nat, a: TopArtist): seq<string> {
    [NatToString(rank), a.name, Genres(a), IntToString(a.followers) + " followers", a.uri]
  }

  /** The fields of a top track line, numbered from 1: rank, name, artists, album, uri, release date. */
  function TopTrackFields(rank: nat, t: Track): seq<string> {
    [NatToString(rank), t.name, ArtistNames(t.artists), t.album.name, t.uri, t.album.releaseDate]
  }

  /** The track lines of a playlist's entries; an entry whose track is `null` is skipped. */
  function EntryLines(items: seq<PlaylistItem>): string {
    if |items| == 0 then ""
    else (if items[0].track.Some? then Row(TrackFields(items[0].track.value)) else "") + EntryLines(items[1..])
  }

  /** Number of entries with a track. */
  function Present(items: seq<PlaylistItem>): nat {
    if |items| == 0 then 0 else (if items[0].track.Some? then 1 else 0) + Present(items[1..])
  }

  function AlbumLines(albums: seq<SavedAlbum>): string {
    if |albums| == 0 then "" else Row(AlbumFields(albums[0])) + AlbumLines(albums[1..])
  }

  function ArtistLines(rank: nat, artists: seq<TopArtist>): string
    decreases |artists|
  {
    if |artists| == 0 then "" else Row(ArtistFields(rank, artists[0])) + ArtistLines(rank + 1, artists[1..])
  }

  function TopTrackLines(rank: nat, tracks: seq<Track>): string
    decreases |tracks|
  {
    if |tracks| == 0 then "" else Row(TopTrackFields(rank, tracks[0])) + TopTrackLines(rank + 1, tracks[1..])
  }

  const PlaylistsHeading := "Playlists: " + CRLF + CRLF

  function AlbumsSection(albums: seq<SavedAlbum>): string {
    if |albums| > 0 then "Liked Albums: " + CRLF + CRLF + AlbumLines(albums) else ""
  }

  /** The title of a top section, such as `Top Artists (Short Term): `. */
  function TopTitle(what: string, range: TimeRange): string {
    what + " (" + RangeHeading(range) + "): "
  }

  /** A top section's heading: a blank line, its title, a blank line. */
  function SubHeading(title: string): string {
    CRLF + title + CRLF + CRLF
  }

  function TopArtistsSection(range: TimeRange, artists: seq<TopArtist>): string {
    if |artists| > 0 then SubHeading(TopTitle("Top Artists", range)) + ArtistLines(1, artists) else ""
  }

  function TopTracksSection(range: TimeRange, tracks: seq<Track>): string {
    if |tracks| > 0 then SubHeading(TopTitle("Top Tracks", range)) + TopTrackLines(1, tracks) else ""
  }

  /** A playlist as written: its name, its track lines, a blank line. */
  function Block(name: string, items: seq<PlaylistItem>): string {
    name + CRLF + EntryLines(items) + CRLF
  }

  /**
   What the program's text writer has written when it stops: the whole text,
   or the text written before it raised. The `with` block closes the file
   either way, so this is what the file holds.
   */
  datatype Written = Complete(text: string) | Failed(prefix: string)

  /**
   The playlist blocks as the program writes them. On a playlist whose tracks
   never loaded, the name line is written and then the writer fails; what it
   wrote up to then is a proper prefix of the corrected blocks.
   */
  function BlocksAsWritten(ps: seq<Playlist>): (r: Written)
    ensures r.Failed? <==> exists i :: 0 <= i < |ps| && ps[i].tracks.Stub?
    ensures r.Failed? ==> StartsWith(Blocks(ps), r.prefix) && |r.prefix| < |Blocks(ps)|
  {
    if |ps| == 0 then Complete("")
    else if ps[0].tracks.Stub? then
      var b := Blocks(ps);
      assert b == ps[0].name + CRLF + CRLF + Blocks(ps[1..]);
      assert b[..|ps[0].name + CRLF|] == ps[0].name + CRLF;
      Failed(ps[0].name + CRLF)
    else
      match BlocksAsWritten(ps[1..])
      case Failed(rest) =>
        PrefixUnder(Block(ps[0].name, ps[0].tracks.items), Blocks(ps[1..]), "", rest);
        assert Blocks(ps) + "" == Blocks(ps);
        Failed(Block(ps[0].name, ps[0].tracks.items) + rest)
      case Complete(rest) => Complete(Block(ps[0].name, ps[0].tracks.items) + rest)
  }

  /** A prefix of the middle part, after the same head, is a prefix of the whole. */
  lemma PrefixUnder(h: string, b: string, t: string, p: string)
    requires StartsWith(b, p) && |p| < |b|
    ensures StartsWith(h + b + t, h + p) && |h + p| < |h + b + t|
  {
    assert (h + b + t)[..|h + p|] == h + b[..|p|];
  }

  /**
   The text file as the program writes it. It fails with a `TypeError` on a
   playlist whose tracks never loaded, leaving a proper prefix of the
   corrected file; otherwise it is the corrected file, without the top
   sections when there are no liked albums.
   */
  function WriteTextAsWritten(c: Collected, range: TimeRange): (r: Written)
    ensures r.Failed? <==> exists i :: 0 <= i < |c.playlists| && c.playlists[i].tracks.Stub?
    ensures r.Complete? && |c.likedAlbums| > 0 ==> r.text == WriteText(c, range)
    ensures r.Complete? && |c.likedAlbums| == 0 ==> r.text == WriteText(c.(topArtists := [], topTracks := []), range)
    ensures r.Failed? ==>
      StartsWith(r.prefix, PlaylistsHeading)
      && StartsWith(PlaylistsHeading + Blocks(c.playlists), r.prefix)
      && |r.prefix| < |PlaylistsHeading + Blocks(c.playlists)|
  {
    match BlocksAsWritten(c.playlists)
    case Failed(blocks) =>
      PrefixUnder(PlaylistsHeading, Blocks(c.playlists), "", blocks);
      PrefixOfAppend(PlaylistsHeading, blocks);
      assert PlaylistsHeading + Blocks(c.playlists) + "" == PlaylistsHeading + Blocks(c.playlists);
      Failed(PlaylistsHeading + blocks)
    case Complete(blocks) =>
      BlocksAgree(c.playlists);
      var a := PlaylistsHeading + blocks;
      var s1 := AlbumsSection(c.likedAlbums);
      var s2 := TopArtistsSection(range, c.topArtists);
      var s3 := TopTracksSection(range, c.topTracks);
      Regroup3(a, s1, s2, s3);
      Complete(a + (if |c.likedAlbums| > 0 then s1 + s2 + s3 else ""))
  }

  /** The playlist blocks; a playlist whose tracks never loaded has no track lines. */
  function Blocks(ps: seq<Playlist>): string {
    if |ps| == 0 then ""
    else Block(ps[0].name, if ps[0].tracks.Resolved? then ps[0].tracks.items else []) + Blocks(ps[1..])
  }

  /**
   The text file: the playlists, then each of the other sections that has
   entries. It is the lines of `TextLines`, each ended by CRLF, and when no
   field holds a tab or a line break it reads back as exactly those lines.
   */
  function WriteText(c: Collected, range: TimeRange): (r: string)
    ensures r == Unlines(TextLines(c, range))
    ensures CollectedClean(c) ==> ReadLines(r) == TextLines(c, range)
  {
    TextIsLines(c, range);
    var r := PlaylistsHeading + Blocks(c.playlists)
      + AlbumsSection(c.likedAlbums) + TopArtistsSection(range, c.topArtists) + TopTracksSection(range, c.topTracks);
    if CollectedClean(c) then
      TextLinesNoBreaks(c, range);
      ReadUnlines(TextLines(c, range));
      r
    else r
  }

  /** The file `main` writes, in the chosen format. */
  datatype File = JsonFile(document: JsonDocument) | TextFile(text: string)

  function WriteFile(c: Collected, format: Format, range: TimeRange): (f: File)
    ensures format == Json <==> f.JsonFile?
    ensures f.JsonFile? ==> f.document == ToJson(c)
    ensures f.TextFile? ==> f.text == WriteText(c, range)
  {
    if format == Json then JsonFile(ToJson(c)) else TextFile(WriteText(c, range))
  }

  /**
   The file the program leaves, and whether writing it raised. The text
   writer fails on a playlist whose tracks never loaded; the file, already
   opened for writing, then holds what was written before the error.
   */
  function WriteFileAsWritten(c: Collected, format: Format, range: TimeRange): (r: (File, bool))
    ensures format == Json ==> r == (JsonFile(ToJson(c)), false)
    ensures format == Txt ==> r.0.TextFile?
    ensures format == Txt ==> (r.1 <==> exists i :: 0 <= i < |c.playlists| && c.playlists[i].tracks.Stub?)
    ensures format == Txt && !r.1 && |c.likedAlbums| > 0 ==> r.0 == TextFile(WriteText(c, range))
    ensures format == Txt && !r.1 && |c.likedAlbums| == 0 ==>
      r.0 == TextFile(WriteText(c.(topArtists := [], topTracks := []), range))
    ensures format == Txt && r.1 ==>
      StartsWith(WriteText(c, range), r.0.text) && |r.0.text| < |WriteText(c, range)|
  {
    if format == Json then (JsonFile(ToJson(c)), false)
    else
      match WriteTextAsWritten(c, range)
      case Failed(prefix) =>
        PrefixOfCorrected(c, range, prefix);
        (TextFile(prefix), true)
      case Complete(text) => (TextFile(text), false)
  }

  /** A proper prefix of the heading and playlist blocks is a proper prefix of the corrected file. */
  lemma PrefixOfCorrected(c: Collected, range: TimeRange, p: string)
    requires StartsWith(PlaylistsHeading + Blocks(c.playlists), p)
    requires |p| < |PlaylistsHeading + Blocks(c.playlists)|
    ensures StartsWith(WriteText(c, range), p) && |p| < |WriteText(c, range)|
  {
    var a := PlaylistsHeading + Blocks(c.playlists);
    var s1 := AlbumsSection(c.likedAlbums);
    var s2 := TopArtistsSection(range, c.topArtists);
    var s3 := TopTracksSection(range, c.topTracks);
    assert WriteText(c, range) == a + s1 + s2 + s3;
    PrefixThrough(a, s1, s2, s3, p);
  }

  /** A proper prefix of `a` is a proper prefix of anything `a` begins. */
  lemma PrefixThrough(a: string, s1: string, s2: string, s3: string, p: string)
    requires StartsWith(a, p) && |p| < |a|
    ensures StartsWith(a + s1 + s2 + s3, p) && |p| < |a + s1 + s2 + s3|
  {
    assert (a + s1 + s2 + s3)[..|p|] == a[..|p|];
  }

  /**
   The truncated text file: with the first playlist whose tracks never loaded
   at position `i`, the file holds the `Playlists: ` heading, the blocks of
   the playlists before it, and its name line, and the writer raises.
   */
  lemma TruncatedFile(c: Collected, range: TimeRange, i: nat)
    requires i < |c.playlists| && c.playlists[i].tracks.Stub?
    requires forall j :: 0 <= j < i ==> c.playlists[j].tracks.Resolved?
    ensures WriteFileAsWritten(c, Txt, range)
      == (TextFile(PlaylistsHeading + Blocks(c.playlists[..i]) + c.playlists[i].name + CRLF), true)
  {
    TruncatedText(c, range, i);
  }

  /** The text the program's writer leaves when the first unloaded playlist is at position `i`. */
  lemma TruncatedText(c: Collected, range: TimeRange, i: nat)
    requires i < |c.playlists| && c.playlists[i].tracks.Stub?
    requires forall j :: 0 <= j < i ==> c.playlists[j].tracks.Resolved?
    ensures WriteTextAsWritten(c, range)
      == Failed(PlaylistsHeading + Blocks(c.playlists[..i]) + c.playlists[i].name + CRLF)
  {
    FirstStubPrefix(c.playlists, i);
    Regroup3(PlaylistsHeading, Blocks(c.playlists[..i]), c.playlists[i].name, CRLF);
  }

  /** The playlist loop stops at the first playlist whose tracks never loaded, after its name line. */
  lemma {:induction false} FirstStubPrefix(ps: seq<Playlist>, i: nat)
    requires i < |ps| && ps[i].tracks.Stub?
    requires forall j :: 0 <= j < i ==> ps[j].tracks.Resolved?
    ensures BlocksAsWritten(ps) == Failed(Blocks(ps[..i]) + ps[i].name + CRLF)
    decreases i
  {
    if i == 0 {
      StubHere(ps);
      assert Blocks(ps[..0]) == "";
      assert "" + ps[0].name + CRLF == ps[0].name + CRLF;
    } else {
      var tail := ps[1..];
      assert tail[i - 1] == ps[i];
      assert forall j :: 0 <= j < i - 1 ==> tail[j].tracks.Resolved? by {
        forall j | 0 <= j < i - 1 ensures tail[j].tracks.Resolved? { assert tail[j] == ps[j + 1]; }
      }
      FirstStubPrefix(tail, i - 1);
      var b := Blocks(tail[..i - 1]);
      FailedStep(ps, b + ps[i].name + CRLF);
      BlocksOfTake(ps, i);
      Regroup3(Block(ps[0].name, ps[0].tracks.items), b, ps[i].name, CRLF);
    }
  }

  /** A first playlist whose tracks never loaded: the loop writes its name line and fails. */
  lemma StubHere(ps: seq<Playlist>)
    requires |ps| > 0 && ps[0].tracks.Stub?
    ensures BlocksAsWritten(ps) == Failed(ps[0].name + CRLF)
  {
  }

  /** A loaded first playlist's block comes before whatever the loop wrote for the rest. */
  lemma FailedStep(ps: seq<Playlist>, x: string)
    requires |ps| > 0 && ps[0].tracks.Resolved? && BlocksAsWritten(ps[1..]) == Failed(x)
    ensures BlocksAsWritten(ps) == Failed(Block(ps[0].name, ps[0].tracks.items) + x)
  {
  }

  /** The blocks of a non-empty prefix: the first block, then the blocks of the rest of the prefix. */
  lemma BlocksOfTake(ps: seq<Playlist>, i: nat)
    requires 0 < i <= |ps| && ps[0].tracks.Resolved?
    ensures Blocks(ps[..i]) == Block(ps[0].name, ps[0].tracks.items) + Blocks(ps[1..][..i - 1])
  {
    assert ps[..i][0] == ps[0];
    assert ps[..i][1..] == ps[1..][..i - 1];
  }

  /**
   The program's file is the model's file whenever every playlist's tracks
   loaded and the top sections are empty or liked albums are present.
   */
  lemma FileAgrees(c: Collected, format: Format, range: TimeRange)
    requires forall i :: 0 <= i < |c.playlists| ==> c.playlists[i].tracks.Resolved?
    requires |c.likedAlbums| > 0 || (|c.topArtists| == 0 && |c.topTracks| == 0)
    ensures WriteFileAsWritten(c, format, range) == (WriteFile(c, format, range), false)
  {
    if format == Txt {
      AsWrittenAgrees(c, range);
    }
  }

  // ---------------------------------------------------------------------
  // The two definitions agree where the program does not fail.

  /**
   When every playlist's tracks loaded, and the top sections are empty or
   liked albums are present, the program writes exactly `WriteText`.
   */
  lemma {:induction false} AsWrittenAgrees(c: Collected, range: TimeRange)
    requires forall i :: 0 <= i < |c.playlists| ==> c.playlists[i].tracks.Resolved?
    requires |c.likedAlbums| > 0 || (|c.topArtists| == 0 && |c.topTracks| == 0)
    ensures WriteTextAsWritten(c, range) == Complete(WriteText(c, range))
  {
    BlocksAgree(c.playlists);
    var a := PlaylistsHeading + Blocks(c.playlists);
    var s1 := AlbumsSection(c.likedAlbums);
    var s2 := TopArtistsSection(range, c.topArtists);
    var s3 := TopTracksSection(range, c.topTracks);
    assert WriteText(c, range) == a + s1 + s2 + s3;
    Regroup3(a, s1, s2, s3);
    if |c.likedAlbums| == 0 {
      assert s1 == [] && s2 == [] && s3 == [];
      assert WriteTextAsWritten(c, range) == Complete(a + []);
    }
  }

  lemma Regroup3<X>(a: seq<X>, b: seq<X>, c: seq<X>, d: seq<X>)
    ensures a + b + c + d == a + (b + c + d)
    ensures b == [] && c == [] && d == [] ==> a + b + c + d == a + [] == a
  {
  }

  lemma {:induction false} BlocksAgree(ps: seq<Playlist>)
    requires forall i :: 0 <= i < |ps| ==> ps[i].tracks.Resolved?
    ensures BlocksAsWritten(ps) == Complete(Blocks(ps))
    decreases |ps|
  {
    if |ps| > 0 {
      assert ps[0].tracks.Resolved?;
      BlocksAgree(ps[1..]);
    }
  }

  /** A playlist whose tracks never loaded makes the program's writer fail part-way. */
  lemma StubCrashesWriter(c: Collected, range: TimeRange, i: nat)
    requires i < |c.playlists| && c.playlists[i].tracks.Stub?
    ensures WriteTextAsWritten(c, range).Failed?
  {
  }

  /** Without liked albums, the program's writer writes nothing of the top items. */
  lemma TopDroppedWithoutAlbums(c: Collected, range: TimeRange)
    requires |c.likedAlbums| == 0
    ensures WriteTextAsWritten(c, range) == WriteTextAsWritten(c.(topArtists := [], topTracks := []), range)
  {
  }

  /**
   With top artists and no liked albums, the program's file is the corrected
   file without the top sections: it is short by at least the top artists'
   heading lines and one line per top artist.
   */
  lemma TopArtistsLostWithoutAlbums(c: Collected, range: TimeRange)
    requires CollectedClean(c)
    requires forall i :: 0 <= i < |c.playlists| ==> c.playlists[i].tracks.Resolved?
    requires |c.likedAlbums| == 0 && |c.topArtists| > 0
    ensures WriteTextAsWritten(c, range).Complete?
    ensures Lines(WriteTextAsWritten(c, range).text) + 3 + |c.topArtists| <= Lines(WriteText(c, range))
  {
    var c' := c.(topArtists := [], topTracks := []);
    TopDroppedWithoutAlbums(c, range);
    AsWrittenAgrees(c', range);
    TextLineCount(c, range);
    TextLineCount(c', range);
  }

  // ---------------------------------------------------------------------
  // Lines and fields.

  /** A field holds no tab and no line break. */
  predicate Clean(s: string) {
    '\t' !in s && '\r' !in s && '\n' !in s
  }

  predicate ArtistsClean(artists: seq<Artist>) {
    forall i :: 0 <= i < |artists| ==> Clean(artists[i].name)
  }

  predicate TrackClean(t: Track) {
    Clean(t.name) && ArtistsClean(t.artists) && Clean(t.album.name) && Clean(t.uri) && Clean(t.album.releaseDate)
  }

  predicate EntriesClean(items: seq<PlaylistItem>) {
    forall i :: 0 <= i < |items| && items[i].track.Some? ==> TrackClean(items[i].track.value)
  }

  predicate AlbumClean(a: SavedAlbum) {
    Clean(a.album.name) && ArtistsClean(a.album.artists) && Clean(a.album.uri) && Clean(a.album.releaseDate)
  }

  predicate TopArtistClean(a: TopArtist) {
    Clean(a.name) && Clean(a.uri) && forall i :: 0 <= i < |a.genres| ==> Clean(a.genres[i])
  }

  predicate PlaylistClean(p: Playlist) {
    Clean(p.name) && (p.tracks.Resolved? ==> EntriesClean(p.tracks.items))
  }

  /** No text the writer copies holds a tab or a line break. */
  predicate CollectedClean(c: Collected) {
    && (forall i :: 0 <= i < |c.playlists| ==> PlaylistClean(c.playlists[i]))
    && (forall i :: 0 <= i < |c.likedAlbums| ==> AlbumClean(c.likedAlbums[i]))
    && (forall i :: 0 <= i < |c.topArtists| ==> TopArtistClean(c.topArtists[i]))
    && (forall i :: 0 <= i < |c.topTracks| ==> TrackClean(c.topTracks[i]))
  }

  /** Number of line feeds, that is of lines, in a text. */
  function Lines(s: string): nat {
    Count(s, '\n')
  }

  /** A character in neither the parts nor the separator is not in their join. */
  lemma {:induction false} JoinAvoids(parts: seq<string>, sep: string, ch: char)
    requires forall i :: 0 <= i < |parts| ==> ch !in parts[i]
    requires ch !in sep
    ensures ch !in Join(parts, sep)
    decreases |parts|
  {
    if |parts| > 1 {
      JoinAvoids(parts[1..], sep, ch);
      assert Join(parts, sep) == parts[0] + sep + Join(parts[1..], sep);
    }
  }

  /** Joining clean parts with a clean separator gives a clean text. */
  lemma JoinClean(parts: seq<string>, sep: string)
    requires forall i :: 0 <= i < |parts| ==> Clean(parts[i])
    requires Clean(sep)
    ensures Clean(Join(parts, sep))
  {
    JoinAvoids(parts, sep, '\t');
    JoinAvoids(parts, sep, '\r');
    JoinAvoids(parts, sep, '\n');
  }

  /**
   A row is one line, and cutting off its CRLF and splitting it on tabs gives
   back its fields.
   */
  lemma RowReadsBack(fields: seq<string>)
    requires |fields| >= 1
    requires forall i :: 0 <= i < |fields| ==> Clean(fields[i])
    ensures Lines(Row(fields)) == 1
    ensures var r := Row(fields); Split(r[..|r| - 2], '\t') == fields
    ensures '\n' !in Join(fields, "\t")
  {
    var body := Join(fields, "\t");
    JoinAvoids(fields, "\t", '\n');
    CountAbsent(body, '\n');
    CountAppend(body, CRLF, '\n');
    assert CRLF[..1] == "\r";
    assert Row(fields)[..|Row(fields)| - 2] == body;
    SplitJoin(fields, '\t');
  }

  lemma ArtistNamesClean(artists: seq<Artist>)
    requires ArtistsClean(artists)
    ensures Clean(ArtistNames(artists))
  {
    JoinClean(NameList(artists), ", ");
  }

  lemma NumberClean(n: int)
    ensures Clean(IntToString(n))
  {
    var r := IntToString(n);
    var d := NatToString(if n < 0 then -n else n);
    forall i | 0 <= i < |r| ensures r[i] != '\t' && r[i] != '\r' && r[i] != '\n' {
      if n < 0 && i > 0 {
        assert r[i] == d[i - 1];
      }
    }
  }

  /** A playlist track line reads back as name, artists, album, uri and release date. */
  lemma TrackLineReadsBack(t: Track)
    requires TrackClean(t)
    ensures Lines(Row(TrackFields(t))) == 1
    ensures '\n' !in Join(TrackFields(t), "\t")
    ensures var r := Row(TrackFields(t));
      Split(r[..|r| - 2], '\t') == [t.name, ArtistNames(t.artists), t.album.name, t.uri, t.album.releaseDate]
  {
    ArtistNamesClean(t.artists);
    RowReadsBack(TrackFields(t));
  }

  lemma AlbumLineOne(a: SavedAlbum)
    requires AlbumClean(a)
    ensures Lines(Row(AlbumFields(a))) == 1
    ensures '\n' !in Join(AlbumFields(a), "\t")
  {
    ArtistNamesClean(a.album.artists);
    RowReadsBack(AlbumFields(a));
  }

  lemma ArtistLineOne(rank: nat, a: TopArtist)
    requires TopArtistClean(a)
    ensures Lines(Row(ArtistFields(rank, a))) == 1
    ensures '\n' !in Join(ArtistFields(rank, a), "\t")
  {
    NumberClean(rank);
    NumberClean(a.followers);
    if |a.genres| > 0 {
      JoinClean(a.genres, ", ");
    }
    var f := IntToString(a.followers);
    assert Clean(f + " followers") by {
      assert forall i :: 0 <= i < |f + " followers"| ==> (f + " followers")[i] in f + " followers";
      assert forall ch :: ch in f + " followers" ==> ch in f || ch in " followers";
    }
    RowReadsBack(ArtistFields(rank, a));
  }

  lemma TopTrackLineOne(rank: nat, t: Track)
    requires TrackClean(t)
    ensures Lines(Row(TopTrackFields(rank, t))) == 1
    ensures '\n' !in Join(TopTrackFields(rank, t), "\t")
  {
    NumberClean(rank);
    ArtistNamesClean(t.artists);
    RowReadsBack(TopTrackFields(rank, t));
  }

  /** One line per entry that has a track. */
  lemma {:induction false} EntryLinesCount(items: seq<PlaylistItem>)
    requires EntriesClean(items)
    ensures Lines(EntryLines(items)) == Present(items)
    decreases |items|
  {
    if |items| > 0 {
      var head := if items[0].track.Some? then Row(TrackFields(items[0].track.value)) else "";
      if items[0].track.Some? {
        TrackLineReadsBack(items[0].track.value);
      }
      assert EntriesClean(items[1..]) by {
        forall i | 0 <= i < |items[1..]| && items[1..][i].track.Some?
          ensures TrackClean(items[1..][i].track.value)
        {
          assert items[1..][i] == items[i + 1];
        }
      }
      EntryLinesCount(items[1..]);
      CountAppend(head, EntryLines(items[1..]), '\n');
    }
  }

  lemma {:induction false} AlbumLinesCount(albums: seq<SavedAlbum>)
    requires forall i :: 0 <= i < |albums| ==> AlbumClean(albums[i])
    ensures Lines(AlbumLines(albums)) == |albums|
    decreases |albums|
  {
    if |albums| > 0 {
      AlbumLineOne(albums[0]);
      AlbumLinesCount(albums[1..]);
      CountAppend(Row(AlbumFields(albums[0])), AlbumLines(albums[1..]), '\n');
    }
  }

  lemma {:induction false} ArtistLinesCount(rank: nat, artists: seq<TopArtist>)
    requires forall i :: 0 <= i < |artists| ==> TopArtistClean(artists[i])
    ensures Lines(ArtistLines(rank, artists)) == |artists|
    decreases |artists|
  {
    if |artists| > 0 {
      ArtistLineOne(rank, artists[0]);
      ArtistLinesCount(rank + 1, artists[1..]);
      CountAppend(Row(ArtistFields(rank, artists[0])), ArtistLines(rank + 1, artists[1..]), '\n');
    }
  }

  lemma {:induction false} TopTrackLinesCount(rank: nat, tracks: seq<Track>)
    requires forall i :: 0 <= i < |tracks| ==> TrackClean(tracks[i])
    ensures Lines(TopTrackLines(rank, tracks)) == |tracks|
    decreases |tracks|
  {
    if |tracks| > 0 {
      TopTrackLineOne(rank, tracks[0]);
      TopTrackLinesCount(rank + 1, tracks[1..]);
      CountAppend(Row(TopTrackFields(rank, tracks[0])), TopTrackLines(rank + 1, tracks[1..]), '\n');
    }
  }

  /** Lines a playlist block takes: name, one per present track, blank line. */
  function BlockLines(p: Playlist): nat {
    2 + (if p.tracks.Resolved? then Present(p.tracks.items) else 0)
  }

  function BlocksLines(ps: seq<Playlist>): nat {
    if |ps| == 0 then 0 else BlockLines(ps[0]) + BlocksLines(ps[1..])
  }

  lemma BlockCount(p: Playlist)
    requires PlaylistClean(p)
    ensures Lines(Block(p.name, if p.tracks.Resolved? then p.tracks.items else [])) == BlockLines(p)
  {
    var items := if p.tracks.Resolved? then p.tracks.items else [];
    EntryLinesCount(items);
    CountAbsent(p.name, '\n');
    CountAppend(p.name, CRLF, '\n');
    CountAppend(p.name + CRLF, EntryLines(items), '\n');
    CountAppend(p.name + CRLF + EntryLines(items), CRLF, '\n');
  }

  lemma {:induction false} BlocksCount(ps: seq<Playlist>)
    requires forall i :: 0 <= i < |ps| ==> PlaylistClean(ps[i])
    ensures Lines(Blocks(ps)) == BlocksLines(ps)
    decreases |ps|
  {
    if |ps| > 0 {
      BlockCount(ps[0]);
      BlocksCount(ps[1..]);
      var items := if ps[0].tracks.Resolved? then ps[0].tracks.items else [];
      CountAppend(Block(ps[0].name, items), Blocks(ps[1..]), '\n');
    }
  }

  /** Lines of a heading `CRLF + title + CRLF + CRLF`, or of `title + CRLF + CRLF`. */
  lemma HeadingCount(title: string)
    requires '\n' !in title
    ensures Lines(title + CRLF + CRLF) == 2
    ensures Lines(SubHeading(title)) == 3
  {
    CountAbsent(title, '\n');
    CountAppend(title, CRLF, '\n');
    CountAppend(title + CRLF, CRLF, '\n');
    CountAppend(CRLF, title, '\n');
    CountAppend(CRLF + title, CRLF, '\n');
    CountAppend(CRLF + title + CRLF, CRLF, '\n');
  }

  lemma TitleNoBreak(what: string, range: TimeRange)
    requires '\n' !in what
    ensures '\n' !in TopTitle(what, range)
  {
    var h := RangeHeading(range);
    assert '\n' !in h;
    assert '\n' !in what + " (";
    assert '\n' !in what + " (" + h;
  }

  lemma AlbumsSectionCount(albums: seq<SavedAlbum>)
    requires forall i :: 0 <= i < |albums| ==> AlbumClean(albums[i])
    ensures Lines(AlbumsSection(albums)) == if |albums| > 0 then 2 + |albums| else 0
  {
    if |albums| > 0 {
      HeadingCount("Liked Albums: ");
      AlbumLinesCount(albums);
      CountAppend("Liked Albums: " + CRLF + CRLF, AlbumLines(albums), '\n');
    }
  }

  lemma TopArtistsSectionCount(range: TimeRange, artists: seq<TopArtist>)
    requires forall i :: 0 <= i < |artists| ==> TopArtistClean(artists[i])
    ensures Lines(TopArtistsSection(range, artists)) == if |artists| > 0 then 3 + |artists| else 0
  {
    if |artists| > 0 {
      var title := TopTitle("Top Artists", range);
      TitleNoBreak("Top Artists", range);
      HeadingCount(title);
      ArtistLinesCount(1, artists);
      CountAppend(SubHeading(title), ArtistLines(1, artists), '\n');
    }
  }

  lemma TopTracksSectionCount(range: TimeRange, tracks: seq<Track>)
    requires forall i :: 0 <= i < |tracks| ==> TrackClean(tracks[i])
    ensures Lines(TopTracksSection(range, tracks)) == if |tracks| > 0 then 3 + |tracks| else 0
  {
    if |tracks| > 0 {
      var title := TopTitle("Top Tracks", range);
      TitleNoBreak("Top Tracks", range);
      HeadingCount(title);
      TopTrackLinesCount(1, tracks);
      CountAppend(SubHeading(title), TopTrackLines(1, tracks), '\n');
    }
  }

  /**
   The text file has two heading lines, then per playlist its name, one line
   per available track and a blank line, then each non-empty section with
   its heading lines and one line per entry, top sections included whether or
   not there are liked albums.
   */
  lemma TextLineCount(c: Collected, range: TimeRange)
    requires CollectedClean(c)
    ensures Lines(WriteText(c, range)) ==
      2 + BlocksLines(c.playlists)
      + (if |c.likedAlbums| > 0 then 2 + |c.likedAlbums| else 0)
      + (if |c.topArtists| > 0 then 3 + |c.topArtists| else 0)
      + (if |c.topTracks| > 0 then 3 + |c.topTracks| else 0)
  {
    HeadingCount("Playlists: ");
    BlocksCount(c.playlists);
    AlbumsSectionCount(c.likedAlbums);
    TopArtistsSectionCount(range, c.topArtists);
    TopTracksSectionCount(range, c.topTracks);
    var a := PlaylistsHeading;
    var b := Blocks(c.playlists);
    var s1 := AlbumsSection(c.likedAlbums);
    var s2 := TopArtistsSection(range, c.topArtists);
    var s3 := TopTracksSection(range, c.topTracks);
    CountAppend(a, b, '\n');
    CountAppend(a + b, s1, '\n');
    CountAppend(a + b + s1, s2, '\n');
    CountAppend(a + b + s1 + s2, s3, '\n');
  }

  // ---------------------------------------------------------------------
  // Reading the text back line by line.

  /** A text made of the given lines, each ended by CRLF. */
  function Unlines(ls: seq<string>): string
    decreases |ls|
  {
    if |ls| == 0 then "" else ls[0] + CRLF + Unlines(ls[1..])
  }

  /** A line without its final carriage return, when it has one. */
  function DropCR(s: string): string {
    if |s| > 0 && s[|s| - 1] == '\r' then s[..|s| - 1] else s
  }

  /**
   The lines a reader of the file sees: the text split at line feeds, each
   piece without its carriage return; the piece after the last line feed is
   not a line.
   */
  function ReadLines(s: string): seq<string> {
    var pieces := Split(s, '\n');
    seq(|pieces| - 1, i requires 0 <= i < |pieces| - 1 => DropCR(pieces[i]))
  }

  /** No line holds a line feed. */
  predicate NoBreaks(ls: seq<string>) {
    forall i :: 0 <= i < |ls| ==> '\n' !in ls[i]
  }

  /** Each line with a carriage return appended. */
  function WithCR(ls: seq<string>): (r: seq<string>)
    ensures |r| == |ls|
    ensures forall i :: 0 <= i < |ls| ==> r[i] == ls[i] + "\r"
    decreases |ls|
  {
    if |ls| == 0 then [] else [ls[0] + "\r"] + WithCR(ls[1..])
  }

  /** The text of some lines is the lines, carriage return added, joined by line feeds, and a final empty piece. */
  lemma {:induction false} UnlinesAsJoin(ls: seq<string>)
    ensures Unlines(ls) == Join(WithCR(ls) + [""], "\n")
    decreases |ls|
  {
    if |ls| > 0 {
      UnlinesAsJoin(ls[1..]);
      var rest := WithCR(ls[1..]) + [""];
      assert WithCR(ls) + [""] == [ls[0] + "\r"] + rest;
      assert Join([ls[0] + "\r"] + rest, "\n") == ls[0] + "\r" + "\n" + Join(rest, "\n");
    }
  }

  /** Lines without line feeds read back from their text. */
  lemma ReadUnlines(ls: seq<string>)
    requires NoBreaks(ls)
    ensures ReadLines(Unlines(ls)) == ls
  {
    var parts := WithCR(ls) + [""];
    forall i | 0 <= i < |parts| ensures '\n' !in parts[i] {
      if i < |ls| {
        assert parts[i] == ls[i] + "\r";
      }
    }
    UnlinesAsJoin(ls);
    SplitJoin(parts, '\n');
    var r := ReadLines(Unlines(ls));
    forall i | 0 <= i < |ls| ensures r[i] == ls[i] {
      assert parts[i] == ls[i] + "\r";
      assert (ls[i] + "\r")[..|ls[i]|] == ls[i];
    }
  }

  lemma {:induction false} UnlinesAppend(a: seq<string>, b: seq<string>)
    ensures Unlines(a + b) == Unlines(a) + Unlines(b)
    decreases |a|
  {
    if |a| > 0 {
      assert (a + b)[1..] == a[1..] + b;
      UnlinesAppend(a[1..], b);
    } else {
      assert a + b == b;
    }
  }

  lemma NoBreaksAppend(a: seq<string>, b: seq<string>)
    requires NoBreaks(a) && NoBreaks(b)
    ensures NoBreaks(a + b)
  {
    forall i | 0 <= i < |a + b| ensures '\n' !in (a + b)[i] {
      if i >= |a| {
        assert (a + b)[i] == b[i - |a|];
      }
    }
  }

  /** The tracks of the entries that have one, in order. */
  function PresentTracks(items: seq<PlaylistItem>): seq<Track> {
    if |items| == 0 then []
    else (if items[0].track.Some? then [items[0].track.value] else []) + PresentTracks(items[1..])
  }

  /**
   The lines of a numbered list: the tab-joined fields of each element, the
   first numbered `rank`.
   */
  function RankedRows<X>(rank: nat, xs: seq<X>, fields: (nat, X) -> seq<string>): (r: seq<string>)
    ensures |r| == |xs|
    ensures forall i :: 0 <= i < |xs| ==> r[i] == Join(fields(rank + i, xs[i]), "\t")
    decreases |xs|
  {
    if |xs| == 0 then [] else [Join(fields(rank, xs[0]), "\t")] + RankedRows(rank + 1, xs[1..], fields)
  }

  /** The fields of a playlist track line, which carries no number. */
  function TrackFieldsAt(rank: nat, t: Track): seq<string> {
    TrackFields(t)
  }

  /** The fields of a liked album line, which carries no number. */
  function AlbumFieldsAt(rank: nat, a: SavedAlbum): seq<string> {
    AlbumFields(a)
  }

  lemma UnlinesCons(x: string, ys: seq<string>)
    ensures Unlines([x] + ys) == x + CRLF + Unlines(ys)
  {
    assert ([x] + ys)[1..] == ys;
  }

  lemma UnlinesTwo(a: string, b: string)
    ensures Unlines([a, b]) == a + CRLF + b + CRLF
  {
    UnlinesCons(b, []);
    UnlinesCons(a, [b]);
    assert [a] + [b] == [a, b];
  }

  lemma UnlinesThree(a: string, b: string, c: string)
    ensures Unlines([a, b, c]) == a + CRLF + b + CRLF + c + CRLF
  {
    UnlinesTwo(b, c);
    UnlinesCons(a, [b, c]);
    assert [a] + [b, c] == [a, b, c];
  }

  /** Dropping the first row of a numbered list leaves the list numbered from the next rank. */
  lemma RankedRowsTail<X>(rank: nat, xs: seq<X>, fields: (nat, X) -> seq<string>)
    requires |xs| > 0
    ensures RankedRows(rank, xs, fields) == [Join(fields(rank, xs[0]), "\t")] + RankedRows(rank + 1, xs[1..], fields)
  {
  }

  /**
   The track lines of a playlist are, in order, the tab-joined fields of each
   entry that has a track.
   */
  lemma {:induction false} EntryLinesReadBack(items: seq<PlaylistItem>)
    ensures EntryLines(items) == Unlines(RankedRows(1, PresentTracks(items), TrackFieldsAt))
    decreases |items|
  {
    if |items| > 0 {
      var rest := PresentTracks(items[1..]);
      EntryLinesReadBack(items[1..]);
      if items[0].track.Some? {
        var t := items[0].track.value;
        assert PresentTracks(items) == [t] + rest;
        RankedRowsTail(1, [t] + rest, TrackFieldsAt);
        assert ([t] + rest)[1..] == rest;
        UnlinesCons(Join(TrackFields(t), "\t"), RankedRows(2, rest, TrackFieldsAt));
        RowsRerank(1, 2, rest, TrackFieldsAt);
      } else {
        assert PresentTracks(items) == rest;
      }
    }
  }

  /** A list whose lines carry no number is the same whatever rank it starts from. */
  lemma RowsRerank<X>(r1: nat, r2: nat, xs: seq<X>, fields: (nat, X) -> seq<string>)
    requires forall k: nat, x :: fields(k, x) == fields(0, x)
    ensures RankedRows(r1, xs, fields) == RankedRows(r2, xs, fields)
  {
    var a, b := RankedRows(r1, xs, fields), RankedRows(r2, xs, fields);
    forall i | 0 <= i < |xs| ensures a[i] == b[i] {
      assert fields(r1 + i, xs[i]) == fields(0, xs[i]) == fields(r2 + i, xs[i]);
    }
  }

  /** The liked-album lines are, in order, the tab-joined fields of each album. */
  lemma {:induction false} AlbumLinesReadBack(rank: nat, albums: seq<SavedAlbum>)
    ensures AlbumLines(albums) == Unlines(RankedRows(rank, albums, AlbumFieldsAt))
    decreases |albums|
  {
    if |albums| > 0 {
      AlbumLinesReadBack(rank + 1, albums[1..]);
      RankedRowsTail(rank, albums, AlbumFieldsAt);
      UnlinesCons(Join(AlbumFields(albums[0]), "\t"), RankedRows(rank + 1, albums[1..], AlbumFieldsAt));
    }
  }

  /** The top-artist lines are, in order, the tab-joined fields of each artist, numbered from `rank`. */
  lemma {:induction false} ArtistLinesReadBack(rank: nat, artists: seq<TopArtist>)
    ensures ArtistLines(rank, artists) == Unlines(RankedRows(rank, artists, ArtistFields))
    decreases |artists|
  {
    if |artists| > 0 {
      ArtistLinesReadBack(rank + 1, artists[1..]);
      RankedRowsTail(rank, artists, ArtistFields);
      UnlinesCons(Join(ArtistFields(rank, artists[0]), "\t"), RankedRows(rank + 1, artists[1..], ArtistFields));
    }
  }

  /** The top-track lines are, in order, the tab-joined fields of each track, numbered from `rank`. */
  lemma {:induction false} TopTrackLinesReadBack(rank: nat, tracks: seq<Track>)
    ensures TopTrackLines(rank, tracks) == Unlines(RankedRows(rank, tracks, TopTrackFields))
    decreases |tracks|
  {
    if |tracks| > 0 {
      TopTrackLinesReadBack(rank + 1, tracks[1..]);
      RankedRowsTail(rank, tracks, TopTrackFields);
      UnlinesCons(Join(TopTrackFields(rank, tracks[0]), "\t"), RankedRows(rank + 1, tracks[1..], TopTrackFields));
    }
  }

  lemma EntryRowsNoBreaks(items: seq<PlaylistItem>)
    requires EntriesClean(items)
    ensures NoBreaks(RankedRows(1, PresentTracks(items), TrackFieldsAt))
  {
    var ts := PresentTracks(items);
    PresentTracksClean(items);
    forall i | 0 <= i < |ts| ensures '\n' !in Join(TrackFieldsAt(1 + i, ts[i]), "\t") {
      TrackLineReadsBack(ts[i]);
    }
  }

  /** The tracks present in clean entries are clean. */
  lemma {:induction false} PresentTracksClean(items: seq<PlaylistItem>)
    requires EntriesClean(items)
    ensures forall i :: 0 <= i < |PresentTracks(items)| ==> TrackClean(PresentTracks(items)[i])
    decreases |items|
  {
    if |items| > 0 {
      assert EntriesClean(items[1..]) by {
        forall i | 0 <= i < |items[1..]| && items[1..][i].track.Some?
          ensures TrackClean(items[1..][i].track.value)
        {
          assert items[1..][i] == items[i + 1];
        }
      }
      PresentTracksClean(items[1..]);
    }
  }

  lemma AlbumRowsNoBreaks(albums: seq<SavedAlbum>)
    requires forall i :: 0 <= i < |albums| ==> AlbumClean(albums[i])
    ensures NoBreaks(RankedRows(1, albums, AlbumFieldsAt))
  {
    forall i | 0 <= i < |albums| ensures '\n' !in Join(AlbumFieldsAt(1 + i, albums[i]), "\t") {
      AlbumLineOne(albums[i]);
    }
  }

  lemma ArtistRowsNoBreaks(artists: seq<TopArtist>)
    requires forall i :: 0 <= i < |artists| ==> TopArtistClean(artists[i])
    ensures NoBreaks(RankedRows(1, artists, ArtistFields))
  {
    forall i | 0 <= i < |artists| ensures '\n' !in Join(ArtistFields(1 + i, artists[i]), "\t") {
      ArtistLineOne(1 + i, artists[i]);
    }
  }

  lemma TopTrackRowsNoBreaks(tracks: seq<Track>)
    requires forall i :: 0 <= i < |tracks| ==> TrackClean(tracks[i])
    ensures NoBreaks(RankedRows(1, tracks, TopTrackFields))
  {
    forall i | 0 <= i < |tracks| ensures '\n' !in Join(TopTrackFields(1 + i, tracks[i]), "\t") {
      TopTrackLineOne(1 + i, tracks[i]);
    }
  }

  /** The lines of a playlist: its name, its track lines, a blank line. */
  function BlockRows(p: Playlist): seq<string> {
    [p.name] + RankedRows(1, PresentTracks(if p.tracks.Resolved? then p.tracks.items else []), TrackFieldsAt) + [""]
  }

  function PlaylistRows(ps: seq<Playlist>): seq<string> {
    if |ps| == 0 then [] else BlockRows(ps[0]) + PlaylistRows(ps[1..])
  }

  /**
   The lines of the text file, in the order the program writes them: the
   `Playlists: ` heading and a blank line; each playlist's block; the liked
   albums under their heading when there are any; then each top section,
   when it has entries, as a blank line, its title, a blank line and one
   numbered line per entry.
   */
  function TextLines(c: Collected, range: TimeRange): seq<string> {
    ["Playlists: ", ""] + PlaylistRows(c.playlists)
    + AlbumsRows(c.likedAlbums) + TopArtistsRows(range, c.topArtists) + TopTracksRows(range, c.topTracks)
  }

  function AlbumsRows(albums: seq<SavedAlbum>): seq<string> {
    if |albums| > 0 then ["Liked Albums: ", ""] + RankedRows(1, albums, AlbumFieldsAt) else []
  }

  function TopArtistsRows(range: TimeRange, artists: seq<TopArtist>): seq<string> {
    if |artists| > 0 then ["", TopTitle("Top Artists", range), ""] + RankedRows(1, artists, ArtistFields) else []
  }

  function TopTracksRows(range: TimeRange, tracks: seq<Track>): seq<string> {
    if |tracks| > 0 then ["", TopTitle("Top Tracks", range), ""] + RankedRows(1, tracks, TopTrackFields) else []
  }

  lemma BlockIsLines(p: Playlist)
    ensures Block(p.name, if p.tracks.Resolved? then p.tracks.items else []) == Unlines(BlockRows(p))
  {
    var items := if p.tracks.Resolved? then p.tracks.items else [];
    var rows := RankedRows(1, PresentTracks(items), TrackFieldsAt);
    EntryLinesReadBack(items);
    UnlinesAppend([p.name] + rows, [""]);
    UnlinesCons(p.name, rows);
    UnlinesCons("", []);
  }

  lemma BlockNoBreaks(p: Playlist)
    requires PlaylistClean(p)
    ensures NoBreaks(BlockRows(p))
  {
    var items := if p.tracks.Resolved? then p.tracks.items else [];
    var rows := RankedRows(1, PresentTracks(items), TrackFieldsAt);
    EntryRowsNoBreaks(items);
    assert NoBreaks([p.name]);
    NoBreaksAppend([p.name], rows);
    NoBreaksAppend([p.name] + rows, [""]);
  }

  lemma {:induction false} BlocksAreLines(ps: seq<Playlist>)
    ensures Blocks(ps) == Unlines(PlaylistRows(ps))
    decreases |ps|
  {
    if |ps| > 0 {
      BlockIsLines(ps[0]);
      BlocksAreLines(ps[1..]);
      UnlinesAppend(BlockRows(ps[0]), PlaylistRows(ps[1..]));
    }
  }

  lemma {:induction false} BlocksNoBreaks(ps: seq<Playlist>)
    requires forall i :: 0 <= i < |ps| ==> PlaylistClean(ps[i])
    ensures NoBreaks(PlaylistRows(ps))
    decreases |ps|
  {
    if |ps| > 0 {
      BlockNoBreaks(ps[0]);
      assert forall i :: 0 <= i < |ps[1..]| ==> PlaylistClean(ps[1..][i]) by {
        forall i | 0 <= i < |ps[1..]| ensures PlaylistClean(ps[1..][i]) {
          assert ps[1..][i] == ps[i + 1];
        }
      }
      BlocksNoBreaks(ps[1..]);
      NoBreaksAppend(BlockRows(ps[0]), PlaylistRows(ps[1..]));
    }
  }

  /** A top section's heading is a blank line, its title and a blank line. */
  lemma SubHeadingIsLines(title: string)
    ensures SubHeading(title) == Unlines(["", title, ""])
  {
    UnlinesThree("", title, "");
  }

  lemma AlbumsSectionIsLines(albums: seq<SavedAlbum>)
    ensures AlbumsSection(albums) == Unlines(AlbumsRows(albums))
  {
    if |albums| > 0 {
      AlbumLinesReadBack(1, albums);
      UnlinesAppend(["Liked Albums: ", ""], RankedRows(1, albums, AlbumFieldsAt));
      UnlinesTwo("Liked Albums: ", "");
    }
  }

  lemma TopArtistsSectionIsLines(range: TimeRange, artists: seq<TopArtist>)
    ensures TopArtistsSection(range, artists) == Unlines(TopArtistsRows(range, artists))
  {
    if |artists| > 0 {
      var title := TopTitle("Top Artists", range);
      ArtistLinesReadBack(1, artists);
      SubHeadingIsLines(title);
      UnlinesAppend(["", title, ""], RankedRows(1, artists, ArtistFields));
    }
  }

  lemma TopTracksSectionIsLines(range: TimeRange, tracks: seq<Track>)
    ensures TopTracksSection(range, tracks) == Unlines(TopTracksRows(range, tracks))
  {
    if |tracks| > 0 {
      var title := TopTitle("Top Tracks", range);
      TopTrackLinesReadBack(1, tracks);
      SubHeadingIsLines(title);
      UnlinesAppend(["", title, ""], RankedRows(1, tracks, TopTrackFields));
    }
  }

  /** The text file is its lines, each ended by CRLF. */
  lemma TextIsLines(c: Collected, range: TimeRange)
    ensures PlaylistsHeading + Blocks(c.playlists)
      + AlbumsSection(c.likedAlbums) + TopArtistsSection(range, c.topArtists) + TopTracksSection(range, c.topTracks)
      == Unlines(TextLines(c, range))
  {
    var h := ["Playlists: ", ""];
    var p := PlaylistRows(c.playlists);
    var s1 := AlbumsRows(c.likedAlbums);
    var s2 := TopArtistsRows(range, c.topArtists);
    var s3 := TopTracksRows(range, c.topTracks);
    HeadingIsLines();
    BlocksAreLines(c.playlists);
    AlbumsSectionIsLines(c.likedAlbums);
    TopArtistsSectionIsLines(range, c.topArtists);
    TopTracksSectionIsLines(range, c.topTracks);
    assert TextLines(c, range) == h + p + s1 + s2 + s3;
    UnlinesAppend5(h, p, s1, s2, s3);
  }

  lemma HeadingIsLines()
    ensures PlaylistsHeading == Unlines(["Playlists: ", ""])
  {
    UnlinesTwo("Playlists: ", "");
  }

  lemma UnlinesAppend5(a: seq<string>, b: seq<string>, c: seq<string>, d: seq<string>, e: seq<string>)
    ensures Unlines(a + b + c + d + e) == Unlines(a) + Unlines(b) + Unlines(c) + Unlines(d) + Unlines(e)
  {
    UnlinesAppend(a, b);
    UnlinesAppend(a + b, c);
    UnlinesAppend(a + b + c, d);
    UnlinesAppend(a + b + c + d, e);
  }

  /** No line of a clean collection's text holds a line feed. */
  lemma TextLinesNoBreaks(c: Collected, range: TimeRange)
    requires CollectedClean(c)
    ensures NoBreaks(TextLines(c, range))
  {
    var h := ["Playlists: ", ""];
    var p := PlaylistRows(c.playlists);
    var s1 := AlbumsRows(c.likedAlbums);
    var s2 := TopArtistsRows(range, c.topArtists);
    var s3 := TopTracksRows(range, c.topTracks);
    assert NoBreaks(h);
    BlocksNoBreaks(c.playlists);
    SectionsNoBreaks(c, range);
    NoBreaksAppend(h, p);
    NoBreaksAppend(h + p, s1);
    NoBreaksAppend(h + p + s1, s2);
    NoBreaksAppend(h + p + s1 + s2, s3);
  }

  lemma SectionsNoBreaks(c: Collected, range: TimeRange)
    requires CollectedClean(c)
    ensures NoBreaks(AlbumsRows(c.likedAlbums))
    ensures NoBreaks(TopArtistsRows(range, c.topArtists))
    ensures NoBreaks(TopTracksRows(range, c.topTracks))
  {
    AlbumsNoBreaks(c.likedAlbums);
    TopArtistsNoBreaks(range, c.topArtists);
    TopTracksNoBreaks(range, c.topTracks);
  }

  lemma AlbumsNoBreaks(albums: seq<SavedAlbum>)
    requires forall i :: 0 <= i < |albums| ==> AlbumClean(albums[i])
    ensures NoBreaks(AlbumsRows(albums))
  {
    AlbumRowsNoBreaks(albums);
    assert NoBreaks(["Liked Albums: ", ""]);
    NoBreaksAppend(["Liked Albums: ", ""], RankedRows(1, albums, AlbumFieldsAt));
  }

  lemma TopArtistsNoBreaks(range: TimeRange, artists: seq<TopArtist>)
    requires forall i :: 0 <= i < |artists| ==> TopArtistClean(artists[i])
    ensures NoBreaks(TopArtistsRows(range, artists))
  {
    var title := TopTitle("Top Artists", range);
    ArtistRowsNoBreaks(artists);
    TitleNoBreak("Top Artists", range);
    assert NoBreaks(["", title, ""]);
    NoBreaksAppend(["", title, ""], RankedRows(1, artists, ArtistFields));
  }

  lemma TopTracksNoBreaks(range: TimeRange, tracks: seq<Track>)
    requires forall i :: 0 <= i < |tracks| ==> TrackClean(tracks[i])
    ensures NoBreaks(TopTracksRows(range, tracks))
  {
    var title := TopTitle("Top Tracks", range);
    TopTrackRowsNoBreaks(tracks);
    TitleNoBreak("Top Tracks", range);
    assert NoBreaks(["", title, ""]);
    NoBreaksAppend(["", title, ""], RankedRows(1, tracks, TopTrackFields));
  }

  /**
   The two formats agree on which top sections exist: the JSON document has
   a `top_artists` (`top_tracks`) key exactly when the text file has a
   top-artists (top-tracks) section.
   */
  lemma FormatsAgree(c: Collected, range: TimeRange)
    ensures "top_artists" in JsonKeys(ToJson(c)) <==> TopArtistsSection(range, c.topArtists) != ""
    ensures "top_tracks" in JsonKeys(ToJson(c)) <==> TopTracksSection(range, c.topTracks) != ""
  {
  }
}
