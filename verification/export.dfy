/**
 What `main` collects once logged in: the user's profile, the liked songs
 and albums, the playlists with the tracks of each, and the top artists and
 tracks, and the shape of the JSON document written from them.

 The in-memory objects are the fields of the decoded JSON that the program
 reads. One `Remote` stands for the service: a scripted server per kind of
 payload, all reached with the same client.
 */
module Export {
  import opened Wrappers
  import opened Text
  import opened UrlEncoding
  import opened Api
  import opened Paging
  import opened Settings

  datatype Artist = Artist(name: string)

  datatype Album = Album(name: string, artists: seq<Artist>, uri: string, releaseDate: string)

  datatype Track = Track(name: string, artists: seq<Artist>, album: Album, uri: string)

  /** An entry of a playlist or of the liked songs; `track` is JSON `null` for unavailable tracks. */
  datatype PlaylistItem = PlaylistItem(track: Option<Track>)

  /**
   A playlist's `tracks` field: as listed, a reference to the paged track
   list (`href`, `total`); once loaded, the list of entries itself.
   */
  datatype TrackList = Stub(href: string, total: int) | Resolved(items: seq<PlaylistItem>)

  datatype Playlist = Playlist(name: string, tracks: TrackList)

  datatype SavedAlbum = SavedAlbum(album: Album)

  datatype TopArtist = TopArtist(name: string, genres: seq<string>, followers: int, uri: string)

  /** The `me` object; `Incomplete` lacks `id` or `display_name`, so reading it raises. */
  datatype Profile = Profile(id: string, displayName: string) | Incomplete

  /** The service, one scripted server per kind of payload. */
  datatype Remote = Remote(
    client: Client,
    profile: Server<Profile>,
    entries: Server<Page<PlaylistItem>>,  // liked songs and playlist tracks
    albums: Server<Page<SavedAlbum>>,
    playlists: Server<Page<Playlist>>,
    artists: Server<Page<TopArtist>>,
    tracks: Server<Page<Track>>)

  /**
   How a stage of the program ends: with a value; by `sys.exit` inside `get`;
   by an exception nothing catches, which ends the program with a traceback;
   or, in the model only, at the fuel bound of a listing.
   */
  datatype Stage<X> = Done(value: X) | Exited(fatal: Fatal) | Crashed | Unfinished

  /** A stage that did not finish, carried over to the value type of the next. */
  function Abort<X, Y>(s: Stage<X>): (r: Stage<Y>)
    requires !s.Done?
    ensures r.Exited? <==> s.Exited?
    ensures r.Exited? ==> r.fatal == s.fatal
    ensures r.Crashed? <==> s.Crashed?
    ensures !r.Done?
  {
    match s
    case Exited(f) => Exited(f)
    case Crashed => Crashed
    case Unfinished => Unfinished
  }

  /** The parameters of the playlist and playlist-track listings: pages of 100. */
  const ListParams: Params := [("limit", Num(100))]

  /** The listing of a playlist's tracks, when its `tracks` is a reference. */
  function TrackListing(remote: Remote, p: Playlist, fuel: nat): Walk<PlaylistItem>
    requires p.tracks.Stub?
  {
    List(remote.client, remote.entries, p.tracks.href, ListParams, fuel)
  }

  /**
   `load_playlist_tracks`: a playlist whose tracks load gets them in place of
   the reference; any exception leaves it as it was; an exit is not caught.
   */
  function LoadPlaylistTracks(remote: Remote, p: Playlist, fuel: nat): (r: Stage<Playlist>)
    ensures !r.Crashed?
    ensures r.Done? ==> r.value.name == p.name
    ensures r.Done? && r.value != p ==>
      p.tracks.Stub? && TrackListing(remote, p, fuel).listing.Listed?
      && r.value.tracks == Resolved(TrackListing(remote, p, fuel).listing.items)
    ensures p.tracks.Stub? && TrackListing(remote, p, fuel).listing.Raised? ==> r == Done(p)
    ensures p.tracks.Resolved? ==> r == Done(p)
    ensures r.Exited? <==> p.tracks.Stub? && TrackListing(remote, p, fuel).listing.Halted?
    ensures r.Exited? ==> r.fatal == TrackListing(remote, p, fuel).listing.fatal
    ensures p.tracks.Stub? && TrackListing(remote, p, fuel).listing.Listed? ==>
      r == Done(p.(tracks := Resolved(TrackListing(remote, p, fuel).listing.items)))
    ensures p.tracks.Stub? && TrackListing(remote, p, fuel).listing.OutOfFuel? ==> r == Unfinished
  {
    match p.tracks
    case Resolved(_) => Done(p)
    case Stub(_, _) =>
      match TrackListing(remote, p, fuel).listing
      case Listed(items) => Done(p.(tracks := Resolved(items)))
      case Raised => Done(p)
      case Halted(f) => Exited(f)
      case OutOfFuel => Unfinished
  }

  /**
   A playlist whose track pages form a chain gets exactly the entries of the
   chain, in order, fetched first with `limit=100`.
   */
  lemma LoadFromChain(remote: Remote, p: Playlist, pages: seq<Page<PlaylistItem>>, fuel: nat)
    requires p.tracks.Stub?
    requires IsChain(remote.client, remote.entries, p.tracks.href, ListParams, pages)
    requires |pages| <= fuel + 1
    ensures LoadPlaylistTracks(remote, p, fuel) == Done(Playlist(p.name, Resolved(Items(pages))))
    ensures TrackListing(remote, p, fuel).urls[0] == BuildUrl(p.tracks.href, ListParams)
  {
    ListFollowsChain(remote.client, remote.entries, p.tracks.href, ListParams, pages, fuel);
  }

  /**
   Stages run one after the other: all values in order when every stage is
   done, otherwise the outcome of the first stage that is not.
   */
  function Sequence<X>(stages: seq<Stage<X>>): (r: Stage<seq<X>>)
    ensures r.Done? <==> forall i :: 0 <= i < |stages| ==> stages[i].Done?
    ensures r.Done? ==> |r.value| == |stages| && forall i :: 0 <= i < |stages| ==> r.value[i] == stages[i].value
    ensures (forall i :: 0 <= i < |stages| ==> !stages[i].Crashed?) ==> !r.Crashed?
    decreases |stages|
  {
    if |stages| == 0 then Done([])
    else if !stages[0].Done? then Abort(stages[0])
    else
      var rest := Sequence(stages[1..]);
      if !rest.Done? then Abort(rest)
      else Done([stages[0].value] + rest.value)
  }

  /** When the stages do not all finish, the first one that does not decides the outcome. */
  lemma {:induction false} FirstStop<X>(stages: seq<Stage<X>>) returns (k: nat)
    requires !Sequence(stages).Done?
    ensures k < |stages| && !stages[k].Done?
    ensures forall j :: 0 <= j < k ==> stages[j].Done?
    ensures Sequence(stages).Exited? <==> stages[k].Exited?
    ensures Sequence(stages).Exited? ==> Sequence(stages).fatal == stages[k].fatal
    ensures Sequence(stages).Crashed? <==> stages[k].Crashed?
    decreases |stages|
  {
    if stages[0].Done? {
      var k' := FirstStop(stages[1..]);
      k := k' + 1;
      assert stages[1..][k'] == stages[k];
      forall j | 0 <= j < k ensures stages[j].Done? {
        if j > 0 {
          assert stages[1..][j - 1] == stages[j];
        }
      }
    } else {
      k := 0;
    }
  }

  /** The track load of each playlist. */
  function Loads(remote: Remote, ps: seq<Playlist>, fuel: nat): (r: seq<Stage<Playlist>>)
    ensures |r| == |ps|
    ensures forall i :: 0 <= i < |ps| ==> r[i] == LoadPlaylistTracks(remote, ps[i], fuel)
  {
    seq(|ps|, i requires 0 <= i < |ps| => LoadPlaylistTracks(remote, ps[i], fuel))
  }

  /**
   The playlists with their tracks loaded, one after the other, in order. The
   first load that exits, or reaches the fuel bound, ends the stage.
   */
  function ResolveAll(remote: Remote, ps: seq<Playlist>, fuel: nat): (r: Stage<seq<Playlist>>)
    ensures !r.Crashed?
    ensures r.Done? <==> forall i :: 0 <= i < |ps| ==> LoadPlaylistTracks(remote, ps[i], fuel).Done?
    ensures r.Done? ==> |r.value| == |ps|
    ensures r.Done? ==> forall i :: 0 <= i < |ps| ==> r.value[i] == LoadPlaylistTracks(remote, ps[i], fuel).value
  {
    Sequence(Loads(remote, ps, fuel))
  }

  /** An exit while loading tracks is the exit of the first playlist whose load did not finish. */
  lemma ExitCause(remote: Remote, ps: seq<Playlist>, fuel: nat) returns (k: nat)
    requires ResolveAll(remote, ps, fuel).Exited?
    ensures k < |ps|
    ensures LoadPlaylistTracks(remote, ps[k], fuel) == Exited(ResolveAll(remote, ps, fuel).fatal)
    ensures forall j :: 0 <= j < k ==> LoadPlaylistTracks(remote, ps[j], fuel).Done?
  {
    var loads := Loads(remote, ps, fuel);
    k := FirstStop(loads);
    assert loads[k] == LoadPlaylistTracks(remote, ps[k], fuel);
  }

  /** Names of playlists, in order. */
  function Names(ps: seq<Playlist>): (r: seq<string>)
    ensures |r| == |ps|
    ensures forall i :: 0 <= i < |ps| ==> r[i] == ps[i].name
  {
    seq(|ps|, i requires 0 <= i < |ps| => ps[i].name)
  }

  /** Loading tracks keeps every playlist in its place under its name. */
  lemma ResolveKeepsOrder(remote: Remote, ps: seq<Playlist>, fuel: nat)
    requires ResolveAll(remote, ps, fuel).Done?
    ensures Names(ResolveAll(remote, ps, fuel).value) == Names(ps)
  {
  }

  /** When every playlist's track pages form a chain, each playlist gets exactly its chain's entries. */
  lemma ResolveFromChains(remote: Remote, ps: seq<Playlist>, chains: seq<seq<Page<PlaylistItem>>>, fuel: nat)
    requires |chains| == |ps|
    requires forall i :: 0 <= i < |ps| ==> ps[i].tracks.Stub?
    requires forall i :: 0 <= i < |ps| ==>
      IsChain(remote.client, remote.entries, ps[i].tracks.href, ListParams, chains[i]) && |chains[i]| <= fuel + 1
    ensures var r := ResolveAll(remote, ps, fuel);
      r.Done? && forall i :: 0 <= i < |ps| ==> r.value[i] == Playlist(ps[i].name, Resolved(Items(chains[i])))
  {
    forall i | 0 <= i < |ps|
      ensures LoadPlaylistTracks(remote, ps[i], fuel) == Done(Playlist(ps[i].name, Resolved(Items(chains[i]))))
    {
      LoadFromChain(remote, ps[i], chains[i], fuel);
    }
  }

  /** The URL path of a kind of top item. */
  function TopPath(kind: string): string {
    "me/top/" + kind
  }

  function TopParams(range: TimeRange, limit: int): Params {
    [("time_range", Str(RangeName(range))), ("limit", Num(limit))]
  }

  /**
   `get_top_items`: the listed items, or none when an exception is raised;
   an exit is not caught.
   */
  function GetTopItems<T(==)>(c: Client, server: Server<Page<T>>, kind: string, range: TimeRange, limit: int, fuel: nat): (r: Stage<seq<T>>)
    ensures !r.Crashed?
    ensures var l := List(c, server, TopPath(kind), TopParams(range, limit), fuel).listing;
      && (l.Listed? ==> r == Done(l.items))
      && (l.Raised? ==> r == Done([]))
      && (r.Exited? <==> l.Halted?)
      && (r.Exited? ==> r.fatal == l.fatal)
  {
    match List(c, server, TopPath(kind), TopParams(range, limit), fuel).listing
    case Listed(items) => Done(items)
    case Raised => Done([])
    case Halted(f) => Exited(f)
    case OutOfFuel => Unfinished
  }

  /**
   The top items of a chain are its items, and the one request that carries
   parameters asks for the time range and the limit.
   */
  lemma TopFromChain<T>(c: Client, server: Server<Page<T>>, kind: string, range: TimeRange, limit: int, pages: seq<Page<T>>, fuel: nat)
    requires IsChain(c, server, TopPath(kind), TopParams(range, limit), pages) && |pages| <= fuel + 1
    requires '?' !in kind
    ensures GetTopItems(c, server, kind, range, limit, fuel) == Done(Items(pages))
    ensures List(c, server, TopPath(kind), TopParams(range, limit), fuel).urls[0]
         == Base + TopPath(kind) + "?" + UrlEncode(TopParams(range, limit))
  {
    ListFollowsChain(c, server, TopPath(kind), TopParams(range, limit), pages, fuel);
    TopUrl(kind, TopParams(range, limit));
  }

  /** The first request for top items goes to the base URL, then the path, then `?` and the query. */
  lemma TopUrl(kind: string, params: Params)
    requires '?' !in kind && |params| > 0
    ensures BuildUrl(TopPath(kind), params) == Base + TopPath(kind) + "?" + UrlEncode(params)
  {
    var path := TopPath(kind);
    assert path[0] != Base[0];
    var abs := Absolute(path);
    assert abs == Base + path;
    forall i | 0 <= i < |abs| ensures abs[i] != '?' {
      if i >= |Base| + 7 {
        assert abs[i] == kind[i - |Base| - 7];
      }
    }
  }

  const LikedSongs := "Liked Songs"

  const LikedParams: Params := [("limit", Num(50))]

  /** The liked songs, as a playlist named `Liked Songs`, and the liked albums. Exceptions here are not caught. */
  function LoadLiked(remote: Remote, fuel: nat): (r: Stage<(seq<Playlist>, seq<SavedAlbum>)>)
    ensures var songs := List(remote.client, remote.entries, "me/tracks", LikedParams, fuel).listing;
      var albums := List(remote.client, remote.albums, "me/albums", LikedParams, fuel).listing;
      && (r.Done? <==> songs.Listed? && albums.Listed?)
      && (r.Done? ==> r.value == ([Playlist(LikedSongs, Resolved(songs.items))], albums.items))
      && (r.Crashed? <==> songs.Raised? || (songs.Listed? && albums.Raised?))
      && (r.Exited? <==> songs.Halted? || (songs.Listed? && albums.Halted?))
      && (r.Exited? ==> r.fatal == if songs.Halted? then songs.fatal else albums.fatal)
  {
    match List(remote.client, remote.entries, "me/tracks", LikedParams, fuel).listing
    case Listed(songs) => (
      match List(remote.client, remote.albums, "me/albums", LikedParams, fuel).listing
      case Listed(albums) => Done(([Playlist(LikedSongs, Resolved(songs))], albums))
      case Raised => Crashed
      case Halted(f) => Exited(f)
      case OutOfFuel => Unfinished)
    case Raised => Crashed
    case Halted(f) => Exited(f)
    case OutOfFuel => Unfinished
  }

  function PlaylistsPath(userId: string): string {
    "users/" + userId + "/playlists"
  }

  /** The user's playlists, then the tracks of each. An exception while listing the playlists is not caught. */
  function LoadPlaylists(remote: Remote, userId: string, fuel: nat): (r: Stage<seq<Playlist>>)
    ensures var l := List(remote.client, remote.playlists, PlaylistsPath(userId), ListParams, fuel).listing;
      && (l.Listed? ==> r == ResolveAll(remote, l.items, fuel))
      && (r.Done? ==> l.Listed?)
      && (l.Raised? ==> r.Crashed?)
      && (l.Halted? ==> r == Exited(l.fatal))
  {
    match List(remote.client, remote.playlists, PlaylistsPath(userId), ListParams, fuel).listing
    case Listed(ps) => ResolveAll(remote, ps, fuel)
    case Raised => Crashed
    case Halted(f) => Exited(f)
    case OutOfFuel => Unfinished
  }

  /** Two stages in sequence: the second runs only when the first finishes. */
  function Then<X, Y>(a: Stage<X>, b: Stage<Y>): (r: Stage<(X, Y)>)
    ensures r.Done? <==> a.Done? && b.Done?
    ensures r.Done? ==> r.value == (a.value, b.value)
    ensures r.Crashed? <==> a.Crashed? || (a.Done? && b.Crashed?)
    ensures r.Exited? <==> a.Exited? || (a.Done? && b.Exited?)
    ensures r.Exited? ==> r.fatal == if a.Exited? then a.fatal else b.fatal
  {
    if !a.Done? then Abort(a)
    else if !b.Done? then Abort(b)
    else Done((a.value, b.value))
  }

  /** `get_top_items` for artists when `topType` asks for them, otherwise nothing. */
  function TopArtists(remote: Remote, topType: TopType, range: TimeRange, limit: int, fuel: nat): Stage<seq<TopArtist>> {
    if topType != Tracks then GetTopItems(remote.client, remote.artists, "artists", range, limit, fuel) else Done([])
  }

  /** `get_top_items` for tracks when `topType` asks for them, otherwise nothing. */
  function TopTracks(remote: Remote, topType: TopType, range: TimeRange, limit: int, fuel: nat): Stage<seq<Track>> {
    if topType != Artists then GetTopItems(remote.client, remote.tracks, "tracks", range, limit, fuel) else Done([])
  }

  /** The top artists and the top tracks that `topType` asks for, artists first. */
  function LoadTop(remote: Remote, topType: TopType, range: TimeRange, limit: int, fuel: nat): (r: Stage<(seq<TopArtist>, seq<Track>)>)
    ensures r.Done? && topType == Tracks ==> r.value.0 == []
    ensures r.Done? && topType == Artists ==> r.value.1 == []
    ensures r.Done? && topType != Tracks ==>
      var a := GetTopItems(remote.client, remote.artists, "artists", range, limit, fuel);
      a.Done? && r.value.0 == a.value
    ensures r.Done? && topType != Artists ==>
      var t := GetTopItems(remote.client, remote.tracks, "tracks", range, limit, fuel);
      t.Done? && r.value.1 == t.value
    ensures var a := GetTopItems(remote.client, remote.artists, "artists", range, limit, fuel);
      var t := GetTopItems(remote.client, remote.tracks, "tracks", range, limit, fuel);
      && (r.Done? <==> (topType != Tracks ==> a.Done?) && (topType != Artists ==> t.Done?))
      && (r.Exited? <==> (topType != Tracks && a.Exited?) || ((topType == Tracks || a.Done?) && topType != Artists && t.Exited?))
      && (r.Exited? ==> r.fatal == if topType != Tracks && a.Exited? then a.fatal else t.fatal)
      && !r.Crashed?
  {
    Then(TopArtists(remote, topType, range, limit, fuel), TopTracks(remote, topType, range, limit, fuel))
  }

  /** An exception while loading top items never ends the program: it yields no items instead. */
  lemma TopNeverCrashes(remote: Remote, topType: TopType, range: TimeRange, limit: int, fuel: nat)
    ensures !LoadTop(remote, topType, range, limit, fuel).Crashed?
  {
  }

  /** Everything the output file is written from. */
  datatype Collected = Collected(
    playlists: seq<Playlist>,
    likedAlbums: seq<SavedAlbum>,
    topArtists: seq<TopArtist>,
    topTracks: seq<Track>)

  /** What to collect: the `--dump` value and the top-item options. */
  datatype Selection = Selection(dump: string, topType: TopType, range: TimeRange, limit: int)

  function Me(remote: Remote): Response<Profile> {
    Get(remote.client, remote.profile, "me", [], DefaultTries)
  }

  /** The liked songs and albums when `dump` mentions `liked`, otherwise nothing. */
  function LikedStage(remote: Remote, dump: string, fuel: nat): Stage<(seq<Playlist>, seq<SavedAlbum>)> {
    if Contains(dump, "liked") then LoadLiked(remote, fuel) else Done(([], []))
  }

  /** The user's playlists when `dump` mentions `playlists`, otherwise none. */
  function PlaylistsStage(remote: Remote, dump: string, userId: string, fuel: nat): Stage<seq<Playlist>> {
    if Contains(dump, "playlists") then LoadPlaylists(remote, userId, fuel) else Done([])
  }

  /** The top items when `dump` mentions `top`, otherwise none. */
  function TopStage(remote: Remote, sel: Selection, fuel: nat): Stage<(seq<TopArtist>, seq<Track>)> {
    if Contains(sel.dump, "top") then LoadTop(remote, sel.topType, sel.range, sel.limit, fuel) else Done(([], []))
  }

  /**
   The part of `main` between logging in and writing: the profile, then the
   liked songs and albums, then the playlists, then the top items, each
   section only when `dump` mentions it.
   */
  function Collect(remote: Remote, sel: Selection, fuel: nat): (r: Stage<Collected>)
    ensures Me(remote).result.Exit? ==> r == Exited(Me(remote).result.fatal)
    ensures r.Done? ==> Me(remote).result.Ok? && Me(remote).result.payload.Profile?
    ensures r.Done? && Contains(sel.dump, "liked") ==>
      LoadLiked(remote, fuel).Done? && |r.value.playlists| >= 1
      && r.value.playlists[..1] == LoadLiked(remote, fuel).value.0
      && r.value.likedAlbums == LoadLiked(remote, fuel).value.1
    ensures r.Done? && !Contains(sel.dump, "liked") ==> r.value.likedAlbums == []
    ensures r.Done? ==>
      var fetched := r.value.playlists[(if Contains(sel.dump, "liked") then 1 else 0)..];
      if Contains(sel.dump, "playlists") then
        var l := LoadPlaylists(remote, Me(remote).result.payload.id, fuel); l.Done? && fetched == l.value
      else fetched == []
    ensures r.Done? && !Contains(sel.dump, "top") ==> r.value.topArtists == [] && r.value.topTracks == []
    ensures r.Done? && Contains(sel.dump, "top") ==>
      var t := LoadTop(remote, sel.topType, sel.range, sel.limit, fuel);
      t.Done? && r.value.topArtists == t.value.0 && r.value.topTracks == t.value.1
    ensures Me(remote).result.Ok? && Me(remote).result.payload.Incomplete? ==> r == Crashed
    ensures Me(remote).result.Ok? && Me(remote).result.payload.Profile? ==>
      var l := LikedStage(remote, sel.dump, fuel);
      var f := PlaylistsStage(remote, sel.dump, Me(remote).result.payload.id, fuel);
      var t := TopStage(remote, sel, fuel);
      && (r.Done? <==> l.Done? && f.Done? && t.Done?)
      && (r.Exited? <==> l.Exited? || (l.Done? && (f.Exited? || (f.Done? && t.Exited?))))
      && (r.Exited? ==> r.fatal == if l.Exited? then l.fatal else if f.Exited? then f.fatal else t.fatal)
      && (r.Crashed? <==> l.Crashed? || (l.Done? && (f.Crashed? || (f.Done? && t.Crashed?))))
  {
    var me := Me(remote);
    if me.result.Exit? then Exited(me.result.fatal)
    else if me.result.payload.Incomplete? then Crashed
    else
      var liked := LikedStage(remote, sel.dump, fuel);
      var fetched := PlaylistsStage(remote, sel.dump, me.result.payload.id, fuel);
      var r := Gather(liked, fetched, TopStage(remote, sel, fuel));
      assert r.Done? ==> r.value.playlists[|liked.value.0|..] == fetched.value;
      r
  }

  /**
   The liked, playlist and top stages in program order: the collected data
   when all three finish, otherwise the outcome of the first that does not.
   */
  function Gather(
    liked: Stage<(seq<Playlist>, seq<SavedAlbum>)>,
    fetched: Stage<seq<Playlist>>,
    top: Stage<(seq<TopArtist>, seq<Track>)>): (r: Stage<Collected>)
    ensures r.Done? <==> liked.Done? && fetched.Done? && top.Done?
    ensures r.Done? ==>
      r.value == Collected(liked.value.0 + fetched.value, liked.value.1, top.value.0, top.value.1)
    ensures r.Exited? <==> liked.Exited? || (liked.Done? && (fetched.Exited? || (fetched.Done? && top.Exited?)))
    ensures r.Exited? ==>
      r.fatal == if liked.Exited? then liked.fatal else if fetched.Exited? then fetched.fatal else top.fatal
    ensures r.Crashed? <==> liked.Crashed? || (liked.Done? && (fetched.Crashed? || (fetched.Done? && top.Crashed?)))
  {
    if !liked.Done? then Abort(liked)
    else if !fetched.Done? then Abort(fetched)
    else if !top.Done? then Abort(top)
    else Done(Collected(liked.value.0 + fetched.value, liked.value.1, top.value.0, top.value.1))
  }

  /**
   The playlists written are `Liked Songs`, when liked songs are dumped,
   followed by the user's playlists under their listed names, in listed order.
   */
  lemma CollectOrder(remote: Remote, sel: Selection, fuel: nat)
    requires Collect(remote, sel, fuel).Done?
    requires Contains(sel.dump, "playlists")
    ensures var me := Me(remote).result;
      && me.Ok? && me.payload.Profile?
      && var l := List(remote.client, remote.playlists, PlaylistsPath(me.payload.id), ListParams, fuel).listing;
      && l.Listed?
      && Names(Collect(remote, sel, fuel).value.playlists)
         == (if Contains(sel.dump, "liked") then [LikedSongs] else []) + Names(l.items)
  {
    var ps := Collect(remote, sel, fuel).value.playlists;
    var id := Me(remote).result.payload.id;
    var liked := Contains(sel.dump, "liked");
    CollectParts(remote, sel, fuel);
    var loaded := LoadPlaylists(remote, id, fuel).value;
    var listed := LoadedNames(remote, id, fuel);
    OrderFromParts(ps, liked, loaded, listed);
  }

  /** The collected playlists: `Liked Songs` first when liked songs are dumped, then the loaded playlists. */
  lemma CollectParts(remote: Remote, sel: Selection, fuel: nat)
    requires Collect(remote, sel, fuel).Done?
    requires Contains(sel.dump, "playlists")
    ensures Me(remote).result.Ok? && Me(remote).result.payload.Profile?
    ensures var ps := Collect(remote, sel, fuel).value.playlists;
      && (Contains(sel.dump, "liked") ==> |ps| >= 1 && ps[0].name == LikedSongs)
      && LoadPlaylists(remote, Me(remote).result.payload.id, fuel).Done?
      && ps[(if Contains(sel.dump, "liked") then 1 else 0)..] == LoadPlaylists(remote, Me(remote).result.payload.id, fuel).value
  {
    var ps := Collect(remote, sel, fuel).value.playlists;
    if Contains(sel.dump, "liked") {
      assert ps[..1] == LoadLiked(remote, fuel).value.0;
      assert ps[0] == ps[..1][0];
    }
  }

  /** Loaded playlists keep the names of the listed ones. */
  lemma LoadedNames(remote: Remote, id: string, fuel: nat) returns (listed: seq<Playlist>)
    requires LoadPlaylists(remote, id, fuel).Done?
    ensures var l := List(remote.client, remote.playlists, PlaylistsPath(id), ListParams, fuel).listing;
      l.Listed? && listed == l.items
    ensures Names(LoadPlaylists(remote, id, fuel).value) == Names(listed)
  {
    listed := List(remote.client, remote.playlists, PlaylistsPath(id), ListParams, fuel).listing.items;
    ResolveKeepsOrder(remote, listed, fuel);
  }

  /** The names of the liked-songs playlist, when present, followed by the fetched playlists. */
  lemma OrderFromParts(ps: seq<Playlist>, liked: bool, fetched: seq<Playlist>, listed: seq<Playlist>)
    requires liked ==> |ps| >= 1 && ps[0].name == LikedSongs
    requires ps[(if liked then 1 else 0)..] == fetched
    requires Names(fetched) == Names(listed)
    ensures Names(ps) == (if liked then [LikedSongs] else []) + Names(listed)
  {
    var k := if liked then 1 else 0;
    NamesSplit(ps, k);
    assert Names(ps[..k]) == if liked then [LikedSongs] else [];
  }

  lemma NamesSplit(ps: seq<Playlist>, k: nat)
    requires k <= |ps|
    ensures Names(ps) == Names(ps[..k]) + Names(ps[k..])
  {
    var a, b := Names(ps[..k]), Names(ps[k..]);
    forall i | 0 <= i < |ps| ensures Names(ps)[i] == (a + b)[i] {
      if i < k {
        assert ps[..k][i] == ps[i];
      } else {
        assert ps[k..][i - k] == ps[i];
      }
    }
  }

  /** The JSON document: `top_artists` and `top_tracks` are present only when non-empty. */
  datatype JsonDocument = JsonDocument(
    playlists: seq<Playlist>,
    albums: seq<SavedAlbum>,
    topArtists: Option<seq<TopArtist>>,
    topTracks: Option<seq<Track>>)

  /**
   The collected data as a reader of the document gets it back, taking an
   absent `top_artists` or `top_tracks` key for an empty list.
   */
  function FromJson(d: JsonDocument): Collected {
    Collected(
      d.playlists,
      d.albums,
      if d.topArtists.Some? then d.topArtists.value else [],
      if d.topTracks.Some? then d.topTracks.value else [])
  }

  /**
   The JSON document written from the collected data: it reads back as the
   same data, and its top-item keys are written exactly when there are top
   items of that kind.
   */
  function ToJson(c: Collected): (d: JsonDocument)
    ensures FromJson(d) == c
    ensures "top_artists" in JsonKeys(d) <==> |c.topArtists| > 0
    ensures "top_tracks" in JsonKeys(d) <==> |c.topTracks| > 0
    ensures d.playlists == c.playlists && d.albums == c.likedAlbums
    ensures d.topArtists.Some? <==> |c.topArtists| > 0
    ensures d.topTracks.Some? <==> |c.topTracks| > 0
    ensures d.topArtists.Some? ==> d.topArtists.value == c.topArtists
    ensures d.topTracks.Some? ==> d.topTracks.value == c.topTracks
  {
    JsonDocument(
      c.playlists,
      c.likedAlbums,
      if |c.topArtists| > 0 then Some(c.topArtists) else None,
      if |c.topTracks| > 0 then Some(c.topTracks) else None)
  }

  /** The keys of the JSON document, in the order they are written. */
  function JsonKeys(d: JsonDocument): (keys: seq<string>)
    ensures |keys| >= 2 && keys[..2] == ["playlists", "albums"]
    ensures "top_artists" in keys <==> d.topArtists.Some?
    ensures "top_tracks" in keys <==> d.topTracks.Some?
    ensures |keys| == 2 + (if d.topArtists.Some? then 1 else 0) + (if d.topTracks.Some? then 1 else 0)
    ensures d.topArtists.Some? ==> keys[2] == "top_artists"
    ensures d.topTracks.Some? ==> keys[|keys| - 1] == "top_tracks"
  {
    ["playlists", "albums"]
    + (if d.topArtists.Some? then ["top_artists"] else [])
    + (if d.topTracks.Some? then ["top_tracks"] else [])
  }
}
