/** The lookups behind a query: accepting an OMDb movie, picking a MusicBrainz
    soundtrack, and fetching and shaping the Spotify tracks of an album. The
    services themselves are parameters: each request is a function from what
    the request carries to the outcome of the call. */
module Catalog {
  import opened Wrappers
  import opened Upstream
  import opened Strings
  import opened TokenCache

  /** OMDb signals a match with the string "True" in `Response`; strict
      equality, so no other value (not even the boolean `true`) is a match. */
  predicate Accepted(m: MovieData) {
    m.response == Text("True")
  }

  /** `getMovieDetails`: the record itself when OMDb accepted the title, None
      when it did not; a failed request is not caught here and stays an error. */
  function MovieDetails(fetch: Fetch<MovieData>): (r: Fetch<Option<MovieData>>)
    ensures r.Err? <==> fetch.Err?
    ensures r.Ok? && r.body.Some? <==> fetch.Ok? && Accepted(fetch.body)
    ensures r.Ok? && r.body.Some? ==> r.body.value == fetch.body
  {
    match fetch
    case Err => Err
    case Ok(m) => Ok(if Accepted(m) then Some(m) else None)
  }

  /** The MusicBrainz search text: the movie title restricted to soundtracks. */
  function SoundtrackQuery(title: string): (q: string)
    ensures |q| > |title| && q[..|title|] == title
  {
    title + " AND secondarytype:soundtrack"
  }

  /** `getSoundtrackFromMusicBrainz`, given the `release-groups` field of the
      response (None when the field is missing or null): the first release
      group's title and id, or None when there is none or the request failed. */
  function SelectSoundtrack(fetch: Fetch<Option<seq<ReleaseGroup>>>): (r: Option<Soundtrack>)
    ensures r.Some? <==> fetch.Ok? && fetch.body.Some? && fetch.body.value != []
    ensures r.Some? ==>
      r.value.title == fetch.body.value[0].title && r.value.id == fetch.body.value[0].id
  {
    match fetch
    case Err => None
    case Ok(groups) =>
      match groups
      case None => None
      case Some(gs) =>
        if |gs| == 0 then None else Some(Soundtrack(gs[0].title, gs[0].id))
  }

  /** The selection is a first match: release groups ranked below the first one
      never change it. */
  lemma SelectionIgnoresLowerRanks(gs: seq<ReleaseGroup>, more: seq<ReleaseGroup>)
    requires gs != []
    ensures SelectSoundtrack(Ok(Some(gs + more))) == SelectSoundtrack(Ok(Some(gs)))
  {
    assert (gs + more)[0] == gs[0];
  }

  /** `a.name` for each artist; `join` renders a missing name as "". */
  function ArtistNames(artists: seq<Artist>): (names: seq<string>)
    ensures |names| == |artists|
    ensures forall i :: 0 <= i < |artists| ==>
      names[i] == (if artists[i].name.Some? then artists[i].name.value else "")
    decreases |artists|
  {
    if artists == [] then []
    else [if artists[0].name.Some? then artists[0].name.value else ""] + ArtistNames(artists[1..])
  }

  /** The track can be mapped without throwing. */
  predicate Mappable(t: SpotifyTrack) {
    t.externalUrls.Some? && t.artists.Some?
  }

  /** The mapping of one listed track to a record; None when it throws because
      `external_urls` or `artists` is missing. */
  function ShapeTrack(t: SpotifyTrack, albumName: string): (r: Option<TrackRecord>)
    ensures r.Some? <==> Mappable(t)
    ensures r.Some? ==>
      r.value.title == t.name &&
      r.value.previewUrl == t.previewUrl &&
      r.value.spotifyUrl == t.externalUrls.value.spotify &&
      r.value.artists == Join(ArtistNames(t.artists.value), ArtistSeparator) &&
      r.value.album == albumName
  {
    match (t.externalUrls, t.artists)
    case (Some(links), Some(artists)) =>
      Some(TrackRecord(t.name, t.previewUrl, links.spotify,
                       Join(ArtistNames(artists), ArtistSeparator), albumName))
    case _ => None
  }

  /** `items.map(...)`: one record per track, in order, all carrying the album's
      name; None when the mapping throws on any track. */
  function ShapeTracks(items: seq<SpotifyTrack>, albumName: string): (r: Option<seq<TrackRecord>>)
    ensures r.Some? <==> forall i :: 0 <= i < |items| ==> Mappable(items[i])
    ensures r.Some? ==> |r.value| == |items|
    ensures r.Some? ==> forall i :: 0 <= i < |items| ==>
      Some(r.value[i]) == ShapeTrack(items[i], albumName) && r.value[i].album == albumName
    decreases |items|
  {
    if items == [] then Some([])
    else
      match (ShapeTrack(items[0], albumName), ShapeTracks(items[1..], albumName))
      case (Some(first), Some(rest)) => Some([first] + rest)
      case _ => None
  }

  /** `getSpotifyTracksForAlbum` once the token is settled: search for the album
      with the bearer token, list the first hit's tracks with the same token,
      and shape them; any failure along the way yields no tracks. */
  function AlbumTracks(
    token: TokenOutcome,
    albumName: string,
    searchAlbums: (string, string) -> Fetch<seq<Album>>,
    listTracks: (string, string) -> Fetch<seq<SpotifyTrack>>): (r: seq<TrackRecord>)
    ensures token.AcquisitionError? ==> r == []
    ensures token.Token? && searchAlbums(token.value, albumName).Err? ==> r == []
    ensures token.Token? && searchAlbums(token.value, albumName) == Ok([]) ==> r == []
    ensures r != [] ==>
      token.Token? &&
      searchAlbums(token.value, albumName).Ok? &&
      var album := searchAlbums(token.value, albumName).body[0];
      listTracks(token.value, album.id).Ok? &&
      ShapeTracks(listTracks(token.value, album.id).body, album.name) == Some(r)
  {
    match token
    case AcquisitionError => []
    case Token(bearer) =>
      match searchAlbums(bearer, albumName)
      case Err => []
      case Ok(items) =>
        if |items| == 0 then []
        else
          var album := items[0];
          match listTracks(bearer, album.id)
          case Err => []
          case Ok(tracks) =>
            match ShapeTracks(tracks, album.name)
            case None => []
            case Some(records) => records
  }

  /** When every step succeeds, the result is the whole shaped listing of the
      first album found: every track, in order, labelled with that album. */
  lemma AlbumTracksComplete(
    bearer: string,
    albumName: string,
    album: Album,
    others: seq<Album>,
    tracks: seq<SpotifyTrack>,
    searchAlbums: (string, string) -> Fetch<seq<Album>>,
    listTracks: (string, string) -> Fetch<seq<SpotifyTrack>>)
    requires searchAlbums(bearer, albumName) == Ok([album] + others)
    requires listTracks(bearer, album.id) == Ok(tracks)
    requires forall i :: 0 <= i < |tracks| ==> Mappable(tracks[i])
    ensures var r := AlbumTracks(Token(bearer), albumName, searchAlbums, listTracks);
      |r| == |tracks| &&
      forall i :: 0 <= i < |tracks| ==>
        r[i].title == tracks[i].name && r[i].album == album.name &&
        r[i].artists == Join(ArtistNames(tracks[i].artists.value), ArtistSeparator)
  {
    var r := AlbumTracks(Token(bearer), albumName, searchAlbums, listTracks);
    assert ([album] + others)[0] == album;
    assert ShapeTracks(tracks, album.name) == Some(r);
    forall i | 0 <= i < |tracks|
      ensures r[i].title == tracks[i].name && r[i].album == album.name
      ensures r[i].artists == Join(ArtistNames(tracks[i].artists.value), ArtistSeparator)
    {
      assert Some(r[i]) == ShapeTrack(tracks[i], album.name);
    }
  }

  /** `getSpotifyTracksForAlbum`: asks the token cache for a bearer token at
      clock `now`, then fetches and shapes the tracks with it. */
  method TracksForAlbum(
    cache: TokenManager,
    albumName: string,
    now: int, issuance: Issuance, receivedAt: int,
    searchAlbums: (string, string) -> Fetch<seq<Album>>,
    listTracks: (string, string) -> Fetch<seq<SpotifyTrack>>)
    returns (songs: seq<TrackRecord>)
    modifies cache
    ensures var step := Lookup(old(cache.State()), now, issuance, receivedAt);
      cache.State() == step.cache &&
      songs == AlbumTracks(step.outcome, albumName, searchAlbums, listTracks)
  {
    var token, _ := cache.GetToken(now, issuance, receivedAt);
    songs := AlbumTracks(token, albumName, searchAlbums, listTracks);
  }
}
