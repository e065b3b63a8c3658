/** The `POST /query` handler: from a movie name to the movie, its soundtrack
    and the soundtrack's tracks. */
module Query {
  import opened Wrappers
  import opened Upstream
  import opened TokenCache
  import opened Catalog

  /** The JSON reply of the handler. */
  datatype Reply =
    | BadRequest                          // 400 {error: "No movie name provided"}
    | ServerError                         // 500 {error: "Something went wrong"}
    | Unknown                             // {unknown: true}
    | NoSoundtrack(movie: MovieData)      // {movie, songs: []}
    | Found(movie: MovieData, soundtrack: Soundtrack, songs: seq<TrackRecord>)

  /** The HTTP status of a reply. */
  function Status(r: Reply): (code: int)
    ensures code == 400 <==> r.BadRequest?
    ensures code == 500 <==> r.ServerError?
    ensures code == 200 <==> !r.BadRequest? && !r.ServerError?
  {
    match r
    case BadRequest => 400
    case ServerError => 500
    case _ => 200
  }

  /** The `error` field of a reply, when it has one. */
  function ErrorText(r: Reply): (e: Option<string>)
    ensures e.Some? <==> Status(r) != 200
  {
    match r
    case BadRequest => Some("No movie name provided")
    case ServerError => Some("Something went wrong")
    case _ => None
  }

  /** The `songs` field of a reply, when it has one. */
  function Songs(r: Reply): (s: Option<seq<TrackRecord>>)
    ensures s.Some? <==> r.NoSoundtrack? || r.Found?
    ensures r.NoSoundtrack? ==> s == Some([])
    ensures r.Found? ==> s == Some(r.songs)
  {
    match r
    case NoSoundtrack(_) => Some([])
    case Found(_, _, songs) => Some(songs)
    case _ => None
  }

  /** The handler's decision, given the body's `input` field and the three
      lookups: the movie lookup (which may throw), the soundtrack search (whose
      failures are already caught), and the track fetch for an album (which
      never throws). The steps are taken in order and the first that fails
      decides the reply. */
  function Decide(
    input: JsValue,
    lookupMovie: JsValue -> Fetch<MovieData>,
    searchSoundtrack: string -> Fetch<Option<seq<ReleaseGroup>>>,
    songsFor: string -> seq<TrackRecord>): (r: Reply)
    // 1. a missing or falsy name is refused before any lookup
    ensures r.BadRequest? <==> !Truthy(input)
    // a thrown movie lookup is the only server error
    ensures r.ServerError? <==> Truthy(input) && lookupMovie(input).Err?
    // 2. a movie OMDb did not accept is unknown
    ensures r.Unknown? <==>
      Truthy(input) && lookupMovie(input).Ok? && !Accepted(lookupMovie(input).body)
    // 3. and 4. an accepted movie is passed through untouched
    ensures r.NoSoundtrack? || r.Found? ==>
      Truthy(input) && lookupMovie(input).Ok? && Accepted(lookupMovie(input).body) &&
      r.movie == lookupMovie(input).body
    // 3. no soundtrack for the movie's own title: no songs
    ensures r.NoSoundtrack? <==>
      Truthy(input) && lookupMovie(input).Ok? && Accepted(lookupMovie(input).body) &&
      SelectSoundtrack(searchSoundtrack(SoundtrackQuery(lookupMovie(input).body.title))).None?
    // 4. the soundtrack found for that title, and the tracks found for the soundtrack's title
    ensures r.Found? ==>
      Some(r.soundtrack) == SelectSoundtrack(searchSoundtrack(SoundtrackQuery(r.movie.title))) &&
      r.songs == songsFor(r.soundtrack.title)
  {
    if !Truthy(input) then BadRequest
    else
      match MovieDetails(lookupMovie(input))
      case Err => ServerError
      case Ok(None) => Unknown
      case Ok(Some(movie)) =>
        match SelectSoundtrack(searchSoundtrack(SoundtrackQuery(movie.title)))
        case None => NoSoundtrack(movie)
        case Some(soundtrack) => Found(movie, soundtrack, songsFor(soundtrack.title))
  }

  /** A request whose title OMDb does not know gets `{unknown: true}` with
      status 200, and no songs field. */
  lemma UnknownMovieReply(
    input: string,
    lookupMovie: JsValue -> Fetch<MovieData>,
    searchSoundtrack: string -> Fetch<Option<seq<ReleaseGroup>>>,
    songsFor: string -> seq<TrackRecord>)
    requires input != ""
    requires lookupMovie(Text(input)).Ok? && lookupMovie(Text(input)).body.response == Text("False")
    ensures var r := Decide(Text(input), lookupMovie, searchSoundtrack, songsFor);
      r == Unknown && Status(r) == 200 && Songs(r).None?
  {
  }

  /** The handler itself: runs the steps in order against the token cache,
      which is consulted (and possibly refreshed) only when a soundtrack was
      found. */
  method HandleQuery(
    cache: TokenManager,
    input: JsValue,
    lookupMovie: JsValue -> Fetch<MovieData>,
    searchSoundtrack: string -> Fetch<Option<seq<ReleaseGroup>>>,
    now: int, issuance: Issuance, receivedAt: int,
    searchAlbums: (string, string) -> Fetch<seq<Album>>,
    listTracks: (string, string) -> Fetch<seq<SpotifyTrack>>)
    returns (reply: Reply)
    modifies cache
    ensures var step := Lookup(old(cache.State()), now, issuance, receivedAt);
      reply == Decide(input, lookupMovie, searchSoundtrack,
                      album => AlbumTracks(step.outcome, album, searchAlbums, listTracks)) &&
      cache.State() == (if reply.Found? then step.cache else old(cache.State()))
  {
    ghost var step := Lookup(cache.State(), now, issuance, receivedAt);
    ghost var songsFor := album => AlbumTracks(step.outcome, album, searchAlbums, listTracks);
    if !Truthy(input) {
      return BadRequest;
    }
    var details := MovieDetails(lookupMovie(input));
    if details.Err? {
      return ServerError;
    }
    if details.body.None? {
      return Unknown;
    }
    var movie := details.body.value;
    var soundtrack := SelectSoundtrack(searchSoundtrack(SoundtrackQuery(movie.title)));
    if soundtrack.None? {
      return NoSoundtrack(movie);
    }
    var songs := TracksForAlbum(cache, soundtrack.value.title, now, issuance, receivedAt,
                                searchAlbums, listTracks);
    reply := Found(movie, soundtrack.value, songs);
    assert songs == songsFor(soundtrack.value.title);
  }
}
