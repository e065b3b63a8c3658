/** The records exchanged with the three upstream services and with the browser. */
module Upstream {
  import opened Wrappers

  /** A JSON value as it arrives in a request body or a response field.
      Numbers are modelled as integers. */
  datatype JsValue =
    | Undefined
    | Null
    | Bool(b: bool)
    | Number(n: int)
    | Text(s: string)
    | Composite   // an array or an object; always truthy

  /** JavaScript truthiness, as used by `if (!input)`. */
  predicate Truthy(v: JsValue) {
    match v
    case Undefined => false
    case Null => false
    case Bool(b) => b
    case Number(n) => n != 0
    case Text(s) => s != ""
    case Composite => true
  }

  /** The body of an OMDb title lookup. `response` is the `Response` field,
      `title` the `Title` field; `details` stands for every other field,
      which is passed through to the browser untouched. */
  datatype MovieData = MovieData(response: JsValue, title: string, details: map<string, string>)

  /** One entry of MusicBrainz's `release-groups` array. */
  datatype ReleaseGroup = ReleaseGroup(id: string, title: string)

  /** The soundtrack picked for a movie: `{title, id}`. */
  datatype Soundtrack = Soundtrack(title: string, id: string)

  /** One item of a Spotify album search. */
  datatype Album = Album(id: string, name: string)

  /** One artist of a Spotify track; `name` may be missing. */
  datatype Artist = Artist(name: Option<string>)

  /** The `external_urls` object of a Spotify track. */
  datatype Links = Links(spotify: Option<string>)

  /** One item of a Spotify album-tracks listing. A missing `external_urls`
      or `artists` makes the mapping over the listing throw. */
  datatype SpotifyTrack = SpotifyTrack(
    name: string,
    previewUrl: Option<string>,
    externalUrls: Option<Links>,
    artists: Option<seq<Artist>>)

  /** The track record returned to the browser:
      `{title, preview_url, spotify_url, artists, album}`. */
  datatype TrackRecord = TrackRecord(
    title: string,
    previewUrl: Option<string>,
    spotifyUrl: Option<string>,
    artists: string,
    album: string)
}
