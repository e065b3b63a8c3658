# CineTune: the token cache and query logic, in Dafny

CineTune is a small Express server. Given a movie name, it looks the movie up on
OMDb, picks a soundtrack album for it on MusicBrainz, and lists that album's
tracks from Spotify. Before it fetches an album's tracks from Spotify, it asks a
process-wide **bearer-token cache** for a token, and sends that one token with
both the album search and the track listing. The cache implements the OAuth 2.0
client-credentials grant (section 4.4 of RFC 6749). The token's `expires_in` is
a lifetime in seconds (section 5.1 of RFC 6749). The cache keeps the token until
that lifetime has passed.

This project models:

- `TokenCache`: the two module-level variables `spotifyToken` and `tokenExpiry`,
  as a class `TokenManager` with a method `GetToken`.
  - `GetToken` is proved against a pure step function `Lookup`.
  - Lemmas about `Lookup` and about runs of several calls (`Run`) state reuse,
    refresh, unit conversion and failure isolation.
- `Strings`: `Array.prototype.join` as used for artist names. The split that
  undoes it is the join's inverse.
- `Catalog`: the pure parts of `getMovieDetails`, `getSoundtrackFromMusicBrainz`
  and `getSpotifyTracksForAlbum`. The last one is also a method that goes
  through the token cache.
- `Query`: the `POST /query` handler's decision ladder, as a function `Decide`.
  It is also a method `HandleQuery` that runs the ladder against the token cache.

The clock and the upstream services are parameters:

- `now` is the clock when `getSpotifyToken` starts.
- `receivedAt` is the clock once the token endpoint has answered. The source
  reads `Date.now()` a second time after the `await`.
- The token endpoint's answer is an `Issuance` value: `Success(accessToken,
  expiresInSeconds)` or `Failure`. `GetToken` reports whether it sent the
  request (`requested`).
- The other HTTP requests are functions from what the request carries to the
  outcome of the call (`Fetch`: a body, or a thrown error). This lets contracts
  state what each request carries:
  - the soundtrack search uses the movie's `Title`;
  - the track lookup uses the soundtrack's `title`;
  - both Spotify requests carry the bearer token the cache returned.

Three behaviours of the code worth noting:

- The expiry is `Date.now() + expires_in * 1000`, in milliseconds. The clock is
  read after the token endpoint has answered, not when the call started.
- A failed token request is not fatal for the query. `getSpotifyTracksForAlbum`
  catches it and returns `[]`, so the reply is `{movie, soundtrack, songs: []}`
  (`Catalog.AlbumTracks`, `Query.HandleQuery`).
- An empty `access_token` is cached, and it is returned to the caller. Because
  the cache tests the token's truthiness, the next call refreshes again
  (`TokenCache.EmptyTokenNotReused`).

## Model

| member | source | states |
|---|---|---|
| `TokenCache.Lookup` | server.js:30-49 | A request goes out exactly when the token is empty or `now >= expiry`. A reuse returns the cached token and changes nothing. A refresh stores `access_token` and `receivedAt + expires_in * 1000`. The returned token is always the stored one. An error occurs exactly when a needed request fails, and it leaves the state unchanged. |
| `TokenCache.ExpiryAt` | server.js:47 | A positive lifetime gives an expiry after the time the answer arrived. A zero or negative lifetime gives an expiry at or before it. |
| `TokenCache.TokenManager.constructor` | server.js:26-27 | At process start the token is `""` and the expiry is 0. |
| `TokenCache.TokenManager.GetToken` | server.js:30-49 | The new state, the outcome and the request flag are those of `Lookup` on the old state. A failed issuance leaves both fields unchanged. |
| `TokenCache.RunWithinLifetime` | server.js:31 | Any number of calls made before the expiry of a non-empty token all get that token. They make no request and leave the cache unchanged. |
| `TokenCache.FailuresKeepCache` | server.js:33-47 | A run of calls whose issuance requests all fail never changes the cache. |
| `TokenCache.ReusedForItsLifetime` | server.js:31-47 | After a refresh with a non-empty token, a later call reuses it exactly when fewer than `expires_in * 1000` ms have passed since the answer arrived. |
| `TokenCache.EmptyTokenNotReused` | server.js:31-46 | If the endpoint issues an empty token, the next call sends a request again, whatever the lifetime. |
| `TokenCache.ThreeCallScenario` | server.js:30-49 | Three calls are made from the start state, at 0 s, 10 s and 3601 s, with a 3600 s lifetime. The first fetches, the second reuses, the third fetches again: two requests in all. |
| `Strings.Join` | server.js:103 | An empty list joins to `""`. Otherwise the result's length is the names' total length plus one separator between each pair of neighbours, and the result starts with the first name. |
| `Strings.SplitJoin` | server.js:103 | If the list is non-empty and no name contains `", "`, splitting the joined names on `", "` gives back exactly the names, in order. (The empty list joins to `""`, the same string as one nameless artist.) |
| `Strings.JoinConflates` | server.js:103 | Without that proviso the join is lossy. One artist named "Earth, Wind & Fire" renders the same as the two artists "Earth" and "Wind & Fire". |
| `Catalog.MovieDetails` | server.js:52-57 | A failed lookup stays an error. The movie is returned, unchanged, exactly when `Response` is the string `"True"`. |
| `Catalog.SoundtrackQuery` | server.js:63 | The MusicBrainz query starts with the movie title and is longer than it (the soundtrack filter follows). |
| `Catalog.SelectSoundtrack` | server.js:60-78 | A soundtrack is found exactly when the request succeeded and `release-groups` is present and non-empty. It is then the first group's `{title, id}`. |
| `Catalog.SelectionIgnoresLowerRanks` | server.js:67-74 | Release groups ranked after the first never change the selection. |
| `Catalog.ArtistNames` | server.js:103 | One name per artist, in order. A missing name becomes `""`, as `join` renders it. |
| `Catalog.ShapeTrack` | server.js:99-105 | A track maps to a record exactly when it has `external_urls` and `artists`. The record carries the track's name, its preview URL, its Spotify URL, the artist names joined with `", "`, and the album's name. |
| `Catalog.ShapeTracks` | server.js:99-105 | The mapping succeeds exactly when every track can be mapped. It then gives one record per track, in order, each equal to that track's mapping and each with the album's name. |
| `Catalog.AlbumTracks` | server.js:82-110 | The result is `[]` when the token, the album search or the track listing fails, or when the search has no first item. A non-empty result is the shaped listing of the first album found. Both requests carry the token the cache returned. |
| `Catalog.AlbumTracksComplete` | server.js:91-105 | When every step succeeds, the result has one record per listed track, in order, with its title, the album's name and its joined artists. |
| `Catalog.TracksForAlbum` | server.js:82-110 | The cache moves as `Lookup` says. The songs are `AlbumTracks` of the outcome `Lookup` gives. |
| `Query.Status` | server.js:113-131 | 400 exactly for a missing name, 500 exactly for a server error, 200 otherwise. |
| `Query.ErrorText` | server.js:113-131 | There is an `error` field exactly in the replies whose status is not 200. |
| `Query.Songs` | server.js:119-126 | Only the two replies for an accepted movie carry `songs`. The no-soundtrack reply carries `[]`; a reply with a soundtrack carries the fetched list. |
| `Query.Decide` | server.js:113-131 | The steps are checked in order: (1) a falsy input gives 400; a failed movie lookup gives 500; (2) an unaccepted movie gives `{unknown: true}`; (3) no soundtrack for the movie's own `Title` gives `{movie, songs: []}`; (4) otherwise the reply is `{movie, soundtrack, songs}`, with the songs looked up by the soundtrack's `title`. The movie record is passed through unchanged. |
| `Query.UnknownMovieReply` | server.js:113-119 | A title whose lookup answers `Response: "False"` gets `{unknown: true}` with status 200 and no songs. |
| `Query.HandleQuery` | server.js:113-131 | The reply is `Decide` with the track lookup going through the cache. The cache is consulted, and may be refreshed, only when a soundtrack was found. |

## Left out

- Express plumbing is not modelled: routing, `express.json`, static files, the catch-all `sendFile` and `app.listen` (server.js:1-19, 133-141). Only the reply each path produces is modelled, as `Query.Reply`.
- The HTTP requests themselves (axios) are not modelled. Their outcomes are inputs: an `Issuance` value for the token endpoint, and functions returning `Fetch` for the lookups.
- Not modelled, because they are library calls whose behaviour is not visible here: the Basic-auth header (`Buffer.from(...).toString("base64")`), the form body (`qs.stringify`), and `encodeURIComponent` in the request URLs.
- Concurrent interleaved requests are not modelled. Calls are sequential, so two requests that both find the cache expired, and both refresh, are not represented.
- `Date.now()` is not modelled. It is replaced by the integer parameters `now` and `receivedAt`.
- JavaScript numbers are modelled as unbounded integers. This covers `expires_in * 1000`, the expiry and JSON numbers in the request body. Floating-point rounding and `NaN` (for example, a missing `expires_in`) are not modelled.
- Environment configuration (`dotenv`, `process.env`, the API keys, the client id and secret, the port) and `console.error` logging are not modelled.
- Response bodies of unexpected shape are folded into `Fetch.Err` where the source would throw. This covers a missing `albums` or `items`, and a missing `external_urls` or `artists` on a track (those two are kept, since they make the whole listing `[]`). Not modelled: a non-string `Title` or album name, a non-array `release-groups`, a release group without a `title` (the source then searches Spotify for the text "undefined"), and a non-string `access_token`.
- `Catalog.SoundtrackQuery`: the body builds the full query, title followed by `" AND secondarytype:soundtrack"`, but the contract states only that the query begins with the title. The `fmt: "json"` request parameter is not modelled.
