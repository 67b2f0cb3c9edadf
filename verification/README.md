# MusicBoxAPI catalog, modelled in Dafny

MusicBoxAPI is a Laravel REST service over a three-level music catalog: an
artist has albums and an album has songs. This project models that service's
core as an in-memory store. The store has three tables keyed by id, one auto-increment counter per table, and a consistency invariant:

- every row is stored under its own id;
- ids come from the counters, which start at 1;
- every album's `artist_id` names an artist;
- every song's `album_id` names an album.

The model has these parts:

- `Models` (`models.dfy`):
  - the three Eloquent models as datatypes, and their `$fillable` lists;
  - the store `Db` and its invariant `Consistent`;
  - `create` as `NewX` and the partial `update` as `PatchX`;
  - the four relations (`artist`, `albums`, `songs`, `album`) as functions over the tables.
- `SongsMigration` (`songs_migration.dfy`): the `songs` table's foreign key and its `onDelete('cascade')`, as `DeleteAlbum`.
- `Requests` (`requests.dfy`): the six FormRequest rule sets. Each is one validator. It takes a JSON payload and either passes the validated fillable fields (`validated()`) or fails with exactly the failing keys.
- `Resources` (`resources.dfy`): the three API Resources.
  - A model value carries its loaded relations in its type.
  - A relation key is rendered only when that relation was loaded (`whenLoaded`).
- `Listing` (`listing.dfy`), the `index` queries:
  - query values are strings; each `when(...)` clause is skipped when its value is falsy (absent, `""` or `"0"`);
  - `year`, `min_duration` and `max_duration` are compared as integers read from their strings;
  - `like '%v%'` is a substring match;
  - `explode(',')`/`whereIn` is exact membership among the comma-separated pieces;
  - `paginate($request->per_page ?? 10)` takes one page of the filtered rows.
- `Controllers` (`controllers.dfy`), the three controllers:
  - reads (`index`, `show`, `songs`) are functions of the store;
  - a single resource, and a page of resources, is answered under the `data` key;
  - writes (`store`, `update`, `destroy`) are methods of the `Catalog` class, which owns the tables and keeps `Consistent` across every call;
  - route-model binding answers 404 before validation;
  - a failed form request answers 422 and changes nothing.
- `Tables` and `Text` are generic helpers: table scans, filters, `when`, substring search, `explode`/`implode`.

Listings come out in ascending id order. The queries carry no `orderBy`, so this is one of the orders the database may return.

## Model

| member | source | states |
|---|---|---|
| `Tables.When` | app/Http/Controllers/AlbumController.php:57-59 | a `when(value, clause)` keeps a row iff it was there and, when the guard is truthy, satisfies the clause; a falsy guard keeps every row |
| `Text.Split` | app/Http/Controllers/ArtistController.php:64 | `explode(',')` yields at least one piece and no piece contains the separator |
| `Text.JoinSplit` | app/Http/Controllers/ArtistController.php:64 | joining the pieces of `explode` with the separator gives the original string back |
| `Text.SplitJoin` | app/Http/Controllers/ArtistController.php:64 | splitting a join of separator-free pieces gives exactly those pieces back |
| `Text.ParseInt` | app/Http/Controllers/AlbumController.php:59 | a query string is read as an integer iff it is a non-empty run of decimal digits, optionally after one `-`; a digit run reads as its decimal value |
| `Text.ParseDecimal` | app/Http/Controllers/SongController.php:37-38 | the decimal spelling of every natural number, and its negation with a leading `-`, read back as that number |
| `Text.LeadingZeros` | app/Http/Controllers/AlbumController.php:59 | `"0"`, `"00"` and `"007"` read as 0, 0 and 7; `"abc"`, `"2.5"` and `""` are not integers |
| `Models.ScansAreComplete` | app/Http/Controllers/AlbumController.php:56 | in a consistent store a full table scan holds exactly the rows of the table |
| `Models.PatchesAreIdempotent` | app/Http/Controllers/AlbumController.php:121 | `update` with no fields changes nothing, and applying the same update twice equals applying it once, for all three models |
| `Models.NewArtist` | app/Http/Controllers/ArtistController.php:87 | `Artist::create` gives a row under the given id whose attributes are exactly the validated ones |
| `Models.NewAlbum` | app/Http/Controllers/AlbumController.php:79 | `Album::create` gives a row under the given id whose attributes are exactly the validated ones |
| `Models.NewSong` | app/Http/Controllers/SongController.php:62 | `Song::create` gives a row under the given id whose attributes are exactly the validated ones |
| `Models.PatchArtist` | app/Http/Controllers/ArtistController.php:131 | `$artist->update(...)` keeps the id, takes each supplied attribute and keeps each other one; a patch supplying all three gives the row `create` would make under that id |
| `Models.PatchAlbum` | app/Http/Controllers/AlbumController.php:121 | `$album->update(...)` keeps the id, takes each supplied attribute (a supplied `artist_id` moves the album) and keeps each other one; a full patch equals `create` under that id |
| `Models.PatchSong` | app/Http/Controllers/SongController.php:97 | `$song->update(...)` keeps the id, takes each supplied attribute (a supplied `album_id` moves the song) and keeps each other one; a full patch equals `create` under that id |
| `Models.AlbumsOf` | app/Models/Artist.php:26-28 | an artist's albums are albums of the store whose `artist_id` is the artist's id, and every such album is among them |
| `Models.SongsOf` | app/Models/Album.php:30-32 | an album's songs are songs of the store whose `album_id` is the album's id, and every such song is among them |
| `Models.RelationsResolve` | app/Models/Album.php:26-32 | in a consistent store every album's artist and every song's album exist with the referenced id, and both hasMany relations hold exactly the rows that point back |
| `Models.RelationsAscending` | app/Models/Album.php:30-32 | in a consistent store the table scans and both hasMany relations list their rows in strictly ascending id order |
| `Models.SongsOfAscending` | app/Models/Album.php:30-32 | in a consistent store an album's songs are listed in strictly ascending id order |
| `Models.BelongsToMatchesById` | app/Models/Album.php:26-28 | in a consistent store `belongsTo` resolves by id: a stored artist (album) is the relation's value iff its id is the foreign key, and the relation is empty iff no stored row has that id |
| `Models.CreateArtistKeepsConsistency` | app/Http/Controllers/ArtistController.php:87 | inserting an artist under the next id keeps the store consistent, and the new artist has no albums |
| `Models.CreateAlbumKeepsConsistency` | app/Http/Controllers/AlbumController.php:79 | inserting an album whose artist exists keeps the store consistent, and the new album has no songs |
| `Models.CreateSongKeepsConsistency` | app/Http/Controllers/SongController.php:62 | inserting a song whose album exists keeps the store consistent |
| `Models.UpdateArtistKeepsConsistency` | app/Http/Controllers/ArtistController.php:131 | updating an artist keeps the store consistent |
| `Models.UpdateAlbumKeepsConsistency` | app/Http/Controllers/AlbumController.php:121 | updating an album keeps the store consistent when its artist after the update exists |
| `Models.UpdateSongKeepsConsistency` | app/Http/Controllers/SongController.php:97 | updating a song keeps the store consistent when its album after the update exists |
| `SongsMigration.DeleteAlbum` | database/migrations/2025_09_29_114618_create_songs_table.php:15-17 | deleting an album removes that album and exactly the songs whose `album_id` is it; every other row and the counters are unchanged |
| `SongsMigration.DeleteAlbumKeepsConsistency` | database/migrations/2025_09_29_114618_create_songs_table.php:15-17 | after the cascade no song references a missing album: the store stays consistent |
| `SongsMigration.DeleteAlbumRowCount` | database/migrations/2025_09_29_114618_create_songs_table.php:17 | deleting an album with N songs removes exactly one album row and N song rows |
| `SongsMigration.SongsOfCountsCascade` | database/migrations/2025_09_29_114618_create_songs_table.php:15-17 | an album's `songs` relation lists as many songs as the cascade deletes with the album: each referencing song exactly once |
| `SongsMigration.ForeignKeyHolds` | database/migrations/2025_09_29_114618_create_songs_table.php:15-16 | a store holding a song whose `album_id` names no album is not consistent; in a consistent store every song's `album_id` is the id of a stored album |
| `Requests.ValidateStoreArtist` | app/Http/Requests/StoreArtistRequest.php:13-17 | passes iff `name`, `genre` and `country` are each a non-blank string of at most 255 characters; then the attributes are the payload's values; otherwise the errors are exactly the failing fields |
| `Requests.ValidateUpdateArtist` | app/Http/Requests/UpdateArtistRequest.php:13-17 | passes iff every present artist field is a non-blank string of at most 255 characters; the patch sets exactly the present fields, to the payload's values; errors are exactly the failing fields |
| `Requests.ValidateStoreAlbum` | app/Http/Requests/StoreAlbumRequest.php:13-17 | passes iff `title` is a valid string, `year` an integer and `artist_id` an integer naming an existing artist; the attributes are the payload's values; errors are exactly the failing fields |
| `Requests.ValidateUpdateAlbum` | app/Http/Requests/UpdateAlbumRequest.php:13-17 | passes iff every present album field satisfies its rule, a present `artist_id` naming an existing artist; the patch sets exactly the present fields; errors are exactly the failing fields |
| `Requests.ValidateStoreSong` | app/Http/Requests/StoreSongRequest.php:13-17 | passes iff `title` is a valid string, `duration` an integer and `album_id` an integer naming an existing album; the attributes are the payload's values; errors are exactly the failing fields |
| `Requests.ValidateUpdateSong` | app/Http/Requests/UpdateSongRequest.php:13-17 | passes iff every present song field satisfies its rule, a present `album_id` naming an existing album; the patch sets exactly the present fields; errors are exactly the failing fields |
| `Requests.UnfillableKeysIgnored` | app/Models/Album.php:24 | a key outside the three `$fillable` lists (`id`, timestamps, anything else) changes the outcome of none of the six requests |
| `Requests.EmptyUpdatesPass` | app/Http/Requests/UpdateAlbumRequest.php:14-16 | an empty payload passes all three update requests with an empty patch |
| `Requests.MissingOrDanglingRejected` | app/Http/Requests/StoreArtistRequest.php:14-16 | a create payload missing a required artist field is rejected with that field in the errors, and so is an album or song whose foreign key names no row |
| `Requests.StringRuleBounds` | app/Http/Requests/StoreArtistRequest.php:14 | the `required`, `string` and `max:255` rules accept a string iff it is non-blank and at most 255 characters long |
| `Resources.AlbumsJson` | app/Http/Resources/ArtistResource.php:14 | an album collection renders one entry per album, in order, each by the album rule |
| `Resources.SongsJson` | app/Http/Resources/AlbumResource.php:14 | a song collection renders one entry per song, in order, each by the song rule |
| `Resources.Wrap` | app/Http/Controllers/AlbumController.php:101 | a resource answered on its own is an object whose only key is `data`, holding the rendered resource |
| `Resources.ArtistJson` | app/Http/Resources/ArtistResource.php:9-15 | an artist renders exactly `id`, `name`, `genre`, `country`, and `albums` iff loaded; `id`, `name`, `genre` and `country` hold the row's values; `albums` is the loaded albums rendered by the album collection rule |
| `Resources.AlbumJson` | app/Http/Resources/AlbumResource.php:9-15 | an album renders exactly `id`, `title`, `year`, `artist` iff loaded and `songs` iff loaded, never `artist_id`; `id`, `title` and `year` hold the row's values; a loaded artist renders by the artist rule, or `null` when none was found; `songs` holds each loaded song by the song rule, in order |
| `Resources.SongJson` | app/Http/Resources/SongResource.php:9-14 | a song renders exactly `id`, `title`, `duration`, and `album` iff loaded, never `album_id`; `id`, `title` and `duration` hold the row's values; a loaded album renders by the album rule, or `null` when none was found |
| `Listing.FilterArtists` | app/Http/Controllers/ArtistController.php:61-67 | an artist is listed iff it is a row of the table and satisfies every applied name, genre and country criterion |
| `Listing.FilterArtistsExact` | app/Http/Controllers/ArtistController.php:61-67 | in a consistent store the listed artists are exactly the stored artists matching all applied criteria |
| `Listing.GenreMatching` | app/Http/Controllers/ArtistController.php:63-66 | a genre value without a comma matches only that exact genre; a genre containing a comma never matches; `rock,pop` matches exactly `rock` and `pop`, so not `rock-pop` |
| `Listing.FilterAlbums` | app/Http/Controllers/AlbumController.php:56-59 | an album is listed iff it is a row of the table whose title contains `title`, whose artist's name contains `artist` and whose year is `year`, for the criteria applied |
| `Listing.FilterAlbumsExact` | app/Http/Controllers/AlbumController.php:56-59 | in a consistent store the listed albums are exactly the stored albums matching all applied criteria |
| `Listing.FilterSongs` | app/Http/Controllers/SongController.php:33-38 | a song is listed iff it is a row of the table matching the applied title, two-hop artist-name, album-title and inclusive duration criteria |
| `Listing.FilterSongsExact` | app/Http/Controllers/SongController.php:33-38 | in a consistent store the listed songs are exactly the stored songs matching all applied criteria |
| `Listing.PageOf` | app/Http/Controllers/AlbumController.php:60 | a page holds at most `per_page` rows, exactly the rows of the result from index `(page - 1) * per_page` up to `page * per_page` or the end, and none past the end; page 1 is the result's prefix |
| `Listing.PagesAscending` | app/Http/Controllers/AlbumController.php:56-60 | every page of the three indexes lists its rows in strictly ascending id order, so no row appears twice on a page |
| `Listing.FirstPagesArePrefix` | app/Http/Controllers/AlbumController.php:60 | the first k pages, concatenated, are the first k * `per_page` rows of the result |
| `Listing.ListAlbums` | app/Http/Controllers/AlbumController.php:56-60 | an album page is exactly the slice of the matching albums from index `(page - 1) * per_page` up to `page * per_page` (or the end), `per_page` being 10 by default; a page past the end is empty; each listed album is a stored album matching every applied criterion |
| `Listing.ListArtists` | app/Http/Controllers/ArtistController.php:61-68 | an artist page is exactly the slice of the matching artists from index `(page - 1) * per_page` up to `page * per_page` (or the end), `per_page` being 10 by default; a page past the end is empty; each listed artist matches every applied criterion |
| `Listing.ListSongs` | app/Http/Controllers/SongController.php:33-39 | a song page is exactly the slice of the matching songs from index `(page - 1) * per_page` up to `page * per_page` (or the end), `per_page` being 10 by default; a page past the end is empty; each listed song matches every applied criterion |
| `Listing.FalsyCriteriaSkipped` | app/Http/Controllers/AlbumController.php:57-59 | a criterion that is absent, `""` or `"0"` gives the same result as no criterion, for each of the eleven criteria of the three indexes (album title, artist, year; artist name, genre, country; song title, artist, album, min and max duration); no criteria list every row |
| `Listing.DurationBounds` | app/Http/Controllers/SongController.php:37-38 | with both bounds applied, both are integers and every listed song has min ≤ duration ≤ max |
| `Listing.ZeroSpelledOtherwiseApplies` | app/Http/Controllers/AlbumController.php:59 | only `""` and `"0"` are falsy: `year=00` is applied and lists exactly the albums of year 0, and `min_duration=00` lists exactly the songs of at least 0 seconds |
| `Listing.AlbumCriteriaMonotonic` | app/Http/Controllers/AlbumController.php:56-59 | adding album criteria can only remove albums from the result |
| `Listing.FilterAlbumsIsConjunction` | app/Http/Controllers/AlbumController.php:57-59 | the album `when` chain equals one filter by the conjunction of the applied criteria: same rows in the same order |
| `Listing.FilterArtistsIsConjunction` | app/Http/Controllers/ArtistController.php:61-67 | the artist `when` chain equals one filter by the conjunction of the applied criteria |
| `Listing.FilterSongsIsConjunction` | app/Http/Controllers/SongController.php:34-38 | the song `when` chain equals one filter by the conjunction of the applied criteria |
| `Controllers.Unprocessable` | app/Http/Requests/StoreAlbumRequest.php:13-17 | a failed form request answers 422 with an `errors` object keyed by exactly the failing fields |
| `Controllers.IndexArtists` | app/Http/Controllers/ArtistController.php:59-71 | answers 200 with `data` holding the page's artists in order, each rendered with `albums.songs` loaded |
| `Controllers.IndexAlbums` | app/Http/Controllers/AlbumController.php:54-63 | answers 200 with `data` holding the page's albums in order, each rendered with `artist` and `songs` loaded |
| `Controllers.IndexSongs` | app/Http/Controllers/SongController.php:31-42 | answers 200 with `data` holding the page's songs in order, each rendered with `album.artist` loaded |
| `Controllers.ArtistTree` | app/Http/Controllers/ArtistController.php:107 | `load('albums.songs')` loads the artist's albums, in order, each with its songs and without its artist; the songs carry no album |
| `Controllers.AlbumTree` | app/Http/Controllers/AlbumController.php:100 | `load('artist', 'songs')` loads the album's artist (present iff its `artist_id` names one, without albums) and its songs in order, without their album |
| `Controllers.SongTree` | app/Http/Controllers/SongController.php:81 | `load('album.artist')` loads the song's album (present iff its `album_id` names one) without its songs, and that album's artist (present iff it exists) without albums |
| `Controllers.ArtistTreeAlbums` | app/Http/Controllers/ArtistController.php:107 | the rendered `albums` of an artist are its albums in order, each with `songs` and without `artist` |
| `Controllers.ShowArtistShape` | app/Http/Controllers/ArtistController.php:105-109 | unknown id: 404; otherwise 200 with the artist under `data`: exactly `id` (the requested id), `name`, `genre`, `country` and `albums`, one entry per album of the artist, in order, empty when it has none, each with its id, `songs` (one per song of that album) and no back-reference |
| `Controllers.ShowAlbumShape` | app/Http/Controllers/AlbumController.php:98-102 | unknown id: 404; otherwise 200 with the album under `data`: exactly `id` (the requested id), `title`, `year`, `artist` and `songs`; `artist` is the artist whose id is the album's `artist_id`, without `albums`; `songs` has one entry per song of the album, in order, each with its id and without `album` |
| `Controllers.ShowSongShape` | app/Http/Controllers/SongController.php:79-83 | unknown id: 404; otherwise 200 with the song under `data`: exactly `id` (the requested id), `title`, `duration` and `album`; the album is the song's album, with its `artist` and without `songs`; that artist is the album's and has no `albums` |
| `Controllers.AlbumSongsAreTheAlbums` | app/Http/Controllers/AlbumController.php:159-162 | unknown album: 404; otherwise 200 with a bare array, not wrapped and not paginated, holding exactly the album's songs: each item is the attributes and `album_id` of a stored song of that album, every song of the album appears, the items are in strictly ascending id order (so none twice), and their number is the number of songs the cascade would delete with the album |
| `Controllers.UpdateArtistTouchesOnlySupplied` | app/Http/Controllers/ArtistController.php:131 | a passing artist update sets exactly the supplied fields to the supplied values; the id and all other fields keep their values |
| `Controllers.UpdateAlbumTouchesOnlySupplied` | app/Http/Controllers/AlbumController.php:121 | a passing album update sets exactly the supplied fields, may move the album to another existing artist, and keeps the id and all other fields |
| `Controllers.UpdateSongTouchesOnlySupplied` | app/Http/Controllers/SongController.php:97 | a passing song update sets exactly the supplied fields, may move the song to another existing album, and keeps the id and all other fields |
| `Controllers.Catalog.StoreArtist` | app/Http/Controllers/ArtistController.php:85-89 | invalid payload: 422 and nothing changes; otherwise exactly one artist is inserted under the next id from the validated fields, and the answer is 201 with it under `data` as `show` would render it, with `albums` empty |
| `Controllers.Catalog.UpdateArtist` | app/Http/Controllers/ArtistController.php:129-133 | unknown id: 404; invalid payload: 422; otherwise only that artist changes, by the validated patch, and the answer is 200 with what `show` now returns, under `data` |
| `Controllers.Catalog.DestroyArtist` | app/Http/Controllers/ArtistController.php:149-153 | unknown id: 404; otherwise the artist row is removed, nothing else changes, and the answer is 204 with a null body |
| `Controllers.Catalog.StoreAlbum` | app/Http/Controllers/AlbumController.php:77-81 | invalid payload: 422 and nothing changes; otherwise exactly one album is inserted under the next id from the validated fields; 201 with it under `data` as `show` renders it, its `artist.id` being the payload's `artist_id` and `songs` empty |
| `Controllers.Catalog.UpdateAlbum` | app/Http/Controllers/AlbumController.php:119-123 | unknown id: 404; invalid payload: 422; otherwise only that album changes, by the validated patch, and the answer is 200 with what `show` now returns, under `data` |
| `Controllers.Catalog.DestroyAlbum` | app/Http/Controllers/AlbumController.php:139-143 | unknown id: 404; otherwise the new store is the cascade `DeleteAlbum` of the old one, and the answer is 204 with a null body |
| `Controllers.Catalog.StoreSong` | app/Http/Controllers/SongController.php:60-64 | invalid payload: 422 and nothing changes; otherwise exactly one song is inserted under the next id; 201 with it under `data` as `show` renders it, its `album.id` being the payload's `album_id` |
| `Controllers.Catalog.UpdateSong` | app/Http/Controllers/SongController.php:95-99 | unknown id: 404; invalid payload: 422; otherwise only that song changes, by the validated patch, and the answer is 200 with what `show` now returns, under `data` |
| `Controllers.Catalog.DestroySong` | app/Http/Controllers/SongController.php:110-114 | unknown id: 404; otherwise the song row is removed, nothing else changes, and the answer is 204 with a null body |

Every `Catalog` method also keeps `Valid()`, the store's consistency invariant.

## Left out

- Authentication, the route table and the Swagger annotations. Every call is treated as authenticated and already routed.
- Paginator output beyond the items:
  - Controllers.IndexArtists, Controllers.IndexAlbums and Controllers.IndexSongs state that the body's only key is `data`; that key set is the model's, because the paginated response also carries `links` and `meta`;
  - the `links` and `meta` objects are not modelled;
  - a `per_page` that is 0, negative or not a number is not modelled;
  - `per_page` and `page` are positive integers by type.
- Row order. The queries do not order their rows, and the model lists them in ascending id order.
- `LIKE` wildcards and case folding.
  - Listing.ListAlbums, Listing.ListArtists and Listing.ListSongs require their `LIKE` criteria to contain no `%`, `_` or `\`. In SQL the first two act as wildcards and the backslash is the escape character, and the model matches plain substrings.
  - Case-insensitive collations are not modelled: matching is case-sensitive.
- Requests.ValidateStoreAlbum: only JSON integers pass the `integer` rule here. The framework's rule also accepts numeric strings such as `"1990"`, booleans, and floats with no fractional part; those payloads are rejected by the model.
- Requests.ValidateUpdateAlbum: the same narrowing of the `integer` rule.
- Requests.ValidateStoreSong: the same narrowing of the `integer` rule.
- Requests.ValidateUpdateSong: the same narrowing of the `integer` rule.
- Listing.FilterAlbums: a truthy `year` that is not an integer string (such as `"abc"` or `"2.5"`) matches no album. How the database compares such a string with an integer column depends on the database and is not modelled.
- Listing.FilterSongs: a truthy duration bound that is not an integer string excludes every song, for the same reason.
- Controllers.Unprocessable: the 422 body holds only the `errors` object, each failing field mapped to `null`. The framework also sends a `message` string, and a list of messages per field. It answers 422 in JSON only to a request that expects JSON; any other request is redirected back, which is not modelled.
- Controllers.NotFound: the 404 body is `null`. The framework's JSON body with its `message` is not modelled.
- The `TrimStrings` and `ConvertEmptyStringsToNull` middleware are not modelled. Instead, `required` rejects blank strings itself. The members below take the values as the application sees them only when the input carries no surrounding whitespace.
- Listing.FilterArtists: the source trims each query value and turns a blank one into null, so `?name=%20` is skipped there; the model applies `" "` as a criterion.
- Listing.FilterAlbums: the same trimming; in addition `?year=%202001` reaches the source as `"2001"` and is applied, while the model reads `" 2001"` as no integer and lists nothing.
- Listing.FilterSongs: the same trimming for `title`, `artist` and `album`, and for the duration bounds as for `year`.
- Requests.ValidateStoreArtist: the source trims each string before validating and storing it, so `max:255` counts the trimmed length and the stored value has no surrounding whitespace; the model checks and stores the value as given.
- Requests.ValidateUpdateArtist: the same trimming.
- Requests.ValidateStoreAlbum: the same trimming for `title`.
- Requests.ValidateUpdateAlbum: the same trimming for `title`.
- Requests.ValidateStoreSong: the same trimming for `title`.
- Requests.ValidateUpdateSong: the same trimming for `title`.
- `authorize()` returns true in all six requests. It therefore adds no path and is not modelled.
- Timestamps (`created_at`, `updated_at`) are store-maintained. They are not part of any payload or rendered resource, and the model omits them from the raw JSON of `songs(album)` as well.
- `duration` is a `time` column in the songs migration, but validation and the filters treat it as an integer. It is modelled as an integer number of seconds.
- The migration's `down()`, and the table creation itself, are not modelled. The columns are the fields of `Models.Song`, and the foreign key is an invariant of the store.
- Controllers.Catalog.DestroyArtist requires that the artist has no albums. The albums migration, which would fix what happens to an artist's albums, is not part of this model.
- The key order of rendered JSON objects is not modelled, because objects are maps.
- Transactions, concurrency, database errors and the HTTP layer beyond status code and body are not modelled.
