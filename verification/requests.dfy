/** The six form requests. Each `authorize()` returns true, so a request is
    decided by its `rules()` alone; each rule set is a predicate over a JSON
    payload whose keys are either absent or present with some value. What
    passes is handed on as `validated()`: only the keys that have rules, which
    are exactly the model's fillable attributes. */
module Requests {
  import opened Wrappers
  import opened Tables
  import opened Text
  import opened Models

  /** A value in a request payload. `Other` stands for booleans, floats,
      arrays and objects. The model rejects `Other` under every rule; the
      framework's `integer` rule would in fact also accept a boolean and a
      float with no fractional part, which this model does not capture. */
  datatype Value = Null | Str(s: string) | Int(n: int) | Other

  type Payload = map<string, Value>

  /** `validated()` on success; the names of the failing fields otherwise
      (answered with status 422). */
  datatype Validated<T> = Passes(value: T) | Fails(errors: set<string>)

  /** `required|string|max:255` on a present value: a string that is not
      blank after trimming and has at most 255 characters. */
  predicate StringRule(v: Value) {
    v.Str? && !IsBlank(v.s) && |v.s| <= 255
  }

  /** `required|integer` on a present value. */
  predicate IntegerRule(v: Value) {
    v.Int?
  }

  /** `required|integer|exists:<table>,id` on a present value: the id of a row
      of that table. */
  predicate ExistsRule(v: Value, ids: set<Id>) {
    v.Int? && v.n >= 0 && v.n in ids
  }

  /** The error set of a rule set: the fields whose check failed. */
  function Errors(k1: string, ok1: bool, k2: string, ok2: bool, k3: string, ok3: bool): (e: set<string>)
    ensures e == {} <==> ok1 && ok2 && ok3
    ensures forall k :: k in e <==> (k == k1 && !ok1) || (k == k2 && !ok2) || (k == k3 && !ok3)
  {
    (if ok1 then {} else {k1}) + (if ok2 then {} else {k2}) + (if ok3 then {} else {k3})
  }

  // ---- StoreArtistRequest ----

  predicate StoreArtistFieldOk(p: Payload, k: string) {
    k in p && StringRule(p[k])
  }

  function ValidateStoreArtist(p: Payload): (r: Validated<ArtistAttrs>)
    ensures r.Passes? <==> forall k :: k in ArtistFillable ==> StoreArtistFieldOk(p, k)
    ensures r.Passes? ==> r.value == ArtistAttrs(p["name"].s, p["genre"].s, p["country"].s)
    ensures r.Fails? ==> forall k :: k in r.errors <==> k in ArtistFillable && !StoreArtistFieldOk(p, k)
  {
    var e := Errors("name", StoreArtistFieldOk(p, "name"), "genre", StoreArtistFieldOk(p, "genre"),
                    "country", StoreArtistFieldOk(p, "country"));
    if e == {} then Passes(ArtistAttrs(p["name"].s, p["genre"].s, p["country"].s)) else Fails(e)
  }

  // ---- UpdateArtistRequest ----

  predicate UpdateArtistFieldOk(p: Payload, k: string) {
    k !in p || StringRule(p[k])
  }

  /** The present string field `k`, if any. */
  function StrField(p: Payload, k: string): Option<string>
    requires k in p ==> p[k].Str?
  {
    if k in p then Some(p[k].s) else None
  }

  function ValidateUpdateArtist(p: Payload): (r: Validated<ArtistPatch>)
    ensures r.Passes? <==> forall k :: k in ArtistFillable ==> UpdateArtistFieldOk(p, k)
    ensures r.Passes? ==> && (r.value.name.Some? <==> "name" in p)
                          && (r.value.genre.Some? <==> "genre" in p)
                          && (r.value.country.Some? <==> "country" in p)
                          && ("name" in p ==> r.value.name.value == p["name"].s)
                          && ("genre" in p ==> r.value.genre.value == p["genre"].s)
                          && ("country" in p ==> r.value.country.value == p["country"].s)
    ensures r.Fails? ==> forall k :: k in r.errors <==> k in ArtistFillable && !UpdateArtistFieldOk(p, k)
  {
    var e := Errors("name", UpdateArtistFieldOk(p, "name"), "genre", UpdateArtistFieldOk(p, "genre"),
                    "country", UpdateArtistFieldOk(p, "country"));
    if e == {} then Passes(ArtistPatch(StrField(p, "name"), StrField(p, "genre"), StrField(p, "country")))
    else Fails(e)
  }

  // ---- StoreAlbumRequest ----

  /** The checks of the three album fields, `artist_id` against the ids of
      the existing artists. */
  predicate StoreAlbumFieldOk(p: Payload, k: string, artistIds: set<Id>) {
    k in p && AlbumValueOk(k, p[k], artistIds)
  }

  predicate AlbumValueOk(k: string, v: Value, artistIds: set<Id>) {
    if k == "title" then StringRule(v)
    else if k == "year" then IntegerRule(v)
    else ExistsRule(v, artistIds)
  }

  function ValidateStoreAlbum(p: Payload, artistIds: set<Id>): (r: Validated<AlbumAttrs>)
    ensures r.Passes? <==> forall k :: k in AlbumFillable ==> StoreAlbumFieldOk(p, k, artistIds)
    ensures r.Passes? ==> && r.value.title == p["title"].s && r.value.year == p["year"].n
                          && r.value.artistId == p["artist_id"].n && r.value.artistId in artistIds
    ensures r.Fails? ==> forall k :: k in r.errors <==> k in AlbumFillable && !StoreAlbumFieldOk(p, k, artistIds)
  {
    var e := Errors("title", StoreAlbumFieldOk(p, "title", artistIds), "year", StoreAlbumFieldOk(p, "year", artistIds),
                    "artist_id", StoreAlbumFieldOk(p, "artist_id", artistIds));
    if e == {} then Passes(AlbumAttrs(p["title"].s, p["year"].n, p["artist_id"].n)) else Fails(e)
  }

  // ---- UpdateAlbumRequest ----

  predicate UpdateAlbumFieldOk(p: Payload, k: string, artistIds: set<Id>) {
    k !in p || AlbumValueOk(k, p[k], artistIds)
  }

  function ValidateUpdateAlbum(p: Payload, artistIds: set<Id>): (r: Validated<AlbumPatch>)
    ensures r.Passes? <==> forall k :: k in AlbumFillable ==> UpdateAlbumFieldOk(p, k, artistIds)
    ensures r.Passes? ==> && (r.value.title.Some? <==> "title" in p)
                          && (r.value.year.Some? <==> "year" in p)
                          && (r.value.artistId.Some? <==> "artist_id" in p)
                          && ("title" in p ==> r.value.title.value == p["title"].s)
                          && ("year" in p ==> r.value.year.value == p["year"].n)
                          && ("artist_id" in p ==> r.value.artistId.value == p["artist_id"].n
                                                   && r.value.artistId.value in artistIds)
    ensures r.Fails? ==> forall k :: k in r.errors <==> k in AlbumFillable && !UpdateAlbumFieldOk(p, k, artistIds)
  {
    var e := Errors("title", UpdateAlbumFieldOk(p, "title", artistIds), "year", UpdateAlbumFieldOk(p, "year", artistIds),
                    "artist_id", UpdateAlbumFieldOk(p, "artist_id", artistIds));
    if e == {} then
      Passes(AlbumPatch(StrField(p, "title"),
                        if "year" in p then Some(p["year"].n) else None,
                        if "artist_id" in p then Some(p["artist_id"].n as Id) else None))
    else Fails(e)
  }

  // ---- StoreSongRequest ----

  predicate SongValueOk(k: string, v: Value, albumIds: set<Id>) {
    if k == "title" then StringRule(v)
    else if k == "duration" then IntegerRule(v)
    else ExistsRule(v, albumIds)
  }

  predicate StoreSongFieldOk(p: Payload, k: string, albumIds: set<Id>) {
    k in p && SongValueOk(k, p[k], albumIds)
  }

  function ValidateStoreSong(p: Payload, albumIds: set<Id>): (r: Validated<SongAttrs>)
    ensures r.Passes? <==> forall k :: k in SongFillable ==> StoreSongFieldOk(p, k, albumIds)
    ensures r.Passes? ==> && r.value.title == p["title"].s && r.value.duration == p["duration"].n
                          && r.value.albumId == p["album_id"].n && r.value.albumId in albumIds
    ensures r.Fails? ==> forall k :: k in r.errors <==> k in SongFillable && !StoreSongFieldOk(p, k, albumIds)
  {
    var e := Errors("title", StoreSongFieldOk(p, "title", albumIds), "duration", StoreSongFieldOk(p, "duration", albumIds),
                    "album_id", StoreSongFieldOk(p, "album_id", albumIds));
    if e == {} then Passes(SongAttrs(p["title"].s, p["duration"].n, p["album_id"].n)) else Fails(e)
  }

  // ---- UpdateSongRequest ----

  predicate UpdateSongFieldOk(p: Payload, k: string, albumIds: set<Id>) {
    k !in p || SongValueOk(k, p[k], albumIds)
  }

  function ValidateUpdateSong(p: Payload, albumIds: set<Id>): (r: Validated<SongPatch>)
    ensures r.Passes? <==> forall k :: k in SongFillable ==> UpdateSongFieldOk(p, k, albumIds)
    ensures r.Passes? ==> && (r.value.title.Some? <==> "title" in p)
                          && (r.value.duration.Some? <==> "duration" in p)
                          && (r.value.albumId.Some? <==> "album_id" in p)
                          && ("title" in p ==> r.value.title.value == p["title"].s)
                          && ("duration" in p ==> r.value.duration.value == p["duration"].n)
                          && ("album_id" in p ==> r.value.albumId.value == p["album_id"].n
                                                  && r.value.albumId.value in albumIds)
    ensures r.Fails? ==> forall k :: k in r.errors <==> k in SongFillable && !UpdateSongFieldOk(p, k, albumIds)
  {
    var e := Errors("title", UpdateSongFieldOk(p, "title", albumIds), "duration", UpdateSongFieldOk(p, "duration", albumIds),
                    "album_id", UpdateSongFieldOk(p, "album_id", albumIds));
    if e == {} then
      Passes(SongPatch(StrField(p, "title"),
                       if "duration" in p then Some(p["duration"].n) else None,
                       if "album_id" in p then Some(p["album_id"].n as Id) else None))
    else Fails(e)
  }

  // ---- Properties across the rule sets ----

  /** A key that is not fillable (`id`, `created_at`, anything else) has no
      effect on any of the six requests: it is neither checked nor passed on. */
  lemma UnfillableKeysIgnored(p: Payload, k: string, v: Value, ids: set<Id>)
    requires k !in ArtistFillable + AlbumFillable + SongFillable
    ensures ValidateStoreArtist(p[k := v]) == ValidateStoreArtist(p)
    ensures ValidateUpdateArtist(p[k := v]) == ValidateUpdateArtist(p)
    ensures ValidateStoreAlbum(p[k := v], ids) == ValidateStoreAlbum(p, ids)
    ensures ValidateUpdateAlbum(p[k := v], ids) == ValidateUpdateAlbum(p, ids)
    ensures ValidateStoreSong(p[k := v], ids) == ValidateStoreSong(p, ids)
    ensures ValidateUpdateSong(p[k := v], ids) == ValidateUpdateSong(p, ids)
  {
    ArtistRequestsIgnore(p, k, v);
    AlbumRequestsIgnore(p, k, v, ids);
    SongRequestsIgnore(p, k, v, ids);
  }

  lemma ArtistRequestsIgnore(p: Payload, k: string, v: Value)
    requires k !in ArtistFillable
    ensures ValidateStoreArtist(p[k := v]) == ValidateStoreArtist(p)
    ensures ValidateUpdateArtist(p[k := v]) == ValidateUpdateArtist(p)
  {
    var q := p[k := v];
    assert forall j :: j in ArtistFillable ==> (j in q <==> j in p) && (j in p ==> q[j] == p[j]);
  }

  lemma AlbumRequestsIgnore(p: Payload, k: string, v: Value, ids: set<Id>)
    requires k !in AlbumFillable
    ensures ValidateStoreAlbum(p[k := v], ids) == ValidateStoreAlbum(p, ids)
    ensures ValidateUpdateAlbum(p[k := v], ids) == ValidateUpdateAlbum(p, ids)
  {
    var q := p[k := v];
    assert forall j :: j in AlbumFillable ==> (j in q <==> j in p) && (j in p ==> q[j] == p[j]);
  }

  lemma SongRequestsIgnore(p: Payload, k: string, v: Value, ids: set<Id>)
    requires k !in SongFillable
    ensures ValidateStoreSong(p[k := v], ids) == ValidateStoreSong(p, ids)
    ensures ValidateUpdateSong(p[k := v], ids) == ValidateUpdateSong(p, ids)
  {
    var q := p[k := v];
    assert forall j :: j in SongFillable ==> (j in q <==> j in p) && (j in p ==> q[j] == p[j]);
  }

  /** Every field of an update is optional: an empty payload passes all three
      update requests and changes nothing. */
  lemma EmptyUpdatesPass(ids: set<Id>)
    ensures ValidateUpdateArtist(map[]) == Passes(ArtistPatch(None, None, None))
    ensures ValidateUpdateAlbum(map[], ids) == Passes(AlbumPatch(None, None, None))
    ensures ValidateUpdateSong(map[], ids) == Passes(SongPatch(None, None, None))
  {
  }

  /** A create payload that lacks a required field, or whose foreign key names
      no existing row, is rejected with that field among the errors. */
  lemma MissingOrDanglingRejected(p: Payload, ids: set<Id>)
    ensures "name" !in p ==> ValidateStoreArtist(p).Fails? && "name" in ValidateStoreArtist(p).errors
    ensures "genre" !in p ==> ValidateStoreArtist(p).Fails? && "genre" in ValidateStoreArtist(p).errors
    ensures "country" !in p ==> ValidateStoreArtist(p).Fails? && "country" in ValidateStoreArtist(p).errors
    ensures "artist_id" in p && p["artist_id"].Int? && p["artist_id"].n !in ids ==>
              ValidateStoreAlbum(p, ids).Fails? && "artist_id" in ValidateStoreAlbum(p, ids).errors
    ensures "album_id" in p && p["album_id"].Int? && p["album_id"].n !in ids ==>
              ValidateStoreSong(p, ids).Fails? && "album_id" in ValidateStoreSong(p, ids).errors
  {
  }

  /** The string rule's bounds: blank strings and strings of 256 characters are
      rejected; any other string of up to 255 characters is accepted. */
  lemma StringRuleBounds(s: string)
    ensures IsBlank(s) ==> !StringRule(Str(s))
    ensures |s| > 255 ==> !StringRule(Str(s))
    ensures !IsBlank(s) && |s| <= 255 ==> StringRule(Str(s))
  {
  }
}
