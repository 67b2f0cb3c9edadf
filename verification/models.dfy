/** The three Eloquent models, their fillable attributes and their relations,
    computed from an in-memory copy of the store's tables. */
module Models {
  import opened Wrappers
  import opened Tables

  /** A row of `artists`: a single genre string, not a list. */
  datatype Artist = Artist(id: Id, name: string, genre: string, country: string)

  /** A row of `albums`. */
  datatype Album = Album(id: Id, title: string, year: int, artistId: Id)

  /** A row of `songs`; `duration` is a number of seconds. */
  datatype Song = Song(id: Id, title: string, duration: int, albumId: Id)

  /** The `$fillable` lists: the only attributes a create or an update can set.
      `id` and the timestamps are not among them. */
  const ArtistFillable: set<string> := {"name", "genre", "country"}
  const AlbumFillable: set<string> := {"title", "year", "artist_id"}
  const SongFillable: set<string> := {"title", "duration", "album_id"}

  /** Values for every fillable attribute, as `Model::create` receives them. */
  datatype ArtistAttrs = ArtistAttrs(name: string, genre: string, country: string)
  datatype AlbumAttrs = AlbumAttrs(title: string, year: int, artistId: Id)
  datatype SongAttrs = SongAttrs(title: string, duration: int, albumId: Id)

  /** Values for some fillable attributes, as `$model->update` receives them:
      `None` leaves the attribute as it is. */
  datatype ArtistPatch = ArtistPatch(name: Option<string>, genre: Option<string>, country: Option<string>)
  datatype AlbumPatch = AlbumPatch(title: Option<string>, year: Option<int>, artistId: Option<Id>)
  datatype SongPatch = SongPatch(title: Option<string>, duration: Option<int>, albumId: Option<Id>)

  /** The store: three tables keyed by id, and the auto-increment counter of
      each (the id the next insert receives). */
  datatype Db = Db(artists: map<Id, Artist>, albums: map<Id, Album>, songs: map<Id, Song>,
                   nextArtist: Id, nextAlbum: Id, nextSong: Id)

  /** The store before anything is inserted. */
  const EmptyDb: Db := Db(map[], map[], map[], 1, 1, 1)

  /** The invariants of the store: keys are the rows' ids, ids were handed out
      by the counters (which start at 1), every album's artist exists and every
      song's album exists. */
  ghost predicate Consistent(db: Db) {
    && 1 <= db.nextArtist && 1 <= db.nextAlbum && 1 <= db.nextSong
    && (forall k :: k in db.artists ==> db.artists[k].id == k && 1 <= k < db.nextArtist)
    && (forall k :: k in db.albums ==> db.albums[k].id == k && 1 <= k < db.nextAlbum)
    && (forall k :: k in db.songs ==> db.songs[k].id == k && 1 <= k < db.nextSong)
    && (forall k :: k in db.albums ==> db.albums[k].artistId in db.artists)
    && (forall k :: k in db.songs ==> db.songs[k].albumId in db.albums)
  }

  /** Full scans of the three tables, in ascending id order. */
  function ArtistRows(db: Db): seq<Artist> { Rows(db.artists, db.nextArtist) }
  function AlbumRows(db: Db): seq<Album> { Rows(db.albums, db.nextAlbum) }
  function SongRows(db: Db): seq<Song> { Rows(db.songs, db.nextSong) }

  /** In a consistent store a full scan holds exactly the rows of the table. */
  lemma ScansAreComplete(db: Db)
    requires Consistent(db)
    ensures forall a :: a in ArtistRows(db) <==> a in db.artists.Values
    ensures forall a :: a in AlbumRows(db) <==> a in db.albums.Values
    ensures forall s :: s in SongRows(db) <==> s in db.songs.Values
  {
  }

  /** The fillable attributes of a row. */
  function ArtistAttrsOf(a: Artist): ArtistAttrs { ArtistAttrs(a.name, a.genre, a.country) }
  function AlbumAttrsOf(al: Album): AlbumAttrs { AlbumAttrs(al.title, al.year, al.artistId) }
  function SongAttrsOf(s: Song): SongAttrs { SongAttrs(s.title, s.duration, s.albumId) }

  /** `Artist::create`: the new row has the id the store hands out, and its
      fillable attributes are exactly the given ones. */
  function NewArtist(id: Id, f: ArtistAttrs): (r: Artist)
    ensures r.id == id && ArtistAttrsOf(r) == f
  {
    Artist(id, f.name, f.genre, f.country)
  }

  /** `Album::create`. */
  function NewAlbum(id: Id, f: AlbumAttrs): (r: Album)
    ensures r.id == id && AlbumAttrsOf(r) == f
  {
    Album(id, f.title, f.year, f.artistId)
  }

  /** `Song::create`. */
  function NewSong(id: Id, f: SongAttrs): (r: Song)
    ensures r.id == id && SongAttrsOf(r) == f
  {
    Song(id, f.title, f.duration, f.albumId)
  }

  /** `$artist->update($patch)`: the id never changes; a supplied attribute
      takes the supplied value and every other one keeps its value. A patch
      that supplies every attribute gives the row `create` would make with
      those attributes under the same id. */
  function PatchArtist(a: Artist, p: ArtistPatch): (r: Artist)
    ensures r.id == a.id
    ensures r.name == (if p.name.Some? then p.name.value else a.name)
    ensures r.genre == (if p.genre.Some? then p.genre.value else a.genre)
    ensures r.country == (if p.country.Some? then p.country.value else a.country)
    ensures p.name.Some? && p.genre.Some? && p.country.Some? ==>
              r == NewArtist(a.id, ArtistAttrs(p.name.value, p.genre.value, p.country.value))
  {
    Artist(a.id, p.name.GetOr(a.name), p.genre.GetOr(a.genre), p.country.GetOr(a.country))
  }

  /** `$album->update($patch)`; a supplied `artist_id` moves the album. */
  function PatchAlbum(a: Album, p: AlbumPatch): (r: Album)
    ensures r.id == a.id
    ensures r.title == (if p.title.Some? then p.title.value else a.title)
    ensures r.year == (if p.year.Some? then p.year.value else a.year)
    ensures r.artistId == (if p.artistId.Some? then p.artistId.value else a.artistId)
    ensures p.title.Some? && p.year.Some? && p.artistId.Some? ==>
              r == NewAlbum(a.id, AlbumAttrs(p.title.value, p.year.value, p.artistId.value))
  {
    Album(a.id, p.title.GetOr(a.title), p.year.GetOr(a.year), p.artistId.GetOr(a.artistId))
  }

  /** `$song->update($patch)`; a supplied `album_id` moves the song. */
  function PatchSong(s: Song, p: SongPatch): (r: Song)
    ensures r.id == s.id
    ensures r.title == (if p.title.Some? then p.title.value else s.title)
    ensures r.duration == (if p.duration.Some? then p.duration.value else s.duration)
    ensures r.albumId == (if p.albumId.Some? then p.albumId.value else s.albumId)
    ensures p.title.Some? && p.duration.Some? && p.albumId.Some? ==>
              r == NewSong(s.id, SongAttrs(p.title.value, p.duration.value, p.albumId.value))
  {
    Song(s.id, p.title.GetOr(s.title), p.duration.GetOr(s.duration), p.albumId.GetOr(s.albumId))
  }

  /** An update with no attributes changes nothing, and applying the same
      update twice is the same as applying it once. */
  lemma PatchesAreIdempotent(a: Artist, al: Album, s: Song, pa: ArtistPatch, pal: AlbumPatch, ps: SongPatch)
    ensures PatchArtist(a, ArtistPatch(None, None, None)) == a
    ensures PatchAlbum(al, AlbumPatch(None, None, None)) == al
    ensures PatchSong(s, SongPatch(None, None, None)) == s
    ensures PatchArtist(PatchArtist(a, pa), pa) == PatchArtist(a, pa)
    ensures PatchAlbum(PatchAlbum(al, pal), pal) == PatchAlbum(al, pal)
    ensures PatchSong(PatchSong(s, ps), ps) == PatchSong(s, ps)
  {
  }

  /** `Album::artist()` (belongsTo): the artist whose id is the album's
      `artist_id`, if there is one. */
  function ArtistOf(db: Db, al: Album): (r: Option<Artist>)
    ensures r.Some? <==> al.artistId in db.artists
    ensures r.Some? ==> r.value in db.artists.Values && r.value == db.artists[al.artistId]
  {
    if al.artistId in db.artists then Some(db.artists[al.artistId]) else None
  }

  /** `Song::album()` (belongsTo). */
  function AlbumOf(db: Db, s: Song): (r: Option<Album>)
    ensures r.Some? <==> s.albumId in db.albums
    ensures r.Some? ==> r.value in db.albums.Values && r.value == db.albums[s.albumId]
  {
    if s.albumId in db.albums then Some(db.albums[s.albumId]) else None
  }

  /** `Artist::albums()` (hasMany): the albums whose `artist_id` is the artist's id. */
  function AlbumsOf(db: Db, artistId: Id): (r: seq<Album>)
    ensures forall al :: al in r ==> al in db.albums.Values && al.artistId == artistId
    ensures forall k ::
              k in db.albums && k < db.nextAlbum && db.albums[k].artistId == artistId ==> db.albums[k] in r
  {
    Filter(AlbumRows(db), (al: Album) => al.artistId == artistId)
  }

  /** `Album::songs()` (hasMany): the songs whose `album_id` is the album's id. */
  function SongsOf(db: Db, albumId: Id): (r: seq<Song>)
    ensures forall s :: s in r ==> s in db.songs.Values && s.albumId == albumId
    ensures forall k ::
              k in db.songs && k < db.nextSong && db.songs[k].albumId == albumId ==> db.songs[k] in r
  {
    Filter(SongRows(db), (s: Song) => s.albumId == albumId)
  }

  /** In a consistent store every album has its artist and every song its
      album, with matching ids, and each hasMany relation holds exactly the
      rows that point back at the owner. */
  lemma RelationsResolve(db: Db)
    requires Consistent(db)
    ensures forall al :: al in db.albums.Values ==>
              ArtistOf(db, al).Some? && ArtistOf(db, al).value.id == al.artistId
    ensures forall s :: s in db.songs.Values ==>
              AlbumOf(db, s).Some? && AlbumOf(db, s).value.id == s.albumId
    ensures forall id, al :: al in AlbumsOf(db, id) <==> al in db.albums.Values && al.artistId == id
    ensures forall id, s :: s in SongsOf(db, id) <==> s in db.songs.Values && s.albumId == id
  {
  }

  /** The id of a row, the key every scan and relation is ordered by. */
  function ArtistId(a: Artist): Id { a.id }
  function AlbumId(al: Album): Id { al.id }
  function SongId(s: Song): Id { s.id }

  /** In a consistent store the full scans and both hasMany relations list
      their rows in strictly ascending id order, so none twice. */
  lemma RelationsAscending(db: Db, artistId: Id, albumId: Id)
    requires Consistent(db)
    ensures Ascending(ArtistRows(db), ArtistId)
    ensures Ascending(AlbumRows(db), AlbumId) && Ascending(SongRows(db), SongId)
    ensures Ascending(AlbumsOf(db, artistId), AlbumId)
    ensures Ascending(SongsOf(db, albumId), SongId)
  {
    RowsAscending(db.artists, db.nextArtist, ArtistId);
    RowsAscending(db.albums, db.nextAlbum, AlbumId);
    RowsAscending(db.songs, db.nextSong, SongId);
    FilterAscending(AlbumRows(db), (al: Album) => al.artistId == artistId, AlbumId);
    FilterAscending(SongRows(db), (s: Song) => s.albumId == albumId, SongId);
  }

  /** In a consistent store an album's songs come in strictly ascending id
      order. */
  lemma SongsOfAscending(db: Db, albumId: Id)
    requires Consistent(db)
    ensures Ascending(SongsOf(db, albumId), SongId)
  {
    RowsAscending(db.songs, db.nextSong, SongId);
    FilterAscending(SongRows(db), (s: Song) => s.albumId == albumId, SongId);
  }

  /** `belongsTo` resolves by id: in a consistent store, an album's artist is
      a stored artist exactly when that artist's id is the album's
      `artist_id`, and a song's album is a stored album exactly when that
      album's id is the song's `album_id`. */
  lemma BelongsToMatchesById(db: Db, al: Album, s: Song)
    requires Consistent(db)
    ensures forall a :: a in db.artists.Values ==> (ArtistOf(db, al) == Some(a) <==> a.id == al.artistId)
    ensures forall b :: b in db.albums.Values ==> (AlbumOf(db, s) == Some(b) <==> b.id == s.albumId)
    ensures ArtistOf(db, al).None? <==> forall a :: a in db.artists.Values ==> a.id != al.artistId
    ensures AlbumOf(db, s).None? <==> forall b :: b in db.albums.Values ==> b.id != s.albumId
  {
  }

  /** `Artist::create` keeps the store consistent, and the new artist owns
      no albums yet. */
  lemma CreateArtistKeepsConsistency(db: Db, f: ArtistAttrs)
    requires Consistent(db)
    ensures var id := db.nextArtist;
            var r := db.(artists := db.artists[id := NewArtist(id, f)], nextArtist := id + 1);
            Consistent(r) && AlbumsOf(r, id) == []
  {
    var id := db.nextArtist;
    var r := db.(artists := db.artists[id := NewArtist(id, f)], nextArtist := id + 1);
    NoMemberIsEmpty(AlbumsOf(r, id));
  }

  /** `Album::create` with an existing artist keeps the store consistent, and
      the new album holds no songs yet. */
  lemma CreateAlbumKeepsConsistency(db: Db, f: AlbumAttrs)
    requires Consistent(db) && f.artistId in db.artists
    ensures var id := db.nextAlbum;
            var r := db.(albums := db.albums[id := NewAlbum(id, f)], nextAlbum := id + 1);
            Consistent(r) && SongsOf(r, id) == []
  {
    var id := db.nextAlbum;
    var r := db.(albums := db.albums[id := NewAlbum(id, f)], nextAlbum := id + 1);
    NoMemberIsEmpty(SongsOf(r, id));
  }

  /** `Song::create` with an existing album keeps the store consistent. */
  lemma CreateSongKeepsConsistency(db: Db, f: SongAttrs)
    requires Consistent(db) && f.albumId in db.albums
    ensures var id := db.nextSong;
            Consistent(db.(songs := db.songs[id := NewSong(id, f)], nextSong := id + 1))
  {
  }

  /** `$artist->update(...)` keeps the store consistent. */
  lemma UpdateArtistKeepsConsistency(db: Db, id: Id, p: ArtistPatch)
    requires Consistent(db) && id in db.artists
    ensures Consistent(db.(artists := db.artists[id := PatchArtist(db.artists[id], p)]))
  {
  }

  /** `$album->update(...)` keeps the store consistent when the album's
      artist after the update exists. */
  lemma UpdateAlbumKeepsConsistency(db: Db, id: Id, p: AlbumPatch)
    requires Consistent(db) && id in db.albums && PatchAlbum(db.albums[id], p).artistId in db.artists
    ensures Consistent(db.(albums := db.albums[id := PatchAlbum(db.albums[id], p)]))
  {
  }

  /** `$song->update(...)` keeps the store consistent when the song's album
      after the update exists. */
  lemma UpdateSongKeepsConsistency(db: Db, id: Id, p: SongPatch)
    requires Consistent(db) && id in db.songs && PatchSong(db.songs[id], p).albumId in db.albums
    ensures Consistent(db.(songs := db.songs[id := PatchSong(db.songs[id], p)]))
  {
  }
}
