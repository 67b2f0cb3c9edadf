/** The three resource controllers. Reads (`index`, `show`, `songs`) are
    functions of the store; writes (`store`, `update`, `destroy`) are methods
    of `Catalog`, which holds the store's tables. Route-model binding answers
    404 for an unknown id before the form request is validated; a failed form
    request answers 422 and changes nothing. */
module Controllers {
  import opened Wrappers
  import opened Tables
  import opened Models
  import opened SongsMigration
  import Requests
  import opened Resources
  import opened Listing

  datatype Response = Response(status: int, body: Json)

  /** Route-model binding found no row. */
  const NotFound: Response := Response(404, Null)

  /** `response()->json(null, 204)`. */
  const Deleted: Response := Response(204, Null)

  /** A failed form request: one entry per failing field. */
  function Unprocessable(errors: set<string>): (r: Response)
    ensures r.status == 422 && Keys(r.body) == {"errors"} && Keys(r.body.fields["errors"]) == errors
  {
    Response(422, Obj(map["errors" := Obj(map k | k in errors :: Null)]))
  }

  // ---- Load plans: which relations each controller loads ----

  /** Songs with no relation loaded. */
  function SongLeaves(xs: seq<Song>): (r: seq<SongNode>)
    ensures |r| == |xs| && forall i :: 0 <= i < |xs| ==> r[i] == SongNode(xs[i], AlbumNotLoaded)
  {
    seq(|xs|, i requires 0 <= i < |xs| => SongNode(xs[i], AlbumNotLoaded))
  }

  /** An album loaded under its artist: with its songs, which carry no
      relation, and without its artist. */
  function AlbumBranch(db: Db, al: Album): (n: AlbumNode)
    ensures n.row == al && n.artist.ArtistNotLoaded? && n.songs.SongsLoaded?
    ensures |n.songs.items| == |SongsOf(db, al.id)|
    ensures forall j :: 0 <= j < |n.songs.items| ==>
              n.songs.items[j].row == SongsOf(db, al.id)[j] && n.songs.items[j].album.AlbumNotLoaded?
  {
    AlbumNode(al, ArtistNotLoaded, SongsLoaded(SongLeaves(SongsOf(db, al.id))))
  }

  /** `load('albums.songs')`: the artist's albums in order, each with its
      songs; neither an album nor a song refers back to its owner. */
  function ArtistTree(db: Db, a: Artist): (n: ArtistNode)
    ensures n.row == a && n.albums.AlbumsLoaded?
    ensures |n.albums.items| == |AlbumsOf(db, a.id)|
    ensures forall i :: 0 <= i < |n.albums.items| ==>
              n.albums.items[i] == AlbumBranch(db, AlbumsOf(db, a.id)[i])
  {
    var albums := AlbumsOf(db, a.id);
    ArtistNode(a, AlbumsLoaded(seq(|albums|, i requires 0 <= i < |albums| => AlbumBranch(db, albums[i]))))
  }

  /** `load('artist', 'songs')`: the album's artist, if there is one, without
      its albums, and the album's songs in order, without their album. */
  function AlbumTree(db: Db, al: Album): (n: AlbumNode)
    ensures n.row == al && n.artist.ArtistLoaded? && n.songs.SongsLoaded?
    ensures n.artist.artist.Some? <==> al.artistId in db.artists
    ensures n.artist.artist.Some? ==> n.artist.artist.value == ArtistNode(db.artists[al.artistId], AlbumsNotLoaded)
    ensures |n.songs.items| == |SongsOf(db, al.id)|
    ensures forall j :: 0 <= j < |n.songs.items| ==>
              n.songs.items[j].row == SongsOf(db, al.id)[j] && n.songs.items[j].album.AlbumNotLoaded?
  {
    AlbumNode(al,
              ArtistLoaded(match ArtistOf(db, al)
                           case None => None
                           case Some(a) => Some(ArtistNode(a, AlbumsNotLoaded))),
              SongsLoaded(SongLeaves(SongsOf(db, al.id))))
  }

  /** `load('album.artist')`: the song's album, without its songs, and that
      album's artist, without its albums. */
  function SongTree(db: Db, s: Song): (n: SongNode)
    ensures n.row == s && n.album.AlbumLoaded?
    ensures n.album.album.Some? <==> s.albumId in db.albums
    ensures n.album.album.Some? ==>
              var b := n.album.album.value;
              && b.row == db.albums[s.albumId] && b.songs.SongsNotLoaded? && b.artist.ArtistLoaded?
              && (b.artist.artist.Some? <==> b.row.artistId in db.artists)
              && (b.artist.artist.Some? ==> b.artist.artist.value == ArtistNode(db.artists[b.row.artistId], AlbumsNotLoaded))
  {
    SongNode(s, AlbumLoaded(match AlbumOf(db, s)
                            case None => None
                            case Some(al) =>
                              Some(AlbumNode(al,
                                             ArtistLoaded(match ArtistOf(db, al)
                                                          case None => None
                                                          case Some(a) => Some(ArtistNode(a, AlbumsNotLoaded))),
                                             SongsNotLoaded))))
  }

  // ---- index ----

  /** A paginated resource collection: the page's items under `data`. This
      is the model's body: the paginator's `links` and `meta` objects, which
      Laravel adds beside `data`, are not modelled, so the key set the index
      functions state is the model's, not the full response's. */
  function PageJson(items: seq<Json>): Json {
    Wrap(Arr(items))
  }

  /** ArtistController::index: the current page of matches under `data` (the
      paginator's `links` and `meta` are left out of the model). */
  function IndexArtists(db: Db, q: ArtistQuery, perPage: Option<PageSize>, page: PageSize): (r: Response)
    requires Literal(q.name) && Literal(q.country)
    ensures r.status == 200 && Keys(r.body) == {"data"} && r.body.fields["data"].Arr?
    ensures var items := r.body.fields["data"].items;
            var listed := ListArtists(db, q, perPage, page);
            |items| == |listed| <= PerPage(perPage) &&
            forall i :: 0 <= i < |items| ==> items[i] == ArtistJson(ArtistTree(db, listed[i]))
  {
    var listed := ListArtists(db, q, perPage, page);
    Response(200, PageJson(seq(|listed|, i requires 0 <= i < |listed| => ArtistJson(ArtistTree(db, listed[i])))))
  }

  /** AlbumController::index: the current page of matches under `data` (the
      paginator's `links` and `meta` are left out of the model). */
  function IndexAlbums(db: Db, q: AlbumQuery, perPage: Option<PageSize>, page: PageSize): (r: Response)
    requires Literal(q.title) && Literal(q.artist)
    ensures r.status == 200 && Keys(r.body) == {"data"} && r.body.fields["data"].Arr?
    ensures var items := r.body.fields["data"].items;
            var listed := ListAlbums(db, q, perPage, page);
            |items| == |listed| <= PerPage(perPage) &&
            forall i :: 0 <= i < |items| ==> items[i] == AlbumJson(AlbumTree(db, listed[i]))
  {
    var listed := ListAlbums(db, q, perPage, page);
    Response(200, PageJson(seq(|listed|, i requires 0 <= i < |listed| => AlbumJson(AlbumTree(db, listed[i])))))
  }

  /** SongController::index: the current page of matches under `data` (the
      paginator's `links` and `meta` are left out of the model). */
  function IndexSongs(db: Db, q: SongQuery, perPage: Option<PageSize>, page: PageSize): (r: Response)
    requires Literal(q.title) && Literal(q.artist) && Literal(q.album)
    ensures r.status == 200 && Keys(r.body) == {"data"} && r.body.fields["data"].Arr?
    ensures var items := r.body.fields["data"].items;
            var listed := ListSongs(db, q, perPage, page);
            |items| == |listed| <= PerPage(perPage) &&
            forall i :: 0 <= i < |items| ==> items[i] == SongJson(SongTree(db, listed[i]))
  {
    var listed := ListSongs(db, q, perPage, page);
    Response(200, PageJson(seq(|listed|, i requires 0 <= i < |listed| => SongJson(SongTree(db, listed[i])))))
  }

  // ---- show ----

  /** ArtistController::show; what it answers is stated by `ShowArtistShape`. */
  function ShowArtist(db: Db, id: Id): Response {
    if id in db.artists then Response(200, Wrap(ArtistJson(ArtistTree(db, db.artists[id])))) else NotFound
  }

  /** AlbumController::show; see `ShowAlbumShape`. */
  function ShowAlbum(db: Db, id: Id): Response {
    if id in db.albums then Response(200, Wrap(AlbumJson(AlbumTree(db, db.albums[id])))) else NotFound
  }

  /** SongController::show; see `ShowSongShape`. */
  function ShowSong(db: Db, id: Id): Response {
    if id in db.songs then Response(200, Wrap(SongJson(SongTree(db, db.songs[id])))) else NotFound
  }

  // ---- AlbumController::songs ----

  /** A song serialized as a plain model, not through SongResource: its
      attributes including `album_id` (timestamps are not modelled). */
  function SongAttributesJson(s: Song): (j: Json)
    ensures Keys(j) == {"id", "title", "duration", "album_id"}
    ensures Field(j, "id") == Num(s.id) && Field(j, "album_id") == Num(s.albumId)
    ensures Field(j, "title") == Str(s.title) && Field(j, "duration") == Num(s.duration)
  {
    Obj(map["id" := Num(s.id), "title" := Str(s.title), "duration" := Num(s.duration), "album_id" := Num(s.albumId)])
  }

  /** `response()->json($album->songs()->get())`: the album's songs, all of
      them, unpaginated and unwrapped; see `AlbumSongsAreTheAlbums`. */
  function AlbumSongs(db: Db, id: Id): Response {
    if id !in db.albums then NotFound
    else
      var xs := SongsOf(db, id);
      Response(200, Arr(seq(|xs|, i requires 0 <= i < |xs| => SongAttributesJson(xs[i]))))
  }

  // ---- What each endpoint's body looks like ----

  /** The albums rendered under an artist: its albums in order, each with
      `songs` (one entry per song of that album) and without `artist`. */
  lemma ArtistTreeAlbums(db: Db, a: Artist)
    ensures var albums := AlbumsOf(db, a.id);
            var rendered := Field(ArtistJson(ArtistTree(db, a)), "albums");
            && rendered.Arr? && |rendered.items| == |albums|
            && forall i :: 0 <= i < |rendered.items| ==>
                 && Keys(rendered.items[i]) == {"id", "title", "year", "songs"}
                 && Field(rendered.items[i], "id") == Num(albums[i].id)
                 && Field(rendered.items[i], "songs").Arr?
                 && |Field(rendered.items[i], "songs").items| == |SongsOf(db, albums[i].id)|
  {
    var albums := AlbumsOf(db, a.id);
    var n := ArtistTree(db, a);
    var items := AlbumsJson(n.albums.items);
    assert Field(ArtistJson(n), "albums") == Arr(items);
    forall i | 0 <= i < |items|
      ensures Keys(items[i]) == {"id", "title", "year", "songs"}
      ensures Field(items[i], "id") == Num(albums[i].id)
      ensures Field(items[i], "songs").Arr? && |Field(items[i], "songs").items| == |SongsOf(db, albums[i].id)|
    {
      assert items[i] == AlbumJson(AlbumBranch(db, albums[i]));
      AlbumBranchRendered(db, albums[i]);
    }
  }

  /** One album under its artist renders its id and its `songs`, and no
      `artist`. */
  lemma AlbumBranchRendered(db: Db, al: Album)
    ensures var j := AlbumJson(AlbumBranch(db, al));
            && Keys(j) == {"id", "title", "year", "songs"}
            && Field(j, "id") == Num(al.id)
            && Field(j, "songs").Arr? && |Field(j, "songs").items| == |SongsOf(db, al.id)|
  {
  }

  /** `GET /artists/{id}`: 404 for an unknown id; otherwise 200 with, under
      `data`, the artist's fields and `albums`, one entry per album of the
      artist (empty when it has none), each with `songs` and without a
      back-reference to the artist. */
  lemma ShowArtistShape(db: Db, id: Id)
    requires Consistent(db)
    ensures id !in db.artists ==> ShowArtist(db, id) == NotFound
    ensures id in db.artists ==>
              var r := ShowArtist(db, id);
              var d := Field(r.body, "data");
              var albums := Field(d, "albums");
              && r.status == 200 && Keys(r.body) == {"data"}
              && Keys(d) == {"id", "name", "genre", "country", "albums"}
              && Field(d, "id") == Num(id)
              && albums.Arr? && |albums.items| == |AlbumsOf(db, id)|
              && forall i :: 0 <= i < |albums.items| ==>
                   && Keys(albums.items[i]) == {"id", "title", "year", "songs"}
                   && Field(albums.items[i], "id") == Num(AlbumsOf(db, id)[i].id)
                   && Field(albums.items[i], "songs").Arr?
                   && |Field(albums.items[i], "songs").items| == |SongsOf(db, AlbumsOf(db, id)[i].id)|
  {
    if id in db.artists {
      var a := db.artists[id];
      assert a.id == id;
      ArtistTreeAlbums(db, a);
    }
  }

  /** The songs rendered under an album: one entry per song of the album, in
      order, each with its id and without `album`. */
  lemma AlbumTreeSongs(db: Db, al: Album)
    ensures var songs := Field(AlbumJson(AlbumTree(db, al)), "songs");
            && songs.Arr? && |songs.items| == |SongsOf(db, al.id)|
            && forall i :: 0 <= i < |songs.items| ==>
                 && Keys(songs.items[i]) == {"id", "title", "duration"}
                 && Field(songs.items[i], "id") == Num(SongsOf(db, al.id)[i].id)
  {
    var n := AlbumTree(db, al);
    var songs := Field(AlbumJson(n), "songs");
    var leaves := n.songs.items;
    assert songs == Arr(SongsJson(leaves));
    forall i | 0 <= i < |songs.items|
      ensures Keys(songs.items[i]) == {"id", "title", "duration"}
      ensures Field(songs.items[i], "id") == Num(SongsOf(db, al.id)[i].id)
    {
      assert songs.items[i] == SongJson(leaves[i]);
      assert leaves[i].row == SongsOf(db, al.id)[i] && leaves[i].album.AlbumNotLoaded?;
      LeafSongJson(leaves[i]);
    }
  }

  /** A song rendered without its album: its scalar fields only. */
  lemma LeafSongJson(n: SongNode)
    requires n.album.AlbumNotLoaded?
    ensures Keys(SongJson(n)) == {"id", "title", "duration"}
    ensures Field(SongJson(n), "id") == Num(n.row.id)
  {
  }

  /** `GET /albums/{id}`: 404 for an unknown id; otherwise 200 with, under
      `data`, the album's fields, its `artist` (the one whose id is the
      album's `artist_id`, without its albums) and its `songs` (one per song
      of the album, in order, without a back-reference). */
  lemma ShowAlbumShape(db: Db, id: Id)
    requires Consistent(db)
    ensures id !in db.albums ==> ShowAlbum(db, id) == NotFound
    ensures id in db.albums ==>
              var r := ShowAlbum(db, id);
              var d := Field(r.body, "data");
              var artist := Field(d, "artist");
              var songs := Field(d, "songs");
              && r.status == 200 && Keys(r.body) == {"data"}
              && Keys(d) == {"id", "title", "year", "artist", "songs"}
              && Field(d, "id") == Num(id)
              && Keys(artist) == {"id", "name", "genre", "country"}
              && Field(artist, "id") == Num(db.albums[id].artistId)
              && songs.Arr? && |songs.items| == |SongsOf(db, id)|
              && forall i :: 0 <= i < |songs.items| ==>
                   && Keys(songs.items[i]) == {"id", "title", "duration"}
                   && Field(songs.items[i], "id") == Num(SongsOf(db, id)[i].id)
  {
    if id in db.albums {
      var al := db.albums[id];
      assert al.id == id;
      assert db.artists[al.artistId].id == al.artistId;
      AlbumTreeSongs(db, al);
    }
  }

  /** `GET /songs/{id}`: 404 for an unknown id; otherwise 200 with, under
      `data`, the song's fields and its `album`, which holds that album's
      `artist` but not the album's songs; the artist has no `albums`. */
  lemma ShowSongShape(db: Db, id: Id)
    requires Consistent(db)
    ensures id !in db.songs ==> ShowSong(db, id) == NotFound
    ensures id in db.songs ==>
              var r := ShowSong(db, id);
              var d := Field(r.body, "data");
              var album := Field(d, "album");
              var artist := Field(album, "artist");
              && r.status == 200 && Keys(r.body) == {"data"}
              && Keys(d) == {"id", "title", "duration", "album"}
              && Field(d, "id") == Num(id)
              && Keys(album) == {"id", "title", "year", "artist"}
              && Field(album, "id") == Num(db.songs[id].albumId)
              && Keys(artist) == {"id", "name", "genre", "country"}
              && Field(artist, "id") == Num(db.albums[db.songs[id].albumId].artistId)
  {
    if id in db.songs {
      var s := db.songs[id];
      assert s.id == id;
      var al := db.albums[s.albumId];
      assert al.id == s.albumId;
      assert db.artists[al.artistId].id == al.artistId;
    }
  }

  /** `GET /albums/{id}/songs`: 404 for an unknown album; otherwise 200 with a
      bare array, unwrapped and unpaginated, holding exactly the album's
      songs as plain models: each song of the album once, in ascending id
      order, with its attributes and its `album_id`, which is the album's id,
      and no other item. */
  lemma AlbumSongsAreTheAlbums(db: Db, id: Id)
    requires Consistent(db)
    ensures id !in db.albums ==> AlbumSongs(db, id) == NotFound
    ensures id in db.albums ==> AlbumSongs(db, id).status == 200 && AlbumSongs(db, id).body.Arr?
    ensures id in db.albums ==>
              var items := AlbumSongs(db, id).body.items;
              && |items| == |CascadedSongs(db, id)|
              && (forall i :: 0 <= i < |items| ==>
                    && Keys(items[i]) == {"id", "title", "duration", "album_id"}
                    && Field(items[i], "album_id") == Num(id)
                    && exists k :: k in db.songs && db.songs[k].albumId == id && items[i] == SongAttributesJson(db.songs[k]))
              && (forall i, j :: 0 <= i < j < |items| ==>
                    Field(items[i], "id").Num? && Field(items[j], "id").Num? &&
                    Field(items[i], "id").n < Field(items[j], "id").n)
              && (forall k :: k in db.songs && db.songs[k].albumId == id ==>
                    exists i :: 0 <= i < |items| && items[i] == SongAttributesJson(db.songs[k]))
  {
    if id in db.albums {
      var xs := SongsOf(db, id);
      var items := AlbumSongs(db, id).body.items;
      assert |items| == |xs|;
      SongsOfCountsCascade(db, id);
      SongsOfAscending(db, id);
      forall i | 0 <= i < |items|
        ensures && Keys(items[i]) == {"id", "title", "duration", "album_id"}
                && Field(items[i], "album_id") == Num(id)
                && exists k :: k in db.songs && db.songs[k].albumId == id && items[i] == SongAttributesJson(db.songs[k])
      {
        assert items[i] == SongAttributesJson(xs[i]);
        assert xs[i] in xs;
        assert db.songs[xs[i].id] == xs[i];
      }
      forall i, j | 0 <= i < j < |items|
        ensures Field(items[i], "id").Num? && Field(items[j], "id").Num?
        ensures Field(items[i], "id").n < Field(items[j], "id").n
      {
        assert items[i] == SongAttributesJson(xs[i]) && items[j] == SongAttributesJson(xs[j]);
        assert SongId(xs[i]) < SongId(xs[j]);
      }
      forall k | k in db.songs && db.songs[k].albumId == id
        ensures exists i :: 0 <= i < |items| && items[i] == SongAttributesJson(db.songs[k])
      {
        var i :| 0 <= i < |xs| && xs[i] == db.songs[k];
        assert items[i] == SongAttributesJson(xs[i]);
      }
    }
  }

  // ---- What an update changes ----

  /** A passing `PUT /artists/{id}` changes exactly the fields the payload
      supplies, to the supplied values, and keeps the id. */
  lemma UpdateArtistTouchesOnlySupplied(a: Artist, p: Requests.Payload)
    requires Requests.ValidateUpdateArtist(p).Passes?
    ensures var b := PatchArtist(a, Requests.ValidateUpdateArtist(p).value);
            && b.id == a.id
            && b.name == (if "name" in p then p["name"].s else a.name)
            && b.genre == (if "genre" in p then p["genre"].s else a.genre)
            && b.country == (if "country" in p then p["country"].s else a.country)
  {
  }

  /** A passing `PUT /albums/{id}` changes exactly the supplied fields; a
      supplied `artist_id` names an existing artist. */
  lemma UpdateAlbumTouchesOnlySupplied(al: Album, p: Requests.Payload, artistIds: set<Id>)
    requires Requests.ValidateUpdateAlbum(p, artistIds).Passes?
    ensures var b := PatchAlbum(al, Requests.ValidateUpdateAlbum(p, artistIds).value);
            && b.id == al.id
            && b.title == (if "title" in p then p["title"].s else al.title)
            && b.year == (if "year" in p then p["year"].n else al.year)
            && b.artistId == (if "artist_id" in p then p["artist_id"].n else al.artistId)
            && ("artist_id" in p ==> b.artistId in artistIds)
  {
  }

  /** A passing `PUT /songs/{id}` changes exactly the supplied fields; a
      supplied `album_id` names an existing album. */
  lemma UpdateSongTouchesOnlySupplied(s: Song, p: Requests.Payload, albumIds: set<Id>)
    requires Requests.ValidateUpdateSong(p, albumIds).Passes?
    ensures var b := PatchSong(s, Requests.ValidateUpdateSong(p, albumIds).value);
            && b.id == s.id
            && b.title == (if "title" in p then p["title"].s else s.title)
            && b.duration == (if "duration" in p then p["duration"].n else s.duration)
            && b.albumId == (if "album_id" in p then p["album_id"].n else s.albumId)
            && ("album_id" in p ==> b.albumId in albumIds)
  {
  }

  /** A freshly created artist, which has no albums yet, renders with an
      empty `albums`. */
  lemma NewArtistRendered(db: Db, id: Id)
    requires Consistent(db) && id in db.artists && AlbumsOf(db, id) == []
    ensures ShowArtist(db, id).body == Wrap(ArtistJson(ArtistTree(db, db.artists[id])))
    ensures Field(Field(ShowArtist(db, id).body, "data"), "albums") == Arr([])
  {
    var a := db.artists[id];
    assert a.id == id;
    assert ArtistTree(db, a).albums.items == [];
  }

  /** A freshly created album, which has no songs yet, renders with its
      artist's id and an empty `songs`. */
  lemma NewAlbumRendered(db: Db, id: Id)
    requires Consistent(db) && id in db.albums && SongsOf(db, id) == []
    ensures ShowAlbum(db, id).body == Wrap(AlbumJson(AlbumTree(db, db.albums[id])))
    ensures Field(Field(Field(ShowAlbum(db, id).body, "data"), "artist"), "id") == Num(db.albums[id].artistId)
    ensures Field(Field(ShowAlbum(db, id).body, "data"), "songs") == Arr([])
  {
    var al := db.albums[id];
    assert db.artists[al.artistId].id == al.artistId;
    assert AlbumTree(db, al).songs.items == [];
  }

  /** A freshly created song renders with its album's id. */
  lemma NewSongRendered(db: Db, id: Id)
    requires Consistent(db) && id in db.songs
    ensures ShowSong(db, id).body == Wrap(SongJson(SongTree(db, db.songs[id])))
    ensures Field(Field(Field(ShowSong(db, id).body, "data"), "album"), "id") == Num(db.songs[id].albumId)
  {
    var s := db.songs[id];
    assert db.albums[s.albumId].id == s.albumId;
  }

  // ---- The writes ----

  class Catalog {
    var artists: map<Id, Artist>
    var albums: map<Id, Album>
    var songs: map<Id, Song>
    var nextArtist: Id
    var nextAlbum: Id
    var nextSong: Id

    /** The tables as a value, for the read-only functions. */
    function State(): Db
      reads this
    {
      Db(artists, albums, songs, nextArtist, nextAlbum, nextSong)
    }

    ghost predicate Valid()
      reads this
    {
      Consistent(State())
    }

    constructor ()
      ensures Valid() && State() == EmptyDb
    {
      artists, albums, songs := map[], map[], map[];
      nextArtist, nextAlbum, nextSong := 1, 1, 1;
    }

    /** ArtistController::store. */
    method StoreArtist(p: Requests.Payload) returns (r: Response)
      requires Valid()
      modifies this
      ensures Valid()
      ensures Requests.ValidateStoreArtist(p).Fails? ==>
                r == Unprocessable(Requests.ValidateStoreArtist(p).errors) && State() == old(State())
      ensures Requests.ValidateStoreArtist(p).Passes? ==>
                var id := old(nextArtist);
                && artists == old(artists)[id := NewArtist(id, Requests.ValidateStoreArtist(p).value)]
                && albums == old(albums) && songs == old(songs)
                && nextArtist == id + 1 && nextAlbum == old(nextAlbum) && nextSong == old(nextSong)
                && r == Response(201, Wrap(ArtistJson(ArtistTree(State(), artists[id]))))
                && r.body == ShowArtist(State(), id).body
                && Field(Field(r.body, "data"), "albums") == Arr([])
    {
      match Requests.ValidateStoreArtist(p)
      case Fails(e) =>
        r := Unprocessable(e);
      case Passes(f) =>
        ghost var before := State();
        CreateArtistKeepsConsistency(before, f);
        var id := nextArtist;
        artists := artists[id := NewArtist(id, f)];
        nextArtist := nextArtist + 1;
        ghost var after := State();
        assert after == before.(artists := before.artists[id := NewArtist(id, f)], nextArtist := id + 1);
        assert Consistent(after) && AlbumsOf(after, id) == [];
        NewArtistRendered(after, id);
        r := Response(201, Wrap(ArtistJson(ArtistTree(State(), artists[id]))));
    }

    /** ArtistController::update. */
    method UpdateArtist(id: Id, p: Requests.Payload) returns (r: Response)
      requires Valid()
      modifies this
      ensures Valid()
      ensures id !in old(artists) ==> r == NotFound && State() == old(State())
      ensures id in old(artists) && Requests.ValidateUpdateArtist(p).Fails? ==>
                r == Unprocessable(Requests.ValidateUpdateArtist(p).errors) && State() == old(State())
      ensures id in old(artists) && Requests.ValidateUpdateArtist(p).Passes? ==>
                && artists == old(artists)[id := PatchArtist(old(artists)[id], Requests.ValidateUpdateArtist(p).value)]
                && albums == old(albums) && songs == old(songs)
                && nextArtist == old(nextArtist) && nextAlbum == old(nextAlbum) && nextSong == old(nextSong)
                && r == Response(200, Wrap(ArtistJson(ArtistTree(State(), artists[id]))))
                && r.body == ShowArtist(State(), id).body
    {
      if id !in artists {
        return NotFound;
      }
      match Requests.ValidateUpdateArtist(p)
      case Fails(e) =>
        r := Unprocessable(e);
      case Passes(patch) =>
        UpdateArtistKeepsConsistency(State(), id, patch);
        artists := artists[id := PatchArtist(artists[id], patch)];
        r := Response(200, Wrap(ArtistJson(ArtistTree(State(), artists[id]))));
    }

    /** ArtistController::destroy, for an artist that has no albums. */
    method DestroyArtist(id: Id) returns (r: Response)
      requires Valid()
      requires forall k :: k in albums ==> albums[k].artistId != id
      modifies this
      ensures Valid()
      ensures id !in old(artists) ==> r == NotFound && State() == old(State())
      ensures id in old(artists) ==>
                && r == Deleted
                && artists == old(artists) - {id} && albums == old(albums) && songs == old(songs)
                && nextArtist == old(nextArtist) && nextAlbum == old(nextAlbum) && nextSong == old(nextSong)
    {
      if id !in artists {
        return NotFound;
      }
      artists := artists - {id};
      r := Deleted;
    }

    /** AlbumController::store. */
    method StoreAlbum(p: Requests.Payload) returns (r: Response)
      requires Valid()
      modifies this
      ensures Valid()
      ensures Requests.ValidateStoreAlbum(p, old(artists).Keys).Fails? ==>
                r == Unprocessable(Requests.ValidateStoreAlbum(p, old(artists).Keys).errors) && State() == old(State())
      ensures Requests.ValidateStoreAlbum(p, old(artists).Keys).Passes? ==>
                var id := old(nextAlbum);
                && albums == old(albums)[id := NewAlbum(id, Requests.ValidateStoreAlbum(p, old(artists).Keys).value)]
                && artists == old(artists) && songs == old(songs)
                && nextAlbum == id + 1 && nextArtist == old(nextArtist) && nextSong == old(nextSong)
                && r == Response(201, Wrap(AlbumJson(AlbumTree(State(), albums[id]))))
                && r.body == ShowAlbum(State(), id).body
                && Field(Field(Field(r.body, "data"), "artist"), "id") == Num(Requests.ValidateStoreAlbum(p, old(artists).Keys).value.artistId)
                && Field(Field(r.body, "data"), "songs") == Arr([])
    {
      match Requests.ValidateStoreAlbum(p, artists.Keys)
      case Fails(e) =>
        r := Unprocessable(e);
      case Passes(f) =>
        CreateAlbumKeepsConsistency(State(), f);
        var id := nextAlbum;
        albums := albums[id := NewAlbum(id, f)];
        nextAlbum := nextAlbum + 1;
        NewAlbumRendered(State(), id);
        r := Response(201, Wrap(AlbumJson(AlbumTree(State(), albums[id]))));
    }

    /** AlbumController::update. */
    method UpdateAlbum(id: Id, p: Requests.Payload) returns (r: Response)
      requires Valid()
      modifies this
      ensures Valid()
      ensures id !in old(albums) ==> r == NotFound && State() == old(State())
      ensures id in old(albums) && Requests.ValidateUpdateAlbum(p, old(artists).Keys).Fails? ==>
                r == Unprocessable(Requests.ValidateUpdateAlbum(p, old(artists).Keys).errors) && State() == old(State())
      ensures id in old(albums) && Requests.ValidateUpdateAlbum(p, old(artists).Keys).Passes? ==>
                && albums == old(albums)[id := PatchAlbum(old(albums)[id], Requests.ValidateUpdateAlbum(p, old(artists).Keys).value)]
                && artists == old(artists) && songs == old(songs)
                && nextArtist == old(nextArtist) && nextAlbum == old(nextAlbum) && nextSong == old(nextSong)
                && r == Response(200, Wrap(AlbumJson(AlbumTree(State(), albums[id]))))
                && r.body == ShowAlbum(State(), id).body
    {
      if id !in albums {
        return NotFound;
      }
      match Requests.ValidateUpdateAlbum(p, artists.Keys)
      case Fails(e) =>
        r := Unprocessable(e);
      case Passes(patch) =>
        UpdateAlbumKeepsConsistency(State(), id, patch);
        albums := albums[id := PatchAlbum(albums[id], patch)];
        r := Response(200, Wrap(AlbumJson(AlbumTree(State(), albums[id]))));
    }

    /** AlbumController::destroy: the album and, by the cascade, its songs. */
    method DestroyAlbum(id: Id) returns (r: Response)
      requires Valid()
      modifies this
      ensures Valid()
      ensures id !in old(albums) ==> r == NotFound && State() == old(State())
      ensures id in old(albums) ==> r == Deleted && State() == DeleteAlbum(old(State()), id)
    {
      if id !in albums {
        return NotFound;
      }
      DeleteAlbumKeepsConsistency(State(), id);
      var db := DeleteAlbum(State(), id);
      albums, songs := db.albums, db.songs;
      r := Deleted;
    }

    /** SongController::store. */
    method StoreSong(p: Requests.Payload) returns (r: Response)
      requires Valid()
      modifies this
      ensures Valid()
      ensures Requests.ValidateStoreSong(p, old(albums).Keys).Fails? ==>
                r == Unprocessable(Requests.ValidateStoreSong(p, old(albums).Keys).errors) && State() == old(State())
      ensures Requests.ValidateStoreSong(p, old(albums).Keys).Passes? ==>
                var id := old(nextSong);
                && songs == old(songs)[id := NewSong(id, Requests.ValidateStoreSong(p, old(albums).Keys).value)]
                && artists == old(artists) && albums == old(albums)
                && nextSong == id + 1 && nextArtist == old(nextArtist) && nextAlbum == old(nextAlbum)
                && r == Response(201, Wrap(SongJson(SongTree(State(), songs[id]))))
                && r.body == ShowSong(State(), id).body
                && Field(Field(Field(r.body, "data"), "album"), "id") == Num(Requests.ValidateStoreSong(p, old(albums).Keys).value.albumId)
    {
      match Requests.ValidateStoreSong(p, albums.Keys)
      case Fails(e) =>
        r := Unprocessable(e);
      case Passes(f) =>
        CreateSongKeepsConsistency(State(), f);
        var id := nextSong;
        songs := songs[id := NewSong(id, f)];
        nextSong := nextSong + 1;
        NewSongRendered(State(), id);
        r := Response(201, Wrap(SongJson(SongTree(State(), songs[id]))));
    }

    /** SongController::update. */
    method UpdateSong(id: Id, p: Requests.Payload) returns (r: Response)
      requires Valid()
      modifies this
      ensures Valid()
      ensures id !in old(songs) ==> r == NotFound && State() == old(State())
      ensures id in old(songs) && Requests.ValidateUpdateSong(p, old(albums).Keys).Fails? ==>
                r == Unprocessable(Requests.ValidateUpdateSong(p, old(albums).Keys).errors) && State() == old(State())
      ensures id in old(songs) && Requests.ValidateUpdateSong(p, old(albums).Keys).Passes? ==>
                && songs == old(songs)[id := PatchSong(old(songs)[id], Requests.ValidateUpdateSong(p, old(albums).Keys).value)]
                && artists == old(artists) && albums == old(albums)
                && nextArtist == old(nextArtist) && nextAlbum == old(nextAlbum) && nextSong == old(nextSong)
                && r == Response(200, Wrap(SongJson(SongTree(State(), songs[id]))))
                && r.body == ShowSong(State(), id).body
    {
      if id !in songs {
        return NotFound;
      }
      match Requests.ValidateUpdateSong(p, albums.Keys)
      case Fails(e) =>
        r := Unprocessable(e);
      case Passes(patch) =>
        UpdateSongKeepsConsistency(State(), id, patch);
        songs := songs[id := PatchSong(songs[id], patch)];
        r := Response(200, Wrap(SongJson(SongTree(State(), songs[id]))));
    }

    /** SongController::destroy. */
    method DestroySong(id: Id) returns (r: Response)
      requires Valid()
      modifies this
      ensures Valid()
      ensures id !in old(songs) ==> r == NotFound && State() == old(State())
      ensures id in old(songs) ==>
                && r == Deleted
                && songs == old(songs) - {id} && artists == old(artists) && albums == old(albums)
                && nextArtist == old(nextArtist) && nextAlbum == old(nextAlbum) && nextSong == old(nextSong)
    {
      if id !in songs {
        return NotFound;
      }
      songs := songs - {id};
      r := Deleted;
    }
  }
}
