/** The `songs` table's migration: `album_id` is a foreign key constrained to
    `albums.id`, and deleting an album row cascades to the songs that point
    at it. The columns themselves are the fields of `Models.Song`; the
    foreign key is the last clause of `Models.Consistent`. */
module SongsMigration {
  import opened Tables
  import opened Models

  /** The song rows whose `album_id` is `albumId`: what the cascade removes. */
  function CascadedSongs(db: Db, albumId: Id): set<Id> {
    set k | k in db.songs && db.songs[k].albumId == albumId
  }

  /** Deleting album row `albumId`: the row goes, and with it, in the same
      statement, every song row that references it; nothing else changes. */
  function DeleteAlbum(db: Db, albumId: Id): (r: Db)
    ensures r.albums.Keys == db.albums.Keys - {albumId}
    ensures forall k :: k in r.albums ==> r.albums[k] == db.albums[k]
    ensures forall k :: k in r.songs <==> k in db.songs && db.songs[k].albumId != albumId
    ensures forall k :: k in r.songs ==> r.songs[k] == db.songs[k]
    ensures r.artists == db.artists
    ensures r.nextArtist == db.nextArtist && r.nextAlbum == db.nextAlbum && r.nextSong == db.nextSong
  {
    db.(albums := db.albums - {albumId},
        songs := map k | k in db.songs && db.songs[k].albumId != albumId :: db.songs[k])
  }

  /** The cascade keeps the store consistent: no song is left pointing at the
      deleted album. */
  lemma DeleteAlbumKeepsConsistency(db: Db, albumId: Id)
    requires Consistent(db)
    ensures Consistent(DeleteAlbum(db, albumId))
  {
  }

  /** The foreign key: no consistent store holds a song whose `album_id`
      names no album, and in a consistent store each song's `album_id` is the
      id of a stored album. */
  lemma ForeignKeyHolds(db: Db, s: Song)
    ensures s in db.songs.Values && s.albumId !in db.albums ==> !Consistent(db)
    ensures Consistent(db) && s in db.songs.Values ==>
              exists al :: al in db.albums.Values && al.id == s.albumId
  {
    if Consistent(db) && s in db.songs.Values {
      assert db.albums[s.albumId] in db.albums.Values;
    }
  }

  /** Deleting an album with N songs removes exactly N + 1 rows: the album and
      its songs, and no other song. */
  lemma {:induction false} DeleteAlbumRowCount(db: Db, albumId: Id)
    requires albumId in db.albums
    ensures |DeleteAlbum(db, albumId).albums| + 1 == |db.albums|
    ensures |DeleteAlbum(db, albumId).songs| + |CascadedSongs(db, albumId)| == |db.songs|
  {
    var r := DeleteAlbum(db, albumId);
    var gone := CascadedSongs(db, albumId);
    assert r.songs.Keys == db.songs.Keys - gone;
    RemoveCount(db.songs.Keys, gone);
    RemoveCount(db.albums.Keys, {albumId});
  }

  /** An album's `songs` relation holds exactly as many songs as the cascade
      would remove with it: each referencing song once. */
  lemma SongsOfCountsCascade(db: Db, albumId: Id)
    requires Consistent(db)
    ensures |SongsOf(db, albumId)| == |CascadedSongs(db, albumId)|
  {
    var xs := SongsOf(db, albumId);
    SongsOfAscending(db, albumId);
    AscendingKeysCount(xs, SongId);
    SongsOfIds(db, albumId, SongId);
  }

  /** The ids of an album's songs are the ids the cascade removes. */
  lemma SongsOfIds(db: Db, albumId: Id, key: Song -> Id)
    requires Consistent(db)
    requires forall s :: key(s) == s.id
    ensures KeysOf(SongsOf(db, albumId), key) == CascadedSongs(db, albumId)
  {
    var xs := SongsOf(db, albumId);
    var ids := KeysOf(xs, key);
    forall k | k in ids
      ensures k in CascadedSongs(db, albumId)
    {
      var x :| x in xs && key(x) == k;
      var k' :| k' in db.songs && db.songs[k'] == x;
    }
    forall k | k in CascadedSongs(db, albumId)
      ensures k in ids
    {
      var x := db.songs[k];
      assert x in xs;
      assert key(x) == k;
    }
  }
}
