/** The three API resources. A resource renders one model into a JSON object
    with its scalar fields, plus one key per relation, present only when that
    relation was loaded (`whenLoaded`). A loaded relation is carried in the
    model value itself, so what was loaded is explicit in its type. */
module Resources {
  import opened Wrappers
  import opened Models

  /** Rendered JSON. Objects are maps from key to value: key order is not modelled. */
  datatype Json = Null | Num(n: int) | Str(s: string) | Arr(items: seq<Json>) | Obj(fields: map<string, Json>)

  /** An artist with its `albums` relation loaded or not. */
  datatype ArtistNode = ArtistNode(row: Artist, albums: AlbumsRel)
  datatype AlbumsRel = AlbumsNotLoaded | AlbumsLoaded(items: seq<AlbumNode>)

  /** An album with its `artist` and `songs` relations loaded or not. A loaded
      belongsTo relation may still find no row (`None`). */
  datatype AlbumNode = AlbumNode(row: Album, artist: ArtistRel, songs: SongsRel)
  datatype ArtistRel = ArtistNotLoaded | ArtistLoaded(artist: Option<ArtistNode>)
  datatype SongsRel = SongsNotLoaded | SongsLoaded(items: seq<SongNode>)

  /** A song with its `album` relation loaded or not. */
  datatype SongNode = SongNode(row: Song, album: AlbumRel)
  datatype AlbumRel = AlbumNotLoaded | AlbumLoaded(album: Option<AlbumNode>)

  /** The keys of a rendered object. */
  function Keys(j: Json): set<string> {
    if j.Obj? then j.fields.Keys else {}
  }

  /** The value under key `k` of an object, `Null` when there is none. */
  function Field(j: Json, k: string): (r: Json)
    ensures k in Keys(j) ==> r == j.fields[k]
    ensures k !in Keys(j) ==> r == Null
  {
    if j.Obj? && k in j.fields then j.fields[k] else Null
  }

  /** A single resource answered on its own is wrapped under `data`
      (`JsonResource::$wrap`); so is a paginated collection. */
  function Wrap(j: Json): (r: Json)
    ensures Keys(r) == {"data"} && Field(r, "data") == j
  {
    Obj(map["data" := j])
  }

  /** ArtistResource::toArray: `id`, `name`, `genre` and `country` always,
      `albums` exactly when that relation was loaded, then one entry per
      loaded album. */
  function ArtistJson(n: ArtistNode): (j: Json)
    ensures Keys(j) == {"id", "name", "genre", "country"}
                       + (if n.albums.AlbumsLoaded? then {"albums"} else {})
    ensures Field(j, "id") == Num(n.row.id) && Field(j, "name") == Str(n.row.name)
    ensures Field(j, "genre") == Str(n.row.genre) && Field(j, "country") == Str(n.row.country)
    ensures n.albums.AlbumsLoaded? ==>
              && Field(j, "albums") == Arr(AlbumsJson(n.albums.items))
              && |Field(j, "albums").items| == |n.albums.items|
  {
    Obj(map["id" := Num(n.row.id), "name" := Str(n.row.name), "genre" := Str(n.row.genre),
            "country" := Str(n.row.country)]
        + match n.albums
          case AlbumsNotLoaded => map[]
          case AlbumsLoaded(xs) => map["albums" := Arr(AlbumsJson(xs))])
  }

  /** The `artist` entry of an album: present exactly when loaded, `null`
      when the loaded relation found no row. */
  function ArtistEntry(r: ArtistRel): (m: map<string, Json>)
    ensures m.Keys == if r.ArtistLoaded? then {"artist"} else {}
    ensures r == ArtistLoaded(None) ==> m["artist"] == Null
    ensures r.ArtistLoaded? && r.artist.Some? ==> m["artist"] == ArtistJson(r.artist.value)
  {
    match r
    case ArtistNotLoaded => map[]
    case ArtistLoaded(None) => map["artist" := Null]
    case ArtistLoaded(Some(a)) => map["artist" := ArtistJson(a)]
  }

  /** The `songs` entry of an album: present exactly when loaded. */
  function SongsEntry(r: SongsRel): (m: map<string, Json>)
    ensures m.Keys == if r.SongsLoaded? then {"songs"} else {}
    ensures r.SongsLoaded? ==> m["songs"].Arr? && |m["songs"].items| == |r.items|
    ensures r.SongsLoaded? ==> forall i :: 0 <= i < |r.items| ==> m["songs"].items[i] == SongJson(r.items[i])
  {
    match r
    case SongsNotLoaded => map[]
    case SongsLoaded(xs) => map["songs" := Arr(SongsJson(xs))]
  }

  /** AlbumResource::toArray: `id`, `title` and `year` always, never
      `artist_id`; `artist` and `songs` exactly when loaded. */
  function AlbumJson(n: AlbumNode): (j: Json)
    ensures Keys(j) == {"id", "title", "year"}
                       + (if n.artist.ArtistLoaded? then {"artist"} else {})
                       + (if n.songs.SongsLoaded? then {"songs"} else {})
    ensures Field(j, "id") == Num(n.row.id) && Field(j, "title") == Str(n.row.title)
    ensures Field(j, "year") == Num(n.row.year)
    ensures n.artist == ArtistLoaded(None) ==> Field(j, "artist") == Null
    ensures n.artist.ArtistLoaded? && n.artist.artist.Some? ==> Field(j, "artist") == ArtistJson(n.artist.artist.value)
    ensures n.songs.SongsLoaded? ==>
              && Field(j, "songs") == Arr(SongsJson(n.songs.items))
              && |Field(j, "songs").items| == |n.songs.items|
              && forall i :: 0 <= i < |n.songs.items| ==> Field(j, "songs").items[i] == SongJson(n.songs.items[i])
  {
    Obj(map["id" := Num(n.row.id), "title" := Str(n.row.title), "year" := Num(n.row.year)]
        + ArtistEntry(n.artist) + SongsEntry(n.songs))
  }

  /** SongResource::toArray: `id`, `title` and `duration` always, never
      `album_id`; `album` exactly when loaded. */
  function SongJson(n: SongNode): (j: Json)
    ensures Keys(j) == {"id", "title", "duration"} + (if n.album.AlbumLoaded? then {"album"} else {})
    ensures Field(j, "id") == Num(n.row.id) && Field(j, "title") == Str(n.row.title)
    ensures Field(j, "duration") == Num(n.row.duration)
    ensures n.album == AlbumLoaded(None) ==> Field(j, "album") == Null
    ensures n.album.AlbumLoaded? && n.album.album.Some? ==> Field(j, "album") == AlbumJson(n.album.album.value)
  {
    Obj(map["id" := Num(n.row.id), "title" := Str(n.row.title), "duration" := Num(n.row.duration)]
        + match n.album
          case AlbumNotLoaded => map[]
          case AlbumLoaded(None) => map["album" := Null]
          case AlbumLoaded(Some(a)) => map["album" := AlbumJson(a)])
  }

  /** `AlbumResource::collection`: each album by the album rule, in order. */
  function AlbumsJson(xs: seq<AlbumNode>): (r: seq<Json>)
    ensures |r| == |xs|
    ensures forall i :: 0 <= i < |xs| ==> r[i] == AlbumJson(xs[i])
  {
    if xs == [] then [] else [AlbumJson(xs[0])] + AlbumsJson(xs[1..])
  }

  /** `SongResource::collection`. */
  function SongsJson(xs: seq<SongNode>): (r: seq<Json>)
    ensures |r| == |xs|
    ensures forall i :: 0 <= i < |xs| ==> r[i] == SongJson(xs[i])
  {
    if xs == [] then [] else [SongJson(xs[0])] + SongsJson(xs[1..])
  }
}
