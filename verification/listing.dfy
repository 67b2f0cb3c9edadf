/** The three `index` queries: optional criteria, each applied through a
    `when` guard, then a page of the result. */
module Listing {
  import opened Wrappers
  import opened Tables
  import opened Text
  import opened Models

  /** PHP truthiness of a query-string value: an absent parameter, the empty
      string and "0" are falsy, so `when` skips the criterion. */
  predicate Truthy(v: Option<string>) {
    v.Some? && v.value != "" && v.value != "0"
  }

  /** The text of a parameter, empty when absent. */
  function Param(v: Option<string>): string { v.GetOr("") }

  /** A numeric criterion compares the column with the parameter read as an
      integer; a parameter that is not an integer matches no row. */
  predicate NumberIs(column: int, v: string) {
    ParseInt(v) == Some(column)
  }

  predicate AtLeast(column: int, v: string) {
    ParseInt(v).Some? && column >= ParseInt(v).value
  }

  predicate AtMost(column: int, v: string) {
    ParseInt(v).Some? && column <= ParseInt(v).value
  }

  /** A `LIKE '%v%'` criterion is a plain substring test only when `v` holds
      neither of the LIKE wildcards `%` and `_` nor the escape character `\`. */
  predicate Literal(v: Option<string>) {
    v.Some? ==> '%' !in v.value && '_' !in v.value && '\\' !in v.value
  }

  // ---- ArtistController::index ----

  datatype ArtistQuery = ArtistQuery(name: Option<string>, genre: Option<string>, country: Option<string>)

  /** `genre` is split on commas, with no trimming, and matched exactly
      against the pieces (`whereIn`). */
  predicate GenreIn(a: Artist, genres: string) {
    a.genre in Split(genres, ',')
  }

  /** The `when` chain of the artist index: it keeps, in scan order, exactly
      the artists that pass every applied criterion. */
  function FilterArtists(db: Db, q: ArtistQuery): (r: seq<Artist>)
    ensures forall a :: a in r <==> a in ArtistRows(db) && ArtistMatches(q, a)
  {
    var byName := When(Truthy(q.name), ArtistRows(db), (a: Artist) => Contains(a.name, Param(q.name)));
    var byGenre := When(Truthy(q.genre), byName, (a: Artist) => GenreIn(a, Param(q.genre)));
    When(Truthy(q.country), byGenre, (a: Artist) => Contains(a.country, Param(q.country)))
  }

  /** What it means for an artist to pass every applied artist criterion. */
  predicate ArtistMatches(q: ArtistQuery, a: Artist) {
    && (Truthy(q.name) ==> Contains(a.name, q.name.value))
    && (Truthy(q.genre) ==> GenreIn(a, q.genre.value))
    && (Truthy(q.country) ==> Contains(a.country, q.country.value))
  }

  /** The artist index lists exactly the artists of the store that satisfy all
      applied criteria at once. */
  lemma FilterArtistsExact(db: Db, q: ArtistQuery)
    requires Consistent(db)
    ensures forall a :: a in FilterArtists(db, q) <==> a in db.artists.Values && ArtistMatches(q, a)
  {
    ScansAreComplete(db);
  }

  /** `genre` splits on commas with no trimming: a value without a comma
      matches that genre only, `rock,pop` matches `rock` and `pop` but not
      `rock-pop` (nor ` pop`), and a genre that itself holds a comma can never
      be matched. */
  lemma GenreMatching(a: Artist, v: string)
    ensures ',' !in v ==> (GenreIn(a, v) <==> a.genre == v)
    ensures ',' in a.genre ==> !GenreIn(a, v)
    ensures GenreIn(a, "rock,pop") <==> a.genre == "rock" || a.genre == "pop"
  {
    if ',' !in v {
      SplitNoSeparator(v, ',');
    }
    SplitFront("rock", ',', "pop");
    SplitNoSeparator("pop", ',');
    assert "rock" + [','] + "pop" == "rock,pop";
  }

  // ---- AlbumController::index ----

  datatype AlbumQuery = AlbumQuery(title: Option<string>, artist: Option<string>, year: Option<string>)

  /** `whereHas('artist', name LIKE ...)`: the album's artist exists and its
      name contains `v`. */
  predicate ArtistNameContains(db: Db, al: Album, v: string) {
    al.artistId in db.artists && Contains(db.artists[al.artistId].name, v)
  }

  /** The `when` chain of the album index: it keeps, in scan order, exactly
      the albums that pass every applied criterion. */
  function FilterAlbums(db: Db, q: AlbumQuery): (r: seq<Album>)
    ensures forall al :: al in r <==> al in AlbumRows(db) && AlbumMatches(db, q, al)
  {
    var byTitle := When(Truthy(q.title), AlbumRows(db), (al: Album) => Contains(al.title, Param(q.title)));
    var byArtist := When(Truthy(q.artist), byTitle, (al: Album) => ArtistNameContains(db, al, Param(q.artist)));
    When(Truthy(q.year), byArtist, (al: Album) => NumberIs(al.year, Param(q.year)))
  }

  predicate AlbumMatches(db: Db, q: AlbumQuery, al: Album) {
    && (Truthy(q.title) ==> Contains(al.title, q.title.value))
    && (Truthy(q.artist) ==> ArtistNameContains(db, al, q.artist.value))
    && (Truthy(q.year) ==> NumberIs(al.year, q.year.value))
  }

  /** The album index lists exactly the albums of the store that satisfy all
      applied criteria at once. */
  lemma FilterAlbumsExact(db: Db, q: AlbumQuery)
    requires Consistent(db)
    ensures forall al :: al in FilterAlbums(db, q) <==> al in db.albums.Values && AlbumMatches(db, q, al)
  {
    ScansAreComplete(db);
  }

  // ---- SongController::index ----

  datatype SongQuery = SongQuery(title: Option<string>, artist: Option<string>, album: Option<string>,
                                 minDuration: Option<string>, maxDuration: Option<string>)

  /** `whereHas('album.artist', name LIKE ...)`: two hops, song to album to artist. */
  predicate SongArtistNameContains(db: Db, s: Song, v: string) {
    s.albumId in db.albums && ArtistNameContains(db, db.albums[s.albumId], v)
  }

  /** `whereHas('album', title LIKE ...)`. */
  predicate SongAlbumTitleContains(db: Db, s: Song, v: string) {
    s.albumId in db.albums && Contains(db.albums[s.albumId].title, v)
  }

  /** The `when` chain of the song index: it keeps, in scan order, exactly
      the songs that pass every applied criterion. */
  function FilterSongs(db: Db, q: SongQuery): (r: seq<Song>)
    ensures forall s :: s in r <==> s in SongRows(db) && SongMatches(db, q, s)
  {
    var byMin := When(Truthy(q.minDuration), SongTextFilter(db, q), (s: Song) => AtLeast(s.duration, Param(q.minDuration)));
    When(Truthy(q.maxDuration), byMin, (s: Song) => AtMost(s.duration, Param(q.maxDuration)))
  }

  /** The first three clauses of the song index: title, artist and album. */
  function SongTextFilter(db: Db, q: SongQuery): (r: seq<Song>)
    ensures forall s :: s in r <==> s in SongRows(db) && SongTextMatches(db, q, s)
  {
    var byTitle := When(Truthy(q.title), SongRows(db), (s: Song) => Contains(s.title, Param(q.title)));
    var byArtist := When(Truthy(q.artist), byTitle, (s: Song) => SongArtistNameContains(db, s, Param(q.artist)));
    When(Truthy(q.album), byArtist, (s: Song) => SongAlbumTitleContains(db, s, Param(q.album)))
  }

  /** The three text criteria of the song index. */
  predicate SongTextMatches(db: Db, q: SongQuery, s: Song) {
    && (Truthy(q.title) ==> Contains(s.title, q.title.value))
    && (Truthy(q.artist) ==> SongArtistNameContains(db, s, q.artist.value))
    && (Truthy(q.album) ==> SongAlbumTitleContains(db, s, q.album.value))
  }

  /** The two duration bounds, both inclusive. */
  predicate DurationMatches(q: SongQuery, s: Song) {
    && (Truthy(q.minDuration) ==> AtLeast(s.duration, q.minDuration.value))
    && (Truthy(q.maxDuration) ==> AtMost(s.duration, q.maxDuration.value))
  }

  predicate SongMatches(db: Db, q: SongQuery, s: Song) {
    SongTextMatches(db, q, s) && DurationMatches(q, s)
  }

  /** The song index lists exactly the songs of the store that satisfy all
      applied criteria at once. */
  lemma FilterSongsExact(db: Db, q: SongQuery)
    requires Consistent(db)
    ensures forall s :: s in FilterSongs(db, q) <==> s in db.songs.Values && SongMatches(db, q, s)
  {
    ScansAreComplete(db);
  }

  // ---- The pager ----

  type PageSize = n: int | n >= 1 witness 1

  /** `$request->per_page ?? 10`. */
  const DefaultPerPage: PageSize := 10

  function PerPage(perPage: Option<PageSize>): (r: PageSize)
    ensures perPage.None? ==> r == DefaultPerPage
    ensures perPage.Some? ==> r == perPage.value
  {
    perPage.GetOr(DefaultPerPage)
  }

  function Min(a: int, b: int): int { if a <= b then a else b }

  /** Index of the first row of page `number`, `size` rows per page. */
  function PageStart(size: PageSize, number: PageSize): (r: nat)
    ensures r == (number - 1) * size
  {
    (number - 1) * size
  }

  /** `r` is the window of `rows` that starts at index `start` and holds up to
      `size` rows: empty when `start` is at or past the end. */
  predicate WindowAt<T(==)>(r: seq<T>, rows: seq<T>, start: nat, size: nat) {
    && (start <= |rows| ==> r == rows[start..Min(start + size, |rows|)])
    && (start >= |rows| ==> r == [])
  }

  /** Page `number` (counted from 1) of `rows`, `size` rows per page. */
  function PageOf<T>(rows: seq<T>, size: PageSize, number: PageSize): (r: seq<T>)
    ensures |r| <= size
    ensures forall x :: x in r ==> x in rows
    ensures 0 <= Min((number - 1) * size, |rows|) <= Min((number - 1) * size, |rows|) + |r| <= |rows|
    ensures forall i :: 0 <= i < |r| ==> r[i] == rows[Min((number - 1) * size, |rows|) + i]
    ensures number == 1 ==> r == rows[..Min(size, |rows|)]
    ensures WindowAt(r, rows, PageStart(size, number), size)
  {
    var lo := Min((number - 1) * size, |rows|);
    rows[lo..Min(lo + size, |rows|)]
  }

  /** Pages 1 to k, one after the other. */
  function FirstPages<T>(rows: seq<T>, size: PageSize, k: nat): seq<T> {
    if k == 0 then [] else FirstPages(rows, size, k - 1) + PageOf(rows, size, k)
  }

  /** Reading the pages in order yields the rows in order, none skipped and
      none repeated: the first k pages are the first k * size rows. */
  lemma {:induction false} FirstPagesArePrefix<T>(rows: seq<T>, size: PageSize, k: nat)
    ensures FirstPages(rows, size, k) == rows[..Min(k * size, |rows|)]
  {
    if k > 0 {
      FirstPagesArePrefix(rows, size, k - 1);
      assert (k - 1) * size + size == k * size;
    }
  }

  /** Album index, page `page` of `per_page` (10 when absent) rows. */
  function ListAlbums(db: Db, q: AlbumQuery, perPage: Option<PageSize>, page: PageSize): (r: seq<Album>)
    requires Literal(q.title) && Literal(q.artist)
    ensures |r| <= PerPage(perPage)
    ensures perPage.None? ==> |r| <= 10
    ensures forall al :: al in r ==> al in AlbumRows(db) && AlbumMatches(db, q, al)
    ensures WindowAt(r, FilterAlbums(db, q), PageStart(PerPage(perPage), page), PerPage(perPage))
  {
    PageOf(FilterAlbums(db, q), PerPage(perPage), page)
  }

  /** Artist index, page `page`. */
  function ListArtists(db: Db, q: ArtistQuery, perPage: Option<PageSize>, page: PageSize): (r: seq<Artist>)
    requires Literal(q.name) && Literal(q.country)
    ensures |r| <= PerPage(perPage)
    ensures perPage.None? ==> |r| <= 10
    ensures forall a :: a in r ==> a in ArtistRows(db) && ArtistMatches(q, a)
    ensures WindowAt(r, FilterArtists(db, q), PageStart(PerPage(perPage), page), PerPage(perPage))
  {
    PageOf(FilterArtists(db, q), PerPage(perPage), page)
  }

  /** Song index, page `page`. */
  function ListSongs(db: Db, q: SongQuery, perPage: Option<PageSize>, page: PageSize): (r: seq<Song>)
    requires Literal(q.title) && Literal(q.artist) && Literal(q.album)
    ensures |r| <= PerPage(perPage)
    ensures perPage.None? ==> |r| <= 10
    ensures forall s :: s in r ==> s in SongRows(db) && SongMatches(db, q, s)
    ensures WindowAt(r, FilterSongs(db, q), PageStart(PerPage(perPage), page), PerPage(perPage))
  {
    PageOf(FilterSongs(db, q), PerPage(perPage), page)
  }

  /** In a consistent store each index page lists its rows in strictly
      ascending id order, so no row appears twice on a page. */
  lemma PagesAscending(db: Db, aq: ArtistQuery, q: AlbumQuery, sq: SongQuery, perPage: Option<PageSize>, page: PageSize)
    requires Consistent(db)
    requires Literal(aq.name) && Literal(aq.country)
    requires Literal(q.title) && Literal(q.artist)
    requires Literal(sq.title) && Literal(sq.artist) && Literal(sq.album)
    ensures Ascending(ListArtists(db, aq, perPage, page), ArtistId)
    ensures Ascending(ListAlbums(db, q, perPage, page), AlbumId)
    ensures Ascending(ListSongs(db, sq, perPage, page), SongId)
  {
    RelationsAscending(db, 0, 0);
    FilterArtistsIsConjunction(db, aq);
    FilterAlbumsIsConjunction(db, q);
    FilterSongsIsConjunction(db, sq);
    FilterAscending(ArtistRows(db), (a: Artist) => ArtistMatches(aq, a), ArtistId);
    FilterAscending(AlbumRows(db), (al: Album) => AlbumMatches(db, q, al), AlbumId);
    FilterAscending(SongRows(db), (s: Song) => SongMatches(db, sq, s), SongId);
  }

  // ---- Properties of the criteria ----

  /** A criterion whose value is falsy (absent, empty or "0") constrains
      nothing: the index is the same as without it. This holds for each of the
      eleven criteria of the three indexes. */
  lemma FalsyCriteriaSkipped(db: Db, q: AlbumQuery, aq: ArtistQuery, sq: SongQuery)
    ensures !Truthy(q.title) ==> FilterAlbums(db, q) == FilterAlbums(db, q.(title := None))
    ensures !Truthy(q.artist) ==> FilterAlbums(db, q) == FilterAlbums(db, q.(artist := None))
    ensures !Truthy(q.year) ==> FilterAlbums(db, q) == FilterAlbums(db, q.(year := None))
    ensures !Truthy(aq.name) ==> FilterArtists(db, aq) == FilterArtists(db, aq.(name := None))
    ensures !Truthy(aq.genre) ==> FilterArtists(db, aq) == FilterArtists(db, aq.(genre := None))
    ensures !Truthy(aq.country) ==> FilterArtists(db, aq) == FilterArtists(db, aq.(country := None))
    ensures !Truthy(sq.title) ==> FilterSongs(db, sq) == FilterSongs(db, sq.(title := None))
    ensures !Truthy(sq.artist) ==> FilterSongs(db, sq) == FilterSongs(db, sq.(artist := None))
    ensures !Truthy(sq.album) ==> FilterSongs(db, sq) == FilterSongs(db, sq.(album := None))
    ensures !Truthy(sq.minDuration) ==> FilterSongs(db, sq) == FilterSongs(db, sq.(minDuration := None))
    ensures !Truthy(sq.maxDuration) ==> FilterSongs(db, sq) == FilterSongs(db, sq.(maxDuration := None))
    ensures FilterAlbums(db, AlbumQuery(None, None, None)) == AlbumRows(db)
    ensures FilterArtists(db, ArtistQuery(None, None, None)) == ArtistRows(db)
    ensures FilterSongs(db, SongQuery(None, None, None, None, None)) == SongRows(db)
  {
  }

  /** With both bounds applied, every listed song's duration lies in the
      closed interval between them, and both bounds are integers. */
  lemma DurationBounds(db: Db, q: SongQuery, s: Song)
    requires Truthy(q.minDuration) && Truthy(q.maxDuration)
    requires s in FilterSongs(db, q)
    ensures ParseInt(q.minDuration.value).Some? && ParseInt(q.maxDuration.value).Some?
    ensures ParseInt(q.minDuration.value).value <= s.duration <= ParseInt(q.maxDuration.value).value
  {
  }

  /** Only "" and "0" are falsy: a zero written otherwise, such as "00", is
      applied, and then lists exactly the albums of year 0 or the songs of at
      least 0 seconds. */
  lemma ZeroSpelledOtherwiseApplies(db: Db)
    ensures Truthy(Some("00"))
    ensures forall al :: al in FilterAlbums(db, AlbumQuery(None, None, Some("00"))) <==>
              al in AlbumRows(db) && al.year == 0
    ensures forall s :: s in FilterSongs(db, SongQuery(None, None, None, Some("00"), None)) <==>
              s in SongRows(db) && s.duration >= 0
  {
    LeadingZeros();
  }

  /** `q2` applies every criterion `q1` applies, with the same value. */
  predicate AlbumQueryNarrows(q2: AlbumQuery, q1: AlbumQuery) {
    && (Truthy(q1.title) ==> q2.title == q1.title)
    && (Truthy(q1.artist) ==> q2.artist == q1.artist)
    && (Truthy(q1.year) ==> q2.year == q1.year)
  }

  /** Adding criteria can only shrink the album index. */
  lemma AlbumCriteriaMonotonic(db: Db, q1: AlbumQuery, q2: AlbumQuery)
    requires AlbumQueryNarrows(q2, q1)
    ensures forall al :: al in FilterAlbums(db, q2) ==> al in FilterAlbums(db, q1)
  {
  }

  /** The `when` chain of the album index is one `where` on the conjunction
      of the applied criteria: same rows, same order. */
  lemma FilterAlbumsIsConjunction(db: Db, q: AlbumQuery)
    ensures FilterAlbums(db, q) == Filter(AlbumRows(db), (al: Album) => AlbumMatches(db, q, al))
  {
    var rows := AlbumRows(db);
    var pt := (al: Album) => Contains(al.title, Param(q.title));
    var pa := (al: Album) => ArtistNameContains(db, al, Param(q.artist));
    var py := (al: Album) => NumberIs(al.year, Param(q.year));
    var m1 := (al: Album) => Truthy(q.title) ==> pt(al);
    var m2 := (al: Album) => m1(al) && (Truthy(q.artist) ==> pa(al));
    WhenStarts(rows, Truthy(q.title), pt, m1);
    WhenNarrows(rows, m1, Truthy(q.artist), pa, m2);
    WhenNarrows(rows, m2, Truthy(q.year), py, (al: Album) => AlbumMatches(db, q, al));
  }

  /** The same for the artist index. */
  lemma FilterArtistsIsConjunction(db: Db, q: ArtistQuery)
    ensures FilterArtists(db, q) == Filter(ArtistRows(db), (a: Artist) => ArtistMatches(q, a))
  {
    var rows := ArtistRows(db);
    var pn := (a: Artist) => Contains(a.name, Param(q.name));
    var pg := (a: Artist) => GenreIn(a, Param(q.genre));
    var pc := (a: Artist) => Contains(a.country, Param(q.country));
    var m1 := (a: Artist) => Truthy(q.name) ==> pn(a);
    var m2 := (a: Artist) => m1(a) && (Truthy(q.genre) ==> pg(a));
    WhenStarts(rows, Truthy(q.name), pn, m1);
    WhenNarrows(rows, m1, Truthy(q.genre), pg, m2);
    WhenNarrows(rows, m2, Truthy(q.country), pc, (a: Artist) => ArtistMatches(q, a));
  }

  /** The first three clauses of the song index, one `where` on their conjunction. */
  lemma SongTextClauses(db: Db, q: SongQuery)
    ensures SongTextFilter(db, q) == Filter(SongRows(db), (s: Song) => SongTextMatches(db, q, s))
  {
    var rows := SongRows(db);
    var pt := (s: Song) => Contains(s.title, Param(q.title));
    var pr := (s: Song) => SongArtistNameContains(db, s, Param(q.artist));
    var pa := (s: Song) => SongAlbumTitleContains(db, s, Param(q.album));
    var m1 := (s: Song) => Truthy(q.title) ==> pt(s);
    var m2 := (s: Song) => m1(s) && (Truthy(q.artist) ==> pr(s));
    WhenStarts(rows, Truthy(q.title), pt, m1);
    WhenNarrows(rows, m1, Truthy(q.artist), pr, m2);
    WhenNarrows(rows, m2, Truthy(q.album), pa, (s: Song) => SongTextMatches(db, q, s));
  }

  /** The same for the song index, five clauses long. */
  lemma FilterSongsIsConjunction(db: Db, q: SongQuery)
    ensures FilterSongs(db, q) == Filter(SongRows(db), (s: Song) => SongMatches(db, q, s))
  {
    var rows := SongRows(db);
    var m3 := (s: Song) => SongTextMatches(db, q, s);
    var pmin := (s: Song) => AtLeast(s.duration, Param(q.minDuration));
    var pmax := (s: Song) => AtMost(s.duration, Param(q.maxDuration));
    var m4 := (s: Song) => m3(s) && (Truthy(q.minDuration) ==> pmin(s));
    SongTextClauses(db, q);
    WhenNarrows(rows, m3, Truthy(q.minDuration), pmin, m4);
    WhenNarrows(rows, m4, Truthy(q.maxDuration), pmax, (s: Song) => SongMatches(db, q, s));
  }
}
