/**
 The `Stats` aggregator: counters, the nested map artist -> album -> list of
 track records, and the three failure lists.

 `StatsValue` is the aggregator's state as a value, with one function per
 update; the class `Stats` holds the same state in fields that its methods
 update in place, and each method is proved to move its state as the
 matching function does. `Consistent` is the invariant that ties the
 counters to the shape of the map and to the failure lists.
 */
module Statistics {
  import opened Wrappers

  /** One track record: `{'filename', 'newname', 'tracknumber', 'title'}`. */
  datatype Track = Track(filename: string, newname: string, trackNumber: Option<string>, title: string)

  type AlbumMap = map<string, seq<Track>>

  /** artist -> album -> tracks, in the order they were added. */
  type FileMap = map<string, AlbumMap>

  // ---------------------------------------------------------------------------
  // Sums over maps

  ghost function Pick<K>(s: set<K>): K
    requires s != {}
  {
    var k :| k in s; k
  }

  /** The sum of `size` over the values of `m`. */
  ghost function Sum<K, V>(m: map<K, V>, size: V -> nat): nat
    decreases |m|
  {
    if m == map[] then 0
    else
      var k := Pick(m.Keys);
      assert |(m - {k}).Keys| < |m.Keys| by { assert (m - {k}).Keys == m.Keys - {k}; }
      size(m[k]) + Sum(m - {k}, size)
  }

  /** The sum splits at any key, not only the one `Sum` happens to pick. */
  lemma {:induction false} SumRemove<K, V>(m: map<K, V>, k: K, size: V -> nat)
    requires k in m
    ensures Sum(m, size) == size(m[k]) + Sum(m - {k}, size)
    decreases |m|
  {
    var j := Pick(m.Keys);
    if j != k {
      assert (m - {j}).Keys == m.Keys - {j};
      assert (m - {k}).Keys == m.Keys - {k};
      SumRemove(m - {j}, k, size);
      SumRemove(m - {k}, j, size);
      assert m - {j} - {k} == m - {k} - {j};
    }
  }

  lemma SumUpdate<K, V>(m: map<K, V>, k: K, v: V, size: V -> nat)
    ensures Sum(m[k := v], size) == size(v) + Sum(m - {k}, size)
    ensures k in m ==> Sum(m, size) == size(m[k]) + Sum(m - {k}, size)
    ensures k !in m ==> Sum(m - {k}, size) == Sum(m, size)
  {
    SumRemove(m[k := v], k, size);
    assert m[k := v] - {k} == m - {k};
    if k in m {
      SumRemove(m, k, size);
    } else {
      assert m - {k} == m;
    }
  }

  function TrackListLength(tracks: seq<Track>): nat
  {
    |tracks|
  }

  function AlbumsIn(albums: AlbumMap): nat
  {
    |albums|
  }

  ghost function TracksIn(albums: AlbumMap): nat
  {
    Sum(albums, TrackListLength)
  }

  /** The number of (artist, album) pairs of the map. */
  ghost function AlbumCount(fileMap: FileMap): nat
  {
    Sum(fileMap, AlbumsIn)
  }

  /** The number of track records in the map. */
  ghost function TrackCount(fileMap: FileMap): nat
  {
    Sum(fileMap, TracksIn)
  }

  /** The tracks filed under `artist` and `album`, none if there are none. */
  function TracksAt(fileMap: FileMap, artist: string, album: string): seq<Track>
  {
    if artist in fileMap && album in fileMap[artist] then fileMap[artist][album] else []
  }

  /** Every artist has an album and every album a track: the "falsy" tests of
      `add_track` then mean "key absent". */
  ghost predicate NoEmptyGroups(fileMap: FileMap)
  {
    forall artist :: artist in fileMap ==>
      |fileMap[artist]| > 0 &&
      forall album :: album in fileMap[artist] ==> |fileMap[artist][album]| > 0
  }

  // ---------------------------------------------------------------------------
  // The aggregator's state as a value

  datatype StatsValue = StatsValue(
    numArtists: nat,
    numAlbums: nat,
    filesRead: nat,
    renamedFiles: nat,
    parseFailed: nat,
    typeFailed: nat,
    missingTags: nat,
    fileMap: FileMap,
    parseFailedPaths: seq<string>,
    typeFailedPaths: seq<string>,
    missingTagPaths: seq<(string, string)>)
  {
    /** The counters agree with the map and with the failure lists. */
    ghost predicate Consistent()
    {
      && numArtists == |fileMap|
      && numAlbums == AlbumCount(fileMap)
      && renamedFiles == TrackCount(fileMap)
      && NoEmptyGroups(fileMap)
      && parseFailed == |parseFailedPaths|
      && typeFailed == |typeFailedPaths|
      && missingTags == |missingTagPaths|
    }

    /** `stats.files_read += 1`, done by the walk for every file it visits. */
    function CountRead(): (r: StatsValue)
      ensures r.filesRead == filesRead + 1 && r.(filesRead := filesRead) == this
      ensures Consistent() ==> r.Consistent()
    {
      this.(filesRead := filesRead + 1)
    }

    /** `add_parse_failure`. */
    function AddParseFailure(filename: string): (r: StatsValue)
      ensures Consistent() ==> r.Consistent()
    {
      this.(parseFailedPaths := parseFailedPaths + [filename], parseFailed := parseFailed + 1)
    }

    /** `add_type_failure`. */
    function AddTypeFailure(filename: string): (r: StatsValue)
      ensures Consistent() ==> r.Consistent()
    {
      this.(typeFailedPaths := typeFailedPaths + [filename], typeFailed := typeFailed + 1)
    }

    /** `add_missing_tag_failure`. */
    function AddMissingTagFailure(filename: string, newname: string): (r: StatsValue)
      ensures Consistent() ==> r.Consistent()
    {
      this.(missingTagPaths := missingTagPaths + [(filename, newname)], missingTags := missingTags + 1)
    }

    /** `add_track`: a missing or empty artist entry becomes an empty map, a
        missing or empty album entry an empty list, and the record goes at the
        end of the album's list. */
    function AddTrack(filename: string, newname: string, artist: string, album: string,
                      trackNumber: Option<string>, title: string): StatsValue
    {
      var newArtist := artist !in fileMap || |fileMap[artist]| == 0;
      var withArtist := if newArtist then fileMap[artist := map[]] else fileMap;
      var newAlbum := album !in withArtist[artist] || |withArtist[artist][album]| == 0;
      var withAlbum := if newAlbum then withArtist[artist := withArtist[artist][album := []]] else withArtist;
      var t := Track(filename, newname, trackNumber, title);
      this.(
        fileMap := withAlbum[artist := withAlbum[artist][album := withAlbum[artist][album] + [t]]],
        numArtists := numArtists + (if newArtist then 1 else 0),
        numAlbums := numAlbums + (if newAlbum then 1 else 0),
        renamedFiles := renamedFiles + 1)
    }
  }

  /** The aggregator before any file is seen. */
  const EmptyStats := StatsValue(0, 0, 0, 0, 0, 0, 0, map[], [], [], [])

  lemma EmptyStatsConsistent()
    ensures EmptyStats.Consistent()
  {
  }

  /** `add_track` appends one record to the end of its album's list and
      changes no other list, no failure list and no other counter. */
  lemma AddTrackFrame(s: StatsValue, filename: string, newname: string, artist: string,
                      album: string, trackNumber: Option<string>, title: string)
    ensures var r := s.AddTrack(filename, newname, artist, album, trackNumber, title);
      && TracksAt(r.fileMap, artist, album) ==
           TracksAt(s.fileMap, artist, album) + [Track(filename, newname, trackNumber, title)]
      && (forall a, b :: (a != artist || b != album) ==> TracksAt(r.fileMap, a, b) == TracksAt(s.fileMap, a, b))
      && r.fileMap.Keys == s.fileMap.Keys + {artist}
      && (artist in s.fileMap ==> r.fileMap[artist].Keys == s.fileMap[artist].Keys + {album})
      && r.renamedFiles == s.renamedFiles + 1 && r.filesRead == s.filesRead
      && r.parseFailedPaths == s.parseFailedPaths && r.parseFailed == s.parseFailed
      && r.typeFailedPaths == s.typeFailedPaths && r.typeFailed == s.typeFailed
      && r.missingTagPaths == s.missingTagPaths && r.missingTags == s.missingTags
  {
  }

  /** The map after filing `t` under `artist` and `album`, when every present
      entry is non-empty. */
  function Insert(fileMap: FileMap, artist: string, album: string, t: Track): FileMap
  {
    var albums := if artist in fileMap then fileMap[artist] else map[];
    var tracks := if album in albums then albums[album] else [];
    fileMap[artist := albums[album := tracks + [t]]]
  }

  /** Filing a track leaves no artist without albums and no album without tracks. */
  lemma InsertNoEmptyGroups(fileMap: FileMap, artist: string, album: string, t: Track)
    requires NoEmptyGroups(fileMap)
    ensures NoEmptyGroups(Insert(fileMap, artist, album, t))
  {
    var r := Insert(fileMap, artist, album, t);
    forall a | a in r
      ensures |r[a]| > 0 && forall b :: b in r[a] ==> |r[a][b]| > 0
    {
      if a == artist {
        assert album in r[a];
      }
    }
  }

  /** Filing a track adds an artist exactly when the artist is new. */
  lemma InsertArtists(fileMap: FileMap, artist: string, album: string, t: Track)
    ensures |Insert(fileMap, artist, album, t)| == |fileMap| + (if artist in fileMap then 0 else 1)
  {
    var r := Insert(fileMap, artist, album, t);
    if artist in fileMap {
      assert r.Keys == fileMap.Keys;
    } else {
      assert r.Keys == fileMap.Keys + {artist};
    }
  }

  /** Filing a track adds an album exactly when the (artist, album) pair is new. */
  lemma InsertAlbums(fileMap: FileMap, artist: string, album: string, t: Track)
    ensures AlbumCount(Insert(fileMap, artist, album, t)) ==
              AlbumCount(fileMap) + (if artist in fileMap && album in fileMap[artist] then 0 else 1)
  {
    var albums := if artist in fileMap then fileMap[artist] else map[];
    var tracks := if album in albums then albums[album] else [];
    var updated := albums[album := tracks + [t]];
    SumUpdate(fileMap, artist, updated, AlbumsIn);
    if album in albums {
      assert updated.Keys == albums.Keys;
    } else {
      assert updated.Keys == albums.Keys + {album};
    }
  }

  /** Filing a track adds exactly one record. */
  lemma InsertTracks(fileMap: FileMap, artist: string, album: string, t: Track)
    ensures TrackCount(Insert(fileMap, artist, album, t)) == TrackCount(fileMap) + 1
  {
    var albums := if artist in fileMap then fileMap[artist] else map[];
    var tracks := if album in albums then albums[album] else [];
    var updated := albums[album := tracks + [t]];
    SumUpdate(fileMap, artist, updated, TracksIn);
    SumUpdate(albums, album, tracks + [t], TrackListLength);
    if artist !in fileMap {
      assert albums - {album} == map[];
    }
  }

  /** With no empty entries the falsy tests of `add_track` mean "key absent",
      and the record is filed as `Insert` files it. */
  lemma AddTrackInsert(s: StatsValue, filename: string, newname: string, artist: string,
                       album: string, trackNumber: Option<string>, title: string)
    requires NoEmptyGroups(s.fileMap)
    ensures var r := s.AddTrack(filename, newname, artist, album, trackNumber, title);
      && r.fileMap == Insert(s.fileMap, artist, album, Track(filename, newname, trackNumber, title))
      && r.numArtists == s.numArtists + (if artist in s.fileMap then 0 else 1)
      && r.numAlbums == s.numAlbums + (if artist in s.fileMap && album in s.fileMap[artist] then 0 else 1)
  {
    var t := Track(filename, newname, trackNumber, title);
    var fm := s.fileMap;
    assert [] + [t] == [t];
    if artist !in fm {
      var albums: AlbumMap := map[album := [t]];
      assert fm[artist := map[]][artist := map[][album := []]][artist := albums] == fm[artist := albums];
      assert map[][album := []][album := [] + [t]] == albums;
    } else if album !in fm[artist] {
      assert |fm[artist]| != 0;
      var albums := fm[artist][album := [t]];
      assert fm[artist := fm[artist][album := []]][artist := albums] == fm[artist := albums];
      assert fm[artist][album := []][album := [] + [t]] == albums;
    } else {
      assert |fm[artist]| != 0 && |fm[artist][album]| != 0;
    }
  }

  /** `add_track` keeps the counters equal to the shape of the map: the artist
      count grows exactly when the artist is new, the album count exactly when
      the (artist, album) pair is new, the track count always by one. */
  lemma AddTrackConsistent(s: StatsValue, filename: string, newname: string, artist: string,
                           album: string, trackNumber: Option<string>, title: string)
    requires s.Consistent()
    ensures var r := s.AddTrack(filename, newname, artist, album, trackNumber, title);
      && r.Consistent()
      && r.numArtists == s.numArtists + (if artist in s.fileMap then 0 else 1)
      && r.numAlbums == s.numAlbums + (if artist in s.fileMap && album in s.fileMap[artist] then 0 else 1)
  {
    var t := Track(filename, newname, trackNumber, title);
    AddTrackInsert(s, filename, newname, artist, album, trackNumber, title);
    InsertNoEmptyGroups(s.fileMap, artist, album, t);
    InsertArtists(s.fileMap, artist, album, t);
    InsertAlbums(s.fileMap, artist, album, t);
    InsertTracks(s.fileMap, artist, album, t);
  }


  // ---------------------------------------------------------------------------
  // The aggregator object

  /** `Stats`: one run's aggregator; the source keeps these as class attributes. */
  class Stats {
    var numArtists: nat
    var numAlbums: nat
    var filesRead: nat
    var renamedFiles: nat
    var parseFailed: nat
    var typeFailed: nat
    var missingTags: nat
    var fileMap: FileMap
    var parseFailedPaths: seq<string>
    var typeFailedPaths: seq<string>
    var missingTagPaths: seq<(string, string)>

    ghost function Snapshot(): StatsValue
      reads this
    {
      StatsValue(numArtists, numAlbums, filesRead, renamedFiles, parseFailed, typeFailed,
                 missingTags, fileMap, parseFailedPaths, typeFailedPaths, missingTagPaths)
    }

    /** The initial values of the class attributes. */
    constructor ()
      ensures Snapshot() == EmptyStats
    {
      numArtists, numAlbums, filesRead, renamedFiles := 0, 0, 0, 0;
      parseFailed, typeFailed, missingTags := 0, 0, 0;
      fileMap := map[];
      parseFailedPaths, typeFailedPaths, missingTagPaths := [], [], [];
    }

    method AddParseFailure(filename: string)
      modifies this
      ensures Snapshot() == old(Snapshot()).AddParseFailure(filename)
    {
      parseFailedPaths := parseFailedPaths + [filename];
      parseFailed := parseFailed + 1;
    }

    method AddTypeFailure(filename: string)
      modifies this
      ensures Snapshot() == old(Snapshot()).AddTypeFailure(filename)
    {
      typeFailedPaths := typeFailedPaths + [filename];
      typeFailed := typeFailed + 1;
    }

    method AddMissingTagFailure(filename: string, newname: string)
      modifies this
      ensures Snapshot() == old(Snapshot()).AddMissingTagFailure(filename, newname)
    {
      missingTagPaths := missingTagPaths + [(filename, newname)];
      missingTags := missingTags + 1;
    }

    method AddTrack(filename: string, newname: string, artist: string, album: string,
                    trackNumber: Option<string>, title: string)
      modifies this
      ensures Snapshot() == old(Snapshot()).AddTrack(filename, newname, artist, album, trackNumber, title)
    {
      var m := fileMap;
      if artist !in m || |m[artist]| == 0 {
        m := m[artist := map[]];
        numArtists := numArtists + 1;
      }
      if album !in m[artist] || |m[artist][album]| == 0 {
        m := m[artist := m[artist][album := []]];
        numAlbums := numAlbums + 1;
      }
      fileMap := m[artist := m[artist][album := m[artist][album] + [Track(filename, newname, trackNumber, title)]]];
      renamedFiles := renamedFiles + 1;
    }
  }
}
