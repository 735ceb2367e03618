/**
 `gen_script_unix`: the shell script that copies or moves every filed track
 to its new name. After a fixed header, for each artist in sorted order and
 each of its albums in sorted order, the script has one mkdir line for
 `artist/album`, one rename line per track in the order the tracks were
 filed, and a blank line. The source path is escaped for single quotes;
 the new name is written as stored.

 The script is modelled as its sequence of lines; the file holds each line
 followed by a newline.
 */
module Script {
  import opened Text
  import opened Shell
  import opened Paths
  import opened Statistics
  import opened Sorting
  import opened Seqs

  /** The lines written before any album. */
  const Header: seq<string> := [
    "#!/bin/bash -x",
    "#",
    "# Generated with mp3renamer (by 0xfe).",
    "#",
    "# Files will be copied or moved to current directory",
    ""]

  /** `"%s '%s'" % (mkdir_cmd, os.path.join(artist, album))`. */
  function MkdirLine(mkdir: string, artist: string, album: string): string
  {
    mkdir + " '" + JoinPath(artist, album) + "'"
  }

  /** `"%s '%s' '%s'" % (rename_cmd, escape_path(filename), newname)`. */
  function RenameLine(rename: string, t: Track): string
  {
    rename + " '" + Escape(t.filename) + "' '" + t.newname + "'"
  }

  /** One rename line per track, in the order of the tracks. */
  function TrackLines(rename: string, tracks: seq<Track>): seq<string>
  {
    if tracks == [] then []
    else
      var n := |tracks| - 1;
      TrackLines(rename, tracks[..n]) + [RenameLine(rename, tracks[n])]
  }

  /** The rename line of the track at position `k` is at position `k`. */
  lemma {:induction false} TrackLinesAt(rename: string, tracks: seq<Track>, k: nat)
    requires k < |tracks|
    ensures |TrackLines(rename, tracks)| == |tracks|
    ensures TrackLines(rename, tracks)[k] == RenameLine(rename, tracks[k])
  {
    var n := |tracks| - 1;
    if k < n {
      TrackLinesAt(rename, tracks[..n], k);
    } else if n > 0 {
      TrackLinesAt(rename, tracks[..n], 0);
    }
  }

  /** The lines for one album: mkdir, the tracks, a blank line. */
  function AlbumBlock(mkdir: string, rename: string, artist: string, album: string, tracks: seq<Track>): seq<string>
  {
    [MkdirLine(mkdir, artist, album)] + TrackLines(rename, tracks) + [""]
  }

  /** An (artist, album) pair of the map. */
  type Group = (string, string)

  predicate InMap(fileMap: FileMap, g: Group)
  {
    g.0 in fileMap && g.1 in fileMap[g.0]
  }

  /** The pairs for `artist` and each of `albums`, in that order. */
  function AlbumGroups(artist: string, albums: seq<string>): (r: seq<Group>)
    ensures |r| == |albums|
    ensures forall k :: 0 <= k < |albums| ==> r[k] == (artist, albums[k])
  {
    seq(|albums|, k requires 0 <= k < |albums| => (artist, albums[k]))
  }

  /** The albums of `artist` in sorted order, none for an unknown artist. */
  function AlbumsOf(fileMap: FileMap, artist: string): seq<string>
  {
    if artist in fileMap then SortedKeys(fileMap[artist]) else []
  }

  /** The pairs of each of `artists`, artist by artist, albums in sorted order. */
  function GroupsAlong(fileMap: FileMap, artists: seq<string>): seq<Group>
  {
    if artists == [] then []
    else
      var n := |artists| - 1;
      GroupsAlong(fileMap, artists[..n]) + AlbumGroups(artists[n], AlbumsOf(fileMap, artists[n]))
  }

  /** The album groups in the order of the script. */
  function Groups(fileMap: FileMap): seq<Group>
  {
    GroupsAlong(fileMap, SortedKeys(fileMap))
  }

  /** The blocks of `groups`, one after another. */
  function BlocksOf(fileMap: FileMap, mkdir: string, rename: string, groups: seq<Group>): seq<string>
  {
    if groups == [] then []
    else
      var n := |groups| - 1;
      BlocksOf(fileMap, mkdir, rename, groups[..n]) + GroupBlock(fileMap, mkdir, rename, groups[n])
  }

  /** The block of the album `g` of the map. */
  function GroupBlock(fileMap: FileMap, mkdir: string, rename: string, g: Group): seq<string>
  {
    AlbumBlock(mkdir, rename, g.0, g.1, TracksAt(fileMap, g.0, g.1))
  }

  /** The command for each track: `mv` when moving, the given one otherwise. */
  function RenameCommand(renameCmd: string, move: bool): string
  {
    if move then "mv" else renameCmd
  }

  /** The whole script. */
  function ScriptLines(fileMap: FileMap, mkdirCmd: string, renameCmd: string, move: bool): seq<string>
  {
    Header + BlocksOf(fileMap, mkdirCmd, RenameCommand(renameCmd, move), Groups(fileMap))
  }

  // ---------------------------------------------------------------------------
  // The groups: every (artist, album) pair once, in sorted order

  /** Pairs compare by artist first, then by album. */
  predicate GroupLess(g: Group, h: Group)
  {
    Less(g.0, h.0) || (g.0 == h.0 && Less(g.1, h.1))
  }

  /** A group comes from one of `artists` and is a pair of the map. */
  lemma {:induction false} GroupsAlongInMap(fileMap: FileMap, artists: seq<string>, g: Group)
    requires g in GroupsAlong(fileMap, artists)
    ensures InMap(fileMap, g) && g.0 in artists
  {
    var n := |artists| - 1;
    var front := GroupsAlong(fileMap, artists[..n]);
    if g in front {
      GroupsAlongInMap(fileMap, artists[..n], g);
    } else {
      var albums := AlbumsOf(fileMap, artists[n]);
      var k :| 0 <= k < |albums| && AlbumGroups(artists[n], albums)[k] == g;
      SortedKeysMembers(fileMap[artists[n]]);
      assert albums[k] in albums;
    }
  }

  /** Every pair of the map whose artist is among `artists` is a group. */
  lemma {:induction false} GroupsAlongComplete(fileMap: FileMap, artists: seq<string>, g: Group)
    requires InMap(fileMap, g) && g.0 in artists
    ensures g in GroupsAlong(fileMap, artists)
  {
    var n := |artists| - 1;
    if g.0 == artists[n] {
      var albums := AlbumsOf(fileMap, artists[n]);
      SortedKeysMembers(fileMap[g.0]);
      var k :| 0 <= k < |albums| && albums[k] == g.1;
      assert AlbumGroups(artists[n], albums)[k] == g;
    } else {
      assert g.0 in artists[..n];
      GroupsAlongComplete(fileMap, artists[..n], g);
    }
  }

  /** Each (artist, album) pair of the map is a group, and nothing else is. */
  lemma GroupsExact(fileMap: FileMap, g: Group)
    ensures g in Groups(fileMap) <==> InMap(fileMap, g)
  {
    SortedKeysMembers(fileMap);
    if g in Groups(fileMap) {
      GroupsAlongInMap(fileMap, SortedKeys(fileMap), g);
    }
    if InMap(fileMap, g) {
      GroupsAlongComplete(fileMap, SortedKeys(fileMap), g);
    }
  }

  /** Every element of `gs` sorts before every later one. */
  predicate GroupsIncreasing(gs: seq<Group>)
  {
    forall i, j :: 0 <= i < j < |gs| ==> GroupLess(gs[i], gs[j])
  }

  /** The groups of one artist are increasing, and so is a concatenation of
      increasing runs each before the next. */
  lemma ConcatIncreasing(front: seq<Group>, back: seq<Group>)
    requires GroupsIncreasing(front) && GroupsIncreasing(back)
    requires forall g, h :: g in front && h in back ==> GroupLess(g, h)
    ensures GroupsIncreasing(front + back)
  {
    var gs := front + back;
    forall i, j | 0 <= i < j < |gs| ensures GroupLess(gs[i], gs[j]) {
      if j < |front| {
        assert gs[i] == front[i] && gs[j] == front[j];
      } else if i < |front| {
        assert gs[i] == front[i] && gs[j] == back[j - |front|];
      } else {
        assert gs[i] == back[i - |front|] && gs[j] == back[j - |front|];
      }
    }
  }

  lemma {:induction false} GroupsAlongSorted(fileMap: FileMap, artists: seq<string>)
    requires StrictlyIncreasing(artists)
    ensures GroupsIncreasing(GroupsAlong(fileMap, artists))
  {
    if artists != [] {
      var n := |artists| - 1;
      var front := GroupsAlong(fileMap, artists[..n]);
      var albums := AlbumsOf(fileMap, artists[n]);
      var back := AlbumGroups(artists[n], albums);
      GroupsAlongSorted(fileMap, artists[..n]);
      if artists[n] in fileMap {
        SortedKeysIncreasing(fileMap[artists[n]]);
      }
      assert GroupsIncreasing(back) by {
        forall i, j | 0 <= i < j < |back| ensures GroupLess(back[i], back[j]) {
          assert Less(albums[i], albums[j]);
        }
      }
      forall g, h | g in front && h in back ensures GroupLess(g, h) {
        GroupsAlongInMap(fileMap, artists[..n], g);
        var k :| 0 <= k < n && artists[..n][k] == g.0;
        assert artists[k] == g.0 && h.0 == artists[n];
      }
      ConcatIncreasing(front, back);
    }
  }

  /** The groups come in strictly increasing (artist, album) order, so no
      pair has two mkdir lines. */
  lemma GroupsSorted(fileMap: FileMap)
    ensures GroupsIncreasing(Groups(fileMap))
  {
    SortedKeysIncreasing(fileMap);
    GroupsAlongSorted(fileMap, SortedKeys(fileMap));
  }

  // ---------------------------------------------------------------------------
  // The lines

  /** Every line of a group's block is a line of the blocks. */
  lemma {:induction false} BlocksContain(fileMap: FileMap, mkdir: string, rename: string, groups: seq<Group>, i: nat)
    requires i < |groups|
    ensures var g := groups[i];
      forall x :: x in AlbumBlock(mkdir, rename, g.0, g.1, TracksAt(fileMap, g.0, g.1)) ==>
        x in BlocksOf(fileMap, mkdir, rename, groups)
  {
    var n := |groups| - 1;
    if i < n {
      BlocksContain(fileMap, mkdir, rename, groups[..n], i);
      assert groups[..n][i] == groups[i];
    }
  }

  /** Every track record of the map has its rename line in the script. */
  lemma EveryTrackRenamed(fileMap: FileMap, mkdirCmd: string, renameCmd: string, move: bool,
                          artist: string, album: string, k: nat)
    requires artist in fileMap && album in fileMap[artist] && k < |fileMap[artist][album]|
    ensures RenameLine(RenameCommand(renameCmd, move), fileMap[artist][album][k])
              in ScriptLines(fileMap, mkdirCmd, renameCmd, move)
  {
    var rename := RenameCommand(renameCmd, move);
    var gs := Groups(fileMap);
    GroupsExact(fileMap, (artist, album));
    var i :| 0 <= i < |gs| && gs[i] == (artist, album);
    BlocksContain(fileMap, mkdirCmd, rename, gs, i);
    var block := AlbumBlock(mkdirCmd, rename, artist, album, fileMap[artist][album]);
    TrackLinesAt(rename, fileMap[artist][album], k);
    assert block[k + 1] in block;
  }

  /** Every (artist, album) pair of the map has its mkdir line in the script. */
  lemma EveryAlbumCreated(fileMap: FileMap, mkdirCmd: string, renameCmd: string, move: bool,
                          artist: string, album: string)
    requires artist in fileMap && album in fileMap[artist]
    ensures MkdirLine(mkdirCmd, artist, album) in ScriptLines(fileMap, mkdirCmd, renameCmd, move)
  {
    var rename := RenameCommand(renameCmd, move);
    var gs := Groups(fileMap);
    GroupsExact(fileMap, (artist, album));
    var i :| 0 <= i < |gs| && gs[i] == (artist, album);
    BlocksContain(fileMap, mkdirCmd, rename, gs, i);
    var block := AlbumBlock(mkdirCmd, rename, artist, album, fileMap[artist][album]);
    assert block[0] in block;
  }

  /** The blocks of two runs of groups, one after the other. */
  lemma {:induction false} BlocksAppend(fileMap: FileMap, mkdir: string, rename: string, front: seq<Group>, back: seq<Group>)
    ensures BlocksOf(fileMap, mkdir, rename, front + back) ==
              BlocksOf(fileMap, mkdir, rename, front) + BlocksOf(fileMap, mkdir, rename, back)
    decreases |back|
  {
    if back == [] {
      assert front + back == front;
    } else {
      var n := |back| - 1;
      DropLast(front, back);
      BlocksAppend(fileMap, mkdir, rename, front, back[..n]);
      Regroup(BlocksOf(fileMap, mkdir, rename, front), BlocksOf(fileMap, mkdir, rename, back[..n]),
              GroupBlock(fileMap, mkdir, rename, back[n]));
    }
  }

  /** The blocks grow by one album block per album. */
  lemma StepAlbum(fileMap: FileMap, mkdir: string, rename: string, artist: string, albums: seq<string>, j: nat)
    requires j < |albums|
    ensures BlocksOf(fileMap, mkdir, rename, AlbumGroups(artist, albums[..j + 1])) ==
              BlocksOf(fileMap, mkdir, rename, AlbumGroups(artist, albums[..j])) +
              AlbumBlock(mkdir, rename, artist, albums[j], TracksAt(fileMap, artist, albums[j]))
  {
    var groups := AlbumGroups(artist, albums[..j + 1]);
    assert groups[..|groups| - 1] == AlbumGroups(artist, albums[..j]);
  }

  /** The blocks grow by the blocks of one artist per artist. */
  lemma StepArtist(fileMap: FileMap, mkdir: string, rename: string, artists: seq<string>, i: nat)
    requires i < |artists|
    ensures BlocksOf(fileMap, mkdir, rename, GroupsAlong(fileMap, artists[..i + 1])) ==
              BlocksOf(fileMap, mkdir, rename, GroupsAlong(fileMap, artists[..i])) +
              BlocksOf(fileMap, mkdir, rename, AlbumGroups(artists[i], AlbumsOf(fileMap, artists[i])))
  {
    assert artists[..i + 1][..i] == artists[..i];
    BlocksAppend(fileMap, mkdir, rename, GroupsAlong(fileMap, artists[..i]),
                 AlbumGroups(artists[i], AlbumsOf(fileMap, artists[i])));
  }

  // ---------------------------------------------------------------------------
  // The writer: each method appends what it writes to the lines so far

  /** The rename lines of the tracks of one album. */
  method WriteTracks(lines: seq<string>, rename: string, tracks: seq<Track>) returns (r: seq<string>)
    ensures r == lines + TrackLines(rename, tracks)
  {
    r := lines;
    var k := 0;
    assert tracks[..0] == [] && lines + [] == lines;
    while k < |tracks|
      invariant 0 <= k <= |tracks|
      invariant r == lines + TrackLines(rename, tracks[..k])
    {
      r := r + [RenameLine(rename, tracks[k])];
      assert tracks[..k + 1][..k] == tracks[..k];
      k := k + 1;
    }
    assert tracks[..k] == tracks;
  }

  /** The mkdir line, the rename lines and the blank line of one album. */
  method WriteAlbum(lines: seq<string>, mkdir: string, rename: string, artist: string, album: string, tracks: seq<Track>)
    returns (r: seq<string>)
    ensures r == lines + AlbumBlock(mkdir, rename, artist, album, tracks)
  {
    r := lines + [MkdirLine(mkdir, artist, album)];
    r := WriteTracks(r, rename, tracks);
    r := r + [""];
    assert r == lines + ([MkdirLine(mkdir, artist, album)] + TrackLines(rename, tracks) + [""]);
  }

  /** The albums of one artist, in sorted order. */
  method WriteArtist(lines: seq<string>, fileMap: FileMap, mkdir: string, rename: string, artist: string)
    returns (r: seq<string>)
    requires artist in fileMap
    ensures r == lines + BlocksOf(fileMap, mkdir, rename, AlbumGroups(artist, AlbumsOf(fileMap, artist)))
  {
    var albums := SortedKeys(fileMap[artist]);
    r := lines;
    var j := 0;
    assert albums[..0] == [] && AlbumGroups(artist, []) == [] && lines + [] == lines;
    while j < |albums|
      invariant 0 <= j <= |albums|
      invariant r == lines + BlocksOf(fileMap, mkdir, rename, AlbumGroups(artist, albums[..j]))
    {
      var album := albums[j];
      assert album in fileMap[artist] by {
        SortedKeysMembers(fileMap[artist]);
        assert album in albums;
      }
      ghost var before := BlocksOf(fileMap, mkdir, rename, AlbumGroups(artist, albums[..j]));
      ghost var block := AlbumBlock(mkdir, rename, artist, album, TracksAt(fileMap, artist, album));
      assert TracksAt(fileMap, artist, album) == fileMap[artist][album];
      r := WriteAlbum(r, mkdir, rename, artist, album, fileMap[artist][album]);
      StepAlbum(fileMap, mkdir, rename, artist, albums, j);
      Regroup(lines, before, block);
      j := j + 1;
    }
    assert albums[..j] == albums && AlbumsOf(fileMap, artist) == albums;
  }

  /** Every artist, in sorted order. */
  method WriteArtists(lines: seq<string>, fileMap: FileMap, mkdir: string, rename: string)
    returns (r: seq<string>)
    ensures r == lines + BlocksOf(fileMap, mkdir, rename, Groups(fileMap))
  {
    var artists := SortedKeys(fileMap);
    r := lines;
    var i := 0;
    assert artists[..0] == [] && lines + [] == lines;
    while i < |artists|
      invariant 0 <= i <= |artists|
      invariant r == lines + BlocksOf(fileMap, mkdir, rename, GroupsAlong(fileMap, artists[..i]))
    {
      var artist := artists[i];
      assert artist in fileMap by {
        SortedKeysMembers(fileMap);
        assert artist in artists;
      }
      ghost var before := BlocksOf(fileMap, mkdir, rename, GroupsAlong(fileMap, artists[..i]));
      r := WriteArtist(r, fileMap, mkdir, rename, artist);
      StepArtist(fileMap, mkdir, rename, artists, i);
      Regroup(lines, before, BlocksOf(fileMap, mkdir, rename, AlbumGroups(artist, AlbumsOf(fileMap, artist))));
      i := i + 1;
    }
    assert artists[..i] == artists;
  }

  /** `gen_script_unix(file_map, script_path)`: the lines it writes. */
  method GenScriptUnix(fileMap: FileMap, mkdirCmd: string, renameCmd: string, move: bool)
    returns (lines: seq<string>)
    ensures lines == ScriptLines(fileMap, mkdirCmd, renameCmd, move)
  {
    var rename := renameCmd;
    if move {
      rename := "mv";
    }
    lines := WriteArtists(Header, fileMap, mkdirCmd, rename);
  }
}
