/**
 `process_files`: every file of the directory walk is counted as read, then
 classified as a type failure (the tag reader raised), a parse failure (the
 reader gave nothing, or no tags), or a track, which is named, reported when
 tags are missing, and filed in the aggregator.

 `Step` and `Run` give the effect on the aggregator's value; the method
 `ProcessFiles` runs the loop on a `Stats` object and is proved to have the
 effect `Run` describes.
 */
module Planner {
  import opened Wrappers
  import opened Text
  import opened Paths
  import opened Naming
  import opened Statistics
  import opened Seqs

  /** The loop body of `process_files` for the file `e`, visited as number `counter`. */
  function Step(s: StatsValue, e: FileEntry, counter: nat): StatsValue
  {
    var read := s.CountRead();
    var filename := SourcePath(e);
    if e.outcome.Raised? then read.AddTypeFailure(filename)
    else if Falsy(e.outcome) then read.AddParseFailure(filename)
    else
      var tags := e.outcome.tags;
      FileTrack(read, filename, MissingTags(tags), NameTrack(tags, counter, e.name))
  }

  /** A file that becomes the track `t`: reported first if tags are missing,
      then filed. */
  function FileTrack(s: StatsValue, filename: string, missing: seq<string>, t: TrackName): StatsValue
  {
    var reported := if |missing| > 0 then s.AddMissingTagFailure(MissingTagReport(filename, missing), t.newname) else s;
    reported.AddTrack(filename, t.newname, t.artist, t.album, t.trackNumber, t.title)
  }

  /** The whole walk: the file at position `i` is visited as number `i + 1`. */
  function Run(s: StatsValue, entries: seq<FileEntry>): StatsValue
  {
    if entries == [] then s
    else
      var n := |entries| - 1;
      Step(Run(s, entries[..n]), entries[n], n + 1)
  }

  /** A file loaded with tags, which becomes a track. */
  predicate IsTrack(e: FileEntry)
  {
    !e.outcome.Raised? && !Falsy(e.outcome)
  }

  /** The source paths of the entries that `wanted` selects, in walk order. */
  function PathsOf(entries: seq<FileEntry>, wanted: FileEntry -> bool): seq<string>
  {
    if entries == [] then []
    else
      var n := |entries| - 1;
      PathsOf(entries[..n], wanted) + (if wanted(entries[n]) then [SourcePath(entries[n])] else [])
  }

  function Count(entries: seq<FileEntry>, wanted: FileEntry -> bool): nat
  {
    |PathsOf(entries, wanted)|
  }

  predicate IsRaised(e: FileEntry) { e.outcome.Raised? }

  predicate IsFalsy(e: FileEntry) { Falsy(e.outcome) }

  /** A track that lacks one of artist, album and title. */
  predicate LacksTags(e: FileEntry)
  {
    IsTrack(e) && |MissingTags(e.outcome.tags)| > 0
  }

  // ---------------------------------------------------------------------------
  // One step

  /** Filing a track adds it to the map, counts it, reports it exactly when
      tags are missing, and leaves the failure lists alone. */
  lemma FileTrackOutcome(s: StatsValue, filename: string, missing: seq<string>, t: TrackName)
    ensures var r := FileTrack(s, filename, missing, t);
      && r.filesRead == s.filesRead
      && r.typeFailedPaths == s.typeFailedPaths && r.typeFailed == s.typeFailed
      && r.parseFailedPaths == s.parseFailedPaths && r.parseFailed == s.parseFailed
      && r.renamedFiles == s.renamedFiles + 1
      && r.missingTagPaths == s.missingTagPaths + (if |missing| > 0 then [(MissingTagReport(filename, missing), t.newname)] else [])
      && r.missingTags == s.missingTags + (if |missing| > 0 then 1 else 0)
  {
    var reported := if |missing| > 0 then s.AddMissingTagFailure(MissingTagReport(filename, missing), t.newname) else s;
    AddTrackFrame(reported, filename, t.newname, t.artist, t.album, t.trackNumber, t.title);
  }

  lemma FileTrackConsistent(s: StatsValue, filename: string, missing: seq<string>, t: TrackName)
    requires s.Consistent()
    ensures FileTrack(s, filename, missing, t).Consistent()
  {
    var reported := if |missing| > 0 then s.AddMissingTagFailure(MissingTagReport(filename, missing), t.newname) else s;
    AddTrackConsistent(reported, filename, t.newname, t.artist, t.album, t.trackNumber, t.title);
  }

  /** Each file is read once and lands in exactly one of the three outcomes;
      a missing-tag report only ever comes with a track. */
  lemma StepOutcome(s: StatsValue, e: FileEntry, counter: nat)
    ensures var r := Step(s, e, counter);
      && r.filesRead == s.filesRead + 1
      && r.typeFailedPaths == s.typeFailedPaths + (if IsRaised(e) then [SourcePath(e)] else [])
      && r.parseFailedPaths == s.parseFailedPaths + (if IsFalsy(e) then [SourcePath(e)] else [])
      && r.typeFailed == s.typeFailed + (if IsRaised(e) then 1 else 0)
      && r.parseFailed == s.parseFailed + (if IsFalsy(e) then 1 else 0)
      && r.renamedFiles == s.renamedFiles + (if IsTrack(e) then 1 else 0)
      && r.missingTags == s.missingTags + (if LacksTags(e) then 1 else 0)
      && (!IsTrack(e) ==> r.fileMap == s.fileMap)
  {
    if IsTrack(e) {
      var tags := e.outcome.tags;
      FileTrackOutcome(s.CountRead(), SourcePath(e), MissingTags(tags), NameTrack(tags, counter, e.name));
    }
  }

  /** A step keeps the counters consistent with the map and the lists. */
  lemma StepConsistent(s: StatsValue, e: FileEntry, counter: nat)
    requires s.Consistent()
    ensures Step(s, e, counter).Consistent()
  {
    if IsTrack(e) {
      var tags := e.outcome.tags;
      FileTrackConsistent(s.CountRead(), SourcePath(e), MissingTags(tags), NameTrack(tags, counter, e.name));
    }
  }

  // ---------------------------------------------------------------------------
  // The whole walk

  /** Over a whole walk: every file is read, the failure lists are exactly the
      paths of the failing files in walk order, and the track and report
      counts grow by the number of tracks and of tracks lacking tags. */
  lemma {:induction false} RunOutcomes(s: StatsValue, entries: seq<FileEntry>)
    ensures var r := Run(s, entries);
      && r.filesRead == s.filesRead + |entries|
      && r.typeFailedPaths == s.typeFailedPaths + PathsOf(entries, IsRaised)
      && r.parseFailedPaths == s.parseFailedPaths + PathsOf(entries, IsFalsy)
      && r.typeFailed == s.typeFailed + Count(entries, IsRaised)
      && r.parseFailed == s.parseFailed + Count(entries, IsFalsy)
      && r.renamedFiles == s.renamedFiles + Count(entries, IsTrack)
      && r.missingTags == s.missingTags + Count(entries, LacksTags)
  {
    if entries != [] {
      var n := |entries| - 1;
      var front, e := entries[..n], entries[n];
      RunOutcomes(s, front);
      StepOutcome(Run(s, front), e, n + 1);
      Regroup(s.typeFailedPaths, PathsOf(front, IsRaised), if IsRaised(e) then [SourcePath(e)] else []);
      Regroup(s.parseFailedPaths, PathsOf(front, IsFalsy), if IsFalsy(e) then [SourcePath(e)] else []);
    }
  }

  lemma {:induction false} RunConsistent(s: StatsValue, entries: seq<FileEntry>)
    requires s.Consistent()
    ensures Run(s, entries).Consistent()
  {
    if entries != [] {
      var n := |entries| - 1;
      RunConsistent(s, entries[..n]);
      StepConsistent(Run(s, entries[..n]), entries[n], n + 1);
    }
  }

  /** Every file is exactly one of a type failure, a parse failure and a track,
      and only tracks can lack tags. */
  lemma {:induction false} Partition(entries: seq<FileEntry>)
    ensures |entries| == Count(entries, IsRaised) + Count(entries, IsFalsy) + Count(entries, IsTrack)
    ensures Count(entries, LacksTags) <= Count(entries, IsTrack)
  {
    if entries != [] {
      Partition(entries[..|entries| - 1]);
    }
  }

  /** After a walk from the initial aggregator the counters add up: files read
      = type failures + parse failures + tracks, reports <= tracks, and the
      artist, album and track counts are those of the map. */
  lemma CountingIdentity(entries: seq<FileEntry>)
    ensures var r := Run(EmptyStats, entries);
      && r.filesRead == |entries|
      && r.filesRead == r.typeFailed + r.parseFailed + r.renamedFiles
      && r.missingTags <= r.renamedFiles
      && r.Consistent()
  {
    RunOutcomes(EmptyStats, entries);
    Partition(entries);
    EmptyStatsConsistent();
    RunConsistent(EmptyStats, entries);
  }

  /** The counter keeps fallback titles apart: two different files of one walk
      that both lack a title never get the same title. */
  lemma RunFallbackTitlesDistinct(entries: seq<FileEntry>, i: nat, j: nat)
    requires i < j < |entries|
    requires IsTrack(entries[i]) && "title" !in entries[i].outcome.tags
    requires IsTrack(entries[j]) && "title" !in entries[j].outcome.tags
    ensures NameTrack(entries[i].outcome.tags, i + 1, entries[i].name).title !=
            NameTrack(entries[j].outcome.tags, j + 1, entries[j].name).title
  {
    FallbackTitlesDistinct(i + 1, entries[i].name, j + 1, entries[j].name);
  }

  // ---------------------------------------------------------------------------
  // The loop itself

  /** A file that becomes the track `t`: reported first if tags are missing, then filed. */
  method FileTrackInto(stats: Stats, filename: string, missing: seq<string>, t: TrackName)
    modifies stats
    ensures stats.Snapshot() == FileTrack(old(stats.Snapshot()), filename, missing, t)
  {
    if |missing| > 0 {
      stats.AddMissingTagFailure(MissingTagReport(filename, missing), t.newname);
    }
    stats.AddTrack(filename, t.newname, t.artist, t.album, t.trackNumber, t.title);
  }

  /** The loop body of `process_files` for the file `e`, visited as number `counter`. */
  method ProcessFile(e: FileEntry, counter: nat, stats: Stats)
    modifies stats
    ensures stats.Snapshot() == Step(old(stats.Snapshot()), e, counter)
  {
    stats.filesRead := stats.filesRead + 1;
    assert stats.Snapshot() == old(stats.Snapshot()).CountRead();
    var filename := SourcePath(e);
    match e.outcome {
      case Raised =>
        stats.AddTypeFailure(filename);
      case NoFile =>
        stats.AddParseFailure(filename);
      case Loaded(tags) =>
        if |tags| == 0 {
          stats.AddParseFailure(filename);
        } else {
          var missing := FindMissingTags(tags);
          FileTrackInto(stats, filename, missing, NameTrack(tags, counter, e.name));
        }
    }
  }

  /** `process_files(path, stats)` over the files of the walk, in walk order. */
  method ProcessFiles(entries: seq<FileEntry>, stats: Stats)
    modifies stats
    ensures stats.Snapshot() == Run(old(stats.Snapshot()), entries)
  {
    var counter := 0;
    var i := 0;
    while i < |entries|
      invariant 0 <= i <= |entries| && counter == i
      invariant stats.Snapshot() == Run(old(stats.Snapshot()), entries[..i])
    {
      assert entries[..i + 1][..i] == entries[..i];
      counter := counter + 1;
      ProcessFile(entries[i], counter, stats);
      i := i + 1;
    }
    assert entries[..i] == entries;
  }
}
