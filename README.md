# mp3renamer, modelled in Dafny

mp3renamer walks a directory tree of audio files and reads each file's tags.
It works out a destination path `artist/album/[N - ]title` for every file and
collects the results in a `Stats` aggregator. It then writes a bash script
that creates one directory per album and copies (or moves) each file to its
new name.

This project models the core of that program and proves properties of the
model:

- `sanitize_path` and `escape_path` (module `Shell`). To say what the escape
  is for, the module also models how a POSIX shell reads single-quoted
  strings and backslash escapes (section 2.2 of the Shell Command Language,
  IEEE Std 1003.1). A path that is escaped and put between quotes reads back
  as the path itself.
- `os.path.join` for POSIX paths (module `Paths`), including its reset at an
  absolute component.
- The track-number substitution `re.sub(r'.*?(\d+).*', r'\1', ...)` (module
  `TrackNumber`). It works line by line, because `.` does not match a newline.
- The naming part of `process_files` (module `Naming`):
  - the missing-tag list;
  - the fallbacks "No Artist", "No Album" and `"%d_%s" % (counter, f)`;
  - the `if not tracknumber` branch;
  - the final join.
- The `Stats` aggregator (module `Statistics`), in two forms:
  - `StatsValue`, a value with one function per update, over which the
    invariants are proved;
  - the class `Stats`, whose methods update its fields in place and are
    proved to move the state exactly as the functions do.
- The classification loop of `process_files` (module `Planner`). `Step` and
  `Run` describe its effect, and the methods `ProcessFile` and `ProcessFiles`
  are proved to have that effect.
- `gen_script_unix` (module `Script`). The script is modelled as its sequence
  of lines. Artists and albums come in `sorted` order (module `Sorting`).

Where the design intent and the code disagree, the model follows the code:

- A track number with no digit at all is kept unchanged, because the
  substitution does not match. It is not treated as absent. A raw value with
  no digit that starts with `/` makes `os.path.join` drop artist and album.
- `sanitize_path` is not idempotent, because its replacement `'\''` itself
  holds quotes.
- The destination is written into the script without escaping. This is safe
  for the sanitized artist, album and title. It is not safe for a track
  number with a digit-free line that holds a quote: the substitution keeps
  such a line as it is, on a one-line value and on any line of a multi-line
  one. See "Findings".

## Model

| member | source | states |
|---|---|---|
| Shell.Escape | mp3renamer.py:292-293 | `escape_path`: each quote becomes `'\''`, every other character is kept; characterised by `EscapeRoundTrip`, `EscapeAppend`, `EscapeLength`, `EscapeIdentity` and `EscapeChars` |
| Shell.Sanitize | mp3renamer.py:288-290 | `sanitize_path`: `/` becomes `_`, then the escape; characterised by `SanitizeNoSlash`, `SanitizeRoundTrip`, `SanitizePlain`, `SanitizeEmpty`, `SanitizeAppend` and `SanitizeNotIdempotent` |
| Shell.EscapeRoundTrip | mp3renamer.py:292-293 | a shell reads `'` + escape_path(s) + `'` back as exactly `s`, for every `s` |
| Shell.QuotedEscape | mp3renamer.py:292-293 | inside single quotes, the escape of `s` followed by any text `t` reads as `s` followed by what `t` reads as |
| Shell.EscapeAppend | mp3renamer.py:292-293 | the escape works character by character: escaping `a + b` is escaping `a` then `b` |
| Shell.EscapeLength | mp3renamer.py:292-293 | the escape adds exactly three characters per quote and leaves the length unchanged otherwise |
| Shell.EscapeIdentity | mp3renamer.py:292-293 | the escape leaves a text unchanged exactly when it holds no quote |
| Shell.EscapeChars | mp3renamer.py:292-293 | the escape introduces only backslashes, and only when there is a quote; every other character of the output is from the input |
| Shell.SanitizeNoSlash | mp3renamer.py:288-290 | a sanitized value never contains `/`, so it stays one path segment |
| Shell.SanitizeRoundTrip | mp3renamer.py:288-290 | a sanitized value between single quotes reads back as the input with every `/` replaced by `_` |
| Shell.SanitizePlain | mp3renamer.py:288-290 | a value without `/` and without quotes is returned unchanged |
| Shell.SanitizeEmpty | mp3renamer.py:288-290 | sanitize_path returns the empty string exactly when it is given the empty string |
| Shell.SanitizeAppend | mp3renamer.py:288-290 | sanitizing a concatenation is concatenating the sanitized parts |
| Shell.SanitizeNotIdempotent | mp3renamer.py:288-290 | sanitizing twice differs from sanitizing once, shown on the value `'` |
| Paths.JoinPath | mp3renamer.py:305 | POSIX `os.path.join` of two parts, also used at :330, :333 and :353; characterised by `JoinPath3Plain` and `JoinPath3Absolute` |
| Paths.JoinPath3Plain | mp3renamer.py:330 | joining three relative, non-empty components gives them separated by single slashes |
| Paths.JoinPath3Absolute | mp3renamer.py:333 | a last component that starts with `/` replaces everything before it |
| TrackNumber.ReduceTrackNumber | mp3renamer.py:332 | the substitution, applied line by line; characterised by `ReduceFirstRun`, `ReduceHasDigits`, `ReduceNoDigit` and `ReduceExamples` |
| TrackNumber.ReduceFirstRun | mp3renamer.py:332 | on a one-line value the result is exactly the first maximal run of digits, wherever it sits |
| TrackNumber.ReduceHasDigits | mp3renamer.py:332 | a one-line value that holds a digit reduces to a non-empty string of digits only |
| TrackNumber.ReduceNoDigit | mp3renamer.py:332 | a value without any digit is returned unchanged |
| TrackNumber.ReduceExamples | mp3renamer.py:332 | "3/12" gives "3", "07" gives "07", and "unknown" stays "unknown" |
| Text.DecimalRoundTrip | mp3renamer.py:327 | the `%d` rendering of the counter denotes the counter |
| Naming.Falsy | mp3renamer.py:313 | `not audio`: the reader gave `None`, or a file with no tags; used by `Planner.Step`, whose outcomes `Planner.StepOutcome` states |
| Naming.MissingTagReport | mp3renamer.py:336-338 | the recorded text `path: name, name`; what `Planner.FileTrackOutcome` states is appended |
| Naming.NameTrack | mp3renamer.py:324-333 | the artist, album, title, recorded track number and new name of one track; characterised by `Fallbacks`, `FallbackTitlesDistinct`, `DestinationPath`, `DestinationAbsolute`, `DestinationQuoted` and `DestinationQuoteBreaks` |
| Naming.FindMissingTags | mp3renamer.py:317-322 | the loop collects exactly the required tag names the tags lack |
| Naming.MissingTagsInOrder | mp3renamer.py:317-322 | the missing list is the subsequence of artist, album, title that is absent, in that order |
| Naming.Fallbacks | mp3renamer.py:324-327 | a missing artist gives "No Artist", a missing album "No Album", and a missing title the sanitized `counter_filename` |
| Naming.SanitizeFallback | mp3renamer.py:327 | the fallback title keeps its `counter_` prefix through sanitize_path |
| Naming.FallbackTitlesDistinct | mp3renamer.py:302-303 | two different counters never produce the same fallback title, whatever the file names |
| Naming.GroupComponents | mp3renamer.py:325-326 | present, non-empty artist and album values give non-empty artist and album segments without `/` |
| Naming.DestinationPlain | mp3renamer.py:329-333 | for slash-free, non-empty segments the join is `artist/album/title`, or `artist/album/N - title` |
| Naming.DestinationPath | mp3renamer.py:324-333 | the new name of a track is `artist/album/` + (`N - ` when a number survives the `if not tracknumber` test) + title |
| Naming.DestinationAbsolute | mp3renamer.py:329-333 | a digit-free track number starting with `/` is kept, and the new name loses its artist and album |
| Naming.DigitNumberQuoteSafe | mp3renamer.py:332 | a one-line track number that holds a digit reduces to a value with no quote that does not start with `/` |
| Naming.QuotedJoin | mp3renamer.py:330-333 | escaped segments joined by `/` around a quote-free middle read back as the unescaped segments |
| Naming.DestinationQuoted | mp3renamer.py:324-357 | the new name, written between quotes without escaping, is read by the shell as the intended path |
| Naming.QuoteNumberName | mp3renamer.py:324-333 | with plain artist, album and title and the track number `'`, the quote is kept in the new name `artist/album/' - title` |
| Naming.DestinationQuoteBreaks | mp3renamer.py:332-357 | with plain artist, album and title and the track number `'`, the destination between quotes cannot be read by the shell at all |
| Naming.SafeNameTrack | mp3renamer.py:324-333 | the corrected naming: the reduced track number passed through `sanitize_path` before the join, as artist, album and title are; characterised by `SafeDestinationQuoted`, `SafeNameAgrees` and `SafeQuoteNumber` |
| Naming.SafeJoinQuoted | mp3renamer.py:325-333 | sanitized non-empty artist and album, a sanitized title and a sanitized number join to a path that reads back between quotes as the raw values with `/` replaced by `_` |
| Naming.SafeDestinationQuoted | mp3renamer.py:324-357 | with the corrected naming, the destination between quotes reads back as the intended path for every tag mapping with non-empty artist and album values, whatever the track number holds |
| Naming.SafeNameAgrees | mp3renamer.py:324-333 | the correction changes no name whose reduced track number has no quote and no `/` |
| Naming.SafeQuoteNumber | mp3renamer.py:332-357 | with the corrected naming, the track number `'` reads back as itself in `artist/album/' - title` |
| Shell.UnquotePlain | mp3renamer.py:357 | outside quotes, text without quotes and backslashes stands for itself |
| Shell.StrayQuote | mp3renamer.py:357 | a quoted word with a stray quote inside ends on an unclosed quote and cannot be read |
| Statistics.StatsValue.CountRead | mp3renamer.py:304 | `files_read` grows by one, every other field is unchanged, and consistency is kept |
| Statistics.StatsValue.AddParseFailure | mp3renamer.py:222-225 | recording a parse failure keeps the aggregator consistent: the counter stays the length of its list |
| Statistics.StatsValue.AddTypeFailure | mp3renamer.py:227-230 | recording a type failure keeps the aggregator consistent: the counter stays the length of its list |
| Statistics.StatsValue.AddMissingTagFailure | mp3renamer.py:232-235 | recording a missing-tag report keeps the aggregator consistent: the counter stays the length of its list |
| Statistics.StatsValue.AddTrack | mp3renamer.py:237-257 | `add_track` on the aggregator's value, falsy tests included; characterised by `AddTrackFrame`, `AddTrackInsert` and `AddTrackConsistent` |
| Statistics.AddTrackFrame | mp3renamer.py:237-257 | add_track appends the record at the end of its album's list; other lists, the failure lists and the other counters are unchanged |
| Statistics.AddTrackInsert | mp3renamer.py:241-255 | with no empty entries, the falsy tests mean "key absent"; the record is filed as in a fresh or existing album, and the artist and album counters grow exactly when the key is new |
| Statistics.AddTrackConsistent | mp3renamer.py:237-257 | add_track keeps artists = keys of the map, albums = (artist, album) pairs, and renamed files = records |
| Statistics.InsertNoEmptyGroups | mp3renamer.py:241-255 | filing a track leaves no artist without albums and no album without tracks |
| Statistics.InsertArtists | mp3renamer.py:241-243 | the number of artists grows by one exactly when the artist is new |
| Statistics.InsertAlbums | mp3renamer.py:245-247 | the number of (artist, album) pairs grows by one exactly when the pair is new |
| Statistics.InsertTracks | mp3renamer.py:249-255 | the number of records grows by exactly one |
| Statistics.EmptyStatsConsistent | mp3renamer.py:202-220 | the initial aggregator is consistent |
| Statistics.Stats.constructor | mp3renamer.py:202-220 | a fresh aggregator has all counters at zero, an empty map and empty lists |
| Statistics.Stats.AddParseFailure | mp3renamer.py:222-225 | the object's state moves as `StatsValue.AddParseFailure` |
| Statistics.Stats.AddTypeFailure | mp3renamer.py:227-230 | the object's state moves as `StatsValue.AddTypeFailure` |
| Statistics.Stats.AddMissingTagFailure | mp3renamer.py:232-235 | the object's state moves as `StatsValue.AddMissingTagFailure` |
| Statistics.Stats.AddTrack | mp3renamer.py:237-257 | the object's state moves as `StatsValue.AddTrack`, updating the nested map in place |
| Planner.FileTrack | mp3renamer.py:335-341 | reporting (when tags are missing) then filing one track; characterised by `FileTrackOutcome` |
| Planner.Step | mp3renamer.py:303-341 | one iteration of the loop; characterised by `StepOutcome` and `StepConsistent` |
| Planner.Run | mp3renamer.py:300-341 | the whole walk, file `i` visited as number `i + 1`; characterised by `RunOutcomes`, `RunConsistent` and `CountingIdentity` |
| Planner.FileTrackOutcome | mp3renamer.py:335-341 | a track is counted once, reported exactly when tags are missing, and leaves the failure lists alone |
| Planner.StepOutcome | mp3renamer.py:300-341 | each file is read once and lands in exactly one of type failure, parse failure and track |
| Planner.StepConsistent | mp3renamer.py:300-341 | one loop iteration keeps the aggregator consistent |
| Planner.RunOutcomes | mp3renamer.py:300-341 | over a walk, the failure lists are exactly the failing paths in walk order, and every counter grows by its number of files |
| Planner.RunConsistent | mp3renamer.py:300-341 | a whole walk keeps the aggregator consistent |
| Planner.Partition | mp3renamer.py:307-341 | every file is exactly one of the three outcomes, and only tracks can lack tags |
| Planner.CountingIdentity | mp3renamer.py:295-341 | from a fresh aggregator, files read = walk length = type failures + parse failures + renamed files, and missing-tag reports <= renamed files |
| Planner.RunFallbackTitlesDistinct | mp3renamer.py:302-303 | two title-less files of one walk never get the same title |
| Planner.FileTrackInto | mp3renamer.py:335-341 | reporting and filing a track moves the object's state as `FileTrack` |
| Planner.ProcessFile | mp3renamer.py:303-341 | one iteration of the loop moves the object's state as `Step` |
| Planner.ProcessFiles | mp3renamer.py:295-341 | the loop over the walk moves the object's state as `Run` |
| Sorting.Sorted | mp3renamer.py:351-352 | `sorted` of a set of strings; characterised by `SortedSpec` and `SortedUnique` |
| Sorting.SortedSpec | mp3renamer.py:351-352 | `sorted` of a set lists each element once, nothing else, in strictly increasing order |
| Sorting.SortedKeysMembers | mp3renamer.py:351-352 | `sorted(d)` lists exactly the keys of `d` |
| Sorting.SortedKeysIncreasing | mp3renamer.py:351-352 | `sorted(d)` is strictly increasing |
| Sorting.SortedUnique | mp3renamer.py:351-352 | any strictly increasing sequence of the same elements is `sorted`'s result |
| Script.Header | mp3renamer.py:348-350 | the shebang, the generator comment and the blank line written first |
| Script.MkdirLine | mp3renamer.py:353 | `mkdir_cmd 'artist/album'`; `EveryAlbumCreated` states that each pair has one |
| Script.RenameLine | mp3renamer.py:355-357 | `rename_cmd 'escaped source' 'new name'`; `EveryTrackRenamed` states that each record has one, and `EscapeRoundTrip` and `DestinationQuoted` what the shell reads from it |
| Script.ScriptLines | mp3renamer.py:343-358 | the whole script; characterised by `GroupsExact`, `GroupsSorted`, `EveryTrackRenamed`, `EveryAlbumCreated` and `TrackLinesAt`, and `GenScriptUnix` is proved to write it |
| Script.GroupsExact | mp3renamer.py:351-353 | the script visits each (artist, album) pair of the map, and nothing else |
| Script.GroupsSorted | mp3renamer.py:351-352 | the pairs come in strictly increasing (artist, album) order, so no directory is created twice |
| Script.BlocksAppend | mp3renamer.py:351-358 | the lines for two runs of albums are the lines of the first followed by those of the second |
| Script.EveryTrackRenamed | mp3renamer.py:354-357 | every record of the map has its rename line, with the escaped source and the stored new name |
| Script.EveryAlbumCreated | mp3renamer.py:353 | every (artist, album) pair of the map has its mkdir line |
| Script.TrackLinesAt | mp3renamer.py:354-357 | an album's rename lines follow the order of its track list, one line per record |
| Script.WriteTracks | mp3renamer.py:354-357 | the track loop appends one rename line per record, in list order |
| Script.WriteAlbum | mp3renamer.py:353-358 | one album gives its mkdir line, its rename lines and a blank line |
| Script.WriteArtist | mp3renamer.py:352-358 | one artist gives the blocks of its albums in sorted order |
| Script.WriteArtists | mp3renamer.py:351-358 | the artist loop gives the blocks of all pairs, artists in sorted order |
| Script.GenScriptUnix | mp3renamer.py:343-358 | the script is the header, then for each sorted artist and sorted album the mkdir line, the rename lines and a blank line, with `mv` when moving |

## Findings

| source | as written | input that shows it | evidently intended | confidence | as-written member | corrected member |
|---|---|---|---|---|---|---|
| mp3renamer.py:332-357 | a track number is reduced by the substitution and then written unescaped between single quotes in the rename line | the tags artist `a`, album `b`, title `c`, tracknumber `'`: the destination `a/b/' - c` between quotes leaves a quote unclosed, and a value like `'; rm -rf ~; '` would run as a command | the track number is sanitized like the other components (`Naming.SafeNameTrack`), so the destination argument reads back as the intended path | high (proved; not executed) | Naming.DestinationQuoteBreaks | Naming.SafeDestinationQuoted |

`Naming.SafeNameTrack` is the corrected naming. `Planner` and `Script` keep `Naming.NameTrack`, so that they describe the program as it is written.

## Left out

- The command line (`argparse`): the mkdir and rename commands and the move flag are parameters of `GenScriptUnix`.
- The directory walk (`os.walk`) and the tag reader (mutagen's `File`): a walk is a sequence of files in visiting order, each with the outcome the reader produced (raised, `None`, or a tag mapping).
- Writing the script file: the script is its sequence of lines, and the file holds each line followed by a newline. The UTF-8 encoding is not modelled.
- Console output: `log`, `display_stats` and `display_map` print only and change nothing.
- Python's string order is modelled as lexicographic order on characters, which is how Python compares unicode strings on wide builds. Narrow builds compare UTF-16 code units, so a character above U+FFFF sorts before U+E000–U+FFFF there; that order is not modelled.
- Statistics.Stats: the source keeps the aggregator in class attributes, shared by the whole process. The model gives it one object per run. The nested dictionaries are values, so the aliasing of `files[artist][album]` is not modelled, only its effect.
- Statistics.Stats: the class has no invariant of its own. Consistency is proved on `StatsValue`, which each method is proved to follow.
- Shell.Unquote: models quoting only (single quotes, backslash escapes). Parameter expansion, word splitting and globbing are not modelled.
- Naming.DestinationPath: requires non-empty artist and album values and a reduced number that does not start with `/`. Other inputs are described only by the definition of `Naming.NameTrack`; `Naming.DestinationAbsolute` shows the reset for a digit-free number.
- Naming.DestinationQuoted: requires a reduced track number without a quote. A raw value with a digit-free line that holds a quote keeps that line, and the quoting breaks (`Naming.DestinationQuoteBreaks`).
- Strings are modelled as sequences of characters. The program runs on Python 2, where `os.walk` gives byte-string names and the tag reader gives unicode values. A non-ASCII file name then makes the joins at :330 and :333 (through the fallback title) or the formatting at :357 raise a decode error outside any `try`, which aborts `process_files` or `gen_script_unix`. The model does not capture these aborts: every walk completes and every line is written.
- TrackNumber.ReduceFirstRun: stated for one-line values. Multi-line values are reduced line by line, as the `ReduceTrackNumber` definition says.
