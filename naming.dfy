/**
 How `process_files` turns one file's tags into a destination path: the
 missing-tag list, the fallback values, the reduced track number and the
 `artist/album/[N - ]title` join.

 The tag reader (mutagen's `File(filename, easy=True)`) is not modelled; each
 file comes with what it produced: an exception, nothing (`None`), or a
 mapping from tag name to a non-empty list of values.
 */
module Naming {
  import opened Wrappers
  import opened Text
  import opened Shell
  import opened Paths
  import opened TrackNumber
  import Seqs

  /** The values of one tag; the reader never yields an empty list. */
  type TagValues = s: seq<string> | |s| > 0 witness [""]

  type Tags = map<string, TagValues>

  /** What reading one file's tags produced. */
  datatype Outcome =
    | Raised            // the reader raised an exception
    | NoFile            // the reader returned None
    | Loaded(tags: Tags)

  /** One file of the directory walk: the directory, the file name and the outcome. */
  datatype FileEntry = FileEntry(root: string, name: string, outcome: Outcome)

  /** `os.path.join(root, f)`. */
  function SourcePath(e: FileEntry): string
  {
    JoinPath(e.root, e.name)
  }

  /** `not audio`: None, or a loaded file whose tag mapping is empty (the
      reader's file objects are mappings, false when they have no keys). */
  predicate Falsy(o: Outcome)
  {
    o.NoFile? || (o.Loaded? && |o.tags| == 0)
  }

  // ---------------------------------------------------------------------------
  // Missing tags

  const RequiredTags: seq<string> := ["artist", "album", "title"]

  /** The names among `names` that `tags` lacks, in the order of `names`. */
  function Absent(names: seq<string>, tags: Tags): seq<string>
  {
    if names == [] then []
    else
      var n := |names| - 1;
      Absent(names[..n], tags) + (if names[n] in tags then [] else [names[n]])
  }

  function MissingTags(tags: Tags): seq<string>
  {
    Absent(RequiredTags, tags)
  }

  /** The `for tag in test_tags` loop that collects the missing tag names. */
  method FindMissingTags(tags: Tags) returns (missing: seq<string>)
    ensures missing == MissingTags(tags)
  {
    missing := [];
    var i := 0;
    while i < |RequiredTags|
      invariant 0 <= i <= |RequiredTags|
      invariant missing == Absent(RequiredTags[..i], tags)
    {
      assert RequiredTags[..i + 1][..i] == RequiredTags[..i];
      if RequiredTags[i] !in tags {
        missing := missing + [RequiredTags[i]];
      }
      i := i + 1;
    }
    assert RequiredTags[..i] == RequiredTags;
  }

  /** The missing-tag list is the in-order subsequence of artist, album, title
      that the tags lack. */
  lemma MissingTagsInOrder(tags: Tags)
    ensures MissingTags(tags) ==
              (if "artist" in tags then [] else ["artist"]) +
              (if "album" in tags then [] else ["album"]) +
              (if "title" in tags then [] else ["title"])
  {
    var r1, r2 := RequiredTags[..1], RequiredTags[..2];
    assert r1 == ["artist"] && r1[..0] == [];
    assert r2 == ["artist", "album"] && r2[..1] == r1;
    assert RequiredTags[..2] == r2;
    assert Absent(r1, tags) == (if "artist" in tags then [] else ["artist"]);
    assert Absent(r2, tags) == Absent(r1, tags) + (if "album" in tags then [] else ["album"]);
  }

  /** The text recorded for a file with missing tags: `"<path>: <names>"`. */
  function MissingTagReport(filename: string, missing: seq<string>): string
  {
    filename + ": " + JoinWith(", ", missing)
  }

  // ---------------------------------------------------------------------------
  // The destination name

  /** `"%d_%s" % (counter, f)`: the title used when the title tag is missing. */
  function FallbackTitle(counter: nat, name: string): string
  {
    Decimal(counter) + "_" + name
  }

  /** `audio.get(key, [default])[0]`. */
  function FirstValue(tags: Tags, key: string, default: string): string
  {
    if key in tags then tags[key][0] else default
  }

  /** `audio.get('tracknumber', [None])[0]`. */
  function RawTrackNumber(tags: Tags): Option<string>
  {
    if "tracknumber" in tags then Some(tags["tracknumber"][0]) else None
  }

  /** The branch at `if not tracknumber`: a track number that is present and non-empty. */
  predicate Numbered(tags: Tags)
  {
    var raw := RawTrackNumber(tags);
    raw.Some? && raw.value != []
  }

  /** The values the renamer derives for one track. */
  datatype TrackName = TrackName(
    artist: string,
    album: string,
    title: string,
    trackNumber: Option<string>,
    newname: string)

  /** The reduced track number, when the `if not tracknumber` test lets one through. */
  function ReducedNumber(tags: Tags): Option<string>
  {
    if Numbered(tags) then Some(ReduceTrackNumber(RawTrackNumber(tags).value)) else None
  }

  /** `"%s - "` of the reduced number, or nothing. */
  function NumberPrefix(number: Option<string>): string
  {
    match number
    case None => ""
    case Some(n) => n + " - "
  }

  /** `os.path.join(artist, album, title)`, or with `"%s - %s" % (n, title)` last. */
  function Destination(artist: string, album: string, title: string, number: Option<string>): string
  {
    JoinPath3(artist, album, NumberPrefix(number) + title)
  }

  /** The naming part of the loop body of `process_files` for the file `name`
      visited as number `counter`. The track number recorded is the reduced
      one, or the raw value (absent or empty) when there is none. */
  function NameTrack(tags: Tags, counter: nat, name: string): TrackName
  {
    var artist := Sanitize(FirstValue(tags, "artist", "No Artist"));
    var album := Sanitize(FirstValue(tags, "album", "No Album"));
    var title := Sanitize(FirstValue(tags, "title", FallbackTitle(counter, name)));
    var number := ReducedNumber(tags);
    TrackName(artist, album, title, if number.Some? then number else RawTrackNumber(tags),
              Destination(artist, album, title, number))
  }

  // ---------------------------------------------------------------------------
  // Properties

  /** Missing artist, album and title fall back to "No Artist", "No Album" and
      the sanitized `"<counter>_<file name>"`. */
  lemma Fallbacks(tags: Tags, counter: nat, name: string)
    ensures var t := NameTrack(tags, counter, name);
      && ("artist" !in tags ==> t.artist == "No Artist")
      && ("album" !in tags ==> t.album == "No Album")
      && ("title" !in tags ==> t.title == Sanitize(FallbackTitle(counter, name)))
  {
    assert '/' !in "No Artist" && Quote !in "No Artist";
    assert '/' !in "No Album" && Quote !in "No Album";
    SanitizePlain("No Artist");
    SanitizePlain("No Album");
  }

  /** Sanitizing `"<counter>_"` leaves it as it is. */
  lemma SanitizeFallback(counter: nat, name: string)
    ensures Sanitize(FallbackTitle(counter, name)) == Decimal(counter) + "_" + Sanitize(name)
  {
    var d := Decimal(counter);
    assert forall i :: 0 <= i < |d + "_"| ==> (d + "_")[i] != '/' && (d + "_")[i] != Quote by {
      forall i | 0 <= i < |d + "_"| ensures (d + "_")[i] != '/' && (d + "_")[i] != Quote {
        if i < |d| { assert IsDigit(d[i]); }
      }
    }
    SanitizePlain(d + "_");
    SanitizeAppend(d + "_", name);
  }

  /** Files visited under different counters never share a fallback title. */
  lemma FallbackTitlesDistinct(c1: nat, name1: string, c2: nat, name2: string)
    requires c1 != c2
    ensures Sanitize(FallbackTitle(c1, name1)) != Sanitize(FallbackTitle(c2, name2))
  {
    SanitizeFallback(c1, name1);
    SanitizeFallback(c2, name2);
    var d1, d2 := Decimal(c1), Decimal(c2);
    var x1, x2 := d1 + "_" + Sanitize(name1), d2 + "_" + Sanitize(name2);
    if |d1| < |d2| {
      assert x1[|d1|] == '_' && x2[|d1|] == d2[|d1|] && IsDigit(d2[|d1|]);
    } else if |d2| < |d1| {
      assert x2[|d2|] == '_' && x1[|d2|] == d1[|d2|] && IsDigit(d1[|d2|]);
    } else {
      DecimalRoundTrip(c1);
      DecimalRoundTrip(c2);
      assert d1 != d2;
      assert x1[..|d1|] == d1 && x2[..|d2|] == d2;
    }
  }

  /** Artist and album values, where present, are non-empty: then neither
      component can vanish from the join. */
  predicate NonEmptyGroupTags(tags: Tags)
  {
    && ("artist" in tags ==> tags["artist"][0] != [])
    && ("album" in tags ==> tags["album"][0] != [])
  }

  /** A reduced number that cannot reset the join: empty, or not starting with `/`. */
  predicate RelativeNumber(number: Option<string>)
  {
    number.Some? ==> number.value == [] || number.value[0] != '/'
  }

  lemma DestinationPlain(artist: string, album: string, title: string, number: Option<string>)
    requires artist != [] && '/' !in artist && album != [] && '/' !in album
    requires '/' !in title && RelativeNumber(number)
    ensures Destination(artist, album, title, number) == artist + "/" + album + "/" + NumberPrefix(number) + title
  {
    var last := NumberPrefix(number) + title;
    if number.None? {
      assert last == title;
      assert title == [] || title[0] in title;
    } else if number.value == [] {
      assert last[0] == ' ';
    } else {
      assert last[0] == number.value[0];
    }
    JoinPath3Plain(artist, album, last);
  }

  /** The destination is `artist/album/title`, or `artist/album/N - title` with the
      reduced track number, unless that number starts with `/`. */
  lemma DestinationPath(tags: Tags, counter: nat, name: string)
    requires NonEmptyGroupTags(tags) && RelativeNumber(ReducedNumber(tags))
    ensures var t := NameTrack(tags, counter, name);
      t.newname == t.artist + "/" + t.album + "/" + NumberPrefix(ReducedNumber(tags)) + t.title
  {
    var t := NameTrack(tags, counter, name);
    GroupComponents(tags, counter, name);
    SanitizeNoSlash(FirstValue(tags, "title", FallbackTitle(counter, name)));
    DestinationPlain(t.artist, t.album, t.title, ReducedNumber(tags));
  }

  /** A track number with no digit is kept as it is; one that starts with `/`
      makes the join drop artist and album. */
  lemma DestinationAbsolute(tags: Tags, counter: nat, name: string)
    requires Numbered(tags)
    requires var raw := RawTrackNumber(tags).value; !HasDigit(raw) && raw[0] == '/'
    ensures var t := NameTrack(tags, counter, name);
      t.newname == RawTrackNumber(tags).value + " - " + t.title
  {
    ReduceNoDigit(RawTrackNumber(tags).value);
  }

  lemma GroupComponents(tags: Tags, counter: nat, name: string)
    requires NonEmptyGroupTags(tags)
    ensures var t := NameTrack(tags, counter, name);
      && t.artist != [] && '/' !in t.artist
      && t.album != [] && '/' !in t.album
  {
    var ra := FirstValue(tags, "artist", "No Artist");
    var rb := FirstValue(tags, "album", "No Album");
    SanitizeEmpty(ra);
    SanitizeEmpty(rb);
    SanitizeNoSlash(ra);
    SanitizeNoSlash(rb);
  }

  /** What the shell reads from the destination once it is put between single
      quotes: the raw tags with slashes replaced, joined by `/`. */
  function ShellDestination(tags: Tags, counter: nat, name: string): string
  {
    var artist := ReplaceSlashes(FirstValue(tags, "artist", "No Artist"));
    var album := ReplaceSlashes(FirstValue(tags, "album", "No Album"));
    var title := ReplaceSlashes(FirstValue(tags, "title", FallbackTitle(counter, name)));
    artist + "/" + album + "/" + NumberPrefix(ReducedNumber(tags)) + title
  }

  /** A reduced track number that is safe to put between single quotes as it is. */
  predicate QuoteSafeNumber(number: Option<string>)
  {
    RelativeNumber(number) && (number.Some? ==> Quote !in number.value)
  }

  /** A one-line track number with a digit reduces to digits, which are safe. */
  lemma DigitNumberQuoteSafe(tags: Tags)
    requires Numbered(tags) ==> '\n' !in RawTrackNumber(tags).value && HasDigit(RawTrackNumber(tags).value)
    ensures QuoteSafeNumber(ReducedNumber(tags))
  {
    if Numbered(tags) {
      var n := ReduceTrackNumber(RawTrackNumber(tags).value);
      ReduceHasDigits(RawTrackNumber(tags).value);
      assert Quote !in n by {
        forall i | 0 <= i < |n| ensures n[i] != Quote {
          assert IsDigit(n[i]);
        }
      }
      assert IsDigit(n[0]);
    }
  }

  /** Escaped components joined by `/` and a quote-free middle part read back
      as the unescaped components. */
  lemma QuotedJoin(a: string, b: string, middle: string, c: string)
    requires Quote !in middle
    ensures Unquote("'" + (Escape(a) + "/" + Escape(b) + "/" + middle + Escape(c)) + "'") ==
              Some(a + "/" + b + "/" + middle + c)
  {
    EscapeUnchanged("/");
    EscapeUnchanged(middle);
    calc {
      Escape(a + "/" + b + "/" + middle + c);
      { EscapeAppend(a + "/" + b + "/" + middle, c); }
      Escape(a + "/" + b + "/" + middle) + Escape(c);
      { EscapeAppend(a + "/" + b + "/", middle); }
      Escape(a + "/" + b + "/") + middle + Escape(c);
      { EscapeAppend(a + "/" + b, "/"); }
      Escape(a + "/" + b) + "/" + middle + Escape(c);
      { EscapeAppend(a + "/", b); }
      Escape(a + "/") + Escape(b) + "/" + middle + Escape(c);
      { EscapeAppend(a, "/"); }
      Escape(a) + "/" + Escape(b) + "/" + middle + Escape(c);
    }
    EscapeRoundTrip(a + "/" + b + "/" + middle + c);
  }

  /** The destination emitted unescaped between single quotes in the script is
      read by the shell as the intended path, as long as the track number
      brings no quote of its own. */
  lemma DestinationQuoted(tags: Tags, counter: nat, name: string)
    requires NonEmptyGroupTags(tags) && QuoteSafeNumber(ReducedNumber(tags))
    ensures Unquote("'" + NameTrack(tags, counter, name).newname + "'") == Some(ShellDestination(tags, counter, name))
  {
    var t := NameTrack(tags, counter, name);
    var middle := NumberPrefix(ReducedNumber(tags));
    DestinationPath(tags, counter, name);
    assert Quote !in middle;
    QuotedJoin(ReplaceSlashes(FirstValue(tags, "artist", "No Artist")),
               ReplaceSlashes(FirstValue(tags, "album", "No Album")),
               middle,
               ReplaceSlashes(FirstValue(tags, "title", FallbackTitle(counter, name))));
  }

  /** Tags with plain artist, album and title values `a`, `b` and `c` and the
      track number `'`. */
  predicate QuoteNumbered(tags: Tags, a: string, b: string, c: string)
  {
    && "artist" in tags && tags["artist"][0] == a && a != [] && '/' !in a && Quote !in a
    && "album" in tags && tags["album"][0] == b && b != [] && '/' !in b && Quote !in b
    && "title" in tags && tags["title"][0] == c && '/' !in c && Quote !in c && '\\' !in c
    && "tracknumber" in tags && tags["tracknumber"][0] == [Quote]
  }

  /** The quote has no digit, so it survives the substitution into the name. */
  lemma QuoteNumberName(tags: Tags, counter: nat, name: string, a: string, b: string, c: string)
    requires QuoteNumbered(tags, a, b, c)
    ensures NameTrack(tags, counter, name).newname == (a + "/" + b + "/") + [Quote] + (" - " + c)
  {
    assert !HasDigit([Quote]);
    ReduceNoDigit([Quote]);
    assert ReducedNumber(tags) == Some([Quote]);
    SanitizePlain(a);
    SanitizePlain(b);
    SanitizePlain(c);
    DestinationPath(tags, counter, name);
  }

  /** A track number with no digit but a quote is kept by the substitution and
      written unescaped: the quotes around the destination no longer pair up,
      and the shell cannot read the argument as a path at all. */
  lemma DestinationQuoteBreaks(tags: Tags, counter: nat, name: string, a: string, b: string, c: string)
    requires QuoteNumbered(tags, a, b, c)
    ensures Unquote("'" + NameTrack(tags, counter, name).newname + "'") == None
  {
    QuoteNumberName(tags, counter, name, a, b, c);
    var front, back := a + "/" + b + "/", " - " + c;
    assert Quote !in front && Quote !in back && '\\' !in back;
    assert "'" == [Quote];
    assert "'" + (front + [Quote] + back) + "'" == "'" + front + "'" + back + "'";
    StrayQuote(front, back);
  }

  // ---------------------------------------------------------------------------
  // The evident fix: the track number sanitized like the other components

  /** A reduced track number passed through `sanitize_path`, as the artist,
      album and title values are before the join. */
  function SanitizeNumber(number: Option<string>): Option<string>
  {
    match number
    case None => None
    case Some(n) => Some(Sanitize(n))
  }

  /** `NameTrack` with the reduced track number sanitized before the join;
      everything else, the recorded track number included, is as `NameTrack`
      derives it. */
  function SafeNameTrack(tags: Tags, counter: nat, name: string): TrackName
  {
    var t := NameTrack(tags, counter, name);
    t.(newname := Destination(t.artist, t.album, t.title, SanitizeNumber(ReducedNumber(tags))))
  }

  /** What the shell reads for the `"%s - "` prefix of a sanitized number. */
  function ShellPrefix(number: Option<string>): string
  {
    match number
    case None => ""
    case Some(n) => ReplaceSlashes(n) + " - "
  }

  /** What the shell reads from the fixed destination between single quotes:
      every raw component, the track number included, with slashes replaced. */
  function SafeShellDestination(tags: Tags, counter: nat, name: string): string
  {
    var artist := ReplaceSlashes(FirstValue(tags, "artist", "No Artist"));
    var album := ReplaceSlashes(FirstValue(tags, "album", "No Album"));
    var title := ReplaceSlashes(FirstValue(tags, "title", FallbackTitle(counter, name)));
    artist + "/" + album + "/" + ShellPrefix(ReducedNumber(tags)) + title
  }

  /** The `"%s - " % (n, title)` part of the fixed name is the escape of what
      the shell reads for it. */
  lemma SafeLastPart(t: string, number: Option<string>)
    ensures NumberPrefix(SanitizeNumber(number)) + Sanitize(t) == Escape(ShellPrefix(number) + ReplaceSlashes(t))
  {
    if number.Some? {
      EscapeAppend(ReplaceSlashes(number.value), " - ");
      EscapeUnchanged(" - ");
    }
    EscapeAppend(ShellPrefix(number), ReplaceSlashes(t));
  }

  /** The fixed join is plain `/`-concatenation of the sanitized parts. */
  lemma SafeJoin(a: string, b: string, t: string, number: Option<string>)
    requires a != [] && b != []
    ensures Destination(Sanitize(a), Sanitize(b), Sanitize(t), SanitizeNumber(number)) ==
              Escape(ReplaceSlashes(a)) + "/" + Escape(ReplaceSlashes(b)) + "/" + Escape(ShellPrefix(number) + ReplaceSlashes(t))
  {
    var sn := SanitizeNumber(number);
    SanitizeEmpty(a);
    SanitizeEmpty(b);
    SanitizeNoSlash(a);
    SanitizeNoSlash(b);
    SanitizeNoSlash(t);
    if number.Some? {
      var v := Sanitize(number.value);
      SanitizeNoSlash(number.value);
      assert v == [] || v[0] in v;
    }
    DestinationPlain(Sanitize(a), Sanitize(b), Sanitize(t), sn);
    SafeLastPart(t, number);
    Seqs.Regroup(Sanitize(a) + "/" + Sanitize(b) + "/", NumberPrefix(sn), Sanitize(t));
  }

  /** Sanitized non-empty artist and album, a sanitized title and a sanitized
      number join to a path that reads back between quotes as the raw values
      with slashes replaced. */
  lemma SafeJoinQuoted(a: string, b: string, t: string, number: Option<string>)
    requires a != [] && b != []
    ensures Unquote("'" + Destination(Sanitize(a), Sanitize(b), Sanitize(t), SanitizeNumber(number)) + "'") ==
              Some(ReplaceSlashes(a) + "/" + ReplaceSlashes(b) + "/" + ShellPrefix(number) + ReplaceSlashes(t))
  {
    var ra, rb, last := ReplaceSlashes(a), ReplaceSlashes(b), ShellPrefix(number) + ReplaceSlashes(t);
    SafeJoin(a, b, t, number);
    QuotedJoin(ra, rb, "", last);
    assert Escape(ra) + "/" + Escape(rb) + "/" + "" == Escape(ra) + "/" + Escape(rb) + "/";
    assert ra + "/" + rb + "/" + "" == ra + "/" + rb + "/";
    Seqs.Regroup(ra + "/" + rb + "/", ShellPrefix(number), ReplaceSlashes(t));
  }

  /** With the fix, the destination between single quotes reads back as the
      intended path for every tag mapping whose artist and album values are
      non-empty, whatever the track number holds. */
  lemma SafeDestinationQuoted(tags: Tags, counter: nat, name: string)
    requires NonEmptyGroupTags(tags)
    ensures Unquote("'" + SafeNameTrack(tags, counter, name).newname + "'") ==
              Some(SafeShellDestination(tags, counter, name))
  {
    SafeJoinQuoted(FirstValue(tags, "artist", "No Artist"), FirstValue(tags, "album", "No Album"),
                   FirstValue(tags, "title", FallbackTitle(counter, name)), ReducedNumber(tags));
  }

  /** Where the bug cannot occur the fix changes nothing: a reduced number
      without quotes and slashes gives the same name as the code as written. */
  lemma SafeNameAgrees(tags: Tags, counter: nat, name: string)
    requires ReducedNumber(tags).Some? ==> Quote !in ReducedNumber(tags).value && '/' !in ReducedNumber(tags).value
    ensures SafeNameTrack(tags, counter, name) == NameTrack(tags, counter, name)
  {
    if ReducedNumber(tags).Some? {
      SanitizePlain(ReducedNumber(tags).value);
    }
  }

  /** With the fix, the track number `'` that breaks the quoting as written
      reads back as itself. */
  lemma SafeQuoteNumber(tags: Tags, counter: nat, name: string, a: string, b: string, c: string)
    requires QuoteNumbered(tags, a, b, c)
    ensures Unquote("'" + SafeNameTrack(tags, counter, name).newname + "'") == Some(a + "/" + b + "/" + "' - " + c)
  {
    assert !HasDigit([Quote]);
    ReduceNoDigit([Quote]);
    assert ReducedNumber(tags) == Some([Quote]);
    SafeDestinationQuoted(tags, counter, name);
    assert ReplaceSlashes(a) == a && ReplaceSlashes(b) == b && ReplaceSlashes(c) == c;
    assert ShellPrefix(Some([Quote])) == "' - ";
    assert SafeShellDestination(tags, counter, name) == a + "/" + b + "/" + "' - " + c;
  }
}
