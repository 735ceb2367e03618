/**
 The track-number reduction `re.sub(r'.*?(\d+).*', r'\1', tracknumber)`.

 `.` does not match a newline, so the pattern matches within one line: on
 each line that holds a decimal digit the whole line is replaced by its first
 maximal run of digits (the lazy `.*?` stops at the first digit, the greedy
 `\d+` takes the whole run, `.*` eats the rest of the line); a line without
 a digit is left as it is. Newlines themselves are never matched and stay.
 `\d` is `[0-9]`: the pattern carries no UNICODE flag.
 */
module TrackNumber {
  import opened Wrappers
  import opened Text

  /** The longest prefix of `s` made of digits. */
  function LeadingDigits(s: string): (d: string)
    ensures |d| <= |s| && d == s[..|d|] && AllDigits(d)
    ensures |d| == |s| || !IsDigit(s[|d|])
  {
    if s != [] && IsDigit(s[0]) then [s[0]] + LeadingDigits(s[1..]) else []
  }

  /** The first maximal run of digits in `s`, if there is a digit. */
  function FirstDigitRun(s: string): Option<string>
  {
    if s == [] then None
    else if IsDigit(s[0]) then Some(LeadingDigits(s))
    else FirstDigitRun(s[1..])
  }

  /** What the substitution does to one line. */
  function ReduceLine(line: string): string
  {
    match FirstDigitRun(line)
    case Some(digits) => digits
    case None => line
  }

  /** Index of the first newline of `s`, or `|s|` when there is none. */
  function LineEnd(s: string): (k: nat)
    ensures k <= |s| && '\n' !in s[..k]
    ensures k < |s| ==> s[k] == '\n'
  {
    if s == [] || s[0] == '\n' then 0
    else
      assert s[..1 + LineEnd(s[1..])] == [s[0]] + s[1..][..LineEnd(s[1..])];
      1 + LineEnd(s[1..])
  }

  /** The reduction applied to a raw track-number tag value. */
  function ReduceTrackNumber(v: string): string
    decreases |v|
  {
    var k := LineEnd(v);
    if k == |v| then ReduceLine(v) else ReduceLine(v[..k]) + "\n" + ReduceTrackNumber(v[k + 1..])
  }

  // ---------------------------------------------------------------------------

  lemma {:induction false} LeadingDigitsRun(s: string, j: nat)
    requires j <= |s|
    requires forall k :: 0 <= k < j ==> IsDigit(s[k])
    requires j == |s| || !IsDigit(s[j])
    ensures LeadingDigits(s) == s[..j]
  {
    if j > 0 {
      LeadingDigitsRun(s[1..], j - 1);
      assert s[..j] == [s[0]] + s[1..][..j - 1];
    }
  }

  lemma {:induction false} FirstDigitRunAt(s: string, i: nat, j: nat)
    requires i < j <= |s|
    requires forall k :: 0 <= k < i ==> !IsDigit(s[k])
    requires forall k :: i <= k < j ==> IsDigit(s[k])
    requires j == |s| || !IsDigit(s[j])
    ensures FirstDigitRun(s) == Some(s[i..j])
  {
    if i == 0 {
      LeadingDigitsRun(s, j);
    } else {
      FirstDigitRunAt(s[1..], i - 1, j - 1);
      assert s[1..][i - 1..j - 1] == s[i..j] by {
        forall k | 0 <= k < j - i ensures s[1..][i - 1..j - 1][k] == s[i..j][k] {
          assert s[1..][i - 1 + k] == s[i + k];
        }
      }
    }
  }

  lemma {:induction false} FirstDigitRunNone(s: string)
    requires !HasDigit(s)
    ensures FirstDigitRun(s) == None
  {
    if s != [] {
      assert !IsDigit(s[0]);
      assert !HasDigit(s[1..]) by {
        forall k | 0 <= k < |s| - 1 ensures !IsDigit(s[1..][k]) {
          assert s[1..][k] == s[k + 1];
        }
      }
      FirstDigitRunNone(s[1..]);
    }
  }

  /** On a one-line value the result is exactly the first maximal run of
      digits: the digits at `i..j`, when none comes before `i` and none
      right after `j`. */
  lemma ReduceFirstRun(v: string, i: nat, j: nat)
    requires '\n' !in v
    requires i < j <= |v|
    requires forall k :: 0 <= k < i ==> !IsDigit(v[k])
    requires forall k :: i <= k < j ==> IsDigit(v[k])
    requires j == |v| || !IsDigit(v[j])
    ensures ReduceTrackNumber(v) == v[i..j]
  {
    assert v[..|v|] == v;
    FirstDigitRunAt(v, i, j);
  }

  /** A one-line value with a digit reduces to a non-empty run of digits. */
  lemma ReduceHasDigits(v: string)
    requires '\n' !in v && HasDigit(v)
    ensures var r := ReduceTrackNumber(v); r != [] && AllDigits(r)
  {
    assert v[..|v|] == v;
    var first := FirstDigitIndex(v);
    var j := first + |LeadingDigits(v[first..])|;
    assert v[first..][..|LeadingDigits(v[first..])|] == v[first..j];
    FirstDigitRunAt(v, first, j);
  }

  /** The index of the first digit of `v`. */
  function FirstDigitIndex(v: string): (i: nat)
    requires HasDigit(v)
    ensures i < |v| && IsDigit(v[i])
    ensures forall k :: 0 <= k < i ==> !IsDigit(v[k])
  {
    if IsDigit(v[0]) then 0
    else
      assert HasDigit(v[1..]) by {
        var k :| 0 <= k < |v| && IsDigit(v[k]);
        assert v[1..][k - 1] == v[k];
      }
      1 + FirstDigitIndex(v[1..])
  }

  /** A value without any digit is returned unchanged, on every line. */
  lemma {:induction false} ReduceNoDigit(v: string)
    requires !HasDigit(v)
    ensures ReduceTrackNumber(v) == v
    decreases |v|
  {
    var k := LineEnd(v);
    if k == |v| {
      assert v[..|v|] == v;
      FirstDigitRunNone(v);
    } else {
      assert !HasDigit(v[..k]) by {
        forall m | 0 <= m < k ensures !IsDigit(v[..k][m]) {
          assert v[..k][m] == v[m];
        }
      }
      FirstDigitRunNone(v[..k]);
      var rest := v[k + 1..];
      assert !HasDigit(rest) by {
        forall m | 0 <= m < |rest| ensures !IsDigit(rest[m]) {
          assert rest[m] == v[k + 1 + m];
        }
      }
      ReduceNoDigit(rest);
      assert v == v[..k] + "\n" + rest;
    }
  }

  lemma ReduceExamples()
    ensures ReduceTrackNumber("3/12") == "3"
    ensures ReduceTrackNumber("07") == "07"
    ensures ReduceTrackNumber("unknown") == "unknown"
  {
    ReduceFirstRun("3/12", 0, 1);
    ReduceFirstRun("07", 0, 2);
    ReduceNoDigit("unknown");
  }
}
