/**
 `sorted(d)` on a dictionary with string keys: its keys in ascending
 lexicographic order. The order is the one `Text.Less` defines.
 */
module Sorting {
  import opened Text

  /** `m` sorts before every other element of `s`. */
  predicate IsLeast(m: string, s: set<string>)
  {
    m in s && forall x :: x in s && x != m ==> Less(m, x)
  }

  /** A non-empty set of strings has a least element. */
  lemma {:induction false} LeastExists(s: set<string>)
    requires s != {}
    ensures exists m :: IsLeast(m, s)
    decreases |s|
  {
    var x :| x in s;
    if s != {x} {
      LeastExists(s - {x});
      var m :| IsLeast(m, s - {x});
      if Less(x, m) {
        forall y | y in s && y != x ensures Less(x, y) {
          if y != m {
            LessTransitive(x, m, y);
          }
        }
        assert IsLeast(x, s);
      } else {
        LessTotal(x, m);
        assert IsLeast(m, s);
      }
    } else {
      assert IsLeast(x, s);
    }
  }

  /** There is only one least element. */
  lemma LeastUnique(s: set<string>)
    ensures forall a, b :: IsLeast(a, s) && IsLeast(b, s) ==> a == b
  {
    forall a, b | IsLeast(a, s) && IsLeast(b, s) ensures a == b {
      if a != b {
        LessAsymmetric(a, b);
      }
    }
  }

  /** The elements of `s` in ascending order. */
  function Sorted(s: set<string>): seq<string>
    decreases |s|
  {
    if s == {} then []
    else
      LeastExists(s);
      LeastUnique(s);
      var m :| IsLeast(m, s);
      [m] + Sorted(s - {m})
  }

  /** `Sorted` holds the elements of the set, each once, in ascending order. */
  lemma {:induction false} SortedSpec(s: set<string>)
    ensures var r := Sorted(s);
      && |r| == |s|
      && (forall x :: x in r <==> x in s)
      && StrictlyIncreasing(r)
    decreases |s|
  {
    if s != {} {
      LeastExists(s);
      var m :| IsLeast(m, s);
      SortedLeast(s, m);
      SortedSpec(s - {m});
      var rest := Sorted(s - {m});
      var r := [m] + rest;
      forall i, j | 0 <= i < j < |r| ensures Less(r[i], r[j]) {
        assert r[j] == rest[j - 1] && rest[j - 1] in s - {m};
        if i > 0 {
          assert r[i] == rest[i - 1];
        }
      }
      forall x ensures x in r <==> x in s {
        if x in s && x != m {
          assert x in rest;
        }
      }
    }
  }

  /** The keys of `m` in ascending order. */
  function SortedKeys<V>(m: map<string, V>): seq<string>
  {
    Sorted(m.Keys)
  }

  /** `SortedKeys` lists exactly the keys. */
  lemma SortedKeysMembers<V>(m: map<string, V>)
    ensures forall x :: x in SortedKeys(m) <==> x in m
  {
    SortedSpec(m.Keys);
  }

  /** `SortedKeys` lists the keys in ascending order, each once. */
  lemma SortedKeysIncreasing<V>(m: map<string, V>)
    ensures StrictlyIncreasing(SortedKeys(m))
  {
    SortedSpec(m.Keys);
  }

  /** `Sorted` starts with the least element. */
  lemma SortedLeast(s: set<string>, m: string)
    requires IsLeast(m, s)
    ensures Sorted(s) == [m] + Sorted(s - {m})
  {
    LeastExists(s);
    LeastUnique(s);
  }

  /** The head of a strictly increasing sequence is its least element, and
      the tail holds exactly the others. */
  lemma HeadLeast(s: set<string>, r: seq<string>)
    requires r != [] && StrictlyIncreasing(r)
    requires forall x :: x in r <==> x in s
    ensures IsLeast(r[0], s)
    ensures StrictlyIncreasing(r[1..])
    ensures forall x :: x in r[1..] <==> x in s - {r[0]}
  {
    var m, t := r[0], r[1..];
    forall x | x in s && x != m ensures Less(m, x) {
      var k :| 0 <= k < |r| && r[k] == x;
    }
    forall x ensures x in t <==> x in s - {m} {
      if x in t {
        var k :| 0 <= k < |t| && t[k] == x;
        assert r[k + 1] == x;
        LessIrreflexive(m);
      }
      if x in s - {m} {
        var k :| 0 <= k < |r| && r[k] == x;
        assert t[k - 1] == x;
      }
    }
    forall i, j | 0 <= i < j < |t| ensures Less(t[i], t[j]) {
      assert t[i] == r[i + 1] && t[j] == r[j + 1];
    }
  }

  /** A strictly increasing sequence is determined by its elements: `Sorted`
      is the only sorted arrangement of a set. */
  lemma {:induction false} SortedUnique(s: set<string>, r: seq<string>)
    requires StrictlyIncreasing(r)
    requires forall x :: x in r <==> x in s
    ensures r == Sorted(s)
    decreases |r|
  {
    if r == [] {
      assert forall x :: x !in s;
    } else {
      HeadLeast(s, r);
      SortedUnique(s - {r[0]}, r[1..]);
      SortedLeast(s, r[0]);
    }
  }
}
