/**
 `os.path.join` on POSIX, which the renamer uses to build a source path from
 a directory and a file name, a destination from artist, album and title,
 and the directory argument of each mkdir line.
 */
module Paths {

  /** `os.path.join(a, b)`: a component that starts with `/` replaces what came
      before; otherwise a `/` is put between the two unless `a` is empty or
      already ends with one. */
  function JoinPath(a: string, b: string): string
  {
    if |b| > 0 && b[0] == '/' then b
    else if a == [] || a[|a| - 1] == '/' then a + b
    else a + "/" + b
  }

  /** `os.path.join(a, b, c)`. */
  function JoinPath3(a: string, b: string, c: string): string
  {
    JoinPath(JoinPath(a, b), c)
  }

  /** With non-empty, slash-free leading components and a relative last one,
      the join is plain `/`-concatenation. */
  lemma JoinPath3Plain(a: string, b: string, c: string)
    requires a != [] && b != [] && '/' !in a && '/' !in b
    requires c == [] || c[0] != '/'
    ensures JoinPath3(a, b, c) == a + "/" + b + "/" + c
  {
    assert a[|a| - 1] in a && b[0] in b;
    var ab := a + "/" + b;
    assert ab[|ab| - 1] == b[|b| - 1] && b[|b| - 1] in b;
  }

  /** A last component that starts with `/` discards artist and album. */
  lemma JoinPath3Absolute(a: string, b: string, c: string)
    requires c != [] && c[0] == '/'
    ensures JoinPath3(a, b, c) == c
  {
  }
}
