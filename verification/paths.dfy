/**
 * String helpers used by the plugin hooks of src/index.ts: `normalizePath`
 * (split on the Windows separator, join with the POSIX one) and the
 * `lastIndexOf('/')` / `substring` pair that `generateBundle` uses to derive a
 * directory from the tsconfig path.
 */
module Paths {

  /** `path.win32.sep` */
  const WinSep: char := '\\'
  /** `path.posix.sep` */
  const PosixSep: char := '/'

  /** JavaScript's `s.split(sep)`: never empty; one more piece than there are separators. */
  function Split(s: string, sep: char): (parts: seq<string>)
    ensures |parts| >= 1
    ensures forall k :: 0 <= k < |parts| ==> sep !in parts[k]
  {
    if s == [] then [[]]
    else
      var rest := Split(s[1..], sep);
      if s[0] == sep then [[]] + rest
      else [[s[0]] + rest[0]] + rest[1..]
  }

  /** JavaScript's `parts.join(sep)` on a non-empty array. */
  function Join(parts: seq<string>, sep: char): string
    requires |parts| >= 1
  {
    if |parts| == 1 then parts[0] else parts[0] + [sep] + Join(parts[1..], sep)
  }

  /** The character-wise reading of split-then-join: every `from` becomes `to`. */
  function Replace(s: string, from: char, to: char): (r: string)
    ensures |r| == |s|
    ensures forall i :: 0 <= i < |s| ==> r[i] == if s[i] == from then to else s[i]
  {
    if s == [] then [] else [if s[0] == from then to else s[0]] + Replace(s[1..], from, to)
  }

  /** Splitting on a character and joining with another replaces that character. */
  lemma {:induction false} SplitJoinIsReplace(s: string, from: char, to: char)
    ensures Join(Split(s, from), to) == Replace(s, from, to)
  {
    if s != [] {
      var rest := Split(s[1..], from);
      SplitJoinIsReplace(s[1..], from, to);
      if s[0] == from {
        assert Split(s, from) == [[]] + rest;
        assert ([[]] + rest)[1..] == rest;
      } else {
        var parts := Split(s, from);
        assert parts == [[s[0]] + rest[0]] + rest[1..];
        if |rest| == 1 {
          assert Join(parts, to) == [s[0]] + rest[0];
        } else {
          assert parts[1..] == rest[1..];
          assert Join(rest, to) == rest[0] + [to] + Join(rest[1..], to);
          assert Join(parts, to) == [s[0]] + rest[0] + [to] + Join(rest[1..], to);
        }
      }
    }
  }

  /**
   * `normalizePath` (src/index.ts:33-35): Windows separators become POSIX
   * separators; every other character is kept, in place.
   */
  function NormalizePath(fileName: string): (r: string)
    ensures |r| == |fileName|
    ensures forall i :: 0 <= i < |r| ==> r[i] == if fileName[i] == WinSep then PosixSep else fileName[i]
    ensures WinSep !in r
  {
    SplitJoinIsReplace(fileName, WinSep, PosixSep);
    Join(Split(fileName, WinSep), PosixSep)
  }

  /** A path that already uses POSIX separators only is left as it is. */
  lemma NormalizeKeepsPosixPath(fileName: string)
    requires WinSep !in fileName
    ensures NormalizePath(fileName) == fileName
  {
  }

  /** Normalizing twice is normalizing once. */
  lemma NormalizeIdempotent(fileName: string)
    ensures NormalizePath(NormalizePath(fileName)) == NormalizePath(fileName)
  {
  }

  /** JavaScript's `s.lastIndexOf(c)`: the last position holding `c`, or -1. */
  function LastIndexOf(s: string, c: char): (i: int)
    ensures -1 <= i < |s|
    ensures i >= 0 ==> s[i] == c
    ensures i == -1 <==> c !in s
    ensures forall j :: i < j < |s| ==> s[j] != c
  {
    if s == [] then -1
    else if s[|s| - 1] == c then |s| - 1
    else LastIndexOf(s[..|s| - 1], c)
  }

  /**
   * `tsconfig.substring(0, tsconfig.lastIndexOf('/'))`: the part of the path
   * before its last `/`. JavaScript clamps the index -1 to 0, so a path with no
   * `/` gives the empty string.
   */
  function ConfigDir(tsconfig: string): (dir: string)
    ensures dir <= tsconfig
    ensures PosixSep !in tsconfig ==> dir == ""
    ensures PosixSep in tsconfig ==> |dir| < |tsconfig| && tsconfig[|dir|] == PosixSep
                                     && PosixSep !in tsconfig[|dir| + 1..]
  {
    var i := LastIndexOf(tsconfig, PosixSep);
    if i < 0 then "" else tsconfig[..i]
  }
}
