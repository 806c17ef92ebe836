/** The string operations of Python that the admission rules and the recorder rely on. */
module Text {
  import opened Common

  /** `c.lower()` for the ASCII letters; every other character is left as it is. */
  function LowerChar(c: char): (l: char)
    ensures !('A' <= l <= 'Z')
    ensures 'A' <= c <= 'Z' || l == c
  {
    if 'A' <= c <= 'Z' then (c as int + 32) as char else c
  }

  /** `s.lower()`, character by character. */
  function Lower(s: string): (r: string)
    ensures |r| == |s|
    ensures forall i :: 0 <= i < |s| ==> r[i] == LowerChar(s[i])
  {
    seq(|s|, i requires 0 <= i < |s| => LowerChar(s[i]))
  }

  /** `sub in s` for strings: `sub` occurs in `s` at some position. */
  predicate Contains(s: string, sub: string) {
    exists i :: 0 <= i <= |s| - |sub| && OccursAt(s, sub, i)
  }

  /** `sub` is the slice of `s` that starts at `i`. */
  predicate OccursAt(s: string, sub: string, i: int)
    requires 0 <= i <= |s| - |sub|
  {
    s[i..i + |sub|] == sub
  }

  /** The index of the last occurrence of `c` in `s` (`s.rfind(c)`), or None when `c` does not occur. */
  function LastIndexOf(s: string, c: char): (r: Option<nat>)
    ensures r.None? <==> (forall j :: 0 <= j < |s| ==> s[j] != c)
    ensures r.Some? ==> r.value < |s| && s[r.value] == c
    ensures r.Some? ==> forall j :: r.value < j < |s| ==> s[j] != c
  {
    if |s| == 0 then None
    else if s[|s| - 1] == c then Some(|s| - 1)
    else LastIndexOf(s[..|s| - 1], c)
  }

  /** Only one index can be the last occurrence of `c`. */
  lemma LastIndexUnique(s: string, c: char, i: nat)
    requires i < |s| && s[i] == c
    requires forall j :: i < j < |s| ==> s[j] != c
    ensures LastIndexOf(s, c) == Some(i)
  {
  }

  /** `os.path.basename(path)`: the text after the last '/', or the whole path when it has none. */
  function BaseName(path: string): (name: string)
    ensures '/' !in name
    ensures |name| <= |path| && name == path[|path| - |name|..]
    ensures |name| < |path| ==> path[|path| - |name| - 1] == '/'
  {
    match LastIndexOf(path, '/')
    case None => path
    case Some(i) => path[i + 1..]
  }
}
