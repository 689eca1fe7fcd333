/** The two Windows path helpers the creators call, `os.path.join` and
    `os.path.basename` of Python's `ntpath`, for relative components. */
module Paths {

  /** Both `\` and `/` separate path components on Windows. */
  predicate IsSep(c: char) {
    c == '\\' || c == '/'
  }

  predicate IsSuffix(t: string, s: string) {
    |t| <= |s| && s[|s| - |t|..] == t
  }

  /** `os.path.join(a, b)`: a separator is put between the two parts unless
      `a` is empty or already ends with one. */
  function Join(a: string, b: string): string {
    if a == "" then b
    else if IsSep(a[|a| - 1]) then a + b
    else a + "\\" + b
  }

  /** The joined path starts with `a`, ends with `b`, and adds at most one
      separator between them. */
  lemma JoinParts(a: string, b: string)
    ensures var r := Join(a, b);
            && |a| + |b| <= |r| <= |a| + |b| + 1
            && r[..|a|] == a
            && IsSuffix(b, r)
            && (|r| == |a| + |b| + 1 <==> a != "" && !IsSep(a[|a| - 1]))
            && (|r| == |a| + |b| + 1 ==> r[|a|] == '\\')
  {
  }

  /** The joined path holds no character that neither part holds, other than the separator. */
  lemma JoinChars(a: string, b: string, c: char)
    requires c !in a && c !in b && c != '\\'
    ensures c !in Join(a, b)
  {
  }

  /** `os.path.basename(p)`: what follows the last separator of `p`. */
  function Basename(p: string): (r: string)
    ensures IsSuffix(r, p)
    ensures forall c :: c in r ==> !IsSep(c)
    ensures |r| < |p| ==> IsSep(p[|p| - |r| - 1])
  {
    if p == "" || IsSep(p[|p| - 1]) then ""
    else Basename(p[..|p| - 1]) + [p[|p| - 1]]
  }

  /** A basename holds no character its path does not hold. */
  lemma BasenameChars(p: string, c: char)
    requires c !in p
    ensures c !in Basename(p)
  {
  }
}
