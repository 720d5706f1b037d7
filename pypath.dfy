/** The pieces of Python's path and string handling the scripts rely on:
    `str.lower`, `pathlib.PurePath.suffix`, `os.path.splitext` and
    `os.path.join`, all for POSIX paths. */
module PyPath {
  import opened Common

  /** `c.lower()` restricted to ASCII letters. */
  function LowerChar(c: char): char {
    if 'A' <= c <= 'Z' then ((c as int) - ('A' as int) + ('a' as int)) as char else c
  }

  /** Every ASCII capital becomes its small letter, every other character
      is kept, and no ASCII capital is left. */
  function Lower(s: string): (r: string)
    ensures |r| == |s|
    ensures forall i :: 0 <= i < |s| && 'A' <= s[i] <= 'Z' ==> r[i] as int == s[i] as int + 32
    ensures forall i :: 0 <= i < |s| && !('A' <= s[i] <= 'Z') ==> r[i] == s[i]
    ensures forall i :: 0 <= i < |r| ==> !('A' <= r[i] <= 'Z')
  {
    seq(|s|, i requires 0 <= i < |s| => LowerChar(s[i]))
  }

  /** `s.rfind(c)`: the last index holding `c`, or -1. */
  function LastIndexOf(s: string, c: char): (r: int)
    ensures -1 <= r < |s|
    ensures r >= 0 ==> s[r] == c
    ensures forall j :: r < j < |s| ==> s[j] != c
  {
    if s == [] then -1
    else if s[|s| - 1] == c then |s| - 1
    else LastIndexOf(s[..|s| - 1], c)
  }

  /** `PurePath(p).name`: what follows the last separator. */
  function BaseName(p: string): (r: string)
    ensures |r| <= |p| && p[|p| - |r|..] == r
    ensures forall j :: 0 <= j < |r| ==> r[j] != '/'
    ensures |r| < |p| ==> p[|p| - |r| - 1] == '/'
  {
    p[LastIndexOf(p, '/') + 1..]
  }

  /** `PurePath(p).suffix`: the last `.`-part of the final component, provided
      the dot is neither the first nor the last character of that component. */
  function Suffix(p: string): (r: string)
    ensures r == [] || (2 <= |r| < |p| && r[0] == '.')
    ensures r != [] ==> p[|p| - |r|..] == r && p[|p| - |r| - 1] != '/'
    ensures forall j :: 1 <= j < |r| ==> r[j] != '.' && r[j] != '/'
    ensures var start, d := |p| - |BaseName(p)|, LastIndexOf(p, '.');
      && (r != [] <==> start < d < |p| - 1)
      && (r != [] ==> r == p[d..])
  {
    var name := BaseName(p);
    LastIndexOfTail(p, |p| - |name|, '.');
    var i := LastIndexOf(name, '.');
    if 0 < i < |name| - 1 then name[i..] else []
  }

  predicate HasNonDot(p: string, lo: int, hi: int)
    requires 0 <= lo && hi <= |p|
  {
    exists j :: lo <= j < hi && p[j] != '.'
  }

  /** `os.path.splitext(p)`: the extension starts at the last dot after the
      last separator, unless only dots precede it in that component. */
  function SplitExt(p: string): (r: (string, string))
    ensures r.0 + r.1 == p
    ensures r.1 == [] || r.1[0] == '.'
    ensures forall j :: 1 <= j < |r.1| ==> r.1[j] != '.' && r.1[j] != '/'
    ensures r.1 != [] ==> HasNonDot(p, LastIndexOf(p, '/') + 1, |r.0|)
    ensures r.1 == [] ==> forall j, k :: LastIndexOf(p, '/') < k < j < |p| && p[j] == '.' ==> p[k] == '.'
  {
    var sep := LastIndexOf(p, '/');
    var dot := LastIndexOf(p, '.');
    if dot > sep && HasNonDot(p, sep + 1, dot) then (p[..dot], p[dot..]) else (p, [])
  }

  function Ext(p: string): string {
    SplitExt(p).1
  }

  /** `p.startswith('/')`. */
  predicate IsAbsolute(p: string) {
    p != [] && p[0] == '/'
  }

  /** `os.path.join(a, b)` on POSIX. */
  function Join(a: string, b: string): string {
    if IsAbsolute(b) then b
    else if a == [] || a[|a| - 1] == '/' then a + b
    else a + "/" + b
  }

  /** The joined path ends with `b`; an absolute `b` replaces `a`, and
      otherwise the result starts with `a` and puts exactly one separator
      between the two when `a` does not already end with one. */
  lemma JoinShape(a: string, b: string)
    ensures var r := Join(a, b);
      && |b| <= |r| && r[|r| - |b|..] == b
      && (IsAbsolute(b) ==> r == b)
      && (!IsAbsolute(b) ==> StartsWith(r, a))
      && (a != [] && a[|a| - 1] != '/' && !IsAbsolute(b) ==> r == a + "/" + b)
      && ((a == [] || a[|a| - 1] == '/') && !IsAbsolute(b) ==> r == a + b)
  {
    var r := Join(a, b);
    if !IsAbsolute(b) {
      if a == [] || a[|a| - 1] == '/' {
        assert r[..|a|] == a;
        assert r[|r| - |b|..] == b;
      } else {
        assert r[..|a|] == a;
        assert r[|r| - |b|..] == b;
      }
    }
  }

  /** `LastIndexOf` is pinned by its contract. */
  lemma LastIndexOfUnique(s: string, c: char, x: int)
    requires -1 <= x < |s| && (x >= 0 ==> s[x] == c)
    requires forall j :: x < j < |s| ==> s[j] != c
    ensures LastIndexOf(s, c) == x
  {
  }

  /** The last `c` of a tail is the last `c` of the whole, when it lies in
      the tail. */
  lemma LastIndexOfTail(s: string, k: int, c: char)
    requires 0 <= k <= |s|
    ensures LastIndexOf(s[k..], c) == if LastIndexOf(s, c) >= k then LastIndexOf(s, c) - k else -1
  {
    var d := LastIndexOf(s, c);
    var x := if d >= k then d - k else -1;
    assert forall j :: x < j < |s| - k ==> s[k..][j] == s[k + j];
    LastIndexOfUnique(s[k..], c, x);
  }

  /** `str.lower` is idempotent. */
  lemma LowerIdempotent(s: string)
    ensures Lower(Lower(s)) == Lower(s)
  {
    var once := Lower(s);
    var twice := Lower(once);
    assert forall i :: 0 <= i < |s| ==> twice[i] == once[i];
  }

  /** The two extension rules differ on a name made of dots and an extension:
      `PurePath("..mp3").suffix` is ".mp3" while `os.path.splitext("..mp3")`
      finds no extension. */
  lemma DotsThenExtension()
    ensures Suffix("..mp3") == ".mp3"
    ensures SplitExt("..mp3") == ("..mp3", "")
  {
    var p := "..mp3";
    LastIndexOfUnique(p, '/', -1);
    LastIndexOfUnique(p, '.', 1);
    assert BaseName(p) == p;
    assert p[1..] == ".mp3";
    assert !HasNonDot(p, 0, 1);
  }

  /** A name that starts with its only dot has no extension under either rule. */
  lemma HiddenNameHasNoExtension()
    ensures Suffix(".mp3") == ""
    ensures SplitExt(".mp3") == (".mp3", "")
  {
    var p := ".mp3";
    LastIndexOfUnique(p, '/', -1);
    LastIndexOfUnique(p, '.', 0);
    assert BaseName(p) == p;
  }

  /** The usual case: the suffix keeps its case until it is lowered, and
      `splitext` cuts at the last dot of the final component. */
  lemma PlainExtensions()
    ensures Suffix("b.MP3") == ".MP3" && Lower(".MP3") == ".mp3"
    ensures SplitExt("Music/b.flac") == ("Music/b", ".flac")
  {
    var p := "b.MP3";
    LastIndexOfUnique(p, '/', -1);
    LastIndexOfUnique(p, '.', 1);
    assert BaseName(p) == p;
    assert p[1..] == ".MP3";
    var q := "Music/b.flac";
    LastIndexOfUnique(q, '/', 5);
    LastIndexOfUnique(q, '.', 7);
    assert q[6] != '.';
    assert HasNonDot(q, 6, 7);
    assert q[..7] == "Music/b" && q[7..] == ".flac";
  }
}
