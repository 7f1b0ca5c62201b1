/** POSIX path handling as Python's os.path does it (posixpath), and a
    filesystem seen as the set of paths of the files it holds. */
module Paths {
  import opened Text
  import opened Sorting

  /** str.rfind for one character: the last index holding c, or -1. */
  function RFind(s: string, c: char): (i: int)
    ensures -1 <= i < |s|
    ensures i >= 0 ==> s[i] == c
    ensures forall k :: i < k < |s| ==> s[k] != c
  {
    if |s| == 0 then -1 else if s[|s| - 1] == c then |s| - 1 else RFind(s[..|s| - 1], c)
  }

  lemma {:induction false} RFindAppend(s: string, t: string, c: char)
    requires c !in t
    ensures RFind(s + t, c) == RFind(s, c)
    decreases |t|
  {
    if |t| > 0 {
      assert (s + t)[..|s + t| - 1] == s + t[..|t| - 1];
      RFindAppend(s, t[..|t| - 1], c);
    } else {
      assert s + t == s;
    }
  }

  lemma {:induction false} RFindPrefix(s: string, j: nat, c: char)
    requires RFind(s, c) < j <= |s|
    ensures RFind(s[..j], c) == RFind(s, c)
    decreases |s|
  {
    if j < |s| {
      assert s[|s| - 1] != c;
      assert s[..|s| - 1][..j] == s[..j];
      RFindPrefix(s[..|s| - 1], j, c);
    } else {
      assert s[..j] == s;
    }
  }

  predicate AllChar(s: string, c: char)
  {
    forall k :: 0 <= k < |s| ==> s[k] == c
  }

  /** os.path.splitext (posixpath): the extension starts at the last '.' of the
      last path component, unless that component consists of dots up to it
      (so ".bashrc" has no extension). */
  function SplitExt(p: string): (r: (string, string))
    ensures r.0 + r.1 == p
  {
    var sepIndex := RFind(p, '/');
    var dotIndex := RFind(p, '.');
    if dotIndex > sepIndex && !AllChar(p[sepIndex + 1..dotIndex], '.') then
      (p[..dotIndex], p[dotIndex..])
    else
      (p, "")
  }

  /** The extension is empty or one '.' followed by no other '.' and no '/',
      and it is non-empty exactly when the last '.' lies in the last
      component after something other than dots. */
  lemma SplitExtSpec(p: string)
    ensures var r := SplitExt(p);
            && (r.1 == "" || (r.1[0] == '.' && forall k :: 1 <= k < |r.1| ==> r.1[k] != '.'))
            && '/' !in r.1
            && (r.1 != "" <==> (RFind(p, '.') > RFind(p, '/') && !AllChar(p[RFind(p, '/') + 1..RFind(p, '.')], '.')))
  {
    var r := SplitExt(p);
    if r.1 != "" {
      var d := RFind(p, '.');
      assert r.1 == p[d..];
      forall k | 0 <= k < |r.1| ensures r.1[k] == p[d + k] { }
    }
  }

  lemma RFindAbsent(s: string, c: char)
    requires c !in s
    ensures RFind(s, c) == -1
  {
    RFindAppend("", s, c);
    assert "" + s == s;
  }

  /** A name without '.' or '/' followed by one extension splits into the two. */
  lemma SplitExtOfSimpleName(root: string, ext: string)
    requires root != [] && '.' !in root && '/' !in root
    requires ext != [] && ext[0] == '.' && '.' !in ext[1..] && '/' !in ext
    ensures SplitExt(root + ext) == (root, ext)
  {
    var p := root + ext;
    assert p == (root + ".") + ext[1..];
    RFindAppend(root + ".", ext[1..], '.');
    assert RFind(root + ".", '.') == |root|;
    assert '/' !in p by {
      forall k | 0 <= k < |p| ensures p[k] != '/' {
        if k < |root| { assert p[k] == root[k]; } else { assert p[k] == ext[k - |root|]; }
      }
    }
    RFindAbsent(p, '/');
    assert p[0..|root|] == root && root[0] != '.';
    assert p[..|root|] == root && p[|root|..] == ext;
  }

  /** The root that splitext leaves in front of the extension keeps the
      directory part of the path. */
  lemma SplitExtKeepsDirectory(p: string)
    ensures RFind(SplitExt(p).0, '/') == RFind(p, '/')
  {
    var root := SplitExt(p).0;
    SplitExtSpec(p);
    if root != p {
      RFindPrefix(p, RFind(p, '.'), '/');
    }
  }

  /** os.path.basename: everything after the last '/'. */
  function BaseName(p: string): (r: string)
    ensures '/' !in r && EndsWith(p, r)
  {
    p[RFind(p, '/') + 1..]
  }

  function RStripChar(s: string, c: char): (r: string)
    ensures |r| <= |s| && r == s[..|r|] && (r == [] || r[|r| - 1] != c)
  {
    if |s| > 0 && s[|s| - 1] == c then RStripChar(s[..|s| - 1], c) else s
  }

  /** os.path.dirname: everything up to the last '/', with trailing slashes
      removed unless the head is made of slashes only. */
  function DirName(p: string): string
  {
    DirHead(Head(p))
  }

  /** The path up to and including its last '/'. */
  function Head(p: string): string
  {
    p[..RFind(p, '/') + 1]
  }

  /** The head of a path, up to its last '/', as dirname returns it. */
  function DirHead(head: string): string
  {
    if head != "" && !AllChar(head, '/') then RStripChar(head, '/') else head
  }

  /** Changing the extension to ".wav" keeps the directory of a path. */
  lemma WavSiblingDirName(p: string)
    ensures DirName(SplitExt(p).0 + ".wav") == DirName(p)
  {
    var (root, ext) := SplitExt(p);
    SplitExtSpec(p);
    assert '/' !in ".wav";
    SiblingDirName(root, ext, ".wav");
  }

  /** Two suffixes without '/' after the same root leave the same directory. */
  lemma SiblingDirName(root: string, ext: string, suffix: string)
    requires '/' !in ext && '/' !in suffix
    ensures DirName(root + suffix) == DirName(root + ext)
  {
    RFindAppend(root, suffix, '/');
    RFindAppend(root, ext, '/');
    var i := RFind(root, '/') + 1;
    PrefixOfConcat(root, suffix, i);
    PrefixOfConcat(root, ext, i);
    assert Head(root + suffix) == root[..i] == Head(root + ext);
  }

  lemma PrefixOfConcat(a: string, b: string, i: nat)
    requires i <= |a|
    ensures (a + b)[..i] == a[..i]
  {
  }

  /** os.path.join for two components. */
  function Join(a: string, b: string): string
  {
    if StartsWith(b, "/") then b
    else if a == "" || a[|a| - 1] == '/' then a + b
    else a + "/" + b
  }

  /** What os.path.join puts in front of a relative name in directory d. */
  function DirPrefix(d: string): (r: string)
    ensures r == "" || r[|r| - 1] == '/'
  {
    if d == "" || d[|d| - 1] == '/' then d else d + "/"
  }

  /** A file name inside a directory: non-empty and without '/'. */
  predicate IsName(n: string)
  {
    n != "" && '/' !in n
  }

  lemma JoinName(d: string, n: string)
    requires IsName(n)
    ensures Join(d, n) == DirPrefix(d) + n
  {
    assert n[0] != '/';
  }

  /** Path p names a file directly inside directory d. */
  predicate IsEntry(p: string, d: string)
  {
    StartsWith(p, DirPrefix(d)) && IsName(p[|DirPrefix(d)|..])
  }

  function EntryName(p: string, d: string): (n: string)
    requires IsEntry(p, d)
    ensures IsName(n) && Join(d, n) == p
  {
    var n := p[|DirPrefix(d)|..];
    JoinName(d, n);
    assert DirPrefix(d) + n == p;
    n
  }

  /** os.listdir(d) as a set: the names of the files directly inside d. */
  function Entries(fs: set<string>, d: string): (names: set<string>)
    ensures forall n :: n in names ==> IsName(n) && Join(d, n) in fs
  {
    set p | p in fs && IsEntry(p, d) :: EntryName(p, d)
  }

  /** A name is listed exactly when the path it joins to is a file. */
  lemma EntriesExactly(fs: set<string>, d: string, n: string)
    requires IsName(n)
    ensures n in Entries(fs, d) <==> Join(d, n) in fs
  {
    JoinName(d, n);
    var p := Join(d, n);
    if p in fs {
      assert p[|DirPrefix(d)|..] == n;
      assert IsEntry(p, d) && EntryName(p, d) == n;
    }
  }

  /** os.listdir(d): the entries of d, each once, in an order the filesystem
      chooses (any order is possible). */
  method ListDir(fs: set<string>, d: string) returns (names: seq<string>)
    ensures Distinct(names)
    ensures forall n :: n in names <==> n in Entries(fs, d)
  {
    names := Enumerate(Entries(fs, d));
  }

  /** The members of a set of names, each once, in some fixed order. */
  ghost function Listing(s: set<string>): (xs: seq<string>)
    ensures Distinct(xs) && forall x :: x in xs <==> x in s
    decreases |s|
  {
    if s == {} then []
    else
      var x :| x in s;
      Listing(s - {x}) + [x]
  }

  /** sorted(os.listdir(d)) as a value: the entries of d in str order. */
  ghost function SortedEntries(fs: set<string>, d: string): (r: seq<string>)
    ensures StrictlySorted(r) && forall n :: n in r <==> n in Entries(fs, d)
  {
    SortNames(Listing(Entries(fs, d)))
  }

  /** sorted(os.listdir(d)): whatever order the directory listing has, sorting
      it gives the one str-ordered list of the entries. */
  method SortedListDir(fs: set<string>, d: string) returns (names: seq<string>)
    ensures names == SortedEntries(fs, d)
  {
    var listed := ListDir(fs, d);
    names := SortNames(listed);
    StrictlySortedUnique(names, SortedEntries(fs, d));
  }

  /** The ASCII part of str.lower(); for comparing with ".wav" this is exact,
      since no other character lower-cases to one of ".wav". */
  function AsciiLower(s: string): (r: string)
    ensures |r| == |s|
    ensures forall k :: 0 <= k < |s| ==> r[k] == (if 'A' <= s[k] <= 'Z' then (s[k] as int + 32) as char else s[k])
  {
    seq(|s|, k requires 0 <= k < |s| => if 'A' <= s[k] <= 'Z' then (s[k] as int + 32) as char else s[k])
  }
}
