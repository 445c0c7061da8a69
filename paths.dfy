/** The key scheme that both in-repo backends share: a directory's path is its parent's
    path followed by its name and a '/', a file's path is its directory's path followed by
    its name, and a root is a directory whose parent path is empty. */
module Paths {
  import opened StorageApi

  const SEP: char := '/'

  /** `File::new`: the path of file `name` in the directory at `parent`. */
  function FilePath(parent: string, name: string): (r: string)
    ensures |r| == |parent| + |name| && r[..|parent|] == parent && r[|parent|..] == name
  {
    parent + name
  }

  /** `Dir::new`: the path of directory `name` in the directory at `parent`. */
  function DirPath(parent: string, name: string): (r: string)
    ensures |r| == |parent| + |name| + 1 && r[..|parent|] == parent
    ensures r[|parent|..|parent| + |name|] == name && r[|r| - 1] == SEP
  {
    parent + name + [SEP]
  }

  /** The path of a root directory. */
  function RootPath(root: Root): (r: string)
    ensures r == root.Name() + "/"
  {
    DirPath("", root.Name())
  }

  /** A name that does not contain the separator. The backends accept any name; only
      these keep distinct addresses apart. */
  predicate IsSegment(name: string)
  {
    SEP !in name
  }

  /** A file address: a root, the subdirectories below it, and the file's name. */
  datatype Address = Address(root: Root, dirs: seq<string>, name: string)

  predicate WellFormed(a: Address)
  {
    (forall i :: 0 <= i < |a.dirs| ==> IsSegment(a.dirs[i])) && IsSegment(a.name)
  }

  /** The path of the directory reached from the empty path through `parts`, in order. */
  function Prefix(parts: seq<string>): string
  {
    if parts == [] then "" else parts[0] + [SEP] + Prefix(parts[1..])
  }

  /** The directory path of `root` after `subdir(dirs[0])`, ..., `subdir(dirs[|dirs| - 1])`. */
  function DirPathOf(root: Root, dirs: seq<string>): string
  {
    if dirs == [] then RootPath(root)
    else DirPath(DirPathOf(root, dirs[..|dirs| - 1]), dirs[|dirs| - 1])
  }

  /** The key the backends build for an address. */
  function Key(a: Address): string
  {
    FilePath(DirPathOf(a.root, a.dirs), a.name)
  }

  /** The names an address is made of, root first. */
  function Parts(a: Address): seq<string>
  {
    [a.root.Name()] + a.dirs + [a.name]
  }

  /** The first position of `c` in `s`. */
  function IndexOf(s: string, c: char): (i: nat)
    requires c in s
    ensures i < |s| && s[i] == c && c !in s[..i]
  {
    if s[0] == c then 0 else 1 + IndexOf(s[1..], c)
  }

  /** Splits a key at every separator: the inverse of the key scheme. */
  function Split(s: string): (r: seq<string>)
    ensures |r| >= 1
    decreases |s|
  {
    if SEP !in s then [s]
    else
      var i := IndexOf(s, SEP);
      [s[..i]] + Split(s[i + 1..])
  }

  lemma SplitCons(x: string, rest: string)
    requires IsSegment(x)
    ensures Split(x + [SEP] + rest) == [x] + Split(rest)
  {
    var s := x + [SEP] + rest;
    assert s[|x|] == SEP;
    var i := IndexOf(s, SEP);
    assert i == |x|;
    assert s[..i] == x && s[i + 1..] == rest;
  }

  lemma {:induction false} DirPathOfIsPrefix(root: Root, dirs: seq<string>)
    ensures DirPathOf(root, dirs) == Prefix([root.Name()] + dirs)
    decreases |dirs|
  {
    if dirs == [] {
      assert [root.Name()] + dirs == [root.Name()];
    } else {
      var init, last := dirs[..|dirs| - 1], dirs[|dirs| - 1];
      DirPathOfIsPrefix(root, init);
      assert [root.Name()] + dirs == ([root.Name()] + init) + [last];
      PrefixSnoc([root.Name()] + init, last);
    }
  }

  lemma {:induction false} PrefixSnoc(parts: seq<string>, last: string)
    ensures Prefix(parts + [last]) == Prefix(parts) + last + [SEP]
  {
    if parts == [] {
      assert parts + [last] == [last];
    } else {
      assert (parts + [last])[1..] == parts[1..] + [last];
      PrefixSnoc(parts[1..], last);
    }
  }

  lemma {:induction false} SplitPrefix(parts: seq<string>, name: string)
    requires forall i :: 0 <= i < |parts| ==> IsSegment(parts[i])
    requires IsSegment(name)
    ensures Split(Prefix(parts) + name) == parts + [name]
  {
    if parts == [] {
      assert Prefix(parts) + name == name;
    } else {
      var head, tail := parts[0], parts[1..];
      var rest := Prefix(tail) + name;
      assert Prefix(parts) + name == head + [SEP] + rest;
      calc {
        Split(Prefix(parts) + name);
        Split(head + [SEP] + rest);
        { SplitCons(head, rest); }
        [head] + Split(rest);
        { SplitPrefix(tail, name); }
        [head] + (tail + [name]);
        parts + [name];
      }
    }
  }

  /** Splitting the key of a well-formed address gives back the names it was built from. */
  lemma SplitKey(a: Address)
    requires WellFormed(a)
    ensures Split(Key(a)) == Parts(a)
  {
    DirPathOfIsPrefix(a.root, a.dirs);
    var parts := [a.root.Name()] + a.dirs;
    forall i | 0 <= i < |parts|
      ensures IsSegment(parts[i])
    {
      if i > 0 {
        assert parts[i] == a.dirs[i - 1];
      }
    }
    SplitPrefix(parts, a.name);
  }

  /** Uniqueness of keys: distinct well-formed addresses never share a key. */
  lemma KeyInjective(a: Address, b: Address)
    requires WellFormed(a) && WellFormed(b)
    ensures Key(a) == Key(b) <==> a == b
  {
    if Key(a) == Key(b) {
      SplitKey(a);
      SplitKey(b);
      var pa, pb := Parts(a), Parts(b);
      assert pa == pb;
      assert pa[0] == a.root.Name() && pb[0] == b.root.Name();
      RootNamesDistinct(a.root, b.root);
      assert |a.dirs| == |b.dirs|;
      assert a.dirs == pa[1..|pa| - 1] == pb[1..|pb| - 1] == b.dirs;
      assert a.name == pa[|pa| - 1];
    }
  }

  /** Without the segment condition keys collide: a file "b" in subdirectory "a" and a file
      named "a/b" directly in the root share the key "data/a/b". */
  lemma SeparatorInNameCollides()
    ensures Key(Address(Data, ["a"], "b")) == Key(Address(Data, [], "a/b")) == "data/a/b"
  {
  }

  /** The key of a file one directory below a root. */
  lemma KeyOneDeep(root: Root, dir: string, name: string)
    ensures Key(Address(root, [dir], name)) == FilePath(DirPath(RootPath(root), dir), name)
  {
    var dirs := [dir];
    assert dirs[..|dirs| - 1] == [] && dirs[|dirs| - 1] == dir;
    assert DirPathOf(root, dirs) == DirPath(DirPathOf(root, []), dir);
  }
}
