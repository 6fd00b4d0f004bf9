/** The Go standard-library string and path functions the service relies on, for
    slash-separated paths (the service runs on Linux, so path/filepath uses '/'):
    strings.Split and strings.Join for a one-character separator, path.Ext, path.Base,
    path/filepath.Clean and path/filepath.Join. */
module Paths {

  /** strings.Split(s, string(sep)): the pieces of s between occurrences of sep.
      Splitting the empty string gives one empty piece. */
  function Split(s: string, sep: char): (parts: seq<string>)
    ensures |parts| >= 1
  {
    if s == [] then [""]
    else
      var rest := Split(s[1..], sep);
      if s[0] == sep then [""] + rest
      else [[s[0]] + rest[0]] + rest[1..]
  }

  /** strings.Join(parts, string(sep)). */
  function JoinWith(parts: seq<string>, sep: char): string
  {
    if parts == [] then ""
    else if |parts| == 1 then parts[0]
    else parts[0] + [sep] + JoinWith(parts[1..], sep)
  }

  /** The number of occurrences of c in s. */
  function Count(s: string, c: char): nat
  {
    if s == [] then 0 else (if s[0] == c then 1 else 0) + Count(s[1..], c)
  }

  /** Splitting and joining again gives the input back; no piece holds the
      separator; there is one piece more than there are separators. */
  lemma {:induction false} SplitThenJoin(s: string, sep: char)
    ensures JoinWith(Split(s, sep), sep) == s
    ensures forall k :: 0 <= k < |Split(s, sep)| ==> sep !in Split(s, sep)[k]
    ensures |Split(s, sep)| == Count(s, sep) + 1
  {
    if s != [] {
      SplitThenJoin(s[1..], sep);
      var rest := Split(s[1..], sep);
      assert s == [s[0]] + s[1..];
      if s[0] == sep {
        assert ([""] + rest)[1..] == rest;
      } else {
        var parts := [[s[0]] + rest[0]] + rest[1..];
        assert parts == Split(s, sep);
        if |rest| > 1 {
          assert parts[1..] == rest[1..];
          assert JoinWith(rest, sep) == rest[0] + [sep] + JoinWith(rest[1..], sep);
        }
        forall k | 0 <= k < |parts| ensures sep !in parts[k] {
          if k > 0 { assert parts[k] == rest[k]; }
        }
      }
    }
  }

  /** A string without the separator splits into itself alone. */
  lemma {:induction false} SplitWithoutSep(s: string, sep: char)
    requires sep !in s
    ensures Split(s, sep) == [s]
  {
    if s != [] {
      SplitWithoutSep(s[1..], sep);
      assert s == [s[0]] + s[1..];
    }
  }

  /** Splitting a + sep + b splits a and b separately. */
  lemma {:induction false} SplitAround(a: string, b: string, sep: char)
    ensures Split(a + [sep] + b, sep) == Split(a, sep) + Split(b, sep)
  {
    var s := a + [sep] + b;
    if a == [] {
      assert s[1..] == b;
    } else {
      assert s[1..] == a[1..] + [sep] + b;
      SplitAround(a[1..], b, sep);
    }
  }

  /** Joining pieces that hold no separator and splitting again gives the pieces back. */
  lemma {:induction false} JoinThenSplit(parts: seq<string>, sep: char)
    requires |parts| >= 1
    requires forall k :: 0 <= k < |parts| ==> sep !in parts[k]
    ensures Split(JoinWith(parts, sep), sep) == parts
  {
    SplitWithoutSep(parts[0], sep);
    if |parts| > 1 {
      JoinThenSplit(parts[1..], sep);
      SplitAround(parts[0], JoinWith(parts[1..], sep), sep);
      assert parts == [parts[0]] + parts[1..];
    }
  }

  /** The part of s after its last '/', all of s when it has none: what
      s[strings.LastIndex(s, "/")+1:] gives. */
  function LastElement(s: string): (e: string)
    ensures '/' !in e
    ensures |e| <= |s| && e == s[|s| - |e|..]
    ensures e == s || s[|s| - |e| - 1] == '/'
  {
    if s == [] || s[|s| - 1] == '/' then []
    else LastElement(s[..|s| - 1]) + [s[|s| - 1]]
  }

  /** path.Ext: the suffix of path from the final '.' of its last slash-separated
      element, or "" when that element has no '.'. */
  function Ext(path: string): (ext: string)
    ensures |ext| <= |path| && ext == path[|path| - |ext|..]
  {
    if path == [] || path[|path| - 1] == '/' then ""
    else if path[|path| - 1] == '.' then "."
    else
      var e := Ext(path[..|path| - 1]);
      if e == "" then "" else e + [path[|path| - 1]]
  }

  lemma TailOfSnoc(e: string, c: char)
    requires e != []
    ensures (e + [c])[1..] == e[1..] + [c]
  {
  }

  /** Ext is empty exactly when the last element has no '.'; otherwise it starts at
      a '.', holds no other '.', and is a suffix of the last element. */
  lemma {:induction false} ExtOfLastElement(path: string)
    ensures Ext(path) == "" <==> '.' !in LastElement(path)
    ensures Ext(path) != "" ==> Ext(path)[0] == '.' && '.' !in Ext(path)[1..]
    ensures |Ext(path)| <= |LastElement(path)|
  {
    if path != [] && path[|path| - 1] != '/' && path[|path| - 1] != '.' {
      var init := path[..|path| - 1];
      var c := path[|path| - 1];
      ExtOfLastElement(init);
      assert LastElement(path) == LastElement(init) + [c];
      var e := Ext(init);
      if e != "" {
        assert Ext(path) == e + [c];
        TailOfSnoc(e, c);
      }
    }
  }

  /** s without its trailing run of '/'. */
  function TrimTrailingSlashes(s: string): (t: string)
    ensures t == [] || t[|t| - 1] != '/'
    ensures |t| <= |s| && t == s[..|t|]
    ensures forall k :: |t| <= k < |s| ==> s[k] == '/'
  {
    if s != [] && s[|s| - 1] == '/' then TrimTrailingSlashes(s[..|s| - 1]) else s
  }

  /** A path ending in a '.' followed by characters that are neither '.' nor '/'
      has exactly that suffix as its extension, whatever precedes it. */
  lemma {:induction false} ExtOfSuffix(prefix: string, suffix: string)
    requires suffix != [] && suffix[0] == '.' && '.' !in suffix[1..] && '/' !in suffix
    ensures Ext(prefix + suffix) == suffix
    decreases |suffix|
  {
    var p := prefix + suffix;
    if |suffix| > 1 {
      var init := suffix[..|suffix| - 1];
      assert init[1..] == suffix[1..][..|suffix| - 2];
      assert p[..|p| - 1] == prefix + init;
      assert p[|p| - 1] == suffix[1..][|suffix| - 2];
      ExtOfSuffix(prefix, init);
      assert init + [p[|p| - 1]] == suffix;
    }
  }

  /** path.Base: the last element of path once trailing slashes are removed;
      "." for the empty path and "/" for a path of slashes only. */
  function Base(path: string): (b: string)
    ensures b != []
    ensures b == "/" || '/' !in b
  {
    if path == [] then "."
    else
      var e := LastElement(TrimTrailingSlashes(path));
      if e == [] then "/" else e
  }

  /** Base of a path made only of slashes is "/". */
  lemma BaseOfSlashes(path: string)
    requires path != [] && forall k :: 0 <= k < |path| ==> path[k] == '/'
    ensures Base(path) == "/"
  {
  }

  /** Base ignores a directory prefix and trailing slashes. */
  lemma {:induction false} BaseUnderDirectory(dir: string, name: string, trailing: nat)
    requires name != [] && '/' !in name
    ensures Base(dir + "/" + name + seq(trailing, _ => '/')) == name
  {
    var slashes := seq(trailing, _ => '/');
    var p := dir + "/" + name + slashes;
    TrimSlashRun(dir + "/" + name, trailing);
    var t := dir + "/" + name;
    assert TrimTrailingSlashes(p) == t;
    LastElementAfterSlash(dir, name);
  }

  lemma {:induction false} TrimSlashRun(s: string, n: nat)
    requires s != [] && s[|s| - 1] != '/'
    ensures TrimTrailingSlashes(s + seq(n, _ => '/')) == s
  {
    if n > 0 {
      var p := s + seq(n, _ => '/');
      assert p[..|p| - 1] == s + seq(n - 1, _ => '/');
      TrimSlashRun(s, n - 1);
    } else {
      assert s + seq(n, _ => '/') == s;
    }
  }

  lemma {:induction false} LastElementAfterSlash(dir: string, name: string)
    requires '/' !in name
    ensures LastElement(dir + "/" + name) == name
  {
    var p := dir + "/" + name;
    if name != [] {
      var init := name[..|name| - 1];
      assert p[..|p| - 1] == dir + "/" + init;
      LastElementAfterSlash(dir, init);
      assert name == init + [name[|name| - 1]];
    }
  }

  /** One element of a Clean path: not empty, no slash, neither "." nor "..". */
  predicate IsPlainElement(e: string)
  {
    e != [] && '/' !in e && e != "." && e != ".."
  }

  /** The elements filepath.Clean keeps, taken left to right: empty and "." elements
      are dropped, ".." removes the element before it, a ".." at the front is kept
      in a relative path and dropped in a rooted one. */
  function Resolve(parts: seq<string>, rooted: bool, kept: seq<string>): seq<string>
    decreases |parts|
  {
    if parts == [] then kept
    else if parts[0] == "" || parts[0] == "." then Resolve(parts[1..], rooted, kept)
    else if parts[0] == ".." then
      if kept != [] && kept[|kept| - 1] != ".." then Resolve(parts[1..], rooted, kept[..|kept| - 1])
      else if rooted then Resolve(parts[1..], rooted, kept)
      else Resolve(parts[1..], rooted, kept + [".."])
    else Resolve(parts[1..], rooted, kept + [parts[0]])
  }

  /** A trailing empty element changes nothing that Resolve keeps. */
  lemma {:induction false} ResolveDropsTrailingEmpty(parts: seq<string>, rooted: bool, kept: seq<string>)
    ensures Resolve(parts + [""], rooted, kept) == Resolve(parts, rooted, kept)
    decreases |parts|
  {
    var p := parts + [""];
    if parts == [] {
      assert p == [""] && p[1..] == [];
    } else {
      assert p[0] == parts[0] && p[1..] == parts[1..] + [""];
      if parts[0] == "" || parts[0] == "." {
        ResolveDropsTrailingEmpty(parts[1..], rooted, kept);
      } else if parts[0] == ".." {
        if kept != [] && kept[|kept| - 1] != ".." {
          ResolveDropsTrailingEmpty(parts[1..], rooted, kept[..|kept| - 1]);
        } else if rooted {
          ResolveDropsTrailingEmpty(parts[1..], rooted, kept);
        } else {
          ResolveDropsTrailingEmpty(parts[1..], rooted, kept + [".."]);
        }
      } else {
        ResolveDropsTrailingEmpty(parts[1..], rooted, kept + [parts[0]]);
      }
    }
  }

  /** path/filepath.Clean: the shortest path equivalent to path by lexical processing;
      "." when that is empty. */
  function Clean(path: string): (c: string)
    ensures c != []
  {
    var rooted := path != [] && path[0] == '/';
    var joined := JoinWith(Resolve(Split(path, '/'), rooted, []), '/');
    if rooted then "/" + joined
    else if joined == [] then "."
    else joined
  }

  /** Clean ignores one trailing slash on a non-empty path. */
  lemma CleanDropsTrailingSlash(path: string)
    requires path != []
    ensures Clean(path + "/") == Clean(path)
  {
    assert path + "/" == path + ['/'] + "";
    SplitAround(path, "", '/');
    assert Split(path + "/", '/') == Split(path, '/') + [""];
    assert (path + "/")[0] == path[0];
    var rooted := path[0] == '/';
    ResolveDropsTrailingEmpty(Split(path, '/'), rooted, []);
  }

  /** path/filepath.Join: the elements from the first non-empty one on, joined with
      '/' and cleaned; "" when every element is empty. */
  function Join(elems: seq<string>): (r: string)
    ensures r == "" <==> forall k :: 0 <= k < |elems| ==> elems[k] == ""
  {
    if elems == [] then ""
    else if elems[0] == "" then
      var r := Join(elems[1..]);
      assert forall k :: 1 <= k < |elems| ==> elems[k] == elems[1..][k - 1];
      r
    else Clean(JoinWith(elems, '/'))
  }

  /** Joining two plain elements puts exactly one slash between them. */
  lemma JoinOfPlainElements(a: string, b: string)
    requires IsPlainElement(a) && IsPlainElement(b)
    ensures Join([a, b]) == a + "/" + b
  {
    assert JoinWith([a, b], '/') == a + "/" + b by {
      assert [a, b][1..] == [b];
    }
    assert a[0] != '/';
    SplitWithoutSep(a, '/');
    SplitWithoutSep(b, '/');
    SplitAround(a, b, '/');
    assert Split(a + "/" + b, '/') == [a, b];
    assert Resolve([a, b], false, []) == [a, b] by {
      var none: seq<string> := [];
      assert [a, b][0] == a && [a, b][1..] == [b] && none + [a] == [a];
      assert Resolve([a, b], false, none) == Resolve([b], false, [a]);
      assert [b][1..] == [];
      assert Resolve([b], false, [a]) == Resolve([], false, [a, b]);
    }
  }

  /** An empty or "." second element adds nothing to a plain first element. */
  lemma JoinOfPlainAndEmpty(a: string, b: string)
    requires IsPlainElement(a) && (b == "" || b == ".")
    ensures Join([a, b]) == a
  {
    assert JoinWith([a, b], '/') == a + "/" + b by {
      assert [a, b][1..] == [b];
    }
    assert a[0] != '/';
    SplitWithoutSep(a, '/');
    SplitWithoutSep(b, '/');
    SplitAround(a, b, '/');
    assert Split(a + "/" + b, '/') == [a, b];
    assert Resolve([a, b], false, []) == [a] by {
      var none: seq<string> := [];
      assert [a, b][0] == a && [a, b][1..] == [b] && none + [a] == [a];
      assert Resolve([a, b], false, none) == Resolve([b], false, [a]);
      assert [b][1..] == [];
      assert Resolve([b], false, [a]) == Resolve([], false, [a]);
    }
  }
}
