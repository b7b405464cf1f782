/**
 * The parts of Rust's `std::path` and `std::env` on Unix that the launcher
 * relies on, over paths written as strings.
 */
module Paths {
  import opened Base

  type Path = string

  /** `Path::is_absolute` on Unix: the path starts with the root `/`. */
  predicate IsAbsolute(p: Path) {
    |p| > 0 && p[0] == '/'
  }

  /**
   * `Path::join` (`PathBuf::push`) on Unix: an absolute `p` replaces `dir`;
   * otherwise `p` is appended, with a `/` in between unless `dir` is empty or
   * already ends in `/`.
   */
  function Join(dir: Path, p: Path): (r: Path)
    ensures IsAbsolute(p) ==> r == p
    ensures !IsAbsolute(p) ==> |dir| + |p| <= |r| <= |dir| + |p| + 1
    ensures !IsAbsolute(p) ==> r[..|dir|] == dir && r[|r| - |p|..] == p
    ensures !IsAbsolute(p) && |r| == |dir| + |p| + 1 ==> r[|dir|] == '/'
    ensures !IsAbsolute(p) ==> (|r| == |dir| + |p| + 1 <==> dir != [] && dir[|dir| - 1] != '/')
    ensures !IsAbsolute(p) && dir != [] ==> (IsAbsolute(r) <==> IsAbsolute(dir))
  {
    if IsAbsolute(p) then p
    else if dir == [] || dir[|dir| - 1] == '/' then dir + p
    else dir + "/" + p
  }

  predicate IsSeparator(ch: char) {
    ch == '/'
  }

  /**
   * The names a path is made of: its pieces between `/` separators, with the
   * empty pieces (of leading, trailing or repeated separators) dropped. This
   * is a plain split, not `Path::components`: it ignores the root, so it does
   * not tell an absolute path from a relative one, and it keeps `.` pieces.
   */
  function Components(s: string): (r: seq<string>)
    ensures forall k :: 0 <= k < |r| ==> r[k] != [] && '/' !in r[k]
  {
    match Position(s, IsSeparator)
    case None => if s == [] then [] else [s]
    case Some(i) => (if i == 0 then [] else [s[..i]]) + Components(s[i + 1..])
  }

  /** Joining a relative path appends its components to the base's components. */
  lemma JoinComponents(dir: Path, p: Path)
    requires !IsAbsolute(p)
    ensures Components(Join(dir, p)) == Components(dir) + Components(p)
  {
    if dir == [] {
      assert Join(dir, p) == p;
      assert Components(dir) == [];
    } else if dir[|dir| - 1] == '/' {
      var d := dir[..|dir| - 1];
      assert Join(dir, p) == d + "/" + p by {
        assert dir + p == d + "/" + p;
      }
      ComponentsOfSeparated(d, p);
      assert Components(dir) == Components(d) by {
        assert dir == d + "/" + "";
        ComponentsOfSeparated(d, "");
        assert Components("") == [];
      }
    } else {
      assert Join(dir, p) == dir + "/" + p;
      ComponentsOfSeparated(dir, p);
    }
  }

  /** A `/` between two strings separates their components. */
  lemma {:induction false} ComponentsOfSeparated(a: string, b: string)
    ensures Components(a + "/" + b) == Components(a) + Components(b)
    decreases |a|
  {
    var s := a + "/" + b;
    assert s[..|a|] == a && s[|a|] == '/';
    match Position(a, IsSeparator)
    case None =>
      PositionOfPrefix(a, s, |a|);
      ComponentsAt(s, |a|);
      assert s[|a| + 1..] == b;
    case Some(i) =>
      PositionOfPrefix(a, s, i);
      ComponentsAt(s, i);
      ComponentsAt(a, i);
      var rest := a[i + 1..];
      assert s[..i] == a[..i];
      DropOfConcat(a + "/", b, i + 1);
      DropOfConcat(a, "/", i + 1);
      ComponentsOfSeparated(rest, b);
      var head: seq<string> := if i == 0 then [] else [a[..i]];
      Associates(head, Components(rest), Components(b));
  }

  /** `Components` unfolded at the first separator. */
  lemma ComponentsAt(s: string, i: nat)
    requires Position(s, IsSeparator) == Some(i)
    ensures Components(s) == (if i == 0 then [] else [s[..i]]) + Components(s[i + 1..])
  {
  }

  /**
   * Extending a string beyond its first match keeps that match, and a string
   * with no match gets its first match from the extension, here at `k`.
   */
  lemma PositionOfPrefix(a: string, s: string, k: nat)
    requires |a| <= |s| && s[..|a|] == a && k < |s| && IsSeparator(s[k])
    requires Position(a, IsSeparator).Some? ==> k == Position(a, IsSeparator).value
    requires Position(a, IsSeparator).None? ==> k == |a|
    ensures Position(s, IsSeparator) == Some(k)
  {
    forall j | 0 <= j < k ensures !IsSeparator(s[j]) {
      assert s[j] == a[j];
    }
  }

  /**
   * `env::split_paths` on Unix: the value of a `PATH`-like variable cut at
   * every `:`. The empty string yields one empty path.
   */
  function SplitPaths(s: string): (r: seq<Path>)
    ensures |r| >= 1
  {
    if s == [] then [""]
    else if s[0] == ':' then [""] + SplitPaths(s[1..])
    else
      var rest := SplitPaths(s[1..]);
      [[s[0]] + rest[0]] + rest[1..]
  }

  /** `env::join_paths` on Unix, the inverse of `SplitPaths`: the paths separated by `:`. */
  function JoinPaths(ps: seq<Path>): string
    requires |ps| >= 1
  {
    if |ps| == 1 then ps[0] else ps[0] + ":" + JoinPaths(ps[1..])
  }

  /** How many `:` separators a string holds. */
  function Colons(s: string): nat {
    if s == [] then 0 else (if s[0] == ':' then 1 else 0) + Colons(s[1..])
  }

  /** Splitting yields one path more than there are separators, none of which contains `:`. */
  lemma {:induction false} SplitPathsShape(s: string)
    ensures |SplitPaths(s)| == Colons(s) + 1
    ensures forall k :: 0 <= k < |SplitPaths(s)| ==> ':' !in SplitPaths(s)[k]
  {
    if s != [] {
      SplitPathsShape(s[1..]);
      var rest := SplitPaths(s[1..]);
      if s[0] != ':' {
        var r := SplitPaths(s);
        assert r[0] == [s[0]] + rest[0];
        forall k | 0 <= k < |r| ensures ':' !in r[k] {
          if k > 0 { assert r[k] == rest[k]; }
        }
      }
    }
  }

  /** Joining the split pieces again gives back the variable's value. */
  lemma {:induction false} SplitPathsRoundTrip(s: string)
    ensures JoinPaths(SplitPaths(s)) == s
  {
    if s != [] {
      SplitPathsRoundTrip(s[1..]);
      var rest := SplitPaths(s[1..]);
      if s[0] == ':' {
        assert SplitPaths(s)[1..] == rest;
        assert s == "" + ":" + s[1..];
      } else {
        JoinPathsHead(rest, [s[0]]);
        assert s == [s[0]] + s[1..];
      }
    }
  }

  /** Prefixing the first path prefixes the joined string. */
  lemma JoinPathsHead(ps: seq<Path>, pre: string)
    requires |ps| >= 1
    ensures JoinPaths([pre + ps[0]] + ps[1..]) == pre + JoinPaths(ps)
  {
    var qs := [pre + ps[0]] + ps[1..];
    assert qs[0] == pre + ps[0];
    if |ps| > 1 {
      assert qs[1..] == ps[1..];
      var rest := JoinPaths(ps[1..]);
      assert JoinPaths(qs) == (pre + ps[0]) + ":" + rest;
      assert JoinPaths(ps) == ps[0] + ":" + rest;
      Associates(pre + ps[0], ":", rest);
      Associates(pre, ps[0], ":" + rest);
      Associates(ps[0], ":", rest);
    }
  }
}
