/** Entities shared by the three backends: the source-file record that the
    fileset collector hands to every backend, the outcome of resolving a path
    on the filesystem, the argument vector handed to the process runner, and a
    few sequence and string helpers. */
module Eda {

  datatype Option<T> = None | Some(value: T)

  /** The outcome of a configure phase: a value, or the message of the
      exception that aborts it. */
  datatype Result<T> = Ok(value: T) | Err(message: string)

  /** One entry of a fileset: its path (relative to the work root), its
      type tag (`vhdlSource-2008`, `xci`, `waiver`, ...) and its library,
      where `""` means "no library given". */
  datatype SourceFile = SourceFile(name: string, fileType: string, logicalName: string)

  /** The executable and argument vector a phase hands to the process runner. */
  datatype Invocation = Invocation(cmd: string, args: seq<string>)

  /** What the filesystem answers for `(work_root / name).resolve()`: the
      directory holding the file and its bare name. */
  datatype ResolvedPath = ResolvedPath(parent: string, basename: string)

  /** The filesystem's `resolve()` of a fileset entry, given the work root
      and the entry's name. It depends on the disk and on symbolic links,
      so every operation that needs it takes it as a parameter. */
  type Resolver = (PosixPath, string) -> ResolvedPath

  /** A parsed POSIX path: rooted or not, and its components. Parsing a
      string (and the collapsing of repeated separators that goes with it)
      is done by the caller. */
  datatype PosixPath = PosixPath(absolute: bool, parts: seq<string>) {

    /** The lexical parent; the parent of `/` and of `.` is the path itself. */
    function Parent(): (p: PosixPath)
      ensures p.absolute == absolute
      ensures parts == [] ==> p == this
      ensures parts != [] ==> p.parts + [parts[|parts| - 1]] == parts
    {
      if parts == [] then this else PosixPath(absolute, parts[..|parts| - 1])
    }

    /** `self / name` for a single component `name`. */
    function Child(name: string): (p: PosixPath)
      ensures p.Parent() == this
      ensures |p.parts| == |parts| + 1 && p.parts[|parts|] == name
    {
      PosixPath(absolute, parts + [name])
    }

    /** What parsing guarantees: every component is non-empty and holds no
        separator. */
    predicate WellFormed()
    {
      forall i :: 0 <= i < |parts| ==> parts[i] != "" && '/' !in parts[i]
    }

    /** The string form of the path, with `/` separators. */
    function ToString(): (s: string)
      ensures absolute ==> |s| >= 1 && s[0] == '/'
      ensures parts == [] ==> s == if absolute then "/" else "."
      ensures parts != [] ==>
        |parts[|parts| - 1]| <= |s| && s[|s| - |parts[|parts| - 1]|..] == parts[|parts| - 1]
    {
      if absolute then "/" + JoinParts(parts)
      else if parts == [] then "."
      else JoinParts(parts)
    }
  }

  /** A well-formed path renders with a leading `/` exactly when it is
      rooted. */
  lemma LeadingSlashIffRooted(p: PosixPath)
    requires p.WellFormed()
    ensures |p.ToString()| >= 1 && p.ToString()[0] == '/' <==> p.absolute
  {
    if !p.absolute && p.parts != [] {
      assert p.parts[0] != "" && '/' !in p.parts[0];
    }
  }

  /** The string of `p / name`: the name alone below `.`, `/` and the name
      below the root, and otherwise the parent's string, `/` and the name. */
  lemma ChildToString(p: PosixPath, name: string)
    ensures p.parts == [] && !p.absolute ==> p.Child(name).ToString() == name
    ensures p.parts == [] && p.absolute ==> p.Child(name).ToString() == "/" + name
    ensures p.parts != [] ==> p.Child(name).ToString() == p.ToString() + "/" + name
  {
    var parts := p.parts + [name];
    assert parts[..|parts| - 1] == p.parts;
  }

  function JoinParts(parts: seq<string>): (s: string)
    ensures parts != [] && parts[0] != "" ==> |s| >= 1 && s[0] == parts[0][0]
    ensures parts != [] ==> |parts[|parts| - 1]| <= |s| && s[|s| - |parts[|parts| - 1]|..] == parts[|parts| - 1]
    decreases |parts|
  {
    if parts == [] then ""
    else if |parts| == 1 then parts[0]
    else JoinParts(parts[..|parts| - 1]) + "/" + parts[|parts| - 1]
  }

  /** Python's `needle in hay` on strings. */
  predicate Contains(hay: string, needle: string)
    decreases |hay|
  {
    needle <= hay || (hay != [] && Contains(hay[1..], needle))
  }

  /** `Contains` finds exactly the positions where `needle` occurs. */
  lemma {:induction false} ContainsAt(hay: string, needle: string)
    ensures Contains(hay, needle) <==>
      exists i :: 0 <= i <= |hay| - |needle| && needle <= hay[i..]
    decreases |hay|
  {
    if needle <= hay {
      assert needle <= hay[0..] by {
        assert hay[0..] == hay;
      }
    } else if hay != [] {
      var tail := hay[1..];
      ContainsAt(tail, needle);
      if Contains(tail, needle) {
        var i :| 0 <= i <= |tail| - |needle| && needle <= tail[i..];
        assert tail[i..] == hay[i + 1..];
        assert needle <= hay[i + 1..];
      }
      if exists i :: 0 <= i <= |hay| - |needle| && needle <= hay[i..] {
        var i :| 0 <= i <= |hay| - |needle| && needle <= hay[i..];
        assert i != 0 by {
          assert hay[0..] == hay;
        }
        assert tail[i - 1..] == hay[i..];
        assert needle <= tail[i - 1..];
      }
    }
  }

  /** The values `g` yields over `s`, in the order of `s`: the shape of a
      Python loop that appends `g(x)` whenever it is truthy. */
  function Collect<T, U>(s: seq<T>, g: T -> Option<U>): seq<U>
    decreases |s|
  {
    if s == [] then []
    else
      Collect(s[..|s| - 1], g) +
      (match g(s[|s| - 1]) case Some(u) => [u] case None => [])
  }

  /** The indices of `s` at which `g` yields a value, in increasing order. */
  function Positions<T, U>(s: seq<T>, g: T -> Option<U>): seq<nat>
    decreases |s|
  {
    if s == [] then []
    else Positions(s[..|s| - 1], g) + (if g(s[|s| - 1]).Some? then [|s| - 1] else [])
  }

  /** The positions are indices of `s`, in strictly increasing order. */
  lemma {:induction false} PositionsIncrease<T, U>(s: seq<T>, g: T -> Option<U>)
    ensures forall k :: 0 <= k < |Positions(s, g)| ==> Positions(s, g)[k] < |s|
    ensures forall k, l :: 0 <= k < l < |Positions(s, g)| ==> Positions(s, g)[k] < Positions(s, g)[l]
    decreases |s|
  {
    if s != [] {
      var n := |s| - 1;
      PositionsIncrease(s[..n], g);
      var pos, posInit := Positions(s, g), Positions(s[..n], g);
      assert pos[..|posInit|] == posInit;
      assert |pos| == |posInit| || (|pos| == |posInit| + 1 && pos[|posInit|] == n);
    }
  }

  /** Every index at which `g` yields a value is a position. */
  lemma {:induction false} PositionsComplete<T, U>(s: seq<T>, g: T -> Option<U>)
    ensures forall i :: 0 <= i < |s| && g(s[i]).Some? ==> i in Positions(s, g)
    decreases |s|
  {
    if s != [] {
      var n := |s| - 1;
      var init := s[..n];
      PositionsComplete(init, g);
      assert Positions(init, g) <= Positions(s, g);
      forall i | 0 <= i < |s| && g(s[i]).Some?
        ensures i in Positions(s, g)
      {
        if i < n {
          assert s[i] == init[i];
          assert i in Positions(init, g);
        }
      }
    }
  }

  /** `Collect` keeps one value per position: the value `g` yields there. */
  lemma {:induction false} CollectAtPositions<T, U>(s: seq<T>, g: T -> Option<U>)
    ensures |Collect(s, g)| == |Positions(s, g)|
    ensures forall k :: 0 <= k < |Positions(s, g)| ==>
      Positions(s, g)[k] < |s| && g(s[Positions(s, g)[k]]) == Some(Collect(s, g)[k])
    decreases |s|
  {
    if s != [] {
      var n := |s| - 1;
      var init := s[..n];
      CollectAtPositions(init, g);
      var c, cInit := Collect(s, g), Collect(init, g);
      var pos, posInit := Positions(s, g), Positions(init, g);
      if g(s[n]).Some? {
        assert pos == posInit + [n];
        assert c == cInit + [g(s[n]).value];
      } else {
        assert pos == posInit && c == cInit;
      }
      forall k | 0 <= k < |posInit|
        ensures pos[k] < |s| && g(s[pos[k]]) == Some(c[k])
      {
        assert pos[k] == posInit[k] && c[k] == cInit[k];
        assert s[pos[k]] == init[posInit[k]];
      }
    }
  }

  /** Python's `s.replace(a, b)` for single characters. */
  function ReplaceChar(s: string, a: char, b: char): (r: string)
    ensures |r| == |s|
    ensures forall i :: 0 <= i < |s| ==> r[i] == if s[i] == a then b else s[i]
    decreases |s|
  {
    if s == [] then []
    else [if s[0] == a then b else s[0]] + ReplaceChar(s[1..], a, b)
  }
}
