/** POSIX `pathlib` paths as far as the storage code uses them: building a
    path from a string, the `/` join operator, and `str(path)`. */
module Paths {

  /** A parsed path: absolute or relative, and its components. */
  datatype Path = Path(absolute: bool, parts: seq<string>)

  /** `s.split("/")`. */
  function Split(s: string): (r: seq<string>)
    ensures |r| >= 1
    ensures forall i :: 0 <= i < |r| ==> '/' !in r[i]
    decreases |s|
  {
    if s == [] then [""]
    else
      var rest := Split(s[1..]);
      if s[0] == '/' then [""] + rest else [[s[0]] + rest[0]] + rest[1..]
  }

  /** A component `pathlib` keeps as it is: non-empty, not `.` and without a slash. */
  predicate PlainComponent(c: string)
  {
    c != "" && c != "." && '/' !in c
  }

  /** The components `pathlib` keeps: empty and `.` components are dropped. */
  function Clean(parts: seq<string>): (r: seq<string>)
    ensures forall i :: 0 <= i < |r| ==> r[i] != "" && r[i] != "." && r[i] in parts
    ensures |r| <= |parts|
  {
    if parts == [] then []
    else if parts[0] == "" || parts[0] == "." then Clean(parts[1..])
    else [parts[0]] + Clean(parts[1..])
  }

  /** `PurePosixPath(s)`. */
  function PathOf(s: string): (p: Path)
    ensures p.absolute <==> |s| > 0 && s[0] == '/'
    ensures forall i :: 0 <= i < |p.parts| ==> PlainComponent(p.parts[i])
  {
    Path(|s| > 0 && s[0] == '/', Clean(Split(s)))
  }

  /** `p / s`: an absolute right operand replaces the left one. */
  function Join(p: Path, s: string): (r: Path)
    ensures PathOf(s).absolute ==> r == PathOf(s)
    ensures !PathOf(s).absolute ==> r.absolute == p.absolute && r.parts == p.parts + PathOf(s).parts
  {
    var q := PathOf(s);
    if q.absolute then q else Path(p.absolute, p.parts + q.parts)
  }

  /** `"/".join(parts)`. */
  function JoinParts(parts: seq<string>): string
  {
    if parts == [] then ""
    else if |parts| == 1 then parts[0]
    else parts[0] + "/" + JoinParts(parts[1..])
  }

  /** `str(p)`: `.` for the empty relative path. */
  function PathString(p: Path): (s: string)
    ensures p.absolute ==> |s| > 0 && s[0] == '/'
  {
    if p.absolute then "/" + JoinParts(p.parts)
    else if p.parts == [] then "."
    else JoinParts(p.parts)
  }

  lemma {:induction false} SplitWithoutSlash(s: string)
    requires '/' !in s
    ensures Split(s) == [s]
    decreases |s|
  {
    if s != [] {
      SplitWithoutSlash(s[1..]);
      assert [s[0]] + s[1..] == s;
    }
  }

  lemma {:induction false} SplitAtSlash(a: string, b: string)
    requires '/' !in a
    ensures Split(a + "/" + b) == [a] + Split(b)
    decreases |a|
  {
    if a == [] {
      assert a + "/" + b == ['/'] + b;
      assert (['/'] + b)[1..] == b;
    } else {
      var s := a + "/" + b;
      assert s[1..] == a[1..] + "/" + b;
      SplitAtSlash(a[1..], b);
      assert [a[0]] + a[1..] == a;
    }
  }

  /** A plain component parses to a one-component relative path. */
  lemma PlainPath(c: string)
    requires PlainComponent(c)
    ensures PathOf(c) == Path(false, [c])
  {
    SplitWithoutSlash(c);
  }

  /** Slash-separated plain components parse to exactly those components. */
  lemma ThreePartPath(a: string, b: string, c: string)
    requires PlainComponent(a) && PlainComponent(b) && PlainComponent(c)
    ensures PathOf(a + "/" + b + "/" + c) == Path(false, [a, b, c])
  {
    SplitWithoutSlash(c);
    SplitAtSlash(b, c);
    assert a + "/" + b + "/" + c == a + "/" + (b + "/" + c);
    SplitAtSlash(a, b + "/" + c);
    var s := a + "/" + b + "/" + c;
    assert Split(s) == [a, b, c];
    assert s[0] == a[0] && a[0] != '/';
    var parts := [a, b, c];
    assert Clean(parts) == [a] + Clean([b, c]);
    assert Clean([b, c]) == [b] + Clean([c]);
    assert [c][1..] == [];
  }

  /** Splitting on `/` and joining with `/` gives the text back. */
  lemma {:induction false} JoinSplit(s: string)
    ensures JoinParts(Split(s)) == s
    decreases |s|
  {
    if s != [] {
      var rest := Split(s[1..]);
      JoinSplit(s[1..]);
      if s[0] == '/' {
        assert JoinParts([""] + rest) == "" + "/" + JoinParts(rest);
        assert "/" + s[1..] == s;
      } else if |rest| == 1 {
        assert [s[0]] + s[1..] == s;
      } else {
        var r := [[s[0]] + rest[0]] + rest[1..];
        assert r[1..] == rest[1..];
        assert JoinParts(r) == [s[0]] + (rest[0] + "/" + JoinParts(rest[1..]));
        assert [s[0]] + s[1..] == s;
      }
    }
  }

  /** Joining slash-free components with `/` and splitting again gives them back. */
  lemma {:induction false} SplitJoin(parts: seq<string>)
    requires |parts| >= 1 && forall i :: 0 <= i < |parts| ==> '/' !in parts[i]
    ensures Split(JoinParts(parts)) == parts
    decreases |parts|
  {
    if |parts| == 1 {
      SplitWithoutSlash(parts[0]);
    } else {
      SplitJoin(parts[1..]);
      SplitAtSlash(parts[0], JoinParts(parts[1..]));
      assert [parts[0]] + parts[1..] == parts;
    }
  }

  /** `Clean` keeps plain components as they are. */
  lemma {:induction false} CleanPlain(parts: seq<string>)
    requires forall i :: 0 <= i < |parts| ==> PlainComponent(parts[i])
    ensures Clean(parts) == parts
    decreases |parts|
  {
    if parts != [] {
      CleanPlain(parts[1..]);
      assert [parts[0]] + parts[1..] == parts;
    }
  }

  /** `PurePosixPath(str(p)) == p` for a path made of plain components. */
  lemma PathRoundTrip(p: Path)
    requires forall i :: 0 <= i < |p.parts| ==> PlainComponent(p.parts[i])
    ensures PathOf(PathString(p)) == p
  {
    CleanPlain(p.parts);
    if p.parts == [] {
      if p.absolute {
        assert "/" == "" + "/" + "";
        SplitAtSlash("", "");
        assert Clean(["", ""]) == Clean([""]) == Clean([]);
      } else {
        SplitWithoutSlash(".");
        assert Clean(["."]) == Clean([]);
      }
    } else {
      SplitJoin(p.parts);
      var body := JoinParts(p.parts);
      if p.absolute {
        assert ("/" + body)[1..] == body;
        assert Split("/" + body) == [""] + Split(body);
      } else {
        FirstCharOfJoin(p.parts);
      }
    }
  }

  lemma FirstCharOfJoin(parts: seq<string>)
    requires |parts| >= 1 && PlainComponent(parts[0])
    ensures |JoinParts(parts)| > 0 && JoinParts(parts)[0] == parts[0][0]
  {
  }
}
