/**
 * The path validator run before anything is written to a workspace. Each key
 * of the file map is normalised the way `java.nio.file.Path.normalize()` does
 * it on a Unix file system, backslashes are then turned into slashes, and the
 * whole map is rejected if any normalised path starts with "..". File contents
 * are never looked at.
 */
module SecurityManager {
  import opened Base
  import opened Strings
  import opened Models

  /** Both failures surface as an IllegalArgumentException. */
  datatype ValidationError = InvalidPath | RelativePathNotAllowed

  // ---------------------------------------------------------------------------
  // Path normalisation

  predicate IsAbsolute(p: string)
  {
    |p| > 0 && p[0] == '/'
  }

  /** Drops the empty pieces that repeated, leading and trailing slashes leave. */
  function NonEmpty(parts: seq<string>): (r: seq<string>)
    ensures forall k :: 0 <= k < |r| ==> r[k] != [] && r[k] in parts
  {
    if |parts| == 0 then []
    else if parts[0] == [] then NonEmpty(parts[1..])
    else [parts[0]] + NonEmpty(parts[1..])
  }

  /** The names of a path, as the file system sees them. */
  function Segments(p: string): seq<string>
  {
    NonEmpty(Split(p, '/'))
  }

  /** One name: "." vanishes, ".." cancels the previous name if there is one. */
  function Step(stack: seq<string>, seg: string, absolute: bool): seq<string>
  {
    if seg == "." then stack
    else if seg == ".." then
      if |stack| > 0 && stack[|stack| - 1] != ".." then stack[..|stack| - 1]
      else if absolute then stack          // the root's parent is the root
      else stack + [".."]                   // a leading ".." is kept
    else stack + [seg]
  }

  function NormalizeFrom(stack: seq<string>, segs: seq<string>, absolute: bool): seq<string>
    decreases |segs|
  {
    if |segs| == 0 then stack else NormalizeFrom(Step(stack, segs[0], absolute), segs[1..], absolute)
  }

  /** The names left after normalisation. */
  function NormalNames(p: string): seq<string>
  {
    NormalizeFrom([], Segments(p), IsAbsolute(p))
  }

  /** `Path.of(p).normalize().toString()`. */
  function NormalizedPath(p: string): string
  {
    if IsAbsolute(p) then "/" + Join(NormalNames(p), "/") else Join(NormalNames(p), "/")
  }

  /**
   * `normalize(path)`: a path with a NUL character is syntactically invalid on
   * Unix and is reported as an IllegalArgumentException.
   */
  function Normalize(p: string): Result<string, ValidationError>
  {
    if '\0' in p then Err(InvalidPath) else Ok(ReplaceChar(NormalizedPath(p), '\\', '/'))
  }

  /** One key passes `validateFiles`. */
  function ValidatePath(p: string): Outcome<ValidationError>
  {
    match Normalize(p)
    case Err(e) => Fail(e)
    case Ok(n) => if StartsWith(n, "..") then Fail(RelativePathNotAllowed) else Pass
  }

  predicate PathAccepted(p: string)
  {
    ValidatePath(p).Pass?
  }

  /**
   * `validateFiles`: every key is checked, contents are not. The exception
   * names one offending key; which one depends on the map's iteration order,
   * which is not modelled, so the failure carries the set of offending keys.
   */
  function ValidateFiles(files: FileMap): (r: Outcome<set<string>>)
    ensures r.Pass? <==> forall k :: k in files ==> PathAccepted(k)
    ensures r.Fail? ==> r.error != {} && forall k :: k in r.error <==> k in files && !PathAccepted(k)
  {
    var rejected := set k | k in files && !PathAccepted(k);
    assert forall k :: k in files && !PathAccepted(k) ==> k in rejected;
    if rejected == {} then Pass else Fail(rejected)
  }

  // ---------------------------------------------------------------------------
  // What validation guarantees

  /** Every ".." of a normalised relative path stands before every other name. */
  ghost predicate DotDotsLead(stack: seq<string>)
  {
    forall i, j :: 0 <= i < j < |stack| && stack[j] == ".." ==> stack[i] == ".."
  }

  ghost predicate NamesWellFormed(stack: seq<string>, absolute: bool)
  {
    DotDotsLead(stack)
    && (absolute ==> ".." !in stack)
    && (forall k :: 0 <= k < |stack| ==> stack[k] != [] && stack[k] != ".")
  }

  lemma {:induction false} NormalizeFromWellFormed(stack: seq<string>, segs: seq<string>, absolute: bool)
    requires NamesWellFormed(stack, absolute)
    requires forall k :: 0 <= k < |segs| ==> segs[k] != []
    ensures NamesWellFormed(NormalizeFrom(stack, segs, absolute), absolute)
    decreases |segs|
  {
    if |segs| > 0 {
      var next := Step(stack, segs[0], absolute);
      assert NamesWellFormed(next, absolute);
      NormalizeFromWellFormed(next, segs[1..], absolute);
    }
  }

  lemma NormalNamesWellFormed(p: string)
    ensures NamesWellFormed(NormalNames(p), IsAbsolute(p))
  {
    NormalizeFromWellFormed([], Segments(p), IsAbsolute(p));
  }

  lemma {:induction false} JoinStartsWithFirst(parts: seq<string>, sep: string)
    requires |parts| >= 1
    ensures StartsWith(Join(parts, sep), parts[0])
  {
    if |parts| > 1 {
      assert Join(parts, sep) == parts[0] + (sep + Join(parts[1..], sep));
    }
  }

  /** A joined relative path starts with ".." exactly when its first name does. */
  lemma JoinDotDotPrefix(parts: seq<string>)
    requires |parts| >= 1 && parts[0] != []
    ensures StartsWith(Join(parts, "/"), "..") <==> StartsWith(parts[0], "..")
  {
    JoinStartsWithFirst(parts, "/");
    var j := Join(parts, "/");
    if |parts[0]| == 1 && |parts| > 1 {
      assert j == parts[0] + ("/" + Join(parts[1..], "/"));
      assert j[1] == '/';
    }
  }

  lemma ReplaceKeepsDotDot(s: string)
    ensures StartsWith(ReplaceChar(s, '\\', '/'), "..") <==> StartsWith(s, "..")
  {
    var r := ReplaceChar(s, '\\', '/');
    if |s| >= 2 {
      assert r[..2] == [r[0], r[1]];
      assert s[..2] == [s[0], s[1]];
    }
  }

  /**
   * The validator accepts a path exactly when it has no NUL character and it is
   * absolute, normalises to nothing, or its first remaining name does not start
   * with "..".
   */
  lemma PathAcceptedIff(p: string)
    ensures PathAccepted(p) <==>
      '\0' !in p
      && (IsAbsolute(p) || NormalNames(p) == [] || !StartsWith(NormalNames(p)[0], ".."))
  {
    NormalNamesWellFormed(p);
    if '\0' !in p {
      var names := NormalNames(p);
      ReplaceKeepsDotDot(NormalizedPath(p));
      if IsAbsolute(p) {
        assert NormalizedPath(p)[0] == '/';
      } else if names != [] {
        JoinDotDotPrefix(names);
      }
    }
  }

  /**
   * Safety: after normalisation, an accepted path has no ".." name left, so it
   * cannot climb out of the workspace it is written under.
   */
  lemma AcceptedHasNoParentName(p: string)
    requires PathAccepted(p)
    ensures ".." !in NormalNames(p)
  {
    PathAcceptedIff(p);
    NormalNamesWellFormed(p);
    var names := NormalNames(p);
    if !IsAbsolute(p) && names != [] {
      assert names[0] != "..";
    }
  }

  /** Normalisation of names that contain no ".." only drops the "." names. */
  lemma {:induction false} NormalizeWithoutDotDot(stack: seq<string>, segs: seq<string>, absolute: bool)
    requires forall k :: 0 <= k < |segs| ==> segs[k] != ".."
    ensures NormalizeFrom(stack, segs, absolute) == stack + DropDots(segs)
    decreases |segs|
  {
    if |segs| > 0 {
      NormalizeWithoutDotDot(Step(stack, segs[0], absolute), segs[1..], absolute);
    }
  }

  function DropDots(segs: seq<string>): (r: seq<string>)
    ensures forall k :: 0 <= k < |r| ==> r[k] in segs
  {
    if |segs| == 0 then [] else if segs[0] == "." then DropDots(segs[1..]) else [segs[0]] + DropDots(segs[1..])
  }

  /**
   * Completeness: a path without NUL characters none of whose names starts
   * with ".." is accepted.
   */
  lemma PlainPathAccepted(p: string)
    requires '\0' !in p
    requires forall k :: 0 <= k < |Segments(p)| ==> !StartsWith(Segments(p)[k], "..")
    ensures PathAccepted(p)
  {
    var segs := Segments(p);
    forall k | 0 <= k < |segs| ensures segs[k] != ".." {
      assert !StartsWith(segs[k], "..");
    }
    NormalizeWithoutDotDot([], segs, IsAbsolute(p));
    assert [] + DropDots(segs) == DropDots(segs);
    PathAcceptedIff(p);
  }

  /** The file contents play no part in the verdict. */
  lemma ContentsIgnored(f: FileMap, g: FileMap)
    requires f.Keys == g.Keys
    ensures ValidateFiles(f).Pass? <==> ValidateFiles(g).Pass?
  {
  }

  // ---------------------------------------------------------------------------
  // Worked cases

  lemma SegmentsWhole(a: string)
    requires a != [] && '/' !in a
    ensures Segments(a) == [a]
  {
    SplitWhole(a, '/');
    assert NonEmpty([a]) == [a] + NonEmpty([]);
  }

  lemma SegmentsCons(a: string, rest: string)
    requires a != [] && '/' !in a
    ensures Segments(a + "/" + rest) == [a] + Segments(rest)
  {
    SplitPiece(a, rest, '/');
    assert a + "/" + rest == a + ['/'] + rest;
    var parts := [a] + Split(rest, '/');
    assert parts[1..] == Split(rest, '/');
  }

  /** A name that normalisation keeps as it is. */
  predicate PlainName(x: string)
  {
    x != [] && '/' !in x && '\0' !in x && x != "." && x != ".."
  }

  lemma ParentSegments(x: string, y: string)
    requires PlainName(x) && PlainName(y)
    ensures Segments(x + "/../" + y) == [x, "..", y]
    ensures Segments(x + "/../../" + y) == [x, "..", "..", y]
  {
    var r1 := ".." + "/" + y;
    var r2 := ".." + "/" + r1;
    SegmentsWhole(y);
    SegmentsCons("..", y);
    SegmentsCons("..", r1);
    SegmentsCons(x, r1);
    SegmentsCons(x, r2);
    assert x + "/../" + y == x + "/" + r1;
    assert x + "/../../" + y == x + "/" + r2;
  }

  lemma ParentFolds(x: string, y: string)
    requires PlainName(x) && PlainName(y)
    ensures NormalizeFrom([], [x, "..", y], false) == [y]
    ensures NormalizeFrom([], [x, "..", "..", y], false) == ["..", y]
  {
    var c: seq<string> := [x, "..", y];
    assert c[1..] == ["..", y] && c[1..][1..] == [y] && c[1..][1..][1..] == [];
    assert NormalizeFrom([], [y], false) == [y];
    assert NormalizeFrom([x], ["..", y], false) == NormalizeFrom([], [y], false);
    assert NormalizeFrom([], c, false) == NormalizeFrom([x], ["..", y], false);
    var e: seq<string> := [x, "..", "..", y];
    assert e[1..] == ["..", "..", y];
    assert NormalizeFrom([".."], [y], false) == ["..", y];
    assert Step([], "..", false) == [".."];
    assert NormalizeFrom([], ["..", y], false) == NormalizeFrom([".."], [y], false);
    assert NormalizeFrom([x], ["..", "..", y], false) == NormalizeFrom([], ["..", y], false);
    assert NormalizeFrom([], e, false) == NormalizeFrom([x], ["..", "..", y], false);
  }

  lemma ParentNames(x: string, y: string)
    requires PlainName(x) && PlainName(y)
    ensures NormalNames(x + "/../" + y) == [y] && !IsAbsolute(x + "/../" + y)
    ensures NormalNames(x + "/../../" + y) == ["..", y] && !IsAbsolute(x + "/../../" + y)
  {
    ParentSegments(x, y);
    ParentFolds(x, y);
    assert (x + "/../" + y)[0] == x[0];
    assert (x + "/../../" + y)[0] == x[0];
  }

  /** A name cancelled by ".." leaves the next one: "a/../b" normalises to "b" and is accepted. */
  lemma CancelledParentAccepted(x: string, y: string)
    requires PlainName(x) && PlainName(y) && '\\' !in y && !StartsWith(y, "..")
    ensures Normalize(x + "/../" + y) == Ok(y) && PathAccepted(x + "/../" + y)
  {
    ParentNames(x, y);
    assert '\0' !in x + "/../" + y;
    assert Join([y], "/") == y;
    ReplaceCharAbsent(y, '\\', '/');
  }

  /** One ".." too many climbs out: "a/../../b" normalises to "../b" and is rejected. */
  lemma EscapingParentRejected(x: string, y: string)
    requires PlainName(x) && PlainName(y) && '\\' !in y
    ensures Normalize(x + "/../../" + y) == Ok("../" + y) && !PathAccepted(x + "/../../" + y)
  {
    ParentNames(x, y);
    assert '\0' !in x + "/../../" + y;
    assert Join(["..", y], "/") == ".." + "/" + Join([y], "/");
    assert Join([y], "/") == y;
    assert ".." + "/" + y == "../" + y;
    ReplaceCharAbsent("../" + y, '\\', '/');
    assert StartsWith("../" + y, "..");
  }

  /** The check is a string prefix: the name "..hidden" is rejected too. */
  lemma DotDotPrefixedNameRejected()
    ensures !PathAccepted("..hidden")
  {
    SplitWhole("..hidden", '/');
    assert NormalNames("..hidden") == ["..hidden"];
    PathAcceptedIff("..hidden");
  }

  /** Backslashes count as slashes for the check: "..\\x" is rejected. */
  lemma BackslashParentRejected()
    ensures Normalize("..\\x") == Ok("../x") && !PathAccepted("..\\x")
  {
    SplitWhole("..\\x", '/');
    assert NormalNames("..\\x") == ["..\\x"];
    assert ReplaceChar("..\\x", '\\', '/') == "../x";
  }

  /** A NUL character makes the path invalid. */
  lemma NulCharacterRejected()
    ensures ValidatePath("a\0b") == Fail(InvalidPath)
  {
  }
}
