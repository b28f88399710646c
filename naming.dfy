/**
 * The string functions of the deploy command: the project name taken from the
 * last segment of the resolved path (or the explicit deploy name), the site
 * name `<project>-<8 lowercase letters>`, its URI, and the upload target of a
 * file relative to the deploy root.
 */
module Naming {
  import opened Wrappers

  /** JavaScript truthiness of an optional string: `undefined` and `''` are both false. */
  predicate Truthy(v: Option<string>) {
    v.Some? && v.value != ""
  }

  /** The separators of `split(new RegExp('[/\\\\]'))`. */
  predicate IsSep(c: char) {
    c == '/' || c == '\\'
  }

  predicate NoSep(s: string) {
    forall i | 0 <= i < |s| :: !IsSep(s[i])
  }

  /** `s.split(/[\/\\]/)`: the pieces between separators, empty pieces included. */
  function Split(s: string): (r: seq<string>)
    ensures |r| >= 1
    ensures forall k | 0 <= k < |r| :: NoSep(r[k])
    decreases |s|
  {
    if s == [] then [""]
    else
      var rest := Split(s[1..]);
      if IsSep(s[0]) then [""] + rest
      else [[s[0]] + rest[0]] + rest[1..]
  }

  /** The pieces glued back with `/`. */
  function Join(parts: seq<string>): string
    requires |parts| >= 1
  {
    if |parts| == 1 then parts[0] else parts[0] + "/" + Join(parts[1..])
  }

  /** A path with every backslash written as a slash. */
  function Slashed(s: string): (r: string)
    ensures |r| == |s|
    ensures forall i | 0 <= i < |s| :: r[i] == (if IsSep(s[i]) then '/' else s[i])
  {
    if s == [] then [] else [if IsSep(s[0]) then '/' else s[0]] + Slashed(s[1..])
  }

  /** Splitting loses only which separator was used. */
  lemma {:induction false} JoinSplit(s: string)
    ensures Join(Split(s)) == Slashed(s)
    decreases |s|
  {
    if s != [] {
      JoinSplit(s[1..]);
      var rest := Split(s[1..]);
      if IsSep(s[0]) {
        assert Split(s) == [""] + rest;
        assert Join([""] + rest) == "" + "/" + Join(rest) by {
          assert ([""] + rest)[1..] == rest;
        }
      } else {
        var r := Split(s);
        assert r == [[s[0]] + rest[0]] + rest[1..];
        if |rest| == 1 {
          assert Join(r) == [s[0]] + rest[0];
        } else {
          assert r[1..] == rest[1..];
          assert Join(rest) == rest[0] + "/" + Join(rest[1..]);
        }
      }
    }
  }

  /** Separator-free pieces come back unchanged from a split of their join. */
  lemma {:induction false} SplitJoin(parts: seq<string>)
    requires |parts| >= 1
    requires forall k | 0 <= k < |parts| :: NoSep(parts[k])
    ensures Split(Join(parts)) == parts
    decreases |parts|, |parts[0]|
  {
    if |parts[0]| > 0 {
      var head := parts[0];
      var shorter := [head[1..]] + parts[1..];
      assert NoSep(shorter[0]) by {
        forall i | 0 <= i < |shorter[0]| ensures !IsSep(shorter[0][i]) {
          assert shorter[0][i] == head[i + 1];
        }
      }
      SplitJoin(shorter);
      SplitJoinChar(parts, shorter);
    } else if |parts| > 1 {
      SplitJoin(parts[1..]);
      SplitJoinSep(parts);
    }
  }

  /** One step of `SplitJoin`: a first piece that starts with a character. */
  lemma SplitJoinChar(parts: seq<string>, shorter: seq<string>)
    requires |parts| >= 1 && |parts[0]| > 0 && !IsSep(parts[0][0])
    requires shorter == [parts[0][1..]] + parts[1..]
    requires Split(Join(shorter)) == shorter
    ensures Split(Join(parts)) == parts
  {
    var j := Join(parts);
    JoinFirstChar(parts, shorter);
    var rest := Split(j[1..]);
    assert rest == shorter;
    assert Split(j) == [[j[0]] + rest[0]] + rest[1..];
    assert [parts[0][0]] + parts[0][1..] == parts[0];
    assert parts == [parts[0]] + parts[1..];
  }

  /** The join starts with the first character of the first piece, then joins the rest. */
  lemma JoinFirstChar(parts: seq<string>, shorter: seq<string>)
    requires |parts| >= 1 && |parts[0]| > 0
    requires shorter == [parts[0][1..]] + parts[1..]
    ensures |Join(parts)| > 0 && Join(parts)[0] == parts[0][0] && Join(parts)[1..] == Join(shorter)
  {
    var head, tail := parts[0], parts[1..];
    JoinHead(head, tail);
    JoinHead(head[1..], tail);
    assert parts == [head] + tail;
    if tail == [] {
      assert Join(parts) == [head[0]] + head[1..];
    } else {
      assert Join(parts) == [head[0]] + (head[1..] + "/" + Join(tail));
    }
  }

  /** One step of `SplitJoin`: an empty first piece, so the join starts with a separator. */
  lemma SplitJoinSep(parts: seq<string>)
    requires |parts| > 1 && parts[0] == ""
    requires Split(Join(parts[1..])) == parts[1..]
    ensures Split(Join(parts)) == parts
  {
    var j := Join(parts);
    assert j == "/" + Join(parts[1..]);
    assert j[1..] == Join(parts[1..]);
    assert parts == [""] + parts[1..];
  }

  /** Joining with the first piece split off at the front. */
  lemma JoinHead(head: string, tail: seq<string>)
    ensures Join([head] + tail) == if tail == [] then head else head + "/" + Join(tail)
  {
    if tail != [] {
      assert ([head] + tail)[1..] == tail;
    }
  }

  /** `r` is the tail of `s` after its last separator (all of `s` when it has none). */
  predicate LastPiece(s: string, r: string) {
    && NoSep(r)
    && |r| <= |s| && r == s[|s| - |r|..]
    && (|r| < |s| ==> IsSep(s[|s| - |r| - 1]))
  }

  /** A text has exactly one last piece. */
  lemma LastPieceUnique(s: string, r1: string, r2: string)
    requires LastPiece(s, r1) && LastPiece(s, r2)
    ensures r1 == r2
  {
  }

  /** The text after the last separator. */
  function LastSegment(s: string): (r: string)
    ensures LastPiece(s, r)
  {
    if s == [] then ""
    else if IsSep(s[|s| - 1]) then ""
    else
      var init := LastSegment(s[..|s| - 1]);
      var r := init + [s[|s| - 1]];
      assert r == s[|s| - |r|..];
      assert NoSep(r) by {
        forall i | 0 <= i < |r| ensures !IsSep(r[i]) {
          if i < |init| { assert r[i] == init[i]; }
        }
      }
      r
  }

  /** A text splits into a single piece exactly when it has no separator. */
  lemma {:induction false} SplitSingle(s: string)
    ensures |Split(s)| == 1 <==> NoSep(s)
    ensures NoSep(s) ==> Split(s) == [s]
    decreases |s|
  {
    if s != [] {
      SplitSingle(s[1..]);
      assert NoSep(s) <==> !IsSep(s[0]) && NoSep(s[1..]) by {
        if !IsSep(s[0]) && NoSep(s[1..]) {
          forall i | 0 <= i < |s| ensures !IsSep(s[i]) {
            if i > 0 { assert s[i] == s[1..][i - 1]; }
          }
        }
      }
      assert [s[0]] + s[1..] == s;
    }
  }

  /** The last piece of a split is the text after the last separator. */
  lemma {:induction false} SplitLastPiece(s: string)
    ensures LastPiece(s, Split(s)[|Split(s)| - 1])
    decreases |s|
  {
    if s != [] {
      SplitLastPiece(s[1..]);
      SplitSingle(s[1..]);
      var rest := Split(s[1..]);
      var last := rest[|rest| - 1];
      var r := Split(s);
      if IsSep(s[0]) || |rest| > 1 {
        assert r[|r| - 1] == last;
        assert s[1..][|s| - 1 - |last|..] == s[|s| - |last|..];
        if |last| < |s| - 1 {
          assert s[1..][|s| - 1 - |last| - 1] == s[|s| - |last| - 1];
        }
      } else {
        assert rest == [s[1..]];
        assert r[|r| - 1] == [s[0]] + s[1..] == s;
      }
    }
  }

  /** `_(path.split(...)).last()` is the text after the last separator. */
  lemma LastOfSplit(s: string)
    ensures Split(s)[|Split(s)| - 1] == LastSegment(s)
  {
    SplitLastPiece(s);
    LastPieceUnique(s, Split(s)[|Split(s)| - 1], LastSegment(s));
  }

  /** `deployName || _(fullPath.split(...)).last()` */
  function ProjName(fullPath: string, deployName: Option<string>): (r: string)
    ensures Truthy(deployName) ==> r == deployName.value
    ensures !Truthy(deployName) ==> r == Split(fullPath)[|Split(fullPath)| - 1]
  {
    LastOfSplit(fullPath);
    if Truthy(deployName) then deployName.value else LastSegment(fullPath)
  }

  /** What `randomstring.generate({length: 8, charset: 'alphabetic', capitalization: 'lowercase'})` yields. */
  predicate IsSuffix(s: string) {
    |s| == 8 && forall i | 0 <= i < |s| :: 'a' <= s[i] <= 'z'
  }

  /** `${projName}-${random}` */
  function SiteName(projName: string, suffix: string): (r: string)
    ensures |r| == |projName| + 1 + |suffix|
    ensures r[..|projName|] == projName && r[|projName|] == '-' && r[|projName| + 1..] == suffix
  {
    projName + "-" + suffix
  }

  /** Recover the project name and the suffix from a site name. */
  function ParseSiteName(name: string): (r: Option<(string, string)>)
    ensures r.Some? ==> SiteName(r.value.0, r.value.1) == name && IsSuffix(r.value.1)
  {
    if |name| >= 9 && name[|name| - 9] == '-' && IsSuffix(name[|name| - 8..]) then
      assert name[..|name| - 9] + "-" + name[|name| - 8..] == name;
      Some((name[..|name| - 9], name[|name| - 8..]))
    else None
  }

  /** A generated site name determines its project name and suffix. */
  lemma ParseSiteNameInverts(projName: string, suffix: string)
    requires IsSuffix(suffix)
    ensures ParseSiteName(SiteName(projName, suffix)) == Some((projName, suffix))
  {
    var name := SiteName(projName, suffix);
    assert name[..|name| - 9] == projName;
    assert name[|name| - 8..] == suffix;
  }

  /** `http://${websiteName}.azurewebsites.net/` */
  function WebsiteUri(name: string): (r: string)
    ensures |r| == |name| + 26
    ensures r[..7] == "http://" && r[7..7 + |name|] == name
    ensures r[7 + |name|..] == ".azurewebsites.net/"
  {
    "http://" + name + ".azurewebsites.net/"
  }

  /** Distinct sites get distinct addresses. */
  lemma WebsiteUriInjective(a: string, b: string)
    requires WebsiteUri(a) == WebsiteUri(b)
    ensures a == b
  {
    assert |a| == |b|;
  }

  /** `path.join(base, rel)` for a relative `rel`. */
  function JoinPath(base: string, rel: string): string {
    base + "/" + rel
  }

  /** `path.relative(base, file)` for the files listed under `base`. */
  function Relative(base: string, file: string): (r: string)
    ensures |r| <= |file|
  {
    var n := |base| + 1;
    if n <= |file| && file[..n] == base + "/" then file[n..] else file
  }

  /** A file joined under the deploy root is uploaded under its own relative path. */
  lemma RelativeJoinPath(base: string, rel: string)
    ensures Relative(base, JoinPath(base, rel)) == rel
  {
    var f := JoinPath(base, rel);
    assert f[..|base| + 1] == base + "/";
    assert f[|base| + 1..] == rel;
  }

  /** Every file under the root is its relative path joined back under the root. */
  lemma JoinPathRelative(base: string, file: string)
    requires |base| + 1 <= |file| && file[..|base| + 1] == base + "/"
    ensures JoinPath(base, Relative(base, file)) == file
  {
    assert file == file[..|base| + 1] + file[|base| + 1..];
  }
}
