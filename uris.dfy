/** A hierarchical URI already split into its (encoded) components, standing in
    for the platform's `Uri`: how its path splits into segments, how a builder
    replaces the path, and how it renders back to text. */
module Uris {
  import opened Wrappers
  import opened Lists

  /** `null` components are `None`; `path` is the whole path text. */
  datatype Uri = Uri(
    scheme: Option<string>,
    authority: Option<string>,
    path: string,
    query: Option<string>,
    fragment: Option<string>
  )

  /** Every piece of `p` between slashes, empty pieces included:
      "/a//b" gives ["", "a", "", "b"]. */
  function SplitOnSlash(p: string): (r: seq<string>)
    ensures |r| >= 1
  {
    if p == [] then [""]
    else
      var rest := SplitOnSlash(p[1..]);
      if p[0] == '/' then [""] + rest
      else [[p[0]] + rest[0]] + rest[1..]
  }

  /** `joinToString(separator = "/")`. */
  function JoinPath(xs: seq<string>): (r: string)
    ensures |xs| == 0 ==> r == ""
    ensures |xs| > 0 ==> |xs[0]| <= |r| && r[..|xs[0]|] == xs[0]
  {
    if |xs| == 0 then ""
    else if |xs| == 1 then xs[0]
    else xs[0] + "/" + JoinPath(xs[1..])
  }

  /** No piece contains a slash. */
  lemma {:induction false} PiecesHaveNoSlash(p: string)
    ensures forall i :: 0 <= i < |SplitOnSlash(p)| ==> '/' !in SplitOnSlash(p)[i]
  {
    if p != [] {
      PiecesHaveNoSlash(p[1..]);
      var rest := SplitOnSlash(p[1..]);
      if p[0] != '/' {
        var r := SplitOnSlash(p);
        assert r[0] == [p[0]] + rest[0];
        forall i | 1 <= i < |r| ensures '/' !in r[i] {
          assert r[i] == rest[i];
        }
      }
    }
  }

  /** The non-empty elements of `xs`, in order. */
  function NonEmpty(xs: seq<string>): (r: seq<string>)
    ensures forall i :: 0 <= i < |r| ==> r[i] != ""
    ensures forall s :: s in r <==> s in xs && s != ""
  {
    if xs == [] then []
    else if xs[0] == "" then NonEmpty(xs[1..])
    else [xs[0]] + NonEmpty(xs[1..])
  }

  /** The path segments of a path: the text between slashes, empty
      segments skipped (what `Uri.getPathSegments` returns). */
  function Segments(p: string): (r: seq<string>)
    ensures forall i :: 0 <= i < |r| ==> r[i] != "" && '/' !in r[i]
  {
    var pieces := SplitOnSlash(p);
    PiecesHaveNoSlash(p);
    var r := NonEmpty(pieces);
    assert forall i :: 0 <= i < |r| ==> r[i] in pieces;
    r
  }

  function PathSegments(u: Uri): (r: seq<string>)
    ensures forall i :: 0 <= i < |r| ==> r[i] != "" && '/' !in r[i]
  {
    Segments(u.path)
  }

  /** The builder makes the path absolute when the URI has a scheme or an
      authority; an empty path stays empty. */
  predicate HasSchemeOrAuthority(u: Uri) {
    u.scheme.Some? || u.authority.Some?
  }

  function MakeAbsolute(p: string): (r: string)
    ensures p == "" ==> r == ""
    ensures p != "" && p[0] == '/' ==> r == p
    ensures p != "" && p[0] != '/' ==> r == "/" + p
    ensures p != "" ==> r[0] == '/' && r[|r| - |p|..] == p
  {
    if p == "" || p[0] == '/' then p else "/" + p
  }

  /** `u.buildUpon().path(path).build()`: only the path is replaced. */
  function WithPath(u: Uri, path: string): (r: Uri)
    ensures r.scheme == u.scheme && r.authority == u.authority
    ensures r.query == u.query && r.fragment == u.fragment
    ensures r.path == if HasSchemeOrAuthority(u) then MakeAbsolute(path) else path
    ensures Segments(r.path) == Segments(path)
  {
    SegmentsMakeAbsolute(path);
    Uri(u.scheme, u.authority,
        if HasSchemeOrAuthority(u) then MakeAbsolute(path) else path,
        u.query, u.fragment)
  }

  /** `Uri.toString()`: scheme and ':', "//" and the authority, the path, then
      '?' and the query and '#' and the fragment when those are non-empty. */
  function Render(u: Uri): (r: string)
    ensures u.scheme.Some? ==> StartsWith(r, u.scheme.value + ":")
    ensures u.scheme.None? && u.authority.Some? ==> StartsWith(r, "//" + u.authority.value)
    ensures u.query.None? && u.fragment.None? ==> |u.path| <= |r| && r[|r| - |u.path|..] == u.path
    ensures u.scheme.None? && u.authority.None? && u.query.None? && u.fragment.None? ==> r == u.path
  {
    var head := (if u.scheme.Some? then u.scheme.value + ":" else "")
                + (if u.authority.Some? then "//" + u.authority.value else "");
    var tail := (if u.query.Some? && u.query.value != "" then "?" + u.query.value else "")
                + (if u.fragment.Some? && u.fragment.value != "" then "#" + u.fragment.value else "");
    var r := head + u.path + tail;
    assert r[..|head|] == head;
    assert u.scheme.Some? ==> head[..|u.scheme.value| + 1] == u.scheme.value + ":";
    assert u.scheme.None? && u.authority.Some? ==> head == "//" + u.authority.value;
    assert u.query.None? && u.fragment.None? ==> tail == [] && r == head + u.path;
    assert u.scheme.None? && u.authority.None? ==> head == [];
    r
  }

  /** Splitting on slashes and joining with slashes are inverse: joining the
      pieces of a path gives the path back. */
  lemma {:induction false} JoinSplit(p: string)
    ensures JoinPath(SplitOnSlash(p)) == p
  {
    if p != [] {
      var rest := SplitOnSlash(p[1..]);
      JoinSplit(p[1..]);
      if p[0] == '/' {
        assert JoinPath([""] + rest) == "" + "/" + JoinPath(rest);
      } else {
        var r := [[p[0]] + rest[0]] + rest[1..];
        if |rest| == 1 {
          assert JoinPath(r) == [p[0]] + rest[0];
        } else {
          assert r[1..] == rest[1..];
          assert JoinPath(r) == [p[0]] + rest[0] + "/" + JoinPath(rest[1..]);
          assert JoinPath(rest) == rest[0] + "/" + JoinPath(rest[1..]);
        }
        assert p == [p[0]] + p[1..];
      }
    }
  }

  /** Text without a slash is a single piece. */
  lemma {:induction false} SplitNoSlash(p: string)
    requires '/' !in p
    ensures SplitOnSlash(p) == [p]
  {
    if p != [] {
      assert '/' !in p[1..] by {
        forall c | c in p[1..] ensures c != '/' { assert c in p; }
      }
      SplitNoSlash(p[1..]);
      assert p == [p[0]] + p[1..];
    }
  }

  /** The pieces of `a + "/" + b` are the pieces of `a` followed by those of `b`. */
  lemma {:induction false} SplitAppend(a: string, b: string)
    ensures SplitOnSlash(a + "/" + b) == SplitOnSlash(a) + SplitOnSlash(b)
  {
    var p := a + "/" + b;
    if a == [] {
      assert p[1..] == b;
    } else {
      assert p[1..] == a[1..] + "/" + b;
      SplitAppend(a[1..], b);
      if a[0] != '/' {
        SplitAppendLetter(a[0], SplitOnSlash(a[1..]), SplitOnSlash(b));
      }
    }
  }

  /** Proof step of SplitAppend for a first character that is not a slash. */
  lemma SplitAppendLetter(c: char, ra: seq<string>, rb: seq<string>)
    requires |ra| >= 1
    ensures [[c] + (ra + rb)[0]] + (ra + rb)[1..] == ([[c] + ra[0]] + ra[1..]) + rb
  {
    assert (ra + rb)[0] == ra[0];
    assert (ra + rb)[1..] == ra[1..] + rb;
  }

  /** Joining pieces that contain no slash and splitting again gives the
      pieces back. */
  lemma {:induction false} SplitJoin(xs: seq<string>)
    requires |xs| >= 1
    requires forall i :: 0 <= i < |xs| ==> '/' !in xs[i]
    ensures SplitOnSlash(JoinPath(xs)) == xs
  {
    if |xs| == 1 {
      SplitNoSlash(xs[0]);
    } else {
      SplitJoin(xs[1..]);
      SplitNoSlash(xs[0]);
      SplitAppend(xs[0], JoinPath(xs[1..]));
      assert xs == [xs[0]] + xs[1..];
    }
  }

  lemma {:induction false} NonEmptyAppend(xs: seq<string>, ys: seq<string>)
    ensures NonEmpty(xs + ys) == NonEmpty(xs) + NonEmpty(ys)
  {
    if xs == [] {
      assert xs + ys == ys;
    } else {
      assert (xs + ys)[0] == xs[0];
      assert (xs + ys)[1..] == xs[1..] + ys;
      NonEmptyAppend(xs[1..], ys);
      if xs[0] != "" {
        assert NonEmpty(xs + ys) == [xs[0]] + NonEmpty(xs[1..] + ys);
      }
    }
  }

  /** All segments of each path of `xs`, in order. */
  function SegmentsOfAll(xs: seq<string>): (r: seq<string>) {
    if xs == [] then [] else Segments(xs[0]) + SegmentsOfAll(xs[1..])
  }

  /** The segments of joined paths are the segments of each path in turn. */
  lemma {:induction false} SegmentsOfJoin(xs: seq<string>)
    ensures Segments(JoinPath(xs)) == SegmentsOfAll(xs)
  {
    if |xs| == 0 {
      assert SplitOnSlash("") == [""];
    } else if |xs| == 1 {
      assert SegmentsOfAll(xs) == Segments(xs[0]) + SegmentsOfAll([]);
    } else {
      SegmentsOfJoin(xs[1..]);
      SplitAppend(xs[0], JoinPath(xs[1..]));
      NonEmptyAppend(SplitOnSlash(xs[0]), SplitOnSlash(JoinPath(xs[1..])));
    }
  }

  /** A segment is its own only segment. */
  lemma SegmentOfSegment(s: string)
    requires s != "" && '/' !in s
    ensures Segments(s) == [s]
  {
    SplitNoSlash(s);
    assert NonEmpty([s]) == [s] + NonEmpty([]);
  }

  /** Making a path absolute does not change its segments. */
  lemma SegmentsMakeAbsolute(p: string)
    ensures Segments(MakeAbsolute(p)) == Segments(p)
  {
    if p != "" && p[0] != '/' {
      SplitAppend("", p);
      assert "" + "/" + p == "/" + p;
      NonEmptyAppend([""], SplitOnSlash(p));
    }
  }

  /** Joining segments and splitting again gives the same segments. */
  lemma {:induction false} SegmentsOfJoinedSegments(xs: seq<string>)
    requires forall i :: 0 <= i < |xs| ==> xs[i] != "" && '/' !in xs[i]
    ensures SegmentsOfAll(xs) == xs
  {
    if xs != [] {
      SegmentOfSegment(xs[0]);
      SegmentsOfJoinedSegments(xs[1..]);
      assert xs == [xs[0]] + xs[1..];
    }
  }

  lemma {:induction false} SegmentsOfAllAppend(xs: seq<string>, ys: seq<string>)
    ensures SegmentsOfAll(xs + ys) == SegmentsOfAll(xs) + SegmentsOfAll(ys)
  {
    if xs == [] {
      assert xs + ys == ys;
    } else {
      assert (xs + ys)[0] == xs[0];
      assert (xs + ys)[1..] == xs[1..] + ys;
      SegmentsOfAllAppend(xs[1..], ys);
    }
  }
}
