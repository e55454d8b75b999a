/**
 * What the two layouts' `generateBreadcrumbs` share: the path's segments,
 * the href of a segment prefix, and a segment's label.
 */
module Breadcrumbs {
  import opened Common

  /** One entry of the trail: `{ label, href, isActive }`, the label as `title`. */
  datatype Crumb = Crumb(title: string, href: string, isActive: bool)

  /** `pathname.split('/').filter(Boolean)`: the non-empty parts between slashes. */
  function Segments(pathname: string): (segs: seq<string>)
    ensures forall k :: 0 <= k < |segs| ==> segs[k] != "" && '/' !in segs[k]
  {
    Filter(Split(pathname, '/'), (s: string) => s != "")
  }

  /** `'/' + pathSegments.slice(0, n).join('/')`. */
  function Href(segs: seq<string>, n: nat): string
    requires n <= |segs|
  {
    "/" + Join(segs[..n], "/")
  }

  /** Each href is the previous one followed by `/` and the next segment. */
  lemma HrefExtends(segs: seq<string>, n: nat)
    requires 1 <= n < |segs|
    ensures Href(segs, 1) == "/" + segs[0]
    ensures Href(segs, n + 1) == Href(segs, n) + "/" + segs[n]
  {
    assert segs[..1] == [segs[0]];
    assert segs[..n + 1] == segs[..n] + [segs[n]];
    JoinSnoc(segs[..n], segs[n], "/");
  }

  /** `pathMap[segment] || segment.charAt(0).toUpperCase() + segment.slice(1)`. */
  function Label(pathMap: map<string, string>, segment: string): string {
    if segment in pathMap && pathMap[segment] != "" then pathMap[segment] else Capitalize(segment)
  }

  /** The crumb the loop builds for segment `i`. */
  function SegmentCrumb(pathMap: map<string, string>, segs: seq<string>, i: nat): Crumb
    requires i < |segs|
  {
    Crumb(Label(pathMap, segs[i]), Href(segs, i + 1), i == |segs| - 1)
  }

  /** The crumbs of the first `n` segments, in order. */
  function SegmentCrumbs(pathMap: map<string, string>, segs: seq<string>, n: nat): (r: seq<Crumb>)
    requires n <= |segs|
    ensures |r| == n
    ensures forall k :: 0 <= k < n ==> r[k] == SegmentCrumb(pathMap, segs, k)
  {
    if n == 0 then [] else SegmentCrumbs(pathMap, segs, n - 1) + [SegmentCrumb(pathMap, segs, n - 1)]
  }

  /** A home crumb followed by one crumb per segment. */
  function Trail(home: Crumb, pathMap: map<string, string>, segs: seq<string>): seq<Crumb> {
    [home] + SegmentCrumbs(pathMap, segs, |segs|)
  }

  /**
   * A trail holds its home crumb, then exactly one crumb per segment, in
   * order, each labelled from the map, linking to its prefix, and active
   * only when last.
   */
  lemma TrailShape(home: Crumb, pathMap: map<string, string>, segs: seq<string>)
    ensures |Trail(home, pathMap, segs)| == 1 + |segs|
    ensures Trail(home, pathMap, segs)[0] == home
    ensures forall k :: 1 <= k <= |segs| ==>
      Trail(home, pathMap, segs)[k].title == Label(pathMap, segs[k - 1]) &&
      Trail(home, pathMap, segs)[k].href == Href(segs, k) &&
      (Trail(home, pathMap, segs)[k].isActive <==> k == |segs|)
  {
    var t := Trail(home, pathMap, segs);
    var tail := SegmentCrumbs(pathMap, segs, |segs|);
    forall k | 1 <= k <= |segs|
      ensures t[k] == SegmentCrumb(pathMap, segs, k - 1)
    {
      assert t[k] == tail[k - 1];
    }
  }

  /** Every href after the first is the previous one followed by `/` and the next segment. */
  lemma HrefsNest(segs: seq<string>)
    ensures |segs| > 0 ==> Href(segs, 1) == "/" + segs[0]
    ensures forall k :: 1 <= k < |segs| ==>
      Href(segs, k + 1) == Href(segs, k) + "/" + segs[k] && Href(segs, k) < Href(segs, k + 1)
  {
    if |segs| > 0 {
      assert segs[..1] == [segs[0]];
    }
    forall k | 1 <= k < |segs|
      ensures Href(segs, k + 1) == Href(segs, k) + "/" + segs[k] && Href(segs, k) < Href(segs, k + 1)
    {
      HrefExtends(segs, k);
      assert Href(segs, k) < Href(segs, k) + ("/" + segs[k]);
    }
  }

  /** `/` has no segments. */
  lemma RootHasNoSegments()
    ensures Segments("/") == []
  {
    assert IndexOf("/", '/') == 0;
    assert "/"[1..] == "";
    assert Split("", '/') == [""];
    assert Split("/", '/') == [""] + [""];
  }

  /** A path of one non-empty segment has that segment alone. */
  lemma OneSegment(w: string)
    requires w != "" && '/' !in w
    ensures Segments("/" + w) == [w]
  {
    var p := "/" + w;
    assert p[0] == '/';
    assert p[1..] == w;
    assert IndexOf(w, '/') == |w|;
    assert Split(w, '/') == [w];
    assert Split(p, '/') == [""] + [w];
    assert Filter([w], (s: string) => s != "") == [w] + Filter([w][1..], (s: string) => s != "");
  }
}
