/**
 * The admin layout's breadcrumb trail (components/admin-layout.tsx): like
 * the buyer's, but rooted at the dashboard and skipping `resumen` segments.
 */
module AdminLayout {
  import opened Common
  import opened Breadcrumbs

  /** `pathMap`. */
  const AdminPathMap: map<string, string> := map[
    "resumen" := "Dashboard",
    "eventos" := "Create Event",
    "my-events" := "My Events",
    "asistentes" := "Attendees",
    "escaner" := "Scanner",
    "analiticas" := "Analytics",
    "registro" := "Registration",
    "profile" := "Profile"
  ]

  /** The segments that get a crumb: every one but `resumen`. */
  predicate KeptSegment(segment: string) {
    segment != "resumen"
  }

  /**
   * The crumbs of the kept segments among the first `n`. Each keeps the
   * segment's original index, so its href runs through any skipped
   * `resumen` and it is active only if it is the path's last segment.
   */
  function KeptCrumbs(pathMap: map<string, string>, keep: string -> bool, segs: seq<string>, n: nat): (r: seq<Crumb>)
    requires n <= |segs|
    ensures |r| <= n
  {
    if n == 0 then []
    else if keep(segs[n - 1]) then KeptCrumbs(pathMap, keep, segs, n - 1) + [SegmentCrumb(pathMap, segs, n - 1)]
    else KeptCrumbs(pathMap, keep, segs, n - 1)
  }

  /** The trail: Dashboard (active only on `/resumen`), then the kept segments' crumbs. */
  function AdminCrumbs(pathname: string): seq<Crumb> {
    var segs := Segments(pathname);
    [Crumb("Dashboard", "/resumen", pathname == "/resumen")] + KeptCrumbs(AdminPathMap, KeptSegment, segs, |segs|)
  }

  /** `generateBreadcrumbs`: push Dashboard, then a crumb for every segment but `resumen`. */
  method GenerateBreadcrumbs(pathname: string) returns (crumbs: seq<Crumb>)
    ensures crumbs == AdminCrumbs(pathname)
  {
    var segs := Segments(pathname);
    var home := Crumb("Dashboard", "/resumen", pathname == "/resumen");
    crumbs := PushKeptCrumbs(AdminPathMap, KeptSegment, segs, home);
  }

  /**
   * The `forEach` of `generateBreadcrumbs`, after `home` has been pushed,
   * with the `segment !== 'resumen'` test passed in as `keep`.
   */
  method PushKeptCrumbs(pathMap: map<string, string>, keep: string -> bool, segs: seq<string>, home: Crumb)
    returns (crumbs: seq<Crumb>)
    ensures crumbs == [home] + KeptCrumbs(pathMap, keep, segs, |segs|)
  {
    crumbs := [home];
    var i := 0;
    while i < |segs|
      invariant 0 <= i <= |segs|
      invariant crumbs == [home] + KeptCrumbs(pathMap, keep, segs, i)
    {
      var segment := segs[i];
      if keep(segment) {
        var title := Label(pathMap, segment);
        var href := Href(segs, i + 1);
        var isActive := i == |segs| - 1;
        ghost var done := KeptCrumbs(pathMap, keep, segs, i);
        assert Crumb(title, href, isActive) == SegmentCrumb(pathMap, segs, i);
        assert [home] + done + [Crumb(title, href, isActive)] == [home] + (done + [SegmentCrumb(pathMap, segs, i)]);
        crumbs := crumbs + [Crumb(title, href, isActive)];
      }
      i := i + 1;
    }
  }

  /** One crumb per kept segment: the trail is one longer than the segments left after dropping `resumen`. */
  lemma {:induction false} KeptCount(pathMap: map<string, string>, keep: string -> bool, segs: seq<string>, n: nat)
    requires n <= |segs|
    ensures |KeptCrumbs(pathMap, keep, segs, n)| == |Filter(segs[..n], keep)|
  {
    if n > 0 {
      KeptCount(pathMap, keep, segs, n - 1);
      assert segs[..n] == segs[..n - 1] + [segs[n - 1]];
      FilterAppend(segs[..n - 1], [segs[n - 1]], keep);
      FilterCons(segs[n - 1], [], keep);
      assert [segs[n - 1]] + [] == [segs[n - 1]];
    }
  }

  /** Every crumb comes from a segment other than `resumen`. */
  lemma {:induction false} KeptSound(pathMap: map<string, string>, keep: string -> bool, segs: seq<string>, n: nat)
    requires n <= |segs|
    ensures forall c :: c in KeptCrumbs(pathMap, keep, segs, n) ==>
      exists i :: 0 <= i < n && keep(segs[i]) && c == SegmentCrumb(pathMap, segs, i)
  {
    if n > 0 {
      KeptSound(pathMap, keep, segs, n - 1);
      var before := KeptCrumbs(pathMap, keep, segs, n - 1);
      forall c | c in KeptCrumbs(pathMap, keep, segs, n)
        ensures exists i :: 0 <= i < n && keep(segs[i]) && c == SegmentCrumb(pathMap, segs, i)
      {
        if c !in before {
          assert keep(segs[n - 1]) && c == SegmentCrumb(pathMap, segs, n - 1);
        }
      }
    }
  }

  /** Every segment other than `resumen` has its crumb. */
  lemma {:induction false} KeptComplete(pathMap: map<string, string>, keep: string -> bool, segs: seq<string>, n: nat)
    requires n <= |segs|
    ensures forall i :: 0 <= i < n && keep(segs[i]) ==> SegmentCrumb(pathMap, segs, i) in KeptCrumbs(pathMap, keep, segs, n)
  {
    if n > 0 {
      KeptComplete(pathMap, keep, segs, n - 1);
      var before := KeptCrumbs(pathMap, keep, segs, n - 1);
      var kept := KeptCrumbs(pathMap, keep, segs, n);
      var last := SegmentCrumb(pathMap, segs, n - 1);
      assert forall c :: c in before ==> c in kept;
      assert keep(segs[n - 1]) ==> kept == before + [last] && last in kept;
    }
  }

  /** Before the last segment no crumb is active. */
  lemma {:induction false} NoneActiveBefore(pathMap: map<string, string>, keep: string -> bool, segs: seq<string>, n: nat)
    requires n < |segs|
    ensures forall c :: c in KeptCrumbs(pathMap, keep, segs, n) ==> !c.isActive
  {
    if n > 0 {
      NoneActiveBefore(pathMap, keep, segs, n - 1);
    }
  }

  /**
   * Only the last crumb can be active, and it is exactly when the path's
   * last segment is not `resumen`; a trailing `resumen` leaves none active.
   */
  lemma ActiveCrumb(pathMap: map<string, string>, keep: string -> bool, segs: seq<string>)
    requires |segs| > 0
    ensures var kept := KeptCrumbs(pathMap, keep, segs, |segs|);
      forall k :: 0 <= k < |kept| ==> (kept[k].isActive <==> k == |kept| - 1 && keep(segs[|segs| - 1]))
  {
    var n := |segs|;
    var kept := KeptCrumbs(pathMap, keep, segs, n);
    var before := KeptCrumbs(pathMap, keep, segs, n - 1);
    NoneActiveBefore(pathMap, keep, segs, n - 1);
    forall k | 0 <= k < |kept|
      ensures kept[k].isActive <==> k == |kept| - 1 && keep(segs[n - 1])
    {
      if k < |before| {
        assert kept[k] == before[k];
        assert before[k] in before;
      }
    }
  }

  /** A skipped `resumen` still appears in the hrefs after it. */
  lemma HrefKeepsSkippedSegment()
    ensures KeptCrumbs(AdminPathMap, KeptSegment, ["resumen", "x"], 2) == [Crumb("X", "/resumen/x", true)]
  {
    var segs := ["resumen", "x"];
    assert KeptCrumbs(AdminPathMap, KeptSegment, segs, 1) == [];
    assert "x" !in AdminPathMap;
    assert Capitalize("x") == "X" by {
      assert UpperChar('x') == 'X';
    }
    assert segs[..2] == segs;
    assert Join(segs, "/") == "resumen/x";
    assert SegmentCrumb(AdminPathMap, segs, 1) == Crumb("X", "/resumen/x", true);
  }

  /** On `/resumen` the trail is the active dashboard crumb alone. */
  lemma DashboardTrail()
    ensures AdminCrumbs("/resumen") == [Crumb("Dashboard", "/resumen", true)]
  {
    OneSegment("resumen");
    assert "/" + "resumen" == "/resumen";
    assert KeptCrumbs(AdminPathMap, KeptSegment, ["resumen"], 1) == [];
  }
}
