/** The buyer layout's breadcrumb trail (components/buyer-layout.tsx). */
module BuyerLayout {
  import opened Common
  import opened Breadcrumbs

  /** `pathMap`. */
  const BuyerPathMap: map<string, string> := map[
    "events" := "Browse Events",
    "event" := "Event Details",
    "tickets" := "My Tickets",
    "cart" := "Shopping Cart",
    "payment" := "Payment",
    "confirmation" := "Order Confirmation",
    "profile" := "Profile"
  ]

  /** The trail: Home (active only on `/`), then one crumb per segment. */
  function BuyerCrumbs(pathname: string): seq<Crumb> {
    Trail(Crumb("Home", "/", pathname == "/"), BuyerPathMap, Segments(pathname))
  }

  /**
   * `generateBreadcrumbs`: push Home, then walk the segments pushing a
   * crumb for each unless the segment is empty on `/`, which, the segments
   * being non-empty, never happens.
   */
  method GenerateBreadcrumbs(pathname: string) returns (crumbs: seq<Crumb>)
    ensures crumbs == BuyerCrumbs(pathname)
  {
    var segs := Segments(pathname);
    var home := Crumb("Home", "/", pathname == "/");
    crumbs := [home];
    var i := 0;
    while i < |segs|
      invariant 0 <= i <= |segs|
      invariant crumbs == [home] + SegmentCrumbs(BuyerPathMap, segs, i)
    {
      var segment := segs[i];
      var title := Label(BuyerPathMap, segment);
      var href := Href(segs, i + 1);
      var isActive := i == |segs| - 1;
      if !(segment == "" && pathname == "/") {
        ghost var done := SegmentCrumbs(BuyerPathMap, segs, i);
        assert Crumb(title, href, isActive) == SegmentCrumb(BuyerPathMap, segs, i);
        assert [home] + done + [Crumb(title, href, isActive)] == [home] + (done + [SegmentCrumb(BuyerPathMap, segs, i)]);
        crumbs := crumbs + [Crumb(title, href, isActive)];
      }
      i := i + 1;
    }
  }

  /**
   * The trail's shape: Home first, then exactly one crumb per segment with
   * its label and prefix href, only the last one active, each href
   * extending the one before.
   */
  lemma BuyerCrumbsShape(pathname: string, segs: seq<string>)
    requires segs == Segments(pathname)
    ensures |BuyerCrumbs(pathname)| == 1 + |segs|
    ensures BuyerCrumbs(pathname)[0] == Crumb("Home", "/", pathname == "/")
    ensures forall k :: 1 <= k <= |segs| ==>
      BuyerCrumbs(pathname)[k].title == Label(BuyerPathMap, segs[k - 1]) &&
      BuyerCrumbs(pathname)[k].href == Href(segs, k) &&
      (BuyerCrumbs(pathname)[k].isActive <==> k == |segs|)
    ensures forall k :: 1 <= k < |segs| ==> BuyerCrumbs(pathname)[k].href < BuyerCrumbs(pathname)[k + 1].href
  {
    TrailShape(Crumb("Home", "/", pathname == "/"), BuyerPathMap, segs);
    HrefsNest(segs);
  }

  /** On `/` the trail is Home alone, and active. */
  lemma HomeTrail()
    ensures BuyerCrumbs("/") == [Crumb("Home", "/", true)]
  {
    RootHasNoSegments();
  }
}
