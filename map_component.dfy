/**
 * The map view: the click state machine over the selected testimonial and
 * the viewport, the cluster query, the two scatterplot layers and the
 * placement of the testimonial bubble.
 */
module MapView {
  import opened Base
  import opened Values
  import Lists
  import UseData
  import DiseaseMappings

  /**
   * A viewport. `transitionDuration` is set, with a null interpolator, by a
   * cluster click, and absent in the viewports the map itself reports.
   */
  datatype ViewState = ViewState(longitude: real, latitude: real, zoom: real, pitch: real, bearing: real,
                                 transitionDuration: Option<int>)

  /** Centred on the contiguous United States. */
  const INITIAL_VIEW_STATE := ViewState(-98.5795, 39.8283, 3.5, 0.0, 0.0, None)
  const ZOOM_THRESHOLD := 5.0
  const MAX_ZOOM := 20
  const TRANSITION_MS := 500
  /** Both layers' `radiusScale`. */
  const RADIUS_SCALE := 6

  /** A bounding box `[west, south, east, north]`. */
  datatype BBox = BBox(west: real, south: real, east: real, north: real)

  const WORLD := BBox(-180.0, -85.0, 180.0, 85.0)

  /**
   * An entry of a cluster query: a cluster of several points, or one of the
   * points the index was loaded with.
   */
  datatype MapFeature =
    | Cluster(clusterId: nat, pointCount: nat, coordinates: (real, real))
    | Single(point: UseData.Point)

  predicate IsCluster(f: MapFeature) {
    f.Cluster?
  }

  predicate IsSingle(f: MapFeature) {
    !f.Cluster?
  }

  /** The viewport a cluster click flies to: the cluster's position at its expansion zoom, capped at 20. */
  function ZoomTo(v: ViewState, coordinates: (real, real), expansionZoom: int): (r: ViewState)
    ensures r.longitude == coordinates.0 && r.latitude == coordinates.1
    ensures r.zoom <= MAX_ZOOM as real && r.zoom <= expansionZoom as real
    ensures r.zoom == expansionZoom as real || r.zoom == MAX_ZOOM as real
    ensures r.pitch == v.pitch && r.bearing == v.bearing
    ensures r.transitionDuration == Some(TRANSITION_MS)
  {
    var zoom := if expansionZoom <= MAX_ZOOM then expansionZoom else MAX_ZOOM;
    v.(longitude := coordinates.0, latitude := coordinates.1, zoom := zoom as real,
       transitionDuration := Some(TRANSITION_MS))
  }

  /**
   * The cluster query: without an index, nothing; otherwise the index's
   * answer for the whole world at the zoom rounded down, or nothing when the
   * query throws. `getClusters` stands for the index's query (`None` for an
   * exception).
   */
  function ClusterQuery(index: Option<UseData.ClusterIndex>, zoom: real,
                        getClusters: (UseData.ClusterIndex, BBox, int) -> Option<seq<MapFeature>>): (r: seq<MapFeature>)
    ensures index.None? ==> r == []
    ensures r != [] ==> index.Some? && getClusters(index.value, WORLD, zoom.Floor) == Some(r)
    ensures index.Some? && getClusters(index.value, WORLD, zoom.Floor).Some? ==>
      r == getClusters(index.value, WORLD, zoom.Floor).value
  {
    if index.None? then []
    else
      match getClusters(index.value, WORLD, zoom.Floor)
      case None => []
      case Some(clusters) => clusters
  }

  /** Two viewports whose zoom rounds down to the same level ask the same query. */
  lemma QueryByZoomLevel(index: Option<UseData.ClusterIndex>, z1: real, z2: real,
                         getClusters: (UseData.ClusterIndex, BBox, int) -> Option<seq<MapFeature>>)
    requires z1.Floor == z2.Floor
    ensures ClusterQuery(index, z1, getClusters) == ClusterQuery(index, z2, getClusters)
  {
  }

  /** The query at any zoom is the query at the whole zoom level below it. */
  lemma QueryAtLevel(index: Option<UseData.ClusterIndex>, z: real,
                     getClusters: (UseData.ClusterIndex, BBox, int) -> Option<seq<MapFeature>>)
    ensures ClusterQuery(index, z, getClusters) == ClusterQuery(index, z.Floor as real, getClusters)
  {
    assert (z.Floor as real).Floor == z.Floor;
    QueryByZoomLevel(index, z, z.Floor as real, getClusters);
  }

  /** The map component's state. */
  class MapComponent {
    var viewState: ViewState
    var clusteredData: seq<MapFeature>
    /** The clicked point: its properties together with its coordinates. */
    var selectedTestimonial: Option<UseData.Point>

    constructor ()
      ensures viewState == INITIAL_VIEW_STATE && clusteredData == [] && selectedTestimonial == None
    {
      viewState := INITIAL_VIEW_STATE;
      clusteredData := [];
      selectedTestimonial := None;
    }

    /** The effect run when the index, the zoom or the filters change. */
    method UpdateClusters(index: Option<UseData.ClusterIndex>,
                          getClusters: (UseData.ClusterIndex, BBox, int) -> Option<seq<MapFeature>>)
      modifies this
      ensures clusteredData == ClusterQuery(index, viewState.zoom, getClusters)
      ensures viewState == old(viewState) && selectedTestimonial == old(selectedTestimonial)
    {
      if index.Some? {
        var zoom := viewState.zoom.Floor;
        var clusters := getClusters(index.value, WORLD, zoom);
        if clusters.Some? {
          clusteredData := clusters.value;
        } else {
          clusteredData := [];
        }
      } else {
        clusteredData := [];
      }
    }

    /**
     * A click on a layer. `picked` is the object under the pointer;
     * `expansionZoom` stands for the index's expansion zoom of a cluster id.
     */
    method HandleClick(picked: Option<MapFeature>, expansionZoom: nat -> int)
      modifies this
      ensures clusteredData == old(clusteredData)
      ensures picked.None? ==> selectedTestimonial == None && viewState == old(viewState)
      ensures picked.Some? && picked.value.Cluster? ==>
        && selectedTestimonial == None
        && viewState == ZoomTo(old(viewState), picked.value.coordinates, expansionZoom(picked.value.clusterId))
      ensures picked.Some? && picked.value.Single? ==>
        selectedTestimonial == Some(picked.value.point) && viewState == old(viewState)
    {
      if picked.None? {
        selectedTestimonial := None;
        return;
      }
      match picked.value
      case Cluster(clusterId, _, coordinates) =>
        selectedTestimonial := None;
        var zoom := expansionZoom(clusterId);
        if zoom > MAX_ZOOM {
          zoom := MAX_ZOOM;
        }
        viewState := viewState.(longitude := coordinates.0, latitude := coordinates.1, zoom := zoom as real,
                                transitionDuration := Some(TRANSITION_MS));
      case Single(point) =>
        selectedTestimonial := Some(point);
    }

    /**
     * A click anywhere on the map: `picked` is `event.pickInfo?.object`; the
     * bubble closes when it is absent and stays otherwise.
     */
    method HandleMapClick(picked: Option<MapFeature>)
      modifies this
      ensures picked.None? ==> selectedTestimonial == None
      ensures picked.Some? ==> selectedTestimonial == old(selectedTestimonial)
      ensures viewState == old(viewState) && clusteredData == old(clusteredData)
    {
      if picked.None? {
        selectedTestimonial := None;
      }
    }

    /** Panning or zooming by the user replaces the viewport. */
    method OnViewStateChange(v: ViewState)
      modifies this
      ensures viewState == v
      ensures clusteredData == old(clusteredData) && selectedTestimonial == old(selectedTestimonial)
    {
      viewState := v;
    }
  }

  /**
   * A cluster's `getRadius` value grows by 500 per point from 8000 and
   * saturates at 50000; deck.gl scales it by the layer's `radiusScale`.
   */
  function ClusterRadius(f: MapFeature): (r: int)
    ensures DiseaseMappings.CLUSTER.base <= r <= 50000
    ensures f.Cluster? && f.pointCount >= 84 ==> r == 50000
  {
    if f.Cluster? then
      var grown := DiseaseMappings.CLUSTER.base + f.pointCount * 500;
      if grown <= 50000 then grown else 50000
    else DiseaseMappings.CLUSTER.base
  }

  /** A bigger cluster never gets a smaller `getRadius` value. */
  lemma ClusterRadiusMonotone(a: MapFeature, b: MapFeature)
    requires a.Cluster? && b.Cluster? && a.pointCount <= b.pointCount
    ensures ClusterRadius(a) <= ClusterRadius(b)
  {
  }

  /** Below saturation each extra point adds exactly 500 to `getRadius`. */
  lemma ClusterRadiusStep(n: nat, id: nat, at: (real, real))
    requires n < 84
    ensures ClusterRadius(Cluster(id, n + 1, at)) == ClusterRadius(Cluster(id, n, at)) + 500
  {
  }

  /**
   * A scatterplot layer: its name, its data, its `getRadius` value per
   * entry, the scale applied to those values and its on-screen bounds.
   */
  datatype Layer = Layer(id: string, data: seq<MapFeature>, radii: seq<int>, radiusScale: int, radiusMinPixels: int,
                         radiusMaxPixels: int, lineWidth: int)

  function ClusterLayer(clusteredData: seq<MapFeature>): Layer {
    var data := Lists.Filter(clusteredData, IsCluster);
    Layer("clusters", data, seq(|data|, i requires 0 <= i < |data| => ClusterRadius(data[i])), RADIUS_SCALE,
          DiseaseMappings.CLUSTER.minPixels, DiseaseMappings.CLUSTER.maxPixels, 2)
  }

  function TestimonialLayer(clusteredData: seq<MapFeature>): Layer {
    var data := Lists.Filter(clusteredData, IsSingle);
    Layer("testimonials", data, seq(|data|, i requires 0 <= i < |data| => DiseaseMappings.INDIVIDUAL.base), RADIUS_SCALE,
          DiseaseMappings.INDIVIDUAL.minPixels, DiseaseMappings.INDIVIDUAL.maxPixels, 1)
  }

  /** At or beyond zoom 5 the detailed view is on. */
  predicate ShowDetailedView(v: ViewState) {
    v.zoom >= ZOOM_THRESHOLD
  }

  /** The layer list; both branches of the zoom test build the same list. */
  function Layers(clusteredData: seq<MapFeature>, showDetailedView: bool): seq<Layer> {
    if showDetailedView then [ClusterLayer(clusteredData), TestimonialLayer(clusteredData)]
    else [ClusterLayer(clusteredData), TestimonialLayer(clusteredData)]
  }

  /** The zoom level does not change what is drawn. */
  lemma LayersIgnoreZoom(clusteredData: seq<MapFeature>, v: ViewState)
    ensures Layers(clusteredData, ShowDetailedView(v)) == Layers(clusteredData, false)
    ensures Layers(clusteredData, true) == Layers(clusteredData, false)
  {
  }

  /**
   * The two layers split the query result: every entry is drawn by exactly
   * one of them, clusters by the cluster layer and points by the
   * testimonial layer, each in query order.
   */
  lemma LayerPartition(clusteredData: seq<MapFeature>, f: MapFeature)
    ensures |ClusterLayer(clusteredData).data| + |TestimonialLayer(clusteredData).data| == |clusteredData|
    ensures multiset(ClusterLayer(clusteredData).data) + multiset(TestimonialLayer(clusteredData).data)
         == multiset(clusteredData)
    ensures f in ClusterLayer(clusteredData).data <==> f in clusteredData && f.Cluster?
    ensures f in TestimonialLayer(clusteredData).data <==> f in clusteredData && f.Single?
  {
    Lists.FilterSplit(clusteredData, IsCluster, IsSingle);
    Lists.FilterMembers(clusteredData, IsCluster, f);
    Lists.FilterMembers(clusteredData, IsSingle, f);
  }

  /**
   * Every cluster's `getRadius` value lies between 8000 and 50000, every
   * point's is 5000, and both layers scale them by 6.
   */
  lemma LayerRadii(clusteredData: seq<MapFeature>)
    ensures forall r :: r in ClusterLayer(clusteredData).radii ==> 8000 <= r <= 50000
    ensures forall r :: r in TestimonialLayer(clusteredData).radii ==> r == 5000
    ensures ClusterLayer(clusteredData).radiusScale == TestimonialLayer(clusteredData).radiusScale == RADIUS_SCALE
  {
  }

  /** A point's fill: the colour of its classification, gray when it has none. */
  function PointFill(p: UseData.Point): (c: DiseaseMappings.Rgba)
    ensures DiseaseMappings.ValidColor(c)
  {
    DiseaseMappings.GetDiseaseColor(JsValueString(p.disease)).value
  }

  /** The bubble's offset from the centre of the map: `calc(50% + left px)` and `calc(50% - up px)`. */
  datatype BubblePosition = BubblePosition(left: real, up: real)

  /** 100 pixels per degree from the viewport centre; no bubble without a selection. */
  function TestimonialPosition(selected: Option<UseData.Point>, v: ViewState): (r: Option<BubblePosition>)
    ensures r.None? <==> selected.None?
  {
    if selected.None? then None
    else
      var (x, y) := selected.value.coordinates;
      Some(BubblePosition((x - v.longitude) * 100.0, (y - v.latitude) * 100.0))
  }

  /**
   * A point east of the centre is drawn right of it, north of the centre
   * above it, and a point at the centre exactly there.
   */
  lemma PositionDirection(p: UseData.Point, v: ViewState)
    ensures var pos := TestimonialPosition(Some(p), v).value;
      && (pos.left > 0.0 <==> p.coordinates.0 > v.longitude)
      && (pos.up > 0.0 <==> p.coordinates.1 > v.latitude)
      && (pos.left == 0.0 <==> p.coordinates.0 == v.longitude)
      && (pos.up == 0.0 <==> p.coordinates.1 == v.latitude)
  {
  }

  /** Panning the viewport by some degrees moves the bubble the opposite way by 100 pixels per degree. */
  lemma PositionFollowsPan(p: UseData.Point, v: ViewState, dx: real, dy: real)
    ensures var before := TestimonialPosition(Some(p), v).value;
      var after := TestimonialPosition(Some(p), v.(longitude := v.longitude + dx, latitude := v.latitude + dy)).value;
      after.left == before.left - dx * 100.0 && after.up == before.up - dy * 100.0
  {
  }
}
