/** The tracking map (src/components/tracking/ShipmentMap.tsx): the points
    taken from shipments that carry numeric coordinates, the focused point, the
    map centre, and what the component shows. Shipments arrive untyped, so they
    are `Value`s. */
module ShipmentMap {
  import opened Values
  import opened Geo

  /** One marker: copied from a shipment whose coordinates are numbers. */
  datatype ShipmentPoint = ShipmentPoint(shipmentId: Value, status: Value, city: Value, country: Value,
                                         lat: real, lng: real)

  /** The map callback: a point when `currentLocation.coordinates` is truthy and
      has numeric `lat` and `lng`, otherwise nothing (the `null` that
      `filter(Boolean)` removes). */
  function PointOf(s: Value): (p: Option<ShipmentPoint>)
    ensures p.Some? <==> (var coords := Get(Get(s, "currentLocation"), "coordinates");
                           Truthy(coords) && Get(coords, "lat").Num? && Get(coords, "lng").Num?)
    ensures p.Some? ==> && p.value.shipmentId == Get(s, "shipmentId")
                        && p.value.status == Get(s, "status")
                        && p.value.city == Get(Get(s, "currentLocation"), "city")
                        && p.value.country == Get(Get(s, "currentLocation"), "country")
                        && Num(p.value.lat) == Get(Get(Get(s, "currentLocation"), "coordinates"), "lat")
                        && Num(p.value.lng) == Get(Get(Get(s, "currentLocation"), "coordinates"), "lng")
  {
    var location := Get(s, "currentLocation");
    var coords := Get(location, "coordinates");
    if !Truthy(coords) || !Get(coords, "lat").Num? || !Get(coords, "lng").Num? then None
    else Some(ShipmentPoint(Get(s, "shipmentId"), Get(s, "status"), Get(location, "city"),
                            Get(location, "country"), Get(coords, "lat").n, Get(coords, "lng").n))
  }

  /** `(shipments || []).map(...).filter(Boolean)`. */
  function PointsOf(shipments: seq<Value>): (points: seq<ShipmentPoint>)
    ensures |points| <= |shipments|
  {
    if shipments == [] then []
    else
      var rest := PointsOf(shipments[1..]);
      match PointOf(shipments[0])
      case Some(p) => [p] + rest
      case None => rest
  }

  function Points(shipments: Option<seq<Value>>): seq<ShipmentPoint> {
    if shipments.None? then [] else PointsOf(shipments.value)
  }

  /** Extraction works piecewise, so it keeps the shipments' order. */
  lemma {:induction false} PointsOfAppend(a: seq<Value>, b: seq<Value>)
    ensures PointsOf(a + b) == PointsOf(a) + PointsOf(b)
  {
    if a == [] {
      assert a + b == b;
    } else {
      assert (a + b)[1..] == a[1..] + b;
      PointsOfAppend(a[1..], b);
    }
  }

  /** A point is listed exactly when some shipment yields it. */
  lemma {:induction false} PointsOfMembers(shipments: seq<Value>, p: ShipmentPoint)
    ensures p in PointsOf(shipments) <==> exists i :: 0 <= i < |shipments| && PointOf(shipments[i]) == Some(p)
  {
    if shipments != [] {
      var tail := shipments[1..];
      PointsOfMembers(tail, p);
      assert p in PointsOf(shipments) <==> PointOf(shipments[0]) == Some(p) || p in PointsOf(tail);
      if p in PointsOf(tail) {
        var i :| 0 <= i < |tail| && PointOf(tail[i]) == Some(p);
        assert shipments[i + 1] == tail[i];
      }
      if exists i :: 1 <= i < |shipments| && PointOf(shipments[i]) == Some(p) {
        var i :| 1 <= i < |shipments| && PointOf(shipments[i]) == Some(p);
        assert tail[i - 1] == shipments[i];
      }
    }
  }

  /** Every shipment with numeric coordinates gives a point: the length of the
      list is the number of such shipments. */
  lemma {:induction false} PointsOfAllLocated(shipments: seq<Value>)
    requires forall i :: 0 <= i < |shipments| ==> PointOf(shipments[i]).Some?
    ensures |PointsOf(shipments)| == |shipments|
    ensures forall i :: 0 <= i < |shipments| ==> PointsOf(shipments)[i] == PointOf(shipments[i]).value
  {
    if shipments != [] {
      assert PointOf(shipments[0]).Some?;
      PointsOfAllLocated(shipments[1..]);
      assert forall i :: 1 <= i < |shipments| ==> shipments[1..][i - 1] == shipments[i];
    }
  }

  /** `p.shipmentId === focusedId`. */
  predicate IsFocus(p: ShipmentPoint, focusedId: Value) {
    StrictEquals(p.shipmentId, focusedId)
  }

  /** `points.find(...)`, as a position. */
  function FocusIndex(points: seq<ShipmentPoint>, focusedId: Value): (r: Option<nat>)
    ensures r.Some? ==> r.value < |points| && IsFocus(points[r.value], focusedId)
    ensures r.Some? ==> forall j :: 0 <= j < r.value ==> !IsFocus(points[j], focusedId)
    ensures r.None? ==> forall j :: 0 <= j < |points| ==> !IsFocus(points[j], focusedId)
  {
    if points == [] then None
    else if IsFocus(points[0], focusedId) then Some(0)
    else match FocusIndex(points[1..], focusedId)
         case Some(k) => Some(k + 1)
         case None => None
  }

  /** `points.find((p) => p.shipmentId === focusedId) || null`. */
  function Focused(points: seq<ShipmentPoint>, focusedId: Value): Option<ShipmentPoint> {
    match FocusIndex(points, focusedId)
    case Some(i) => Some(points[i])
    case None => None
  }

  /** The focused point is the first one whose id is `focusedId`; there is none
      exactly when no point has that id. */
  lemma FocusedIsFirstMatch(points: seq<ShipmentPoint>, focusedId: Value)
    ensures Focused(points, focusedId).None? <==> forall j :: 0 <= j < |points| ==> !IsFocus(points[j], focusedId)
    ensures Focused(points, focusedId).Some? ==>
      exists i :: 0 <= i < |points| && Focused(points, focusedId) == Some(points[i])
                  && IsFocus(points[i], focusedId) && forall j :: 0 <= j < i ==> !IsFocus(points[j], focusedId)
  {
    var r := FocusIndex(points, focusedId);
    if r.Some? {
      assert Focused(points, focusedId) == Some(points[r.value]);
    }
  }

  /** An id string focuses exactly the points carrying that string. */
  lemma IsFocusOnId(p: ShipmentPoint, id: string)
    ensures IsFocus(p, Str(id)) <==> p.shipmentId == Str(id)
  {
  }

  /** With no `focusedId` given (undefined), exactly the points whose shipment
      has no `shipmentId` are focus candidates, because `undefined ===
      undefined`; with `FocusedIsFirstMatch` the first of them is focused. */
  lemma MissingIdsMatchMissingFocus(p: ShipmentPoint)
    ensures IsFocus(p, Undefined) <==> p.shipmentId == Undefined
  {
  }

  function Centre(points: seq<ShipmentPoint>, focused: Option<ShipmentPoint>): Coordinates {
    if focused.Some? then Coordinates(focused.value.lat, focused.value.lng)
    else if |points| > 0 then Coordinates(points[0].lat, points[0].lng)
    else London
  }

  /** The centre is the focused point, else the first point, else London. */
  lemma CentreRule(points: seq<ShipmentPoint>, focusedId: Value)
    ensures points == [] ==> Centre(points, Focused(points, focusedId)) == London
    ensures (forall j :: 0 <= j < |points| ==> !IsFocus(points[j], focusedId)) && points != []
            ==> Centre(points, Focused(points, focusedId)) == Coordinates(points[0].lat, points[0].lng)
    ensures forall i :: (0 <= i < |points| && IsFocus(points[i], focusedId)
                         && (forall j :: 0 <= j < i ==> !IsFocus(points[j], focusedId)))
                        ==> Centre(points, Focused(points, focusedId)) == Coordinates(points[i].lat, points[i].lng)
  {
    FocusedIsFirstMatch(points, focusedId);
  }

  /** What the component renders. */
  datatype MapView = LoadingMap | NoLocations | Unavailable(listed: seq<ShipmentPoint>)

  /** Before mounting the loading box; with no points the placeholder; else the
      "map unavailable" card listing at most the first four points. */
  function View(isClient: bool, points: seq<ShipmentPoint>): MapView {
    if !isClient then LoadingMap
    else if |points| == 0 then NoLocations
    else Unavailable(if |points| <= 4 then points else points[..4])
  }

  /** While the shipments query loads (`undefined`) there are no points, so a
      mounted map shows the placeholder. */
  lemma LoadingShipmentsShowPlaceholder()
    ensures Points(None) == []
    ensures View(true, Points(None)) == NoLocations
  {
  }

  lemma ViewRule(isClient: bool, points: seq<ShipmentPoint>)
    ensures !isClient <==> View(isClient, points).LoadingMap?
    ensures isClient ==> (View(isClient, points).NoLocations? <==> points == [])
    ensures View(isClient, points).Unavailable? ==>
      var listed := View(isClient, points).listed;
      && listed <= points && |listed| == (if |points| < 4 then |points| else 4) && listed != []
  {
  }
}
