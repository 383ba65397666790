/** The spot-map camera loop: keep the vehicle boxes of one frame, mark
    each configured parking spot "occupied" when some vehicle box overlaps
    it and "open" otherwise, and report the number of occupied spots.
 */
module SpotOccupancy {
  import opened Detections

  const OCCUPIED: string := "occupied"
  const OPEN: string := "open"

  /** The five spots the loop is configured with. */
  const PARKING_SPOTS: map<string, Box> := map[
    "spot1" := Box(50, 100, 120, 180),
    "spot2" := Box(130, 100, 200, 180),
    "spot3" := Box(210, 100, 280, 180),
    "spot4" := Box(290, 100, 360, 180),
    "spot5" := Box(370, 100, 440, 180)
  ]

  /** Strict overlap of a vehicle box with a spot: boxes that only share an
      edge do not overlap. */
  predicate Overlaps(spot: Box, vb: Box)
  {
    vb.x1 < spot.x2 && vb.x2 > spot.x1 && vb.y1 < spot.y2 && vb.y2 > spot.y1
  }

  predicate AnyOverlap(spot: Box, boxes: seq<Box>)
  {
    exists k :: 0 <= k < |boxes| && Overlaps(spot, boxes[k])
  }

  /** A box whose corners are in order and that has some area. */
  predicate Proper(b: Box)
  {
    b.x1 < b.x2 && b.y1 < b.y2
  }

  function Max(a: int, b: int): int { if a < b then b else a }
  function Min(a: int, b: int): int { if a < b then a else b }

  /** The common part of two rectangles, as a possibly empty box. */
  function Intersection(a: Box, b: Box): Box
  {
    Box(Max(a.x1, b.x1), Max(a.y1, b.y1), Min(a.x2, b.x2), Min(a.y2, b.y2))
  }

  /** For proper boxes, the four strict comparisons say exactly that the two
      rectangles share a region of positive area; touching edges share none. */
  lemma OverlapsIsProperIntersection(spot: Box, vb: Box)
    requires Proper(spot) && Proper(vb)
    ensures Overlaps(spot, vb) <==> Proper(Intersection(spot, vb))
  {
  }

  /** Boxes that only touch along an edge do not occupy the spot. */
  lemma TouchingDoesNotOverlap(spot: Box, vb: Box)
    requires vb.x1 == spot.x2 || vb.x2 == spot.x1 || vb.y1 == spot.y2 || vb.y2 == spot.y1
    ensures !Overlaps(spot, vb)
  {
  }

  /** Looks for a vehicle box that overlaps the spot, stopping at the first. */
  method IsOccupied(spot: Box, boxes: seq<Box>) returns (occupied: bool)
    ensures occupied <==> AnyOverlap(spot, boxes)
    ensures occupied ==> boxes != []
  {
    for k := 0 to |boxes|
      invariant forall j :: 0 <= j < k ==> !Overlaps(spot, boxes[j])
    {
      var vb := boxes[k];
      if vb.x1 < spot.x2 && vb.x2 > spot.x1 && vb.y1 < spot.y2 && vb.y2 > spot.y1 {
        return true;
      }
    }
    return false;
  }

  /** More vehicle boxes, before or after, never free an occupied spot. */
  lemma OccupiedMonotone(spot: Box, boxes: seq<Box>, before: seq<Box>, after: seq<Box>)
    requires AnyOverlap(spot, boxes)
    ensures AnyOverlap(spot, before + boxes + after)
  {
    var k :| 0 <= k < |boxes| && Overlaps(spot, boxes[k]);
    assert (before + boxes + after)[|before| + k] == boxes[k];
  }

  /** Keeps the boxes of the vehicle rows, in row order. */
  method VehicleBoxes(ds: seq<Detection>) returns (boxes: seq<Box>)
    ensures boxes == VehicleBoxesOf(ds)
    ensures |boxes| <= |ds|
  {
    boxes := [];
    for n := 0 to |ds|
      invariant boxes == VehicleBoxesOf(ds[..n])
      invariant |boxes| <= n
    {
      assert ds[..n + 1][..n] == ds[..n];
      var row := ds[n];
      if row.cls in VEHICLE_CLASSES {
        var x1, y1, x2, y2 := row.xmin, row.ymin, row.xmax, row.ymax;
        var w, h := x2 - x1, y2 - y1;
        if w < MIN_SIZE || h < MIN_SIZE {
          continue;
        }
        boxes := boxes + [Box(x1, y1, x2, y2)];
      }
    }
    assert ds[..|ds|] == ds;
  }

  /** Marks every spot "occupied" or "open". */
  method SpotStatus(spots: map<string, Box>, boxes: seq<Box>) returns (status: map<string, string>)
    ensures status.Keys == spots.Keys
    ensures forall name :: name in status ==> (status[name] == OCCUPIED <==> AnyOverlap(spots[name], boxes))
    ensures forall name :: name in status ==> status[name] == OCCUPIED || status[name] == OPEN
  {
    status := map[];
    var remaining := spots.Keys;
    while remaining != {}
      invariant remaining <= spots.Keys
      invariant status.Keys == spots.Keys - remaining
      invariant forall name :: name in status ==> (status[name] == OCCUPIED <==> AnyOverlap(spots[name], boxes))
      invariant forall name :: name in status ==> status[name] == OCCUPIED || status[name] == OPEN
      decreases remaining
    {
      var name :| name in remaining;
      var occupied := IsOccupied(spots[name], boxes);
      status := status[name := if occupied then OCCUPIED else OPEN];
      remaining := remaining - {name};
    }
  }

  /** The spots marked occupied. */
  function OccupiedNames(status: map<string, string>): (names: set<string>)
    ensures names <= status.Keys
  {
    set name | name in status && status[name] == OCCUPIED
  }

  /** The number of "occupied" entries: never negative, never more than
      the number of spots. */
  function OccupiedCount(status: map<string, string>): (n: nat)
    ensures n <= |status|
  {
    var names := OccupiedNames(status);
    assert |status| == |status.Keys|;
    SubsetCardinality(names, status.Keys);
    |names|
  }

  lemma {:induction false} SubsetCardinality(a: set<string>, b: set<string>)
    requires a <= b
    ensures |a| <= |b|
    decreases |b|
  {
    if a != {} {
      var x :| x in a;
      SubsetCardinality(a - {x}, b - {x});
    }
  }

  /** One frame: filter the detections, mark the spots, build the payload. */
  method SpotsFrame(ds: seq<Detection>, spots: map<string, Box>) returns (p: Payload)
    ensures p.lot == LOT_NAME && p.totalSpots == |spots|
    ensures p.spots.Some? && p.spots.value.Keys == spots.Keys
    ensures forall name :: name in spots ==>
      p.spots.value[name] == (if AnyOverlap(spots[name], VehicleBoxesOf(ds)) then OCCUPIED else OPEN)
    ensures p.occupiedSpots == |set name | name in spots && AnyOverlap(spots[name], VehicleBoxesOf(ds))|
    ensures 0 <= p.occupiedSpots <= p.totalSpots
  {
    var boxes := VehicleBoxes(ds);
    var status := SpotStatus(spots, boxes);
    assert OccupiedNames(status) == set name | name in spots && AnyOverlap(spots[name], boxes);
    assert |status| == |spots|;
    p := Payload(LOT_NAME, |spots|, OccupiedCount(status), Some(status));
  }

  /** Every configured spot has some area, and no two configured spots
      overlap. */
  lemma ParkingSpotsLayout()
    ensures forall a :: a in PARKING_SPOTS ==> Proper(PARKING_SPOTS[a])
    ensures forall a, b :: a in PARKING_SPOTS && b in PARKING_SPOTS && a != b ==>
      !Overlaps(PARKING_SPOTS[a], PARKING_SPOTS[b])
  {
    forall a, b | a in PARKING_SPOTS && b in PARKING_SPOTS && a != b
      ensures !Overlaps(PARKING_SPOTS[a], PARKING_SPOTS[b])
    {
      var sa, sb := PARKING_SPOTS[a], PARKING_SPOTS[b];
      assert sa != sb;
    }
  }
}
