/** Rows of the object detector's output and the vehicle filter that both
    camera loops apply to them: a row is a vehicle when its class is car,
    motorcycle, bus or truck and its box is at least 30 pixels on each side.
 */
module Detections {

  datatype Option<T> = None | Some(value: T)

  /** One detector row, its corner coordinates already cast to integers. */
  datatype Detection = Detection(cls: int, xmin: int, ymin: int, xmax: int, ymax: int)

  /** An axis-aligned rectangle given by its corners (x1, y1) and (x2, y2). */
  datatype Box = Box(x1: int, y1: int, x2: int, y2: int)

  /** The JSON object a camera loop sends; `spots` is absent in the plain
      tally and holds the per-spot status in the spot-map variant. */
  datatype Payload = Payload(lot: string, totalSpots: int, occupiedSpots: int, spots: Option<map<string, string>>)

  const LOT_NAME: string := "LotA"

  /** Car, motorcycle, bus, truck. */
  const VEHICLE_CLASSES: seq<int> := [2, 3, 5, 7]

  /** Boxes narrower or lower than this many pixels are skipped. */
  const MIN_SIZE: int := 30

  function BoxOf(d: Detection): Box
  {
    Box(d.xmin, d.ymin, d.xmax, d.ymax)
  }

  predicate LargeEnough(d: Detection)
  {
    !(d.xmax - d.xmin < MIN_SIZE || d.ymax - d.ymin < MIN_SIZE)
  }

  predicate IsVehicle(d: Detection)
  {
    d.cls in VEHICLE_CLASSES && LargeEnough(d)
  }

  /** The number of vehicle rows. */
  function VehicleCount(ds: seq<Detection>): nat
  {
    if ds == [] then 0
    else VehicleCount(ds[..|ds| - 1]) + (if IsVehicle(ds[|ds| - 1]) then 1 else 0)
  }

  /** The boxes of the vehicle rows, in row order. */
  function VehicleBoxesOf(ds: seq<Detection>): seq<Box>
  {
    if ds == [] then []
    else VehicleBoxesOf(ds[..|ds| - 1]) + (if IsVehicle(ds[|ds| - 1]) then [BoxOf(ds[|ds| - 1])] else [])
  }

  /** The positions of the vehicle rows. */
  ghost function VehicleIndices(ds: seq<Detection>): set<int>
  {
    set k | 0 <= k < |ds| && IsVehicle(ds[k])
  }

  /** The count is the number of vehicle positions: the loop's tally agrees
      with a definition that does not depend on visiting order. */
  lemma {:induction false} VehicleCountIsIndexCount(ds: seq<Detection>)
    ensures VehicleCount(ds) == |VehicleIndices(ds)|
    decreases |ds|
  {
    if ds != [] {
      var n := |ds| - 1;
      var front := ds[..n];
      VehicleCountIsIndexCount(front);
      var before := VehicleIndices(front);
      assert forall k :: 0 <= k < n ==> front[k] == ds[k];
      if IsVehicle(ds[n]) {
        assert VehicleIndices(ds) == before + {n};
        assert n !in before;
      } else {
        assert VehicleIndices(ds) == before;
      }
    }
  }

  /** Never more vehicles than rows. */
  lemma {:induction false} VehicleCountBounded(ds: seq<Detection>)
    ensures VehicleCount(ds) <= |ds|
    decreases |ds|
  {
    if ds != [] {
      VehicleCountBounded(ds[..|ds| - 1]);
    }
  }

  /** Counting distributes over splitting the rows. */
  lemma {:induction false} VehicleCountAppend(a: seq<Detection>, b: seq<Detection>)
    ensures VehicleCount(a + b) == VehicleCount(a) + VehicleCount(b)
    decreases |b|
  {
    if b == [] {
      assert a + b == a;
    } else {
      var b' := b[..|b| - 1];
      assert (a + b)[..|a + b| - 1] == a + b';
      VehicleCountAppend(a, b');
    }
  }

  /** A row too small in either direction never changes the count,
      whatever its class and wherever it stands. */
  lemma SmallRowIgnored(a: seq<Detection>, d: Detection, b: seq<Detection>)
    requires d.xmax - d.xmin < MIN_SIZE || d.ymax - d.ymin < MIN_SIZE
    ensures VehicleCount(a + [d] + b) == VehicleCount(a + b)
  {
    VehicleCountAppend(a + [d], b);
    VehicleCountAppend(a, [d]);
    VehicleCountAppend(a, b);
    assert [d][..0] == [];
  }

  /** When every row is a vehicle the count is the number of rows. */
  lemma {:induction false} AllVehiclesCounted(ds: seq<Detection>)
    requires forall k :: 0 <= k < |ds| ==> IsVehicle(ds[k])
    ensures VehicleCount(ds) == |ds|
    decreases |ds|
  {
    if ds != [] {
      AllVehiclesCounted(ds[..|ds| - 1]);
    }
  }

  /** The box list keeps row order: filtering two runs of rows one after
      the other gives the two filtered lists one after the other. */
  lemma {:induction false} VehicleBoxesAppend(a: seq<Detection>, b: seq<Detection>)
    ensures VehicleBoxesOf(a + b) == VehicleBoxesOf(a) + VehicleBoxesOf(b)
    decreases |b|
  {
    if b == [] {
      assert a + b == a;
    } else {
      var b' := b[..|b| - 1];
      assert (a + b)[..|a + b| - 1] == a + b';
      VehicleBoxesAppend(a, b');
    }
  }

  /** A box is listed exactly when some vehicle row has it. */
  lemma {:induction false} VehicleBoxesMembers(ds: seq<Detection>, b: Box)
    ensures b in VehicleBoxesOf(ds) <==> exists k :: 0 <= k < |ds| && IsVehicle(ds[k]) && BoxOf(ds[k]) == b
    decreases |ds|
  {
    if ds != [] {
      var n := |ds| - 1;
      VehicleBoxesMembers(ds[..n], b);
      assert forall k :: 0 <= k < n ==> ds[..n][k] == ds[k];
      if b in VehicleBoxesOf(ds) && b !in VehicleBoxesOf(ds[..n]) {
        assert IsVehicle(ds[n]) && BoxOf(ds[n]) == b;
      }
    }
  }

  /** Every listed box is at least 30 pixels on each side, and there are as
      many boxes as vehicles counted. */
  lemma {:induction false} VehicleBoxesShape(ds: seq<Detection>)
    ensures |VehicleBoxesOf(ds)| == VehicleCount(ds)
    ensures forall k :: 0 <= k < |VehicleBoxesOf(ds)| ==>
      VehicleBoxesOf(ds)[k].x2 - VehicleBoxesOf(ds)[k].x1 >= MIN_SIZE &&
      VehicleBoxesOf(ds)[k].y2 - VehicleBoxesOf(ds)[k].y1 >= MIN_SIZE
    decreases |ds|
  {
    if ds != [] {
      VehicleBoxesShape(ds[..|ds| - 1]);
    }
  }
}
