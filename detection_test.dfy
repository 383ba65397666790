/** The plain camera tally: count the vehicle rows of one frame and report
    the count as the lot's occupied spots out of a fixed total.
 */
module VehicleTally {
  import opened Detections

  /** The lot size this loop reports, whatever the camera sees. */
  const TOTAL_SPOTS: int := 50

  /** Counts the vehicle rows, skipping rows whose box is too small. */
  method CountVehicles(ds: seq<Detection>) returns (count: nat)
    ensures count == VehicleCount(ds)
    ensures count <= |ds|
  {
    count := 0;
    for n := 0 to |ds|
      invariant count == VehicleCount(ds[..n])
      invariant count <= n
    {
      assert ds[..n + 1][..n] == ds[..n];
      var row := ds[n];
      if row.cls in VEHICLE_CLASSES {
        var w, h := row.xmax - row.xmin, row.ymax - row.ymin;
        if w < MIN_SIZE || h < MIN_SIZE {
          continue;
        }
        count := count + 1;
      }
    }
    assert ds[..|ds|] == ds;
  }

  /** The payload for one frame. */
  method TallyFrame(ds: seq<Detection>) returns (p: Payload)
    ensures p.lot == LOT_NAME && p.spots == None
    ensures p.totalSpots == TOTAL_SPOTS
    ensures p.occupiedSpots == VehicleCount(ds)
    ensures 0 <= p.occupiedSpots <= |ds|
  {
    var count := CountVehicles(ds);
    p := Payload(LOT_NAME, TOTAL_SPOTS, count, None);
  }

  /** The report is not clamped to the lot size: a frame with 51 vehicles
      reports 51 occupied spots out of 50. */
  lemma OccupiedCanExceedTotal()
    ensures var ds := seq(TOTAL_SPOTS + 1, _ => Detection(2, 0, 0, MIN_SIZE, MIN_SIZE));
      VehicleCount(ds) == TOTAL_SPOTS + 1 > TOTAL_SPOTS
  {
    var ds := seq(TOTAL_SPOTS + 1, _ => Detection(2, 0, 0, MIN_SIZE, MIN_SIZE));
    AllVehiclesCounted(ds);
  }
}
