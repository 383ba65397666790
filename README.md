# Parking-lot vehicle counting, modelled in Dafny

This project models the counting logic of a parking-lot capstone system.

- **Sensor gates** (`sensor_count.py`): a polling loop reads four proximity
  sensors through an MCP3008-style 10-bit ADC. It thresholds each sample
  and drives three gates that all change one shared signed `car_count`:
  - an IN gate that adds one car;
  - an OUT gate that removes one car;
  - a two-sensor MID gate that reads the direction of travel from the
    order in which its sensors fire.

  The IN and OUT gates are debounced by a one-second merge window.
- **Spot occupancy** (`detection_test_spots.py`): a camera loop keeps the
  vehicle boxes of a frame. It marks each configured parking spot
  "occupied" when a vehicle box strictly overlaps it, and "open" otherwise.
  It then reports how many spots are occupied.
- **Vehicle tally** (`detection_test.py`): a camera loop counts the vehicle
  rows of a frame and reports the count as the occupied spots of a
  50-spot lot.

Files:

- `sensor_count.dfy`, module `SensorCount`:
  - the ADC request frame and reply decoding, and the threshold;
  - the gate state machine as values: `State`, `Step` (one loop
    iteration), `Run` (a finite stretch of the loop) and `TickEvents` (the
    log lines a tick prints);
  - the class `GateCounter`, whose fields are the script's module-level
    variables. Its methods update those fields in place, gate section by
    gate section, and are proved equal to `Step`.
- `detections.dfy`, module `Detections`: the detector row, the box, the
  vehicle filter and the payload. Both camera scripts share them.
- `detection_test.dfy`, module `VehicleTally`: the counting loop and its
  payload.
- `detection_test_spots.dfy`, module `SpotOccupancy`: the overlap test,
  the box filter loop, the spot-status loop and the payload.

Modelling choices:

- Time is an integer number of milliseconds that the caller passes in.
  `MERGE_WINDOW` is 1000 in that unit.
- ADC bytes are `bv8`. The decoded sample is a `bv16` below 1024.
- The `print` calls of the gates become a returned list of `Event`s, one
  per log line.
- Detector rows are integer tuples with a class.

Notes on the code:

- **Timers at start-up.** The gate timers start at 0. A trigger at a time
  no later than the merge window after time zero is therefore ignored by
  either single-sensor gate (`FirstTriggerNeedsWindow`). With wall-clock
  time this never matters in practice.
- **How the ADC bytes are combined.** The reply bytes are combined with
  `+`. On every reply this equals the bitwise OR of the two parts
  (`ReadAdcIsBitwiseOr`).
- **Length of the MID sequence.** Before the direction check, the sequence
  can hold three entries. This happens when a pending MID_IN is followed by
  both sensors firing in one tick. Only the first two entries are read
  (`ThreeBeforeEvaluation`).
- **Staleness clear.** It needs more than two entries after the direction
  check, so it never fires (`MidStaysShort`). It is modelled as written.

## Model

| member | source | states |
|---|---|---|
| `SensorCount.RequestFrame` | sensor_count.py:9 | The request is three bytes: 1, then `8 + channel` in the upper nibble with a zero lower nibble, then 0. The second byte fits in a byte exactly when the channel is below 8. |
| `SensorCount.ReadAdc` | sensor_count.py:8-11 | The sample is below 1024. Its bits 8–9 are the low two bits of the second reply byte, and its low byte is the third reply byte. |
| `SensorCount.ReadAdcReplyFor` | sensor_count.py:10 | Every 10-bit sample, put into a reply, decodes back to itself. |
| `SensorCount.ReadAdcInjective` | sensor_count.py:10 | Two replies decode to the same sample exactly when they agree on the low two bits of byte 2 and on all of byte 3. The first byte and the top six bits of byte 2 are ignored. |
| `SensorCount.ReadAdcIsBitwiseOr` | sensor_count.py:10 | Adding the low byte equals OR-ing it into the shifted high bits. |
| `SensorCount.SampleValue` | sensor_count.py:10-11 | The decoded sample as an integer lies in 0..1023. |
| `SensorCount.Triggered` | sensor_count.py:22-23 | A sample triggers exactly when it is above the threshold of 200. |
| `SensorCount.TriggeredBoundary` | sensor_count.py:13-23 | A reading of exactly 200 does not trigger and 201 does. Triggering is monotone in the reading. |
| `SensorCount.InGate` | sensor_count.py:48-52 | The IN section: on an accepted IN trigger, the count goes up by one and the IN timer becomes `now`. Otherwise the state is unchanged. |
| `SensorCount.OutGate` | sensor_count.py:58-62 | The OUT section: on an accepted OUT trigger, the count goes down by one and the OUT timer becomes `now`. Otherwise the state is unchanged. |
| `SensorCount.AppendEdge` | sensor_count.py:68-72 | One append: the edge is added when its sensor fires and the sequence is empty or does not already end with it. |
| `SensorCount.Appended` | sensor_count.py:68-72 | The MID_OUT append followed by the MID_IN append. |
| `SensorCount.Direction` | sensor_count.py:75-85 | The delta read from the first two entries: +1 for MID_OUT then MID_IN, −1 for MID_IN then MID_OUT, 0 for any other pair. |
| `SensorCount.Evaluated` | sensor_count.py:75-86 | The direction check clears a sequence of two or more entries and leaves a shorter one alone. |
| `SensorCount.MidGate` | sensor_count.py:68-90 | The MID section: the appends, then the direction delta added to the count, then the clear after evaluation, then the staleness clear. The timers are untouched. |
| `SensorCount.Step` | sensor_count.py:45-90 | One loop iteration on given trigger states: the IN section, then the OUT section, then the MID section. |
| `SensorCount.MidEvents` | sensor_count.py:78-84 | The MID log line of a tick: "ENTERED (MID)" for direction +1, "EXITED (MID)" for −1, nothing otherwise. |
| `SensorCount.TickEvents` | sensor_count.py:48-84 | The log lines of one tick, in print order: the IN line if the IN gate accepts, then the OUT line if the OUT gate accepts, then the MID line. |
| `SensorCount.Run` | sensor_count.py:36-90 | The state after a finite stretch of the loop: `Step` applied tick by tick. |
| `SensorCount.RunEvents` | sensor_count.py:36-90 | All log lines of a finite stretch of the loop, tick after tick. |
| `SensorCount.AcceptedTimes` | sensor_count.py:48-62 | The times at which one single-sensor gate accepted a trigger during a stretch of the loop, in order. |
| `SensorCount.Sense` | sensor_count.py:40-43 | The four trigger states of one tick: each channel's reply decoded and compared with the threshold. |
| `SensorCount.GateDebounce` | sensor_count.py:48-62 | Take the IN or the OUT gate. If its sensor fires and `now` minus its timer exceeds the merge window, its timer becomes `now` and the tick logs that gate's pass. Otherwise the timer is unchanged and nothing is logged for that gate. |
| `SensorCount.GateSection` | sensor_count.py:48-62 | IN section: when `s_in` holds and `now` is more than the merge window after the IN timer, the count rises by exactly 1 and the IN timer becomes `now`. OUT section: the same, with the count falling by 1. Nothing else changes. In every other case the section leaves the state unchanged. |
| `SensorCount.TickCount` | sensor_count.py:48-86 | One tick changes `car_count` by exactly the signed sum of the passes it logs: +1 per entry, −1 per exit. |
| `SensorCount.RunCount` | sensor_count.py:31-90 | After any stretch of the loop, the count equals its start value plus the signed sum of every logged pass. There is no clamping and no other change. |
| `SensorCount.NetDeltaIsCounts` | sensor_count.py:48-86 | The signed sum of a log equals its IN and MID entries minus its OUT and MID exits. |
| `SensorCount.RunCountByGate` | sensor_count.py:36-90 | Over any run, the count moves by the IN gate's accepted triggers, minus the OUT gate's accepted triggers, plus the MID entries logged, minus the MID exits logged. |
| `SensorCount.TickPasses` | sensor_count.py:48-62 | In one tick, the IN gate's entry line (or the OUT gate's exit line) is logged once if that gate accepts, and not at all otherwise. |
| `SensorCount.PassesAreAcceptedTriggers` | sensor_count.py:48-62 | Over any run, the IN gate logs exactly as many entries as it has accepted triggers. The OUT gate logs exactly as many exits as it has accepted triggers. |
| `SensorCount.CountCanGoNegative` | sensor_count.py:58-62 | From start-up, a single OUT pass leaves the count at −1. |
| `SensorCount.AcceptedTimesSeparated` | sensor_count.py:48-62 | Take the IN or the OUT gate over any run. Its consecutive accepted triggers are more than the merge window apart. The first is more than the merge window after the gate's timer at the start. |
| `SensorCount.MergeWindowScenario` | sensor_count.py:14-53 | From start-up, for any T more than the merge window after time zero: IN triggers at T, T+300, T+500 and T+1200 ms are accepted at T and T+1200 only, so the count rises by 2. |
| `SensorCount.FirstTriggerNeedsWindow` | sensor_count.py:26-62 | With the timers starting at 0, an IN or an OUT trigger at a time no later than the merge window changes nothing. |
| `SensorCount.AppendedNoAdjacentDuplicates` | sensor_count.py:68-72 | After the two appends, no two adjacent entries are equal. A sensor that stays triggered, while the other does not fire, adds nothing. |
| `SensorCount.DirectionIsDecided` | sensor_count.py:75-85 | With no adjacent duplicates, the first two entries always give +1 or −1. The "any other pair" branch is dead. |
| `SensorCount.MidStaysShort` | sensor_count.py:75-90 | Every tick ends with at most one pending edge. The staleness clear never fires. |
| `SensorCount.ThreeBeforeEvaluation` | sensor_count.py:68-86 | Pending MID_IN followed by both sensors in one tick makes a three-entry sequence, which is read as an exit. |
| `SensorCount.MidDirection` | sensor_count.py:68-90 | In a reachable state, the MID gate counts +1 exactly when MID_IN fires after a pending MID_OUT, or both fire on an empty sequence. It counts −1 exactly when MID_OUT fires after a pending MID_IN. After counting, the sequence is empty. Otherwise it keeps the pending edge or starts one. |
| `SensorCount.RunStaysShort` | sensor_count.py:36-90 | Over any run from a state with at most one pending edge, at most one edge stays pending. |
| `SensorCount.RunInvariants` | sensor_count.py:26-90 | From start-up, over any run: at most one pending edge, the count equals the signed sum of all logged passes, and both single-sensor gates' accepted triggers are separated by more than the merge window. |
| `SensorCount.GateCounter.constructor` | sensor_count.py:26-31 | The counter starts with no cars, both timers at 0 and an empty MID sequence. |
| `SensorCount.GateCounter.InGateTick` | sensor_count.py:48-53 | The fields after the IN gate section are those of the IN gate step. It returns the IN log line exactly when the gate accepts. |
| `SensorCount.GateCounter.OutGateTick` | sensor_count.py:58-63 | The fields after the OUT gate section are those of the OUT gate step. It returns the OUT log line exactly when the gate accepts. |
| `SensorCount.GateCounter.MidGateTick` | sensor_count.py:68-90 | The fields after the appends, the direction check and the staleness clear are those of the MID gate step. It returns the MID log line for the direction read. |
| `SensorCount.GateCounter.Tick` | sensor_count.py:45-90 | The new fields are one `Step` from the old ones. The returned events are that tick's log lines. The count moves by their signed sum, and at most one edge stays pending. |
| `SensorCount.GateCounter.PollOnce` | sensor_count.py:38-90 | Decoding and thresholding the four channels, then the gates, give one `Step` on the sensed inputs. |
| `SensorCount.GateCounter.Poll` | sensor_count.py:36-92 | A stretch of the loop over given readings leaves the fields equal to `Run` over the sensed inputs. |
| `Detections.IsVehicle` | detection_test.py:46-50 | A row is a vehicle when its class is 2, 3, 5 or 7 and its box is at least 30 pixels wide and 30 pixels tall. |
| `Detections.VehicleCount` | detection_test.py:44-51 | The number of vehicle rows, counted row by row. |
| `Detections.VehicleBoxesOf` | detection_test_spots.py:62-69 | The boxes of the vehicle rows, in row order. |
| `Detections.VehicleCountIsIndexCount` | detection_test.py:44-51 | The tally equals the number of row positions holding a vehicle: class in {2, 3, 5, 7}, width and height at least 30. |
| `Detections.VehicleCountBounded` | detection_test.py:44-51 | The tally never exceeds the number of rows. |
| `Detections.VehicleCountAppend` | detection_test.py:44-51 | Tallying two runs of rows gives the sum of their tallies. |
| `Detections.SmallRowIgnored` | detection_test.py:47-50 | A row whose width or height is below 30 never changes the tally, whatever its class or position. |
| `Detections.AllVehiclesCounted` | detection_test.py:44-51 | When every row is a vehicle, the tally is the number of rows. |
| `Detections.VehicleBoxesAppend` | detection_test_spots.py:62-69 | Filtering keeps row order: filtering two runs of rows gives the two filtered lists, one after the other. |
| `Detections.VehicleBoxesMembers` | detection_test_spots.py:62-69 | A box is kept exactly when some row with a vehicle class and a size of at least 30×30 has that box. |
| `Detections.VehicleBoxesShape` | detection_test_spots.py:62-69 | There are as many kept boxes as vehicles tallied, and each kept box is at least 30 pixels wide and tall. |
| `VehicleTally.CountVehicles` | detection_test.py:44-51 | The loop's count equals the vehicle tally and is at most the number of rows. |
| `VehicleTally.TallyFrame` | detection_test.py:63-67 | The payload reports lot "LotA", `total_spots` 50 and `occupied_spots` equal to the vehicle tally, with no per-spot map. |
| `VehicleTally.OccupiedCanExceedTotal` | detection_test.py:63-67 | The report is not clamped: 51 vehicles give 51 occupied spots out of 50. |
| `SpotOccupancy.Overlaps` | detection_test_spots.py:47 | A vehicle box overlaps a spot when the four strict comparisons hold. |
| `SpotOccupancy.AnyOverlap` | detection_test_spots.py:41-49 | Some vehicle box in the list overlaps the spot. |
| `SpotOccupancy.OverlapsIsProperIntersection` | detection_test_spots.py:47 | Take a spot and a vehicle box, each with some area. The four strict comparisons hold exactly when the two rectangles have an intersection with positive area. |
| `SpotOccupancy.TouchingDoesNotOverlap` | detection_test_spots.py:47 | A box that only shares an edge with the spot does not overlap it. |
| `SpotOccupancy.IsOccupied` | detection_test_spots.py:41-49 | The result is true exactly when some vehicle box strictly overlaps the spot. It is false for no boxes. |
| `SpotOccupancy.OccupiedMonotone` | detection_test_spots.py:44-48 | Adding vehicle boxes before or after never frees an occupied spot. |
| `SpotOccupancy.VehicleBoxes` | detection_test_spots.py:62-69 | The loop builds exactly the filtered box list, in row order, and it is no longer than the rows. |
| `SpotOccupancy.SpotStatus` | detection_test_spots.py:74-77 | The status map has exactly the spot names as keys. Each value is "occupied" when some vehicle box overlaps that spot, and "open" otherwise. |
| `SpotOccupancy.OccupiedCount` | detection_test_spots.py:88 | The number of "occupied" entries is at most the number of spots. |
| `SpotOccupancy.SpotsFrame` | detection_test_spots.py:62-90 | The payload has lot "LotA" and `total_spots` equal to the number of spots. Its spot map covers exactly the spots: a spot reads "occupied" when some kept vehicle box overlaps it and "open" otherwise. `occupied_spots` is the number of spots that some kept vehicle box overlaps, between 0 and `total_spots`. |
| `SpotOccupancy.ParkingSpotsLayout` | detection_test_spots.py:28-34 | Every configured spot has some area, and no two configured spots overlap. |

## Left out

- SPI bus set-up, `spi.xfer2` and `spi.close`: bus I/O is left out. The model starts from the three reply bytes and builds the request frame as a value. A failed transfer, which ends the program through an exception, is not modelled.
- Wall-clock time and `time.sleep`: `now` is an integer parameter in milliseconds. Python's float seconds, and their truncation to whole milliseconds, are not modelled.
- The `while True` loop itself cannot be written as a terminating method. It is modelled as `Run` over a finite list of ticks and as `Poll` over a finite list of readings.
- Poll: states only the counter's final fields. The lines logged during the stretch are stated per tick by `Tick` and over a whole run by `RunEvents` and `RunCount`.
- `print` calls: the text of the log lines is not modelled, only which line is printed, as an `Event`. The start-up print and the `KeyboardInterrupt` shutdown path are left out.
- Camera capture (`picamera2`), YOLOv5 inference (`torch.hub`), the detector's confidence value and all `cv2` drawing and display: these are foreign libraries and UI. Detections are given as integer rows. `map(int, …)`, which truncates float coordinates, is not modelled.
- Socket connection, `json.dumps` and `sendall`: the payload is built as a value and not serialised or sent. The 15-second pacing and the `q` key exit are left out.
- `randomize_spaces.py` is not part of this model: it is driven by random choices and file I/O.
- `cam_test.py` is not part of this model: it only displays camera frames.
- The dictionary iteration order of `parking_spots` is not modelled: the status map is filled in an arbitrary key order, which gives the same map.
