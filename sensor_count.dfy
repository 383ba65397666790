/** Vehicle counting at three sensor gates read through a 10-bit ADC.

  One iteration of the polling loop reads four channels, thresholds each
  sample, and drives two single-sensor gates (IN adds one car, OUT removes
  one, each debounced by a merge window) and one two-sensor directional gate
  (MID) that infers direction from the order in which its sensors fire.
  Everything changes one shared signed car count.

  Time is an integer number of milliseconds passed in by the caller; the
  merge window is expressed in the same unit.
 */
module SensorCount {

  /** A sample above this value means the sensor sees a vehicle. */
  const THRESHOLD: int := 200
  /** One second, in milliseconds: pulses closer than this merge into one pass. */
  const MERGE_WINDOW: int := 1000

  const CH_IN: nat := 0
  const CH_OUT: nat := 1
  const CH_MID_OUT: nat := 2
  const CH_MID_IN: nat := 3

  // ---------------------------------------------------------------------
  // Bus reader and threshold detector
  // ---------------------------------------------------------------------

  /** The three bytes the converter answers with; the first carries no data. */
  datatype Reply = Reply(b0: bv8, b1: bv8, b2: bv8)

  /** The command frame that asks for a single-ended conversion on `channel`:
      a start bit, then `8 + channel` in the upper nibble, then a filler byte. */
  function RequestFrame(channel: nat): (frame: seq<int>)
    ensures |frame| == 3 && frame[0] == 1 && frame[2] == 0
    ensures frame[1] % 16 == 0 && frame[1] / 16 == 8 + channel
    ensures 0 <= frame[1] < 256 <==> channel < 8
  {
    [1, (8 + channel) * 16, 0]
  }

  /** The sample carried by a reply: the low two bits of the second byte
      shifted up by eight, plus the third byte. */
  function ReadAdc(reply: Reply): (sample: bv16)
    ensures sample < 1024
    ensures sample >> 8 == (reply.b1 & 3) as bv16
    ensures sample & 0xFF == reply.b2 as bv16
  {
    (((reply.b1 & 3) as bv16) << 8) + reply.b2 as bv16
  }

  /** A reply a converter would give for `sample`. */
  function ReplyFor(sample: bv16): Reply
    requires sample < 1024
  {
    Reply(0, (sample >> 8) as bv8, (sample & 0xFF) as bv8)
  }

  /** Every 10-bit sample survives encoding into a reply and decoding back. */
  lemma ReadAdcReplyFor(sample: bv16)
    requires sample < 1024
    ensures ReadAdc(ReplyFor(sample)) == sample
  {
  }

  /** Two replies decode to the same sample exactly when they agree on the
      bits that carry data. */
  lemma ReadAdcInjective(r1: Reply, r2: Reply)
    ensures ReadAdc(r1) == ReadAdc(r2) <==> (r1.b1 & 3 == r2.b1 & 3 && r1.b2 == r2.b2)
  {
  }

  /** Adding the low byte is the same as OR-ing it in: the shifted high part
      has no bits in common with it. */
  lemma ReadAdcIsBitwiseOr(reply: Reply)
    ensures ReadAdc(reply) == (((reply.b1 & 3) as bv16) << 8) | reply.b2 as bv16
  {
  }

  /** The sample as the integer the thresholds compare against. */
  function SampleValue(reply: Reply): (v: int)
    ensures 0 <= v < 1024
  {
    ReadAdc(reply) as int
  }

  predicate Triggered(sample: int)
  {
    sample > THRESHOLD
  }

  /** The threshold itself does not trigger, one above it does, and a larger
      sample never un-triggers. */
  lemma TriggeredBoundary(v: int, w: int)
    ensures !Triggered(THRESHOLD) && Triggered(THRESHOLD + 1)
    ensures v <= w && Triggered(v) ==> Triggered(w)
  {
  }

  // ---------------------------------------------------------------------
  // Gate state machine, as values
  // ---------------------------------------------------------------------

  /** Edge events of the directional gate. */
  datatype Edge = MidOut | MidIn

  /** What one tick logs, one entry per accepted pass. */
  datatype Event = EnteredIn | ExitedOut | EnteredMid | ExitedMid

  datatype Gate = In | Out

  /** The trigger states of one tick and the time they were sampled at. */
  datatype Inputs = Inputs(now: int, sIn: bool, sOut: bool, sMo: bool, sMi: bool)

  datatype State = State(carCount: int, lastInTime: int, lastOutTime: int, midSequence: seq<Edge>)

  /** The state at start-up. */
  const Initial: State := State(0, 0, 0, [])

  function Delta(e: Event): int
  {
    match e
    case EnteredIn => 1
    case EnteredMid => 1
    case ExitedOut => -1
    case ExitedMid => -1
  }

  function NetDelta(events: seq<Event>): int
  {
    if events == [] then 0 else NetDelta(events[..|events| - 1]) + Delta(events[|events| - 1])
  }

  function LastTime(s: State, g: Gate): int
  {
    if g == In then s.lastInTime else s.lastOutTime
  }

  predicate Fires(i: Inputs, g: Gate)
  {
    if g == In then i.sIn else i.sOut
  }

  /** A single-sensor gate accepts a trigger only outside the merge window
      of its last accepted one. */
  predicate Accepts(s: State, i: Inputs, g: Gate)
  {
    Fires(i, g) && i.now - LastTime(s, g) > MERGE_WINDOW
  }

  function InGate(s: State, i: Inputs): State
  {
    if Accepts(s, i, In) then s.(carCount := s.carCount + 1, lastInTime := i.now) else s
  }

  function OutGate(s: State, i: Inputs): State
  {
    if Accepts(s, i, Out) then s.(carCount := s.carCount - 1, lastOutTime := i.now) else s
  }

  /** Appends `e` when its sensor fires, unless `e` is already the last entry. */
  function AppendEdge(q: seq<Edge>, fires: bool, e: Edge): seq<Edge>
  {
    if fires && (|q| == 0 || q[|q| - 1] != e) then q + [e] else q
  }

  /** The sequence after both appends of a tick. */
  function Appended(q: seq<Edge>, sMo: bool, sMi: bool): seq<Edge>
  {
    AppendEdge(AppendEdge(q, sMo, MidOut), sMi, MidIn)
  }

  /** The delta read from the first two entries. */
  function Direction(q: seq<Edge>): int
    requires |q| >= 2
  {
    if q[0] == MidOut && q[1] == MidIn then 1
    else if q[0] == MidIn && q[1] == MidOut then -1
    else 0
  }

  /** The sequence once the direction check has run. */
  function Evaluated(q: seq<Edge>): seq<Edge>
  {
    if |q| >= 2 then [] else q
  }

  /** Whether the staleness clear fires on this tick. */
  predicate StaleClear(s: State, i: Inputs)
  {
    !i.sMo && !i.sMi && |Evaluated(Appended(s.midSequence, i.sMo, i.sMi))| > 2
  }

  function MidGate(s: State, i: Inputs): State
  {
    var q := Appended(s.midSequence, i.sMo, i.sMi);
    var delta := if |q| >= 2 then Direction(q) else 0;
    var q' := Evaluated(q);
    s.(carCount := s.carCount + delta, midSequence := if StaleClear(s, i) then [] else q')
  }

  /** One pass of the polling loop: IN gate, OUT gate, then MID gate. */
  function Step(s: State, i: Inputs): State
  {
    MidGate(OutGate(InGate(s, i), i), i)
  }

  /** What the directional gate logs for the sequence after the appends. */
  function MidEvents(q: seq<Edge>): seq<Event>
  {
    if |q| >= 2 && Direction(q) == 1 then [EnteredMid]
    else if |q| >= 2 && Direction(q) == -1 then [ExitedMid]
    else []
  }

  /** The log lines one tick prints, in order. */
  function TickEvents(s: State, i: Inputs): seq<Event>
  {
    (if Accepts(s, i, In) then [EnteredIn] else [])
    + (if Accepts(s, i, Out) then [ExitedOut] else [])
    + MidEvents(Appended(s.midSequence, i.sMo, i.sMi))
  }

  /** The state after a finite prefix of the polling loop. */
  function Run(s: State, trace: seq<Inputs>): State
    decreases |trace|
  {
    if trace == [] then s else Run(Step(s, trace[0]), trace[1..])
  }

  function RunEvents(s: State, trace: seq<Inputs>): seq<Event>
    decreases |trace|
  {
    if trace == [] then [] else TickEvents(s, trace[0]) + RunEvents(Step(s, trace[0]), trace[1..])
  }

  /** The times at which gate `g` accepted a trigger during `trace`. */
  function AcceptedTimes(s: State, trace: seq<Inputs>, g: Gate): seq<int>
    decreases |trace|
  {
    if trace == [] then []
    else (if Accepts(s, trace[0], g) then [trace[0].now] else []) + AcceptedTimes(Step(s, trace[0]), trace[1..], g)
  }

  /** Each time is more than the merge window after the one before it, the
      first more than the merge window after `origin`. */
  ghost predicate Separated(origin: int, ts: seq<int>)
  {
    && (ts != [] ==> ts[0] - origin > MERGE_WINDOW)
    && forall k :: 0 < k < |ts| ==> ts[k] - ts[k - 1] > MERGE_WINDOW
  }

  predicate NoAdjacentDuplicates(q: seq<Edge>)
  {
    forall k :: 0 < k < |q| ==> q[k - 1] != q[k]
  }

  // ---------------------------------------------------------------------
  // Properties of the gates
  // ---------------------------------------------------------------------

  /** Single-sensor debounce: a gate's timer moves to `now` exactly when it
      accepts, and then the tick logs that gate's pass; otherwise the timer
      stays and nothing is logged for that gate. */
  lemma GateDebounce(s: State, i: Inputs, g: Gate)
    ensures LastTime(Step(s, i), g) == if Accepts(s, i, g) then i.now else LastTime(s, g)
    ensures g == In ==> (EnteredIn in TickEvents(s, i) <==> Accepts(s, i, In))
    ensures g == Out ==> (ExitedOut in TickEvents(s, i) <==> Accepts(s, i, Out))
  {
    var mid := MidEvents(Appended(s.midSequence, i.sMo, i.sMi));
    assert EnteredIn !in mid && ExitedOut !in mid;
  }

  /** Each single-sensor section on its own: a trigger outside the merge
      window moves the count by one and restarts that gate's timer, touching
      nothing else; any other input leaves the whole state as it was. */
  lemma GateSection(s: State, i: Inputs)
    ensures i.sIn && i.now - s.lastInTime > MERGE_WINDOW ==>
      InGate(s, i) == State(s.carCount + 1, i.now, s.lastOutTime, s.midSequence)
    ensures !(i.sIn && i.now - s.lastInTime > MERGE_WINDOW) ==> InGate(s, i) == s
    ensures i.sOut && i.now - s.lastOutTime > MERGE_WINDOW ==>
      OutGate(s, i) == State(s.carCount - 1, s.lastInTime, i.now, s.midSequence)
    ensures !(i.sOut && i.now - s.lastOutTime > MERGE_WINDOW) ==> OutGate(s, i) == s
  {
  }

  /** A tick changes the count by exactly the signed sum of what it logs. */
  lemma TickCount(s: State, i: Inputs)
    ensures Step(s, i).carCount == s.carCount + NetDelta(TickEvents(s, i))
  {
    var s1 := InGate(s, i);
    var s2 := OutGate(s1, i);
    var a: seq<Event> := if Accepts(s, i, In) then [EnteredIn] else [];
    var b: seq<Event> := if Accepts(s, i, Out) then [ExitedOut] else [];
    var c := MidEvents(Appended(s.midSequence, i.sMo, i.sMi));
    assert s1.carCount == s.carCount + NetDelta(a);
    assert Accepts(s1, i, Out) == Accepts(s, i, Out);
    assert s2.carCount == s1.carCount + NetDelta(b);
    assert s2.midSequence == s.midSequence;
    assert Step(s, i).carCount == s2.carCount + NetDelta(c);
    NetDeltaAppend(a + b, c);
    NetDeltaAppend(a, b);
  }

  lemma {:induction false} NetDeltaAppend(a: seq<Event>, b: seq<Event>)
    ensures NetDelta(a + b) == NetDelta(a) + NetDelta(b)
    decreases |b|
  {
    if b == [] {
      assert a + b == a;
    } else {
      var b' := b[..|b| - 1];
      assert (a + b)[..|a + b| - 1] == a + b';
      NetDeltaAppend(a, b');
    }
  }

  /** The count equals its starting value plus the signed sum of every
      logged pass: no clamping, no other change. */
  lemma {:induction false} RunCount(s: State, trace: seq<Inputs>)
    ensures Run(s, trace).carCount == s.carCount + NetDelta(RunEvents(s, trace))
    decreases |trace|
  {
    if trace != [] {
      var s' := Step(s, trace[0]);
      RunCount(s', trace[1..]);
      TickCount(s, trace[0]);
      NetDeltaAppend(TickEvents(s, trace[0]), RunEvents(s', trace[1..]));
    }
  }

  /** The signed sum of a log is its entries minus its exits. */
  lemma {:induction false} NetDeltaIsCounts(events: seq<Event>)
    ensures NetDelta(events) ==
      Occurrences(EnteredIn, events) + Occurrences(EnteredMid, events)
      - Occurrences(ExitedOut, events) - Occurrences(ExitedMid, events)
    decreases |events|
  {
    if events != [] {
      var front := events[..|events| - 1];
      var last := events[|events| - 1];
      NetDeltaIsCounts(front);
      assert front + [last] == events;
      assert [last][1..] == [];
      forall e | e == EnteredIn || e == EnteredMid || e == ExitedOut || e == ExitedMid
        ensures Occurrences(e, events) == Occurrences(e, front) + (if last == e then 1 else 0)
      {
        OccurrencesAppend(e, front, [last]);
      }
    }
  }

  /** Over any run the count moves by the IN gate's accepted triggers, less
      the OUT gate's accepted triggers, plus the MID gate's entries, less
      its exits. */
  lemma RunCountByGate(s: State, trace: seq<Inputs>)
    ensures var events := RunEvents(s, trace);
      Run(s, trace).carCount == s.carCount
        + |AcceptedTimes(s, trace, In)| - |AcceptedTimes(s, trace, Out)|
        + Occurrences(EnteredMid, events) - Occurrences(ExitedMid, events)
  {
    RunCount(s, trace);
    NetDeltaIsCounts(RunEvents(s, trace));
    PassesAreAcceptedTriggers(s, trace, In);
    PassesAreAcceptedTriggers(s, trace, Out);
  }

  /** The count can go negative: one exit and nothing else leaves it at -1. */
  lemma CountCanGoNegative()
    ensures Run(Initial, [Inputs(MERGE_WINDOW + 1, false, true, false, false)]).carCount == -1
  {
  }

  /** Consecutive accepted triggers of one gate are more than the merge
      window apart, the first more than the merge window after the gate's
      timer at the start. */
  lemma {:induction false} AcceptedTimesSeparated(s: State, trace: seq<Inputs>, g: Gate)
    ensures Separated(LastTime(s, g), AcceptedTimes(s, trace, g))
    decreases |trace|
  {
    if trace != [] {
      var s' := Step(s, trace[0]);
      AcceptedTimesSeparated(s', trace[1..], g);
      GateDebounce(s, trace[0], g);
      var rest := AcceptedTimes(s', trace[1..], g);
      if Accepts(s, trace[0], g) {
        SeparatedCons(LastTime(s, g), trace[0].now, rest);
      }
    }
  }

  /** How often `e` occurs in a log. */
  function Occurrences(e: Event, events: seq<Event>): nat
    decreases |events|
  {
    if events == [] then 0 else (if events[0] == e then 1 else 0) + Occurrences(e, events[1..])
  }

  lemma {:induction false} OccurrencesAppend(e: Event, a: seq<Event>, b: seq<Event>)
    ensures Occurrences(e, a + b) == Occurrences(e, a) + Occurrences(e, b)
    decreases |a|
  {
    if a == [] {
      assert a + b == b;
    } else {
      assert (a + b)[1..] == a[1..] + b;
      OccurrencesAppend(e, a[1..], b);
    }
  }

  /** The log line a single-sensor gate prints when it accepts. */
  function PassOf(g: Gate): Event
  {
    if g == In then EnteredIn else ExitedOut
  }

  /** One tick logs a gate's pass once if that gate accepts, else not at all. */
  lemma TickPasses(s: State, i: Inputs, g: Gate)
    ensures Occurrences(PassOf(g), TickEvents(s, i)) == if Accepts(s, i, g) then 1 else 0
  {
    var e := PassOf(g);
    var a: seq<Event> := if Accepts(s, i, In) then [EnteredIn] else [];
    var b: seq<Event> := if Accepts(s, i, Out) then [ExitedOut] else [];
    var c := MidEvents(Appended(s.midSequence, i.sMo, i.sMi));
    OccurrencesAppend(e, a + b, c);
    OccurrencesAppend(e, a, b);
    assert Occurrences(e, c) == 0 by {
      if c != [] {
        assert c[1..] == [];
      }
    }
    assert [EnteredIn][1..] == [] && [ExitedOut][1..] == [];
    if g == In {
      assert Occurrences(e, a) == (if Accepts(s, i, In) then 1 else 0) && Occurrences(e, b) == 0;
    } else {
      assert Occurrences(e, b) == (if Accepts(s, i, Out) then 1 else 0) && Occurrences(e, a) == 0;
    }
  }

  /** Over any run, a single-sensor gate logs its pass exactly as many times
      as it accepts a trigger: entries for IN, exits for OUT. */
  lemma {:induction false} PassesAreAcceptedTriggers(s: State, trace: seq<Inputs>, g: Gate)
    ensures Occurrences(PassOf(g), RunEvents(s, trace)) == |AcceptedTimes(s, trace, g)|
    decreases |trace|
  {
    if trace != [] {
      var s' := Step(s, trace[0]);
      PassesAreAcceptedTriggers(s', trace[1..], g);
      TickPasses(s, trace[0], g);
      OccurrencesAppend(PassOf(g), TickEvents(s, trace[0]), RunEvents(s', trace[1..]));
    }
  }

  lemma SeparatedCons(origin: int, t: int, ts: seq<int>)
    requires t - origin > MERGE_WINDOW && Separated(t, ts)
    ensures Separated(origin, [t] + ts)
  {
    var ts' := [t] + ts;
    forall k | 0 < k < |ts'|
      ensures ts'[k] - ts'[k - 1] > MERGE_WINDOW
    {
      assert ts'[k] == ts[k - 1];
      if k > 1 {
        assert ts'[k - 1] == ts[k - 2];
      }
    }
  }

  /** The merge-window scenario: once the start-up timer is more than the
      merge window behind, IN triggers at T, T+300, T+500 and T+1200 are
      accepted at T and T+1200 only. */
  lemma MergeWindowScenario(t: int)
    requires t > MERGE_WINDOW
    ensures var trace := [Inputs(t, true, false, false, false), Inputs(t + 300, true, false, false, false),
                          Inputs(t + 500, true, false, false, false), Inputs(t + 1200, true, false, false, false)];
      AcceptedTimes(Initial, trace, In) == [t, t + 1200] && Run(Initial, trace).carCount == 2
  {
    var i0, i1 := Inputs(t, true, false, false, false), Inputs(t + 300, true, false, false, false);
    var i2, i3 := Inputs(t + 500, true, false, false, false), Inputs(t + 1200, true, false, false, false);
    var trace := [i0, i1, i2, i3];
    assert trace[1..] == [i1, i2, i3] && trace[1..][1..] == [i2, i3] && trace[1..][1..][1..] == [i3];
    var accepted := State(1, t, 0, []);
    assert Step(Initial, i0) == accepted && Step(accepted, i1) == accepted && Step(accepted, i2) == accepted;
    assert AcceptedTimes(accepted, [i3], In) == [t + 1200];
    assert AcceptedTimes(accepted, [i2, i3], In) == [t + 1200];
    assert AcceptedTimes(accepted, [i1, i2, i3], In) == [t + 1200];
    var last := State(2, t + 1200, 0, []);
    assert Step(accepted, i3) == last && Run(last, []) == last;
    assert Run(accepted, [i3]) == last;
    assert Run(accepted, [i2, i3]) == last;
    assert Run(accepted, [i1, i2, i3]) == last;
  }

  /** With the start-up timer at zero, a trigger within the first merge
      window after time zero is ignored. */
  lemma FirstTriggerNeedsWindow(now: int, g: Gate)
    requires now <= MERGE_WINDOW
    ensures Step(Initial, Inputs(now, g == In, g == Out, false, false)) == Initial
  {
  }

  /** The two appends never put equal entries next to each other, and a
      sensor that stays triggered adds nothing. */
  lemma AppendedNoAdjacentDuplicates(q: seq<Edge>, sMo: bool, sMi: bool)
    requires NoAdjacentDuplicates(q)
    ensures NoAdjacentDuplicates(Appended(q, sMo, sMi))
    ensures q != [] && q[|q| - 1] == MidOut && !sMi ==> Appended(q, sMo, sMi) == q
    ensures q != [] && q[|q| - 1] == MidIn && !sMo ==> Appended(q, sMo, sMi) == q
  {
    var q1 := AppendEdge(q, sMo, MidOut);
    assert NoAdjacentDuplicates(q1);
  }

  /** With adjacent duplicates ruled out the "any other pair" branch of the
      direction check is dead: the first two entries always give +1 or -1. */
  lemma DirectionIsDecided(q: seq<Edge>)
    requires |q| >= 2 && NoAdjacentDuplicates(q)
    ensures Direction(q) == 1 || Direction(q) == -1
  {
    assert q[0] != q[1];
  }

  /** A tick always ends with at most one pending edge, so the staleness
      clear (which needs more than two) never fires. */
  lemma MidStaysShort(s: State, i: Inputs)
    ensures |Step(s, i).midSequence| <= 1
    ensures !StaleClear(s, i)
  {
  }

  /** Before evaluation the sequence can hold three entries, not only two:
      a pending MID_IN followed by both sensors firing in one tick. */
  lemma ThreeBeforeEvaluation()
    ensures |Appended([MidIn], true, true)| == 3
    ensures Step(State(0, 0, 0, [MidIn]), Inputs(0, false, false, true, true)).carCount == -1
  {
  }

  /** The directional gate in full, from any state the loop can be in:
      an entry is counted when MID_IN fires after MID_OUT (or both fire on a
      fresh sequence), an exit when MID_OUT fires after MID_IN, and the
      sequence is cleared exactly when something is counted. */
  lemma MidDirection(s: State, i: Inputs)
    requires |s.midSequence| <= 1
    ensures var d := MidGate(s, i).carCount - s.carCount;
      var q := MidGate(s, i).midSequence;
      && (d == 1 <==> i.sMi && (s.midSequence == [MidOut] || (s.midSequence == [] && i.sMo)))
      && (d == -1 <==> i.sMo && s.midSequence == [MidIn])
      && (d != 0 ==> q == [])
      && (d == 0 ==> q == (if s.midSequence != [] then s.midSequence
                           else if i.sMo then [MidOut] else if i.sMi then [MidIn] else []))
  {
  }

  lemma {:induction false} RunStaysShort(s: State, trace: seq<Inputs>)
    requires |s.midSequence| <= 1
    ensures |Run(s, trace).midSequence| <= 1
    decreases |trace|
  {
    if trace != [] {
      MidStaysShort(s, trace[0]);
      RunStaysShort(Step(s, trace[0]), trace[1..]);
    }
  }

  /** The properties above, over any run from start-up: at most one pending
      edge, the count is the sum of logged passes, and each gate's accepted
      triggers are separated by more than the merge window. */
  lemma RunInvariants(trace: seq<Inputs>)
    ensures |Run(Initial, trace).midSequence| <= 1
    ensures Run(Initial, trace).carCount == NetDelta(RunEvents(Initial, trace))
    ensures Separated(0, AcceptedTimes(Initial, trace, In))
    ensures Separated(0, AcceptedTimes(Initial, trace, Out))
  {
    RunStaysShort(Initial, trace);
    RunCount(Initial, trace);
    AcceptedTimesSeparated(Initial, trace, In);
    AcceptedTimesSeparated(Initial, trace, Out);
  }

  // ---------------------------------------------------------------------
  // The polling loop, as state updated in place
  // ---------------------------------------------------------------------

  /** The four replies read in one tick and the time they were read at:
      `inReply` answers a request on channel CH_IN, `outReply` on CH_OUT,
      `midOutReply` on CH_MID_OUT and `midInReply` on CH_MID_IN. */
  datatype Reading = Reading(now: int, inReply: Reply, outReply: Reply, midOutReply: Reply, midInReply: Reply)

  /** Decodes and thresholds the four channels of a reading. */
  function Sense(r: Reading): Inputs
  {
    Inputs(r.now, Triggered(SampleValue(r.inReply)), Triggered(SampleValue(r.outReply)),
           Triggered(SampleValue(r.midOutReply)), Triggered(SampleValue(r.midInReply)))
  }

  /** The inputs a sequence of readings produces, one per tick. */
  function SenseAll(readings: seq<Reading>): seq<Inputs>
  {
    seq(|readings|, k requires 0 <= k < |readings| => Sense(readings[k]))
  }

  class GateCounter {
    var carCount: int
    var lastInTime: int
    var lastOutTime: int
    var midSequence: seq<Edge>

    function Snapshot(): State
      reads this
    {
      State(carCount, lastInTime, lastOutTime, midSequence)
    }

    /** The counter as the program starts: no cars, both timers at zero,
        no pending edge. */
    constructor ()
      ensures Snapshot() == Initial
    {
      carCount, lastInTime, lastOutTime, midSequence := 0, 0, 0, [];
    }

    /** The IN gate section of the loop body. */
    method InGateTick(i: Inputs) returns (events: seq<Event>)
      modifies this
      ensures Snapshot() == InGate(old(Snapshot()), i)
      ensures events == if Accepts(old(Snapshot()), i, In) then [EnteredIn] else []
    {
      events := [];
      if i.sIn {
        if i.now - lastInTime > MERGE_WINDOW {
          carCount := carCount + 1;
          events := [EnteredIn];
          lastInTime := i.now;
        }
      }
    }

    /** The OUT gate section of the loop body. */
    method OutGateTick(i: Inputs) returns (events: seq<Event>)
      modifies this
      ensures Snapshot() == OutGate(old(Snapshot()), i)
      ensures events == if Accepts(old(Snapshot()), i, Out) then [ExitedOut] else []
    {
      events := [];
      if i.sOut {
        if i.now - lastOutTime > MERGE_WINDOW {
          carCount := carCount - 1;
          events := [ExitedOut];
          lastOutTime := i.now;
        }
      }
    }

    /** The MID gate section of the loop body: the two appends, the
        direction check and the staleness clear. */
    method MidGateTick(i: Inputs) returns (events: seq<Event>)
      modifies this
      ensures Snapshot() == MidGate(old(Snapshot()), i)
      ensures events == MidEvents(Appended(old(midSequence), i.sMo, i.sMi))
    {
      events := [];
      if i.sMo && (|midSequence| == 0 || midSequence[|midSequence| - 1] != MidOut) {
        midSequence := midSequence + [MidOut];
      }
      if i.sMi && (|midSequence| == 0 || midSequence[|midSequence| - 1] != MidIn) {
        midSequence := midSequence + [MidIn];
      }
      assert midSequence == Appended(old(midSequence), i.sMo, i.sMi);

      if |midSequence| >= 2 {
        var a, b := midSequence[0], midSequence[1];
        if a == MidOut && b == MidIn {
          carCount := carCount + 1;
          events := [EnteredMid];
        } else if a == MidIn && b == MidOut {
          carCount := carCount - 1;
          events := [ExitedMid];
        }
        midSequence := [];
      }

      midSequence := if !i.sMo && !i.sMi && |midSequence| > 2 then [] else midSequence;
    }

    /** One iteration of the loop body once the four triggers are known;
        returns the passes it logs. */
    method Tick(now: int, sIn: bool, sOut: bool, sMo: bool, sMi: bool) returns (events: seq<Event>)
      modifies this
      ensures Snapshot() == Step(old(Snapshot()), Inputs(now, sIn, sOut, sMo, sMi))
      ensures events == TickEvents(old(Snapshot()), Inputs(now, sIn, sOut, sMo, sMi))
      ensures carCount == old(carCount) + NetDelta(events)
      ensures |midSequence| <= 1
    {
      var i := Inputs(now, sIn, sOut, sMo, sMi);
      ghost var before := Snapshot();
      var fromIn := InGateTick(i);
      var fromOut := OutGateTick(i);
      var fromMid := MidGateTick(i);
      events := fromIn + fromOut + fromMid;
      assert Accepts(InGate(before, i), i, Out) == Accepts(before, i, Out);
      TickCount(before, i);
      MidStaysShort(before, i);
    }

    /** One pass of the loop: decode and threshold the four replies, then
        drive the gates. */
    method PollOnce(r: Reading) returns (events: seq<Event>)
      modifies this
      ensures Snapshot() == Step(old(Snapshot()), Sense(r))
      ensures events == TickEvents(old(Snapshot()), Sense(r))
    {
      var sIn := Triggered(SampleValue(r.inReply));
      var sOut := Triggered(SampleValue(r.outReply));
      var sMo := Triggered(SampleValue(r.midOutReply));
      var sMi := Triggered(SampleValue(r.midInReply));
      events := Tick(r.now, sIn, sOut, sMo, sMi);
    }

    /** A finite stretch of the polling loop. */
    method Poll(readings: seq<Reading>)
      modifies this
      ensures Snapshot() == Run(old(Snapshot()), SenseAll(readings))
    {
      ghost var start := Snapshot();
      ghost var trace := SenseAll(readings);
      for n := 0 to |readings|
        invariant Run(Snapshot(), trace[n..]) == Run(start, trace)
      {
        ghost var before, i := Snapshot(), trace[n];
        assert trace[n..] == [i] + trace[n + 1..];
        assert Run(before, trace[n..]) == Run(Step(before, i), trace[n + 1..]);
        var _ := PollOnce(readings[n]);
      }
    }
  }
}
