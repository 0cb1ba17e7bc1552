/**
 * The access sequencer: a table of (delay, actions) steps built once from the
 * configured width and latency, turned into absolute offsets by prefix sums,
 * and replayed by a cycle counter every time a bus request is seen at
 * phase 1.
 *
 * The replay follows migen's `timeline` helper, which is not part of this
 * model; its behaviour is taken as an assumption and written out in
 * `NextCounter` and `Fires`:
 *   - the counter rests at 0; a trigger while it rests moves it to 1;
 *   - a running counter advances by one every cycle, whatever the trigger;
 *   - at the largest offset of the table it returns to 0;
 *   - an entry at offset t > 0 fires in the cycle the counter equals t, the
 *     entry at offset 0 fires in the triggering cycle itself;
 *   - the actions of all entries that fire are applied in table order, a
 *     later assignment overriding an earlier one.
 */
module Sequencer {
  import opened CommandAddress

  /** Construction-time parameters: data width and device latency (in device clocks). */
  datatype Params = Params(width: Width, latency: nat)

  /** Single-bit registers driven by the sequencer. */
  datatype Flag = Cs | DqOe | CaActive | RwdsOe | Rwds0 | Rwds1 | Ack

  /** A byte lane of the 32-bit bus word (lane 3 is the most significant byte). */
  type Lane = l: nat | l < 4

  /** The value an action assigns to a flag, read from the live bus request. */
  datatype Level = Lit(b: bool) | WriteEnable | NotSel(lane: Lane)

  /** One assignment performed when a table entry fires. */
  datatype Action =
    | Set(flag: Flag, level: Level)
    | LoadCommand      // shift register <- CA word
    | ClearLow16       // shift register bits 15:0 <- 0
    | LoadWriteData    // shift register bits 47:16 <- write data

  /** An entry of the table as written: a delay to the next entry and the actions to take now. */
  datatype Step = Step(delay: int, actions: seq<Action>)

  /** An entry after conversion: its absolute offset from the trigger and its actions. */
  datatype Event = Event(at: int, actions: seq<Action>)

  /** Device latency converted to controller cycles: 4 controller cycles per device clock
      edge pair, minus a fixed 4-cycle correction. */
  function LatencyCycles(latency: nat): int {
    latency * 8 - 4
  }

  const CaActions: seq<Action> :=
    [Set(Cs, Lit(true)), Set(DqOe, Lit(true)), LoadCommand, Set(CaActive, Lit(true))]

  const LatencyActions: seq<Action> :=
    [Set(DqOe, Lit(false)), Set(CaActive, Lit(false))]

  /** First data step: load the payload and turn the lines around for a write. */
  function DataStartActions(width: Width): seq<Action> {
    DataHeadActions + DataStrobeActions(width)
  }

  const DataHeadActions: seq<Action> :=
    [Set(DqOe, WriteEnable), ClearLow16, LoadWriteData, Set(RwdsOe, WriteEnable)]

  /** The strobe part of the first data step: the mask of the most significant lane(s). */
  function DataStrobeActions(width: Width): seq<Action> {
    match width
    case W8 => [Set(Rwds0, NotSel(3))]
    case W16 => [Set(Rwds1, NotSel(3)), Set(Rwds0, NotSel(2))]
  }

  const TeardownActions: seq<Action> :=
    [Set(Cs, Lit(false)), Set(RwdsOe, Lit(false)), Set(DqOe, Lit(false))]

  /** The delta table for one access, as the controller builds it. */
  function AccessSequence(width: Width, latencyCycles: int): seq<Step> {
    var head := [Step(3, []), Step(12, CaActions), Step(latencyCycles, LatencyActions)];
    var data :=
      match width
      case W8 => [
        Step(2, DataStartActions(W8)),
        Step(2, [Set(Rwds0, NotSel(2))]),
        Step(2, [Set(Rwds0, NotSel(1))]),
        Step(2, [Set(Rwds0, NotSel(0))])]
      case W16 => [
        Step(2, DataStartActions(W16)),
        Step(2, [Set(Rwds1, NotSel(1)), Set(Rwds0, NotSel(0))])];
    var tail := [Step(2, TeardownActions), Step(1, [Set(Ack, Lit(true))]), Step(1, [Set(Ack, Lit(false))]), Step(0, [])];
    head + data + tail
  }

  /** Prefix sums: each entry's offset is `start` plus the delays of the entries before it. */
  function ToAbsolute(steps: seq<Step>, start: int): (events: seq<Event>)
    ensures |events| == |steps|
    ensures forall i :: 0 <= i < |steps| ==> events[i].actions == steps[i].actions
    ensures |steps| > 0 ==> events[0].at == start
    ensures forall i :: 0 <= i < |steps| - 1 ==> events[i + 1].at == events[i].at + steps[i].delay
  {
    if steps == [] then []
    else [Event(start, steps[0].actions)] + ToAbsolute(steps[1..], start + steps[0].delay)
  }

  /** The replayed table of a controller. */
  function Timeline(p: Params): seq<Event> {
    ToAbsolute(AccessSequence(p.width, LatencyCycles(p.latency)), 0)
  }

  /** The largest offset of a table: the counter value after which replay stops. */
  function LastOffset(events: seq<Event>): (m: int)
    requires events != []
    ensures forall i :: 0 <= i < |events| ==> events[i].at <= m
    ensures exists i :: 0 <= i < |events| && events[i].at == m
  {
    if |events| == 1 then events[0].at
    else
      var rest := LastOffset(events[1..]);
      assert forall i :: 1 <= i < |events| ==> events[i] == events[1..][i - 1];
      if events[0].at >= rest then events[0].at else rest
  }

  /** Whether a table entry fires in a cycle with this counter value and trigger. */
  predicate Fires(e: Event, counter: nat, trigger: bool) {
    if e.at == 0 then trigger && counter == 0 else counter == e.at
  }

  /** The actions of every entry that fires, in table order. */
  function Fired(events: seq<Event>, counter: nat, trigger: bool): seq<Action> {
    if events == [] then []
    else
      var now := if Fires(events[0], counter, trigger) then events[0].actions else [];
      now + Fired(events[1..], counter, trigger)
  }

  /** The replay counter's next value. */
  function NextCounter(last: int, counter: nat, trigger: bool): (next: nat)
    ensures next == 0 || next == counter + 1
    ensures counter == 0 && next != 0 ==> trigger
    ensures counter == 0 && counter != last && trigger ==> next == 1
    ensures counter != 0 && counter != last ==> next == counter + 1
    ensures counter == last ==> next == 0
  {
    if counter == last then 0
    else if counter != 0 then counter + 1
    else if trigger then 1
    else 0
  }

  // ---------------------------------------------------------------------
  // Offsets of the phases of one access

  const CaAt: int := 3
  const LatencyAt: int := 15

  function DataAt(p: Params): int { LatencyAt + LatencyCycles(p.latency) }

  /** Two-cycle data sub-steps: one per byte lane at width 8, one per half-word at width 16. */
  function DataSteps(width: Width): nat {
    match width
    case W8 => 4
    case W16 => 2
  }

  function TeardownAt(p: Params): int { DataAt(p) + 2 * DataSteps(p.width) }

  /** Whether counter value `k` is the start of a data sub-step. */
  predicate IsDataStep(p: Params, k: int) {
    DataAt(p) <= k < TeardownAt(p) && (k - DataAt(p)) % 2 == 0
  }

  function AckAt(p: Params): int { TeardownAt(p) + 2 }
  function EndAt(p: Params): int { AckAt(p) + 2 }

  /**
   * The offsets as numbers: the data phase lasts 8 cycles at width 8 and 4
   * at width 16, acknowledgment rises 25 (width 8) or 21 (width 16) cycles
   * plus the latency cycles after the trigger, and the table ends two
   * cycles later. With the default latency of 6 at width 8 the table ends
   * at offset 71.
   */
  lemma AccessOffsets(p: Params)
    ensures TeardownAt(p) - DataAt(p) == (if p.width == W8 then 8 else 4)
    ensures AckAt(p) == LatencyCycles(p.latency) + (if p.width == W8 then 25 else 21)
    ensures EndAt(p) == AckAt(p) + 2
    ensures p == Params(W8, 6) ==> EndAt(p) == 71
  {
  }

  /** The actions of data sub-step `j` (0 is the first). */
  function DataStepActions(width: Width, j: nat): seq<Action>
    requires j < DataSteps(width)
  {
    if j == 0 then DataStartActions(width)
    else match width
      case W8 => [Set(Rwds0, NotSel(3 - j))]
      case W16 => [Set(Rwds1, NotSel(1)), Set(Rwds0, NotSel(0))]
  }

  /**
   * The converted table, entry by entry: idle gap, command-address phase at
   * offset 3, latency at 15, the data sub-steps two cycles apart, teardown,
   * the acknowledgment pulse and the end marker.
   */
  predicate Shaped(p: Params, tl: seq<Event>) {
    && |tl| == 7 + DataSteps(p.width)
    && tl[0] == Event(0, [])
    && tl[1] == Event(CaAt, CaActions)
    && tl[2] == Event(LatencyAt, LatencyActions)
    && (forall j :: 0 <= j < DataSteps(p.width) ==>
          tl[3 + j] == Event(DataAt(p) + 2 * j, DataStepActions(p.width, j)))
    && tl[3 + DataSteps(p.width)] == Event(TeardownAt(p), TeardownActions)
    && tl[4 + DataSteps(p.width)] == Event(AckAt(p), [Set(Ack, Lit(true))])
    && tl[5 + DataSteps(p.width)] == Event(AckAt(p) + 1, [Set(Ack, Lit(false))])
    && tl[6 + DataSteps(p.width)] == Event(EndAt(p), [])
  }

  /** The converted table has the shape above. */
  lemma TimelineShape(p: Params)
    ensures Shaped(p, Timeline(p))
  {
    match p.width
    case W8 => TimelineShape8(p);
    case W16 => TimelineShape16(p);
  }

  lemma TimelineShape8(p: Params)
    requires p.width == W8
    ensures Shaped(p, Timeline(p))
  {
    var tl := Timeline(p);
    assert tl[1].at == 3;
    assert tl[2].at == 15;
    assert tl[3].at == DataAt(p);
    assert tl[4].at == DataAt(p) + 2;
    assert tl[5].at == DataAt(p) + 4;
    assert tl[6].at == DataAt(p) + 6;
    assert tl[7].at == TeardownAt(p);
    forall j | 0 <= j < 4
      ensures tl[3 + j] == Event(DataAt(p) + 2 * j, DataStepActions(W8, j))
    {
    }
  }

  lemma TimelineShape16(p: Params)
    requires p.width == W16
    ensures Shaped(p, Timeline(p))
  {
    var tl := Timeline(p);
    assert tl[1].at == 3;
    assert tl[2].at == 15;
    assert tl[3].at == DataAt(p);
    assert tl[4].at == DataAt(p) + 2;
    assert tl[5].at == TeardownAt(p);
    forall j | 0 <= j < 2
      ensures tl[3 + j] == Event(DataAt(p) + 2 * j, DataStepActions(W16, j))
    {
    }
  }

  /** Offsets that grow by at least `gap` from each entry to the next grow by at least `gap` between any two. */
  lemma {:induction false} ChainedOffsets(events: seq<Event>, gap: nat)
    requires forall i :: 0 <= i < |events| - 1 ==> events[i].at + gap <= events[i + 1].at
    ensures forall i, j :: 0 <= i < j < |events| ==> events[i].at + gap <= events[j].at
  {
    if |events| > 1 {
      var init := events[..|events| - 1];
      assert forall i :: 0 <= i < |init| ==> init[i] == events[i];
      ChainedOffsets(init, gap);
      forall i, j | 0 <= i < j < |events|
        ensures events[i].at + gap <= events[j].at
      {
        if j == |events| - 1 && i < j - 1 {
          assert events[i].at + gap <= events[j - 1].at;
        }
      }
    }
  }

  /** Every delay of the table is positive once the latency is at least one device clock;
      only the end marker's delay, which is never used, is zero. */
  lemma AccessSequenceDelays(p: Params)
    requires p.latency >= 1
    ensures var steps := AccessSequence(p.width, LatencyCycles(p.latency));
      forall i :: 0 <= i < |steps| - 1 ==> steps[i].delay >= 1
  {
  }

  /**
   * Offsets start at 0 and strictly increase along the table, so no two
   * entries share a counter value.
   */
  lemma TimelineIncreasing(p: Params)
    requires p.latency >= 1
    ensures Timeline(p)[0].at == 0
    ensures forall i, j :: 0 <= i < j < |Timeline(p)| ==> Timeline(p)[i].at < Timeline(p)[j].at
  {
    var steps := AccessSequence(p.width, LatencyCycles(p.latency));
    var tl := Timeline(p);
    AccessSequenceDelays(p);
    assert forall i :: 0 <= i < |tl| - 1 ==> tl[i].at + 1 <= tl[i + 1].at;
    ChainedOffsets(tl, 1);
  }

  /** With a latency of 0 the latency delay is negative and the first data step
      comes before the latency step: the table is out of order. */
  lemma ZeroLatencyOutOfOrder(width: Width)
    ensures Timeline(Params(width, 0))[3].at < Timeline(Params(width, 0))[2].at
  {
    var steps := AccessSequence(width, LatencyCycles(0));
    var tl := Timeline(Params(width, 0));
    assert steps[2].delay == -4;
    assert tl[3].at == tl[2].at + steps[2].delay;
  }

  /** The replay stops after the end marker. */
  lemma TimelineLast(p: Params)
    requires p.latency >= 1
    ensures LastOffset(Timeline(p)) == EndAt(p)
  {
    TimelineShape(p);
    TimelineIncreasing(p);
    var tl := Timeline(p);
    var m := LastOffset(tl);
    assert tl[|tl| - 1].at == EndAt(p);
  }

  /** When no entry but `k` can fire, the fired actions are those of `k` (or none). */
  lemma {:induction false} FiredOnly(events: seq<Event>, counter: nat, trigger: bool, k: nat)
    requires k < |events|
    requires forall j :: 0 <= j < |events| && j != k ==> !Fires(events[j], counter, trigger)
    ensures Fired(events, counter, trigger)
         == if Fires(events[k], counter, trigger) then events[k].actions else []
  {
    var rest := events[1..];
    assert forall j :: 0 <= j < |rest| ==> rest[j] == events[j + 1];
    if k == 0 {
      FiredNone(rest, counter, trigger);
    } else {
      FiredOnly(rest, counter, trigger, k - 1);
    }
  }

  lemma {:induction false} FiredNone(events: seq<Event>, counter: nat, trigger: bool)
    requires forall j :: 0 <= j < |events| ==> !Fires(events[j], counter, trigger)
    ensures Fired(events, counter, trigger) == []
  {
    if events != [] {
      FiredNone(events[1..], counter, trigger);
    }
  }

  /**
   * The controller's schedule by protocol stage: what happens at each
   * counter value. Command-address at 3, latency at 15, a data sub-step
   * every two cycles from the data start, teardown, acknowledgment rise and
   * fall; nothing at any other counter value.
   */
  function Scheduled(p: Params, c: int): seq<Action> {
    if c == CaAt then CaActions
    else if c == LatencyAt then LatencyActions
    else if IsDataStep(p, c) then
      DataStepActions(p.width, (c - DataAt(p)) / 2)
    else if c == TeardownAt(p) then TeardownActions
    else if c == AckAt(p) then [Set(Ack, Lit(true))]
    else if c == AckAt(p) + 1 then [Set(Ack, Lit(false))]
    else []
  }

  /** Replaying the converted table does exactly what the stage schedule says. */
  lemma FiredIsScheduled(p: Params, counter: nat, trigger: bool)
    requires p.latency >= 1
    ensures Fired(Timeline(p), counter, trigger) == Scheduled(p, counter)
  {
    TimelineShape(p);
    TimelineIncreasing(p);
    ShapedFiredIsScheduled(p, Timeline(p), counter, trigger);
  }

  /** Replaying any table of the converted shape with increasing offsets does what the schedule says. */
  lemma ShapedFiredIsScheduled(p: Params, tl: seq<Event>, counter: nat, trigger: bool)
    requires p.latency >= 1
    requires Shaped(p, tl)
    requires forall i, j :: 0 <= i < j < |tl| ==> tl[i].at < tl[j].at
    ensures Fired(tl, counter, trigger) == Scheduled(p, counter)
  {
    if counter == 0 {
      FiredOnly(tl, counter, trigger, 0);
    } else if k :| 1 <= k < |tl| && tl[k].at == counter {
      FiredOnly(tl, counter, trigger, k);
      EntryIsScheduled(p, tl, k);
    } else {
      FiredNone(tl, counter, trigger);
      ScheduledIsListed(p, tl, counter);
    }
  }

  /** Each entry after the first does what the schedule prescribes for its offset. */
  lemma EntryIsScheduled(p: Params, tl: seq<Event>, k: nat)
    requires p.latency >= 1
    requires Shaped(p, tl)
    requires 1 <= k < |tl|
    ensures Scheduled(p, tl[k].at) == tl[k].actions
  {
    var n := DataSteps(p.width);
    if k == 1 {
    } else if k == 2 {
    } else if k < 3 + n {
      ScheduledData(p, k - 3);
    } else {
      ScheduledAfterData(p);
    }
  }

  /** At data sub-step `j` the schedule prescribes that sub-step's actions. */
  lemma ScheduledData(p: Params, j: nat)
    requires p.latency >= 1
    requires j < DataSteps(p.width)
    ensures Scheduled(p, DataAt(p) + 2 * j) == DataStepActions(p.width, j)
  {
    var c := DataAt(p) + 2 * j;
    assert c - DataAt(p) == 2 * j;
    assert (2 * j) % 2 == 0 && (2 * j) / 2 == j;
  }

  /** After the data steps the schedule prescribes the teardown and the acknowledgment pulse. */
  lemma ScheduledAfterData(p: Params)
    requires p.latency >= 1
    ensures Scheduled(p, TeardownAt(p)) == TeardownActions
    ensures Scheduled(p, AckAt(p)) == [Set(Ack, Lit(true))]
    ensures Scheduled(p, AckAt(p) + 1) == [Set(Ack, Lit(false))]
    ensures Scheduled(p, EndAt(p)) == []
  {
  }

  /** Every counter value with something scheduled is the offset of some entry. */
  lemma ScheduledIsListed(p: Params, tl: seq<Event>, c: nat)
    requires p.latency >= 1
    requires Shaped(p, tl)
    requires c != 0
    ensures Scheduled(p, c) != [] ==> exists k :: 1 <= k < |tl| && tl[k].at == c
  {
    if IsDataStep(p, c) {
      var j := (c - DataAt(p)) / 2;
      assert c == DataAt(p) + 2 * j && j < DataSteps(p.width);
      assert tl[3 + j] == Event(DataAt(p) + 2 * j, DataStepActions(p.width, j));
    }
  }
}
