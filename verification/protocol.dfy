/**
 * What the controller does over time: the effect of one cycle on each
 * register, an invariant every reachable state keeps, and the course of one
 * access cycle by cycle.
 *
 * Every statement here assumes a latency of at least one device clock; with
 * a latency of 0 the access table is out of order (see
 * `Sequencer.ZeroLatencyOutOfOrder`).
 */
module Protocol {
  import opened Bits
  import opened CommandAddress
  import opened DataPath
  import opened Sequencer
  import opened HyperRam

  // ---------------------------------------------------------------------
  // The effect of each group of actions

  /** Applying two lists of actions one after the other is applying their concatenation. */
  lemma {:induction false} ApplyConcat(xs: seq<Action>, ys: seq<Action>, s: State, width: Width, bus: Bus)
    ensures Apply(xs + ys, s, width, bus) == Apply(ys, Apply(xs, s, width, bus), width, bus)
  {
    if xs != [] {
      assert (xs + ys)[1..] == xs[1..] + ys;
      ApplyConcat(xs[1..], ys, Perform(xs[0], s, width, bus), width, bus);
    } else {
      assert xs + ys == ys;
    }
  }

  lemma ApplyOne(a: Action, s: State, width: Width, bus: Bus)
    ensures Apply([a], s, width, bus) == Perform(a, s, width, bus)
  {
    assert [a][1..] == [];
  }

  lemma ApplyTwo(a: Action, b: Action, s: State, width: Width, bus: Bus)
    ensures Apply([a, b], s, width, bus) == Perform(b, Perform(a, s, width, bus), width, bus)
  {
    assert [a, b] == [a] + [b];
    ApplyConcat([a], [b], s, width, bus);
    ApplyOne(a, s, width, bus);
    ApplyOne(b, Perform(a, s, width, bus), width, bus);
  }

  lemma ApplyCa(s: State, width: Width, bus: Bus)
    ensures Apply(CaActions, s, width, bus)
         == s.(cs := true, dqOe := true, sr := Encode(width, bus.we, bus.adr), caActive := true)
  {
    var a := CaActions;
    assert a == a[..2] + a[2..];
    assert a[..2] == [a[0], a[1]] && a[2..] == [a[2], a[3]];
    ApplyConcat(a[..2], a[2..], s, width, bus);
    ApplyTwo(a[0], a[1], s, width, bus);
    ApplyTwo(a[2], a[3], Apply(a[..2], s, width, bus), width, bus);
  }

  lemma ApplyLatency(s: State, width: Width, bus: Bus)
    ensures Apply(LatencyActions, s, width, bus) == s.(dqOe := false, caActive := false)
  {
    ApplyTwo(LatencyActions[0], LatencyActions[1], s, width, bus);
  }

  /** The part of a data start common to both widths: load the payload above 16 zero bits. */
  lemma ApplyDataHead(s: State, width: Width, bus: Bus)
    ensures Apply(DataHeadActions, s, width, bus)
         == s.(dqOe := bus.we, sr := Zeros(16) + bus.datW, rwdsOe := bus.we)
  {
    var a := DataHeadActions;
    assert a == [a[0], a[1]] + [a[2], a[3]];
    ApplyConcat([a[0], a[1]], [a[2], a[3]], s, width, bus);
    ApplyClear(s, width, bus);
    ApplyLoad(s.(dqOe := bus.we, sr := Zeros(16) + s.sr[16..]), width, bus);
  }

  lemma ApplyClear(s: State, width: Width, bus: Bus)
    ensures Apply([Set(DqOe, WriteEnable), ClearLow16], s, width, bus)
         == s.(dqOe := bus.we, sr := Zeros(16) + s.sr[16..])
  {
    ApplyTwo(Set(DqOe, WriteEnable), ClearLow16, s, width, bus);
  }

  lemma ApplyLoad(s: State, width: Width, bus: Bus)
    requires s.sr[..16] == Zeros(16)
    ensures Apply([LoadWriteData, Set(RwdsOe, WriteEnable)], s, width, bus)
         == s.(sr := Zeros(16) + bus.datW, rwdsOe := bus.we)
  {
    ApplyTwo(LoadWriteData, Set(RwdsOe, WriteEnable), s, width, bus);
  }

  lemma ApplyDataStart(s: State, width: Width, bus: Bus)
    ensures Apply(DataStartActions(width), s, width, bus)
         == match width
            case W8 => s.(dqOe := bus.we, sr := Zeros(16) + bus.datW, rwdsOe := bus.we, rwds0 := !bus.sel[3])
            case W16 => s.(dqOe := bus.we, sr := Zeros(16) + bus.datW, rwdsOe := bus.we,
                           rwds1 := !bus.sel[3], rwds0 := !bus.sel[2])
  {
    ApplyConcat(DataHeadActions, DataStrobeActions(width), s, width, bus);
    ApplyDataHead(s, width, bus);
    ApplyStrobes(s.(dqOe := bus.we, sr := Zeros(16) + bus.datW, rwdsOe := bus.we), width, bus);
  }

  lemma ApplyStrobes(s: State, width: Width, bus: Bus)
    ensures Apply(DataStrobeActions(width), s, width, bus)
         == match width
            case W8 => s.(rwds0 := !bus.sel[3])
            case W16 => s.(rwds1 := !bus.sel[3], rwds0 := !bus.sel[2])
  {
    match width
    case W8 =>
      ApplyOne(Set(Rwds0, NotSel(3)), s, width, bus);
    case W16 =>
      ApplyTwo(Set(Rwds1, NotSel(3)), Set(Rwds0, NotSel(2)), s, width, bus);
  }

  lemma ApplyTeardown(s: State, width: Width, bus: Bus)
    ensures Apply(TeardownActions, s, width, bus) == s.(cs := false, rwdsOe := false, dqOe := false)
  {
    var a := TeardownActions;
    assert a == a[..2] + a[2..];
    assert a[..2] == [a[0], a[1]] && a[2..] == [a[2]];
    ApplyConcat(a[..2], a[2..], s, width, bus);
    ApplyTwo(a[0], a[1], s, width, bus);
    ApplyOne(a[2], Apply(a[..2], s, width, bus), width, bus);
  }

  // ---------------------------------------------------------------------
  // One cycle, register by register

  /** Data sub-step `j` starts at `DataAt + 2j`; the cycle after it starts none. */
  lemma DataStepStart(p: Params, j: nat)
    requires j < DataSteps(p.width)
    ensures IsDataStep(p, DataAt(p) + 2 * j) && (DataAt(p) + 2 * j - DataAt(p)) / 2 == j
    ensures !IsDataStep(p, DataAt(p) + 2 * j + 1)
  {
    assert DataAt(p) + 2 * j - DataAt(p) == 2 * j;
    assert DataAt(p) + 2 * j + 1 - DataAt(p) == 2 * j + 1;
  }

  /**
   * The strobe mask a data sub-step drives: at width 8 one line, carrying
   * the complement of byte-select 3, 2, 1, 0 in turn; at width 16 two lines,
   * carrying the complements of selects 3 and 2, then 1 and 0.
   */
  function MaskLow(width: Width, j: nat, sel: Sel): bool
    requires j < DataSteps(width)
  {
    match width
    case W8 => !sel[3 - j]
    case W16 => !sel[2 - 2 * j]
  }

  function MaskHigh(width: Width, j: nat, sel: Sel, old1: bool): bool
    requires j < DataSteps(width)
  {
    match width
    case W8 => old1
    case W16 => !sel[3 - 2 * j]
  }

  /** A cycle does what the clocked logic does and then what the schedule prescribes for the counter value. */
  lemma TickScheduled(c: Controller, s: State, i: Inputs)
    requires c.params.latency >= 1
    ensures Tick(c, s, i) == Apply(Scheduled(c.params, s.counter), Clocked(c, s, i), c.params.width, i.bus)
  {
    FiredIsScheduled(c.params, s.counter, Trigger(s, i));
  }

  /** The registers after the scheduled actions for counter value `k`, register by register. */
  function AfterSchedule(p: Params, k: int, m: State, bus: Bus): State {
    var step := IsDataStep(p, k);
    var j: nat := if step then (k - DataAt(p)) / 2 else 0;
    m.(cs := if k == CaAt then true else if k == TeardownAt(p) then false else m.cs,
       caActive := if k == CaAt then true else if k == LatencyAt then false else m.caActive,
       dqOe := if k == CaAt then true else if k == LatencyAt then false
               else if k == DataAt(p) then bus.we else if k == TeardownAt(p) then false else m.dqOe,
       rwdsOe := if k == DataAt(p) then bus.we else if k == TeardownAt(p) then false else m.rwdsOe,
       ack := if k == AckAt(p) then true else if k == AckAt(p) + 1 then false else m.ack,
       sr := if k == CaAt then Encode(p.width, bus.we, bus.adr)
             else if k == DataAt(p) then Zeros(16) + bus.datW else m.sr,
       rwds0 := if step then MaskLow(p.width, j, bus.sel) else m.rwds0,
       rwds1 := if step then MaskHigh(p.width, j, bus.sel, m.rwds1) else m.rwds1)
  }

  lemma ApplyScheduled(p: Params, k: int, m: State, bus: Bus)
    requires p.latency >= 1
    ensures Apply(Scheduled(p, k), m, p.width, bus) == AfterSchedule(p, k, m, bus)
  {
    if k == CaAt {
      ApplyCa(m, p.width, bus);
    } else if k == LatencyAt {
      ApplyLatency(m, p.width, bus);
    } else if k == DataAt(p) {
      ApplyDataStartAt(p, k, m, bus);
    } else if IsDataStep(p, k) {
      match p.width
      case W8 => ApplyByteStep(p, k, m, bus);
      case W16 => ApplyWordStep(p, k, m, bus);
    } else if k == TeardownAt(p) {
      ApplyTeardownAt(p, k, m, bus);
    } else if k == AckAt(p) || k == AckAt(p) + 1 {
      ApplyAckAt(p, k, m, bus);
    } else {
      assert Scheduled(p, k) == [];
    }
  }

  lemma ApplyDataStartAt(p: Params, k: int, m: State, bus: Bus)
    requires p.latency >= 1 && k == DataAt(p)
    ensures Apply(Scheduled(p, k), m, p.width, bus) == AfterSchedule(p, k, m, bus)
  {
    ApplyDataStart(m, p.width, bus);
  }

  lemma ApplyByteStep(p: Params, k: int, m: State, bus: Bus)
    requires p.latency >= 1 && p.width == W8
    requires IsDataStep(p, k) && k != DataAt(p)
    ensures Apply(Scheduled(p, k), m, p.width, bus) == AfterSchedule(p, k, m, bus)
  {
    var j := (k - DataAt(p)) / 2;
    assert Scheduled(p, k) == [Set(Rwds0, NotSel(3 - j))];
    ApplyOne(Set(Rwds0, NotSel(3 - j)), m, p.width, bus);
  }

  lemma ApplyWordStep(p: Params, k: int, m: State, bus: Bus)
    requires p.latency >= 1 && p.width == W16
    requires IsDataStep(p, k) && k != DataAt(p)
    ensures Apply(Scheduled(p, k), m, p.width, bus) == AfterSchedule(p, k, m, bus)
  {
    assert k == DataAt(p) + 2;
    assert Scheduled(p, k) == [Set(Rwds1, NotSel(1)), Set(Rwds0, NotSel(0))];
    ApplyTwo(Set(Rwds1, NotSel(1)), Set(Rwds0, NotSel(0)), m, p.width, bus);
  }

  lemma ApplyTeardownAt(p: Params, k: int, m: State, bus: Bus)
    requires p.latency >= 1 && k == TeardownAt(p)
    ensures Apply(Scheduled(p, k), m, p.width, bus) == AfterSchedule(p, k, m, bus)
  {
    ApplyTeardown(m, p.width, bus);
  }

  lemma ApplyAckAt(p: Params, k: int, m: State, bus: Bus)
    requires p.latency >= 1 && (k == AckAt(p) || k == AckAt(p) + 1)
    ensures Apply(Scheduled(p, k), m, p.width, bus) == AfterSchedule(p, k, m, bus)
  {
    ApplyOne(Set(Ack, Lit(k == AckAt(p))), m, p.width, bus);
  }

  /**
   * One cycle described stage by stage, as a relation between the state
   * before (`s`), the inputs (`i`) and the state after (`n`): the phase
   * advances modulo 4; the device clock copies chip-select at phase 1 and
   * drops at phase 3; the data lines are sampled; the replay counter moves
   * on. Chip-select rises at offset 3 and falls at the teardown; the
   * command phase runs from offset 3 to 15; the data lines are driven from
   * offset 3 to 15 and, for a write, from the data start to the teardown;
   * the strobe lines are driven for a write from the data start to the
   * teardown; acknowledgment rises at `AckAt` and falls one cycle later. The
   * shift register is loaded with the command-address word at offset 3 and
   * with the write payload above 16 zero bits at the data start, and
   * otherwise shifts on phases 0 and 2 and holds on phases 1 and 3. The
   * strobe values change only at the start of a data sub-step, to its mask.
   */
  predicate Cycle(c: Controller, s: State, i: Inputs, n: State) {
    CycleClocked(c, s, i, n) && CycleControl(c, s, i, n) && CycleData(c, s, i, n)
  }

  predicate CycleClocked(c: Controller, s: State, i: Inputs, n: State) {
    && n.phase == (s.phase + 1) % 4
    && n.clk == (if s.phase == 1 then s.cs else if s.phase == 3 then false else s.clk)
    && n.dqi == Sample(c.params.width, i.dq)
    && n.counter == NextCounter(EndAt(c.params), s.counter, Trigger(s, i))
  }

  predicate CycleControl(c: Controller, s: State, i: Inputs, n: State) {
    var p := c.params;
    var k := s.counter;
    && n.cs == (if k == CaAt then true else if k == TeardownAt(p) then false else s.cs)
    && n.caActive == (if k == CaAt then true else if k == LatencyAt then false else s.caActive)
    && n.dqOe == (if k == CaAt then true else if k == LatencyAt then false
                  else if k == DataAt(p) then i.bus.we else if k == TeardownAt(p) then false else s.dqOe)
    && n.rwdsOe == (if k == DataAt(p) then i.bus.we else if k == TeardownAt(p) then false else s.rwdsOe)
    && n.ack == (if k == AckAt(p) then true else if k == AckAt(p) + 1 then false else s.ack)
  }

  predicate CycleData(c: Controller, s: State, i: Inputs, n: State) {
    var p := c.params;
    var k := s.counter;
    var b := i.bus;
    && n.sr == (if k == CaAt then Encode(p.width, b.we, b.adr)
                else if k == DataAt(p) then Zeros(16) + b.datW
                else if s.phase == 0 || s.phase == 2 then Shift(p.width, s.caActive, s.sr, s.dqi)
                else s.sr)
    && n.rwds0 == (if IsDataStep(p, k) then MaskLow(p.width, (k - DataAt(p)) / 2, b.sel) else s.rwds0)
    && n.rwds1 == (if IsDataStep(p, k) then MaskHigh(p.width, (k - DataAt(p)) / 2, b.sel, s.rwds1) else s.rwds1)
  }

  /** The controller's cycle, built from the access table, does what the stage description says. */
  lemma TickCycle(c: Controller, s: State, i: Inputs)
    requires c.params.latency >= 1
    ensures Cycle(c, s, i, Tick(c, s, i))
  {
    TickCycleClocked(c, s, i);
    TickCycleControl(c, s, i);
    TickCycleData(c, s, i);
  }

  lemma TickCycleClocked(c: Controller, s: State, i: Inputs)
    requires c.params.latency >= 1
    ensures CycleClocked(c, s, i, Tick(c, s, i))
  {
    TimelineLast(c.params);
  }

  lemma TickCycleControl(c: Controller, s: State, i: Inputs)
    requires c.params.latency >= 1
    ensures CycleControl(c, s, i, Tick(c, s, i))
  {
    TickAfterSchedule(c, s, i);
  }

  lemma TickCycleData(c: Controller, s: State, i: Inputs)
    requires c.params.latency >= 1
    ensures CycleData(c, s, i, Tick(c, s, i))
  {
    TickAfterSchedule(c, s, i);
  }

  /** A cycle, with the scheduled actions written out. */
  lemma TickAfterSchedule(c: Controller, s: State, i: Inputs)
    requires c.params.latency >= 1
    ensures Tick(c, s, i) == AfterSchedule(c.params, s.counter, Clocked(c, s, i), i.bus)
  {
    TickScheduled(c, s, i);
    ApplyScheduled(c.params, s.counter, Clocked(c, s, i), i.bus);
  }

  // ---------------------------------------------------------------------
  // The invariant of reachable states

  /**
   * Every reachable state: the replay counter stays within the table and,
   * while running, is locked to the phase (counter 1 falls on phase 2);
   * chip-select is active from offset 4 up to the teardown; the command
   * phase lasts from 4 to 15; the device clock runs only inside chip-select,
   * high on phases 2 and 3; the strobe lines are driven only in the data
   * phase, and the data lines during the command phase and, for a write, in
   * the data phase; acknowledgment is high only at offset `AckAt + 1`.
   */
  predicate Inv(c: Controller, s: State) {
    var p := c.params;
    var k := s.counter;
    && p.latency >= 1
    && k <= EndAt(p)
    && (k != 0 ==> s.phase == (k + 1) % 4)
    && (s.cs <==> CaAt < k <= TeardownAt(p))
    && (s.caActive <==> CaAt < k <= LatencyAt)
    && (s.clk <==> CaAt + 1 < k < TeardownAt(p) && (s.phase == 2 || s.phase == 3))
    && (s.rwdsOe ==> DataAt(p) < k <= TeardownAt(p))
    && (s.dqOe <==> CaAt < k <= LatencyAt || s.rwdsOe)
    && (s.ack <==> k == AckAt(p) + 1)
  }

  /** The teardown, and so the end of the table, falls on phase 0. */
  lemma TeardownPhase(p: Params)
    ensures TeardownAt(p) % 4 == 3 && EndAt(p) % 4 == 3 && DataAt(p) % 4 == 3
  {
    var q := 2 * p.latency + 2;
    assert DataAt(p) == 4 * q + 3;
    assert TeardownAt(p) == 4 * (q + DataSteps(p.width) / 2) + 3;
    assert EndAt(p) == 4 * (q + DataSteps(p.width) / 2 + 1) + 3;
    ThreeModFour(q);
    ThreeModFour(q + DataSteps(p.width) / 2);
    ThreeModFour(q + DataSteps(p.width) / 2 + 1);
  }

  lemma ThreeModFour(q: int)
    ensures (4 * q + 3) % 4 == 3
  {
  }

  lemma ResetInv(c: Controller)
    requires c.params.latency >= 1
    ensures Inv(c, Reset)
  {
  }

  /**
   * The replay counter: a running access advances it by one every cycle
   * and the end marker returns it to 0; at rest it moves only on a trigger.
   * Either way it stays locked to the phase.
   */
  lemma CycleCounter(c: Controller, s: State, i: Inputs, n: State)
    requires Inv(c, s) && Cycle(c, s, i, n)
    ensures var k := s.counter;
      && n.counter == (if k == EndAt(c.params) then 0 else if k != 0 then k + 1
                       else if Trigger(s, i) then 1 else 0)
      && n.counter <= EndAt(c.params)
      && (n.counter != 0 ==> n.phase == (n.counter + 1) % 4)
  {
    PhaseLock(EndAt(c.params), s.counter, Trigger(s, i), s.phase);
  }

  /** A counter that starts on phase 1 and then advances with the phase stays locked to it. */
  lemma PhaseLock(last: int, k: nat, trigger: bool, phase: int)
    requires 0 <= phase < 4
    requires k != 0 ==> phase == (k + 1) % 4
    requires trigger ==> phase == 1
    ensures var n := NextCounter(last, k, trigger); n != 0 ==> (phase + 1) % 4 == (n + 1) % 4
  {
  }

  lemma CycleInvControl(c: Controller, s: State, i: Inputs, n: State)
    requires Inv(c, s) && Cycle(c, s, i, n)
    ensures var p := c.params;
      && (n.cs <==> CaAt < n.counter <= TeardownAt(p))
      && (n.caActive <==> CaAt < n.counter <= LatencyAt)
      && (n.ack <==> n.counter == AckAt(p) + 1)
      && (n.rwdsOe ==> DataAt(p) < n.counter <= TeardownAt(p))
      && (n.dqOe <==> CaAt < n.counter <= LatencyAt || n.rwdsOe)
  {
    CycleCounter(c, s, i, n);
  }

  lemma CycleInvClock(c: Controller, s: State, i: Inputs, n: State)
    requires Inv(c, s) && Cycle(c, s, i, n)
    ensures n.clk <==> CaAt + 1 < n.counter < TeardownAt(c.params) && (n.phase == 2 || n.phase == 3)
  {
    var p := c.params;
    var k := s.counter;
    CycleCounter(c, s, i, n);
    TeardownPhase(p);
    if k == 0 || k == EndAt(p) {
      assert n.counter <= 1;
    } else {
      assert n.counter == k + 1;
    }
  }

  /** Every cycle keeps the invariant, whatever the bus and the device do. */
  lemma TickInv(c: Controller, s: State, i: Inputs)
    requires Inv(c, s)
    ensures Inv(c, Tick(c, s, i))
  {
    TickCycle(c, s, i);
    CycleInv(c, s, i, Tick(c, s, i));
  }

  lemma CycleInv(c: Controller, s: State, i: Inputs, n: State)
    requires Inv(c, s) && Cycle(c, s, i, n)
    ensures Inv(c, n)
  {
    CycleCounter(c, s, i, n);
    CycleInvControl(c, s, i, n);
    CycleInvClock(c, s, i, n);
  }
}
