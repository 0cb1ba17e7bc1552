/**
 * The HyperRAM controller as a synchronous machine: construction from the
 * board's pads, the register state, one clock cycle of the system clock
 * (`Tick`), and the values it drives onto the pads and the bus.
 *
 * The device clock runs at a quarter of the system clock. A 2-bit phase
 * counter advances every cycle; the device clock follows chip-select at
 * phase 1 and drops at phase 3. Every cycle the data lines are sampled; on
 * phases 0 and 2 the shift register shifts. A bus request seen at phase 1
 * starts a replay of the access table, whose actions override the shift in
 * the cycle they fire.
 */
module HyperRam {
  import opened Wrappers
  import opened Bits
  import opened CommandAddress
  import opened DataPath
  import opened Sequencer

  /** The latency used when the board does not give one. */
  const DefaultLatency: nat := 6

  /** How many chip-select lines the board wires: the controller uses the first. */
  datatype ChipSelects = OneChip | TwoChips

  /** What the controller learns from the board's pads. */
  datatype Pads = Pads(dqWidth: int, rwdsWidth: nat, chipSelects: ChipSelects, hasReset: bool)

  /** The only construction failure: a data width other than 8 or 16. */
  datatype ConfigError = UnsupportedWidth(width: int)

  /** A constructed controller: its fixed parameters and the pads it drives. */
  datatype Controller = Controller(params: Params, pads: Pads)

  /**
   * Construction succeeds exactly when the pads have 8 or 16 data lines;
   * the width is then fixed for the life of the controller.
   */
  function New(pads: Pads, latency: nat := DefaultLatency): (r: Result<Controller, ConfigError>)
    ensures r.Ok? <==> pads.dqWidth == 8 || pads.dqWidth == 16
    ensures r.Ok? ==> && r.value.params.width.Lines() == pads.dqWidth
                      && r.value.params.latency == latency
                      && r.value.pads == pads
    ensures r.Err? ==> r.error == UnsupportedWidth(pads.dqWidth)
  {
    if pads.dqWidth == 8 then Ok(Controller(Params(W8, latency), pads))
    else if pads.dqWidth == 16 then Ok(Controller(Params(W16, latency), pads))
    else Err(UnsupportedWidth(pads.dqWidth))
  }

  /** The 2-bit phase counter. */
  type Phase = p: int | 0 <= p < 4

  /** Every register of the controller. */
  datatype State = State(
    phase: Phase,
    clk: bool,        // device clock
    cs: bool,         // chip-select, active high inside the controller
    caActive: bool,   // the command-address word is being sent
    sr: Reg,          // data shift register
    dqi: Lines,       // last sample of the data lines
    dqOe: bool,       // data lines driven
    rwdsOe: bool,     // strobe lines driven
    rwds0: bool,      // strobe value, low line
    rwds1: bool,      // strobe value, high line
    ack: bool,        // bus acknowledgment
    counter: nat)     // replay counter of the access table

  /** Every register holds 0 after reset. */
  const Reset: State :=
    State(0, false, false, false, Zeros(48), Zeros(16), false, false, false, false, false, 0)

  /** The four bus byte-select bits (bit 3 selects the most significant byte). */
  type Sel = s: Bits | |s| == 4 witness Zeros(4)

  /** The Wishbone request signals as the controller sees them in one cycle. */
  datatype Bus = Bus(cyc: bool, stb: bool, we: bool, adr: Address, datW: Word, sel: Sel)

  /** Everything outside the controller in one cycle: the bus and the device's data lines. */
  datatype Inputs = Inputs(bus: Bus, dq: Lines)

  /** The value a `Set` action assigns, read from the live request. */
  function Eval(level: Level, bus: Bus): bool {
    match level
    case Lit(b) => b
    case WriteEnable => bus.we
    case NotSel(lane) => !bus.sel[lane]
  }

  /** The effect of one action on the registers. */
  function Perform(a: Action, s: State, width: Width, bus: Bus): (r: State)
    ensures r.phase == s.phase && r.clk == s.clk && r.dqi == s.dqi && r.counter == s.counter
  {
    match a
    case Set(flag, level) =>
      var v := Eval(level, bus);
      (match flag
       case Cs => s.(cs := v)
       case DqOe => s.(dqOe := v)
       case CaActive => s.(caActive := v)
       case RwdsOe => s.(rwdsOe := v)
       case Rwds0 => s.(rwds0 := v)
       case Rwds1 => s.(rwds1 := v)
       case Ack => s.(ack := v))
    case LoadCommand => s.(sr := Encode(width, bus.we, bus.adr))
    case ClearLow16 => s.(sr := Zeros(16) + s.sr[16..])
    case LoadWriteData => s.(sr := s.sr[..16] + bus.datW)
  }

  /** The actions of one cycle, in order: a later assignment overrides an earlier one. */
  function Apply(actions: seq<Action>, s: State, width: Width, bus: Bus): (r: State)
    ensures r.phase == s.phase && r.clk == s.clk && r.dqi == s.dqi && r.counter == s.counter
  {
    if actions == [] then s
    else Apply(actions[1..], Perform(actions[0], s, width, bus), width, bus)
  }

  /** Whether a cycle starts an access: a bus request seen at phase 1. */
  predicate Trigger(s: State, i: Inputs) {
    i.bus.cyc && i.bus.stb && s.phase == 1
  }

  /** The registers after the clock-generation and data-path logic, before the sequencer's actions. */
  function Clocked(c: Controller, s: State, i: Inputs): State {
    var p := c.params;
    s.(phase := (s.phase + 1) % 4,
       clk := if s.phase == 1 then s.cs else if s.phase == 3 then false else s.clk,
       dqi := Sample(p.width, i.dq),
       sr := if s.phase == 0 || s.phase == 2 then Shift(p.width, s.caActive, s.sr, s.dqi) else s.sr,
       counter := NextCounter(LastOffset(Timeline(p)), s.counter, Trigger(s, i)))
  }

  /**
   * One system-clock cycle. The phase advances by one modulo 4, the device
   * clock copies chip-select at phase 1 and drops at phase 3, the sample
   * register takes the data lines, and the replay counter moves on; none of
   * these is touched by the sequencer's actions.
   */
  function Tick(c: Controller, s: State, i: Inputs): (n: State)
    ensures n.phase == (s.phase + 1) % 4
    ensures s.phase == 1 ==> n.clk == s.cs
    ensures s.phase == 3 ==> !n.clk
    ensures s.phase == 0 || s.phase == 2 ==> n.clk == s.clk
    ensures n.dqi == Sample(c.params.width, i.dq)
    ensures n.counter == NextCounter(LastOffset(Timeline(c.params)), s.counter, Trigger(s, i))
  {
    Apply(Fired(Timeline(c.params), s.counter, Trigger(s, i)), Clocked(c, s, i), c.params.width, i.bus)
  }

  /** The values on the device's pads. */
  datatype Pins = Pins(
    csN: seq<bool>,      // chip-selects, active low
    rstN: Option<bool>,  // reset, active low, when the board wires it
    clk: bool,
    dqO: Bits,
    dqOe: bool,
    rwdsO: Bits,
    rwdsOe: bool)

  /**
   * The pads: the first chip-select is the complement of `cs`, a second one
   * is held high (inactive), reset is held high (inactive), the data lines
   * carry the shift register's top bits, and the two strobe values are fitted
   * to the board's strobe width.
   */
  function Outputs(c: Controller, s: State): (o: Pins)
    ensures |o.csN| == (if c.pads.chipSelects == TwoChips then 2 else 1)
    ensures o.csN[0] == !s.cs
    ensures c.pads.chipSelects == TwoChips ==> o.csN[1]
    ensures o.rstN == (if c.pads.hasReset then Some(true) else None)
    ensures o.clk == s.clk
    ensures o.dqO == DqOut(c.params.width, s.caActive, s.sr) && |o.dqO| == c.params.width.Lines()
    ensures o.dqOe == s.dqOe && o.rwdsOe == s.rwdsOe
    ensures |o.rwdsO| == c.pads.rwdsWidth
    ensures 0 < c.pads.rwdsWidth ==> o.rwdsO[0] == s.rwds0
    ensures 1 < c.pads.rwdsWidth ==> o.rwdsO[1] == s.rwds1
  {
    Pins(
      csN := match c.pads.chipSelects case OneChip => [!s.cs] case TwoChips => [!s.cs, true],
      rstN := if c.pads.hasReset then Some(true) else None,
      clk := s.clk,
      dqO := DqOut(c.params.width, s.caActive, s.sr),
      dqOe := s.dqOe,
      rwdsO := Fit([s.rwds0, s.rwds1], c.pads.rwdsWidth),
      rwdsOe := s.rwdsOe)
  }

  /** What the controller returns to the bus. */
  datatype Response = Response(datR: Word, ack: bool)

  function Respond(s: State): Response {
    Response(ReadData(s.sr), s.ack)
  }
}
