/**
 * What travels over the data lines during one access: the command-address
 * word, most significant byte first; for a write, the payload, most
 * significant part first, with the strobe mask of its byte lanes; for a
 * read, the bus read data assembled from the device's samples.
 */
module Transfers {
  import opened Bits
  import opened CommandAddress
  import opened DataPath
  import opened Sequencer
  import opened HyperRam
  import opened Protocol
  import opened Runs

  /** A run that starts an access in its first cycle and lasts at least the whole access. */
  predicate AccessRun(c: Controller, t: seq<State>, ins: seq<Inputs>) {
    && IsRun(c, t, ins)
    && Inv(c, t[0])
    && |ins| > EndAt(c.params)
    && t[0].counter == 0
    && Trigger(t[0], ins[0])
  }

  /** The data-line samples of every second cycle from cycle `j`, `n` of them. */
  function Samples(width: Width, ins: seq<Inputs>, j: nat, n: nat): (ds: seq<Lines>)
    requires j + 2 * n <= |ins| + 1
    ensures |ds| == n
  {
    if n == 0 then [] else Samples(width, ins, j, n - 1) + [Sample(width, ins[j + 2 * (n - 1)].dq)]
  }

  /** Sample `m` of a run is the one taken in cycle `j + 2m`. */
  lemma {:induction false} SamplesAt(width: Width, ins: seq<Inputs>, j: nat, n: nat, m: nat)
    requires j + 2 * n <= |ins| + 1 && m < n
    ensures Samples(width, ins, j, n)[m] == Sample(width, ins[j + 2 * m].dq)
  {
    if m < n - 1 {
      SamplesAt(width, ins, j, n - 1, m);
    }
  }

  /**
   * The shift register holds on phases 1 and 3: the sequencer loads it only
   * at offsets that fall on phase 0.
   */
  lemma HoldsOnOddPhases(c: Controller, s: State, i: Inputs, n: State)
    requires Inv(c, s) && Cycle(c, s, i, n)
    requires s.phase == 1 || s.phase == 3
    ensures n.sr == s.sr
  {
    TeardownPhase(c.params);
  }

  /** Whether cycles `q` and `q + 1` form a pair that shifts in the sample taken in cycle `q`. */
  predicate PairOk(c: Controller, t: seq<State>, q: nat, ca: bool) {
    && q + 1 < |t|
    && (t[q].phase == 1 || t[q].phase == 3)
    && t[q + 1].counter != CaAt
    && t[q + 1].counter != DataAt(c.params)
    && t[q + 1].caActive == ca
  }

  /** Two cycles from an odd phase: hold, then shift in the sample taken in the first. */
  lemma PairShift(c: Controller, t: seq<State>, ins: seq<Inputs>, q: nat, ca: bool)
    requires IsRun(c, t, ins) && Inv(c, t[0])
    requires q + 2 <= |ins|
    requires PairOk(c, t, q, ca)
    ensures t[q + 2].sr == Shift(c.params.width, ca, t[q].sr, Sample(c.params.width, ins[q].dq))
  {
    RunInv(c, t, ins, q);
    RunCycle(c, t, ins, q);
    RunCycle(c, t, ins, q + 1);
    HoldsOnOddPhases(c, t[q], ins[q], t[q + 1]);
    assert t[q + 1].phase == 0 || t[q + 1].phase == 2;
  }

  /** Cycles `q` and `q + 1` together shift in the sample taken in cycle `q`. */
  predicate ShiftsIn(w: Width, ca: bool, t: seq<State>, ins: seq<Inputs>, q: nat)
    requires q + 2 < |t| && |t| == |ins| + 1
  {
    t[q + 2].sr == Shift(w, ca, t[q].sr, Sample(w, ins[q].dq))
  }

  /** The shift register in cycles `j`, `j + 2`, ..., `j + 2n`. */
  function EvenRegs(t: seq<State>, j: nat, n: nat): (rs: seq<Reg>)
    requires j + 2 * n < |t|
    ensures |rs| == n + 1
  {
    if n == 0 then [t[j].sr] else EvenRegs(t, j, n - 1) + [t[j + 2 * n].sr]
  }

  /** Entry `m` of `EvenRegs` is the register in cycle `j + 2m`. */
  lemma {:induction false} EvenRegsAt(t: seq<State>, j: nat, n: nat, m: nat)
    requires j + 2 * n < |t| && m <= n
    ensures EvenRegs(t, j, n)[m] == t[j + 2 * m].sr
  {
    if m < n {
      EvenRegsAt(t, j, n - 1, m);
    }
  }

  /** A chain of pairs, each shifting in the sample of its first cycle, shifts them all in order. */
  lemma ShiftPairs(w: Width, ca: bool, t: seq<State>, ins: seq<Inputs>, j: nat, n: nat)
    requires |t| == |ins| + 1 && j + 2 * n <= |ins|
    requires forall m :: 0 <= m < n ==> ShiftsIn(w, ca, t, ins, j + 2 * m)
    ensures t[j + 2 * n].sr == ShiftAll(w, ca, t[j].sr, Samples(w, ins, j, n))
  {
    var rs := EvenRegs(t, j, n);
    var ds := Samples(w, ins, j, n);
    forall m | 0 <= m < n
      ensures rs[m + 1] == Shift(w, ca, rs[m], ds[m])
    {
      PairInChain(w, ca, t, ins, j, n, m);
    }
    EvenRegsAt(t, j, n, 0);
    EvenRegsAt(t, j, n, n);
    ShiftChain(w, ca, rs, ds, n);
  }

  /** Pair `m` of the chain, in terms of the chain's registers and samples. */
  lemma PairInChain(w: Width, ca: bool, t: seq<State>, ins: seq<Inputs>, j: nat, n: nat, m: nat)
    requires |t| == |ins| + 1 && j + 2 * n <= |ins| && m < n
    requires ShiftsIn(w, ca, t, ins, j + 2 * m)
    ensures EvenRegs(t, j, n)[m + 1] == Shift(w, ca, EvenRegs(t, j, n)[m], Samples(w, ins, j, n)[m])
  {
    EvenRegsAt(t, j, n, m);
    EvenRegsAt(t, j, n, m + 1);
    SamplesAt(w, ins, j, n, m);
    assert j + 2 * (m + 1) == j + 2 * m + 2;
  }

  /** Registers each obtained from the previous by one shift end in the shift of all the samples. */
  lemma {:induction false} ShiftChain(w: Width, ca: bool, rs: seq<Reg>, ds: seq<Lines>, n: nat)
    requires |ds| == n && |rs| == n + 1
    requires forall m :: 0 <= m < n ==> rs[m + 1] == Shift(w, ca, rs[m], ds[m])
    ensures rs[n] == ShiftAll(w, ca, rs[0], ds)
  {
    if n > 0 {
      var k := n - 1;
      ShiftChain(w, ca, rs[..n], ds[..k], k);
      assert rs[n] == Shift(w, ca, rs[k], ds[k]);
    }
  }

  /** The latency of a controller running an access is at least one device clock. */
  lemma AccessLatency(c: Controller, t: seq<State>, ins: seq<Inputs>)
    requires AccessRun(c, t, ins)
    ensures c.params.latency >= 1
    ensures LatencyAt + 4 <= DataAt(c.params) && TeardownAt(c.params) + 4 == EndAt(c.params)
  {
  }

  /** Where an access stands `k` cycles after it started. */
  lemma AccessAt(c: Controller, t: seq<State>, ins: seq<Inputs>, k: nat)
    requires AccessRun(c, t, ins)
    requires 1 <= k <= EndAt(c.params)
    ensures t[k].counter == k && t[k].phase == (k + 1) % 4
    ensures t[k].caActive <==> CaAt < k <= LatencyAt
    ensures CaAt < k <= LatencyAt ==> t[k].dqOe
  {
    RunInv(c, t, ins, 0);
    RunCycle(c, t, ins, 0);
    CycleCounter(c, t[0], ins[0], t[1]);
    Climbs(c, t, ins, 1, k - 1);
    RunInv(c, t, ins, k);
  }

  /** Command pair `m`, cycles `4 + 2m` and `5 + 2m`, shifts in one sample. */
  lemma CommandShift(c: Controller, t: seq<State>, ins: seq<Inputs>, m: nat)
    requires AccessRun(c, t, ins)
    requires m < 5
    ensures var q := 4 + 2 * m;
      t[q + 2].sr == Shift(c.params.width, true, t[q].sr, Sample(c.params.width, ins[q].dq))
  {
    var q := 4 + 2 * m;
    AccessAt(c, t, ins, q);
    AccessAt(c, t, ins, q + 1);
    TeardownPhase(c.params);
    PairShift(c, t, ins, q, true);
  }

  /** Data pair `m`, cycles `DataAt + 1 + 2m` and `DataAt + 2 + 2m`, shifts in one sample. */
  lemma DataShift(c: Controller, t: seq<State>, ins: seq<Inputs>, m: nat)
    requires AccessRun(c, t, ins)
    requires m <= DataSteps(c.params.width)
    ensures var q := DataAt(c.params) + 1 + 2 * m;
      t[q + 2].sr == Shift(c.params.width, false, t[q].sr, Sample(c.params.width, ins[q].dq))
  {
    var q := DataAt(c.params) + 1 + 2 * m;
    AccessAt(c, t, ins, q);
    AccessAt(c, t, ins, q + 1);
    TeardownPhase(c.params);
    PairShift(c, t, ins, q, false);
  }

  /** In an odd phase of an access, an even cycle `q == 2h`, the shift register holds. */
  lemma HoldAt(c: Controller, t: seq<State>, ins: seq<Inputs>, q: nat, h: nat)
    requires AccessRun(c, t, ins)
    requires q == 2 * h && 1 <= q < EndAt(c.params)
    ensures t[q + 1].sr == t[q].sr
  {
    AccessAt(c, t, ins, q);
    RunInv(c, t, ins, q);
    RunCycle(c, t, ins, q);
    HoldsOnOddPhases(c, t[q], ins[q], t[q + 1]);
  }

  /**
   * The command-address word goes out during the command phase, most
   * significant byte first: byte `5 - n` is on the data lines in cycles
   * `4 + 2n` and `5 + 2n` after the start, with the lines driven. The word
   * is built from the request the bus presents at offset 3.
   */
  lemma CommandBytes(c: Controller, t: seq<State>, ins: seq<Inputs>)
    requires AccessRun(c, t, ins)
    ensures var ca := Encode(c.params.width, ins[CaAt].bus.we, ins[CaAt].bus.adr);
      forall n :: 0 <= n < 6 ==>
        && Outputs(c, t[4 + 2 * n]).dqO[..8] == ca[40 - 8 * n..48 - 8 * n]
        && Outputs(c, t[5 + 2 * n]).dqO[..8] == ca[40 - 8 * n..48 - 8 * n]
        && t[4 + 2 * n].dqOe && t[5 + 2 * n].dqOe
  {
    var ca := Encode(c.params.width, ins[CaAt].bus.we, ins[CaAt].bus.adr);
    forall n | 0 <= n < 6
      ensures && Outputs(c, t[4 + 2 * n]).dqO[..8] == ca[40 - 8 * n..48 - 8 * n]
              && Outputs(c, t[5 + 2 * n]).dqO[..8] == ca[40 - 8 * n..48 - 8 * n]
              && t[4 + 2 * n].dqOe && t[5 + 2 * n].dqOe
    {
      CommandByte(c, t, ins, n);
    }
  }

  lemma CommandByte(c: Controller, t: seq<State>, ins: seq<Inputs>, n: nat)
    requires AccessRun(c, t, ins)
    requires n < 6
    ensures var ca := Encode(c.params.width, ins[CaAt].bus.we, ins[CaAt].bus.adr);
      && Outputs(c, t[4 + 2 * n]).dqO[..8] == ca[40 - 8 * n..48 - 8 * n]
      && Outputs(c, t[5 + 2 * n]).dqO[..8] == ca[40 - 8 * n..48 - 8 * n]
      && t[4 + 2 * n].dqOe && t[5 + 2 * n].dqOe
  {
    var w := c.params.width;
    var ca: Reg := Encode(w, ins[CaAt].bus.we, ins[CaAt].bus.adr);
    var ds := Samples(w, ins, 4, n);
    CommandHeld(c, t, ins, n);
    CommandDriven(c, t, ins, n);
    CommandByteOut(c, t[4 + 2 * n], t[5 + 2 * n], ca, ds, n);
  }

  /** Both cycles of command pair `n` hold the CA word shifted by `n` samples. */
  lemma CommandHeld(c: Controller, t: seq<State>, ins: seq<Inputs>, n: nat)
    requires AccessRun(c, t, ins)
    requires n < 6
    ensures var x := ShiftAll(c.params.width, true, Encode(c.params.width, ins[CaAt].bus.we, ins[CaAt].bus.adr), Samples(c.params.width, ins, 4, n));
      t[4 + 2 * n].sr == x && t[5 + 2 * n].sr == x
  {
    CommandShifted(c, t, ins, n);
    AccessLatency(c, t, ins);
    HoldAt(c, t, ins, 4 + 2 * n, 2 + n);
  }

  /** Both cycles of command pair `n` are in the command phase with the lines driven. */
  lemma CommandDriven(c: Controller, t: seq<State>, ins: seq<Inputs>, n: nat)
    requires AccessRun(c, t, ins)
    requires n < 6
    ensures t[4 + 2 * n].caActive && t[5 + 2 * n].caActive
    ensures t[4 + 2 * n].dqOe && t[5 + 2 * n].dqOe
  {
    AccessLatency(c, t, ins);
    AccessAt(c, t, ins, 4 + 2 * n);
    AccessAt(c, t, ins, 5 + 2 * n);
  }

  /** Two states holding the CA word shifted by `|ds|` samples show its byte `5 - |ds|`. */
  lemma CommandByteOut(c: Controller, s0: State, s1: State, ca: Reg, ds: seq<Lines>, n: nat)
    requires |ds| == n <= 5
    requires s0.sr == ShiftAll(c.params.width, true, ca, ds) && s1.sr == s0.sr
    requires s0.caActive && s1.caActive
    ensures Outputs(c, s0).dqO[..8] == ca[40 - 8 * n..48 - 8 * n]
    ensures Outputs(c, s1).dqO[..8] == ca[40 - 8 * n..48 - 8 * n]
  {
    CommandByteOrder(c.params.width, ca, ds);
  }

  /** After `n` command pairs the register holds the CA word shifted by `n` samples. */
  lemma CommandShifted(c: Controller, t: seq<State>, ins: seq<Inputs>, n: nat)
    requires AccessRun(c, t, ins)
    requires n < 6
    ensures t[4 + 2 * n].sr == ShiftAll(c.params.width, true, Encode(c.params.width, ins[CaAt].bus.we, ins[CaAt].bus.adr), Samples(c.params.width, ins, 4, n))
  {
    CommandLoaded(c, t, ins);
    forall m | 0 <= m < n
      ensures ShiftsIn(c.params.width, true, t, ins, 4 + 2 * m)
    {
      CommandShift(c, t, ins, m);
    }
    ShiftPairs(c.params.width, true, t, ins, 4, n);
  }

  /** The shift register takes the command-address word at offset 3. */
  lemma CommandLoaded(c: Controller, t: seq<State>, ins: seq<Inputs>)
    requires AccessRun(c, t, ins)
    ensures t[4].sr == Encode(c.params.width, ins[CaAt].bus.we, ins[CaAt].bus.adr)
  {
    AccessAt(c, t, ins, 3);
    RunCycle(c, t, ins, 3);
  }

  /** The shift register takes the write payload above 16 zero bits at the data start. */
  lemma DataLoaded(c: Controller, t: seq<State>, ins: seq<Inputs>)
    requires AccessRun(c, t, ins)
    ensures t[DataAt(c.params) + 1].sr == Zeros(16) + ins[DataAt(c.params)].bus.datW
  {
    var d := DataAt(c.params);
    AccessAt(c, t, ins, d);
    RunCycle(c, t, ins, d);
  }

  /** For a write the lines stay driven from the data start to the teardown. */
  lemma {:induction false} WriteEnableHeld(c: Controller, t: seq<State>, ins: seq<Inputs>, k: nat)
    requires AccessRun(c, t, ins)
    requires DataAt(c.params) < k <= TeardownAt(c.params)
    ensures t[k].rwdsOe == ins[DataAt(c.params)].bus.we
    ensures t[k].dqOe == ins[DataAt(c.params)].bus.we
  {
    var q := k - 1;
    AccessAt(c, t, ins, q);
    RunInv(c, t, ins, k);
    RunCycle(c, t, ins, q);
    if q > DataAt(c.params) {
      WriteEnableHeld(c, t, ins, q);
    }
  }

  /**
   * A write burst: in data sub-step `n` (cycles `DataAt + 1 + 2n` and
   * `DataAt + 2 + 2n`) the data lines carry part `n` of the payload counted
   * from the most significant end (a byte at width 8, a half-word at width
   * 16) and the strobe lines carry the complement of that part's
   * byte-selects; the lines are driven exactly when the request is a write.
   */
  lemma WriteBurst(c: Controller, t: seq<State>, ins: seq<Inputs>)
    requires AccessRun(c, t, ins)
    ensures forall n :: 0 <= n < DataSteps(c.params.width) ==> WriteStepOk(c, t, ins, n)
  {
    forall n | 0 <= n < DataSteps(c.params.width)
      ensures WriteStepOk(c, t, ins, n)
    {
      WriteStep(c, t, ins, n);
    }
  }

  /** What data sub-step `n` of a write puts on the pins, as stated by `WriteBurst`. */
  predicate WriteStepOk(c: Controller, t: seq<State>, ins: seq<Inputs>, n: nat)
    requires AccessRun(c, t, ins)
    requires n < DataSteps(c.params.width)
  {
    var p := c.params; var d := DataAt(p); var w := p.width.Lines(); var b := ins[d].bus;
    && Outputs(c, t[d + 1 + 2 * n]).dqO == b.datW[32 - w * (n + 1)..32 - w * n]
    && Outputs(c, t[d + 2 + 2 * n]).dqO == b.datW[32 - w * (n + 1)..32 - w * n]
    && t[d + 1 + 2 * n].dqOe == b.we && t[d + 2 + 2 * n].dqOe == b.we
    && t[d + 1 + 2 * n].rwds0 == MaskLow(p.width, n, ins[d + 2 * n].bus.sel)
    && t[d + 2 + 2 * n].rwds0 == MaskLow(p.width, n, ins[d + 2 * n].bus.sel)
    && (p.width == W16 ==> && t[d + 1 + 2 * n].rwds1 == !ins[d + 2 * n].bus.sel[3 - 2 * n]
                           && t[d + 2 + 2 * n].rwds1 == !ins[d + 2 * n].bus.sel[3 - 2 * n])
  }

  lemma WriteStep(c: Controller, t: seq<State>, ins: seq<Inputs>, n: nat)
    requires AccessRun(c, t, ins)
    requires n < DataSteps(c.params.width)
    ensures WriteStepOk(c, t, ins, n)
  {
    var d := DataAt(c.params);
    WriteDataAt(c, t, ins, n);
    MaskAt(c, t, ins, n);
    WriteEnableHeld(c, t, ins, d + 1 + 2 * n);
    WriteEnableHeld(c, t, ins, d + 2 + 2 * n);
  }

  lemma WriteDataAt(c: Controller, t: seq<State>, ins: seq<Inputs>, n: nat)
    requires AccessRun(c, t, ins)
    requires n < DataSteps(c.params.width)
    ensures var d := DataAt(c.params); var w := c.params.width.Lines(); var data := ins[d].bus.datW;
      && Outputs(c, t[d + 1 + 2 * n]).dqO == data[32 - w * (n + 1)..32 - w * n]
      && Outputs(c, t[d + 2 + 2 * n]).dqO == data[32 - w * (n + 1)..32 - w * n]
  {
    var d := DataAt(c.params);
    var width := c.params.width;
    var ds := Samples(width, ins, d + 1, n);
    DataHeld(c, t, ins, n);
    WriteWordOut(c, t[d + 1 + 2 * n], t[d + 2 + 2 * n], ins[d].bus.datW, ds, n);
  }

  /** Both cycles of data pair `n` hold the shifted payload with the command flag clear. */
  lemma DataHeld(c: Controller, t: seq<State>, ins: seq<Inputs>, n: nat)
    requires AccessRun(c, t, ins)
    requires n < DataSteps(c.params.width)
    ensures t[DataAt(c.params) + 1 + 2 * n].sr == ShiftAll(c.params.width, false, Zeros(16) + ins[DataAt(c.params)].bus.datW, Samples(c.params.width, ins, DataAt(c.params) + 1, n))
    ensures t[DataAt(c.params) + 2 + 2 * n].sr == t[DataAt(c.params) + 1 + 2 * n].sr
    ensures !t[DataAt(c.params) + 1 + 2 * n].caActive && !t[DataAt(c.params) + 2 + 2 * n].caActive
  {
    var q := DataAt(c.params) + 1 + 2 * n;
    DataShifted(c, t, ins, n);
    AccessLatency(c, t, ins);
    HoldAt(c, t, ins, q, 6 + 4 * c.params.latency + n);
    AccessAt(c, t, ins, q);
    AccessAt(c, t, ins, q + 1);
  }

  /** Two states holding the payload shifted by `|ds|` samples show its part `|ds|` from the top. */
  lemma WriteWordOut(c: Controller, s0: State, s1: State, data: Word, ds: seq<Lines>, n: nat)
    requires |ds| == n < DataSteps(c.params.width)
    requires s0.sr == ShiftAll(c.params.width, false, Zeros(16) + data, ds) && s1.sr == s0.sr
    requires !s0.caActive && !s1.caActive
    ensures var k := c.params.width.Lines();
      && Outputs(c, s0).dqO == data[32 - k * (n + 1)..32 - k * n]
      && Outputs(c, s1).dqO == data[32 - k * (n + 1)..32 - k * n]
  {
    WriteDataOrder(c.params.width, data, ds);
  }

  /** After `n` data pairs the register holds its data-start load shifted by `n` samples. */
  lemma DataShifted(c: Controller, t: seq<State>, ins: seq<Inputs>, n: nat)
    requires AccessRun(c, t, ins)
    requires n <= DataSteps(c.params.width) + 1
    ensures var d := DataAt(c.params);
      t[d + 1 + 2 * n].sr == ShiftAll(c.params.width, false, Zeros(16) + ins[d].bus.datW, Samples(c.params.width, ins, d + 1, n))
  {
    var d := DataAt(c.params);
    DataLoaded(c, t, ins);
    DataPairsShift(c, t, ins, n);
    ShiftPairs(c.params.width, false, t, ins, d + 1, n);
  }

  /** Each of the first `n` data pairs shifts in one sample. */
  lemma DataPairsShift(c: Controller, t: seq<State>, ins: seq<Inputs>, n: nat)
    requires AccessRun(c, t, ins)
    requires n <= DataSteps(c.params.width) + 1
    ensures DataAt(c.params) + 1 + 2 * n <= |ins|
    ensures forall m :: 0 <= m < n ==> ShiftsIn(c.params.width, false, t, ins, DataAt(c.params) + 1 + 2 * m)
  {
    forall m | 0 <= m < n
      ensures ShiftsIn(c.params.width, false, t, ins, DataAt(c.params) + 1 + 2 * m)
    {
      DataShift(c, t, ins, m);
    }
  }

  lemma MaskAt(c: Controller, t: seq<State>, ins: seq<Inputs>, n: nat)
    requires AccessRun(c, t, ins)
    requires n < DataSteps(c.params.width)
    ensures var p := c.params; var d := DataAt(p); var sel := ins[d + 2 * n].bus.sel;
      && t[d + 1 + 2 * n].rwds0 == MaskLow(p.width, n, sel)
      && t[d + 2 + 2 * n].rwds0 == MaskLow(p.width, n, sel)
      && (p.width == W16 ==> && t[d + 1 + 2 * n].rwds1 == !sel[3 - 2 * n]
                             && t[d + 2 + 2 * n].rwds1 == !sel[3 - 2 * n])
  {
    MaskLoaded(c, t, ins, n);
    MaskKept(c, t, ins, n);
  }

  /** Data sub-step `n` loads the masks from the byte selects of the live request. */
  lemma MaskLoaded(c: Controller, t: seq<State>, ins: seq<Inputs>, n: nat)
    requires AccessRun(c, t, ins)
    requires n < DataSteps(c.params.width)
    ensures var p := c.params; var q := DataAt(p) + 2 * n; var sel := ins[q].bus.sel;
      && t[q + 1].rwds0 == MaskLow(p.width, n, sel)
      && (p.width == W16 ==> t[q + 1].rwds1 == !sel[3 - 2 * n])
  {
    var q := DataAt(c.params) + 2 * n;
    AccessAt(c, t, ins, q);
    RunCycle(c, t, ins, q);
    DataStepStart(c.params, n);
  }

  /** The cycle after a data sub-step leaves the masks alone. */
  lemma MaskKept(c: Controller, t: seq<State>, ins: seq<Inputs>, n: nat)
    requires AccessRun(c, t, ins)
    requires n < DataSteps(c.params.width)
    ensures var q := DataAt(c.params) + 2 * n;
      t[q + 2].rwds0 == t[q + 1].rwds0 && t[q + 2].rwds1 == t[q + 1].rwds1
  {
    var q := DataAt(c.params) + 2 * n;
    AccessAt(c, t, ins, q + 1);
    RunCycle(c, t, ins, q + 1);
    DataStepStart(c.params, n);
  }

  /** Dropping the first of a run of samples starts the run one pair later. */
  lemma {:induction false} SamplesTail(width: Width, ins: seq<Inputs>, j: nat, n: nat)
    requires 1 <= n && j + 2 * n <= |ins| + 1
    ensures Samples(width, ins, j, n)[1..] == Samples(width, ins, j + 2, n - 1)
  {
    if n > 1 {
      var init := Samples(width, ins, j, n - 1);
      var x := Sample(width, ins[j + 2 * (n - 1)].dq);
      SamplesTail(width, ins, j, n - 1);
      assert (init + [x])[1..] == init[1..] + [x];
      assert j + 2 + 2 * (n - 2) == j + 2 * (n - 1);
    }
  }

  /**
   * A read: in the acknowledgment cycle the bus read data holds the
   * device's samples from the data phase, taken every second cycle from
   * `DataAt + 3`, the first one most significant.
   */
  lemma ReadBurst(c: Controller, t: seq<State>, ins: seq<Inputs>)
    requires AccessRun(c, t, ins)
    ensures var p := c.params; var r := Respond(t[AckAt(p) + 1]);
      && r.ack
      && r.datR == Arrived(Samples(p.width, ins, DataAt(p) + 3, DataSteps(p.width)), p.width.Lines())
      && Respond(t[AckAt(p) + 2]).datR == r.datR
  {
    var p := c.params;
    var d := DataAt(p);
    var width := p.width;
    var n := DataSteps(width) + 1;
    var ds := Samples(width, ins, d + 1, n);
    var s := t[AckAt(p) + 1];
    assert s.sr == ShiftAll(width, false, Zeros(16) + ins[d].bus.datW, ds) by {
      DataShifted(c, t, ins, n);
      assert d + 1 + 2 * n == AckAt(p) + 1;
    }
    ReadWordIn(s, width, Zeros(16) + ins[d].bus.datW, ds);
    SamplesTail(width, ins, d + 1, n);
    AckRaised(c, t, ins);
    ReadHeld(c, t, ins);
  }

  /**
   * The last sample of a read word is taken in the cycle after the
   * teardown, when chip-select is already inactive and the device clock is
   * low: the word's least significant part comes from a deselected device.
   */
  lemma LastReadSampleDeselected(c: Controller, t: seq<State>, ins: seq<Inputs>)
    requires AccessRun(c, t, ins)
    ensures var p := c.params; var x := TeardownAt(p) + 1;
      && DataAt(p) + 3 + 2 * (DataSteps(p.width) - 1) == x
      && !t[x].cs && !t[x].clk
  {
    var x := TeardownAt(c.params) + 1;
    AccessAt(c, t, ins, x);
    RunInv(c, t, ins, x);
  }

  /** The acknowledgment cycle is on phase 3, whose clock edge does not shift, so the read data is the same in the cycle after. */
  lemma ReadHeld(c: Controller, t: seq<State>, ins: seq<Inputs>)
    requires AccessRun(c, t, ins)
    ensures t[AckAt(c.params) + 2].sr == t[AckAt(c.params) + 1].sr
  {
    var q := AckAt(c.params) + 1;
    var h := (TeardownAt(c.params) + 3) / 2;
    assert q == 2 * h by {
      TeardownPhase(c.params);
      EvenAfterThree(TeardownAt(c.params));
    }
    HoldAt(c, t, ins, q, h);
  }

  lemma EvenAfterThree(x: int)
    requires x % 4 == 3
    ensures x + 3 == 2 * ((x + 3) / 2)
  {
  }

  /** The acknowledgment is up in the cycle after the ack offset. */
  lemma AckRaised(c: Controller, t: seq<State>, ins: seq<Inputs>)
    requires AccessRun(c, t, ins)
    ensures t[AckAt(c.params) + 1].ack
  {
    AccessLatency(c, t, ins);
    AccessAt(c, t, ins, AckAt(c.params) + 1);
    RunInv(c, t, ins, AckAt(c.params) + 1);
  }

  /** A register shifted by a full word's samples plus one returns the later samples as read data. */
  lemma ReadWordIn(s: State, width: Width, sr: Reg, ds: seq<Lines>)
    requires |ds| == DataSteps(width) + 1
    requires s.sr == ShiftAll(width, false, sr, ds)
    ensures Respond(s).datR == Arrived(ds[1..], width.Lines())
  {
    assert ds == [ds[0]] + ds[1..];
    ReadCaptureAfter(width, sr, ds[0], ds[1..]);
  }
}
