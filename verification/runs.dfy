/**
 * Runs of the controller: the sequence of states it passes through under a
 * sequence of inputs, and what every run guarantees about one access: when
 * it starts, how long it takes, when the bus is acknowledged, and how far
 * apart two acknowledgments are.
 */
module Runs {
  import opened Sequencer
  import opened HyperRam
  import opened Protocol

  /** The states of a run from `s`: one more than there are inputs. */
  function Run(c: Controller, s: State, ins: seq<Inputs>): (t: seq<State>)
    ensures |t| == |ins| + 1 && t[0] == s
    ensures forall k :: 0 <= k < |ins| ==> t[k + 1] == Tick(c, t[k], ins[k])
    decreases |ins|
  {
    if ins == [] then [s]
    else
      var rest := Run(c, Tick(c, s, ins[0]), ins[1..]);
      assert forall k :: 1 <= k < |ins| ==> ins[k] == ins[1..][k - 1];
      [s] + rest
  }

  /** A sequence of states in which each follows from the one before as the stage description says. */
  predicate IsRun(c: Controller, t: seq<State>, ins: seq<Inputs>) {
    && |t| == |ins| + 1
    && forall k {:trigger Cycle(c, t[k], ins[k], t[k + 1])} :: 0 <= k < |ins| ==> Cycle(c, t[k], ins[k], t[k + 1])
  }

  /** One cycle of a run. */
  lemma RunCycle(c: Controller, t: seq<State>, ins: seq<Inputs>, q: nat)
    requires IsRun(c, t, ins) && q < |ins|
    ensures Cycle(c, t[q], ins[q], t[q + 1])
  {
  }

  lemma RunIsRun(c: Controller, s: State, ins: seq<Inputs>)
    requires c.params.latency >= 1
    ensures IsRun(c, Run(c, s, ins), ins)
  {
    var t := Run(c, s, ins);
    forall k | 0 <= k < |ins|
      ensures Cycle(c, t[k], ins[k], t[k + 1])
    {
      TickCycle(c, t[k], ins[k]);
    }
  }

  /** Every state of a run from an invariant state, in particular from reset, keeps the invariant. */
  lemma {:induction false} RunInv(c: Controller, t: seq<State>, ins: seq<Inputs>, k: nat)
    requires IsRun(c, t, ins) && Inv(c, t[0])
    requires k <= |ins|
    ensures Inv(c, t[k])
  {
    if k > 0 {
      var q := k - 1;
      RunInv(c, t, ins, q);
      RunCycle(c, t, ins, q);
      CycleInv(c, t[q], ins[q], t[q + 1]);
    }
  }

  /** A running counter climbs one per cycle, whatever the inputs, until the end of the table. */
  lemma {:induction false} Climbs(c: Controller, t: seq<State>, ins: seq<Inputs>, j: nat, m: nat)
    requires IsRun(c, t, ins) && Inv(c, t[0])
    requires j + m <= |ins|
    requires t[j].counter != 0 && t[j].counter + m <= EndAt(c.params)
    ensures t[j + m].counter == t[j].counter + m
  {
    if m > 0 {
      Climbs(c, t, ins, j, m - 1);
      var q := j + m - 1;
      RunInv(c, t, ins, q);
      RunCycle(c, t, ins, q);
      CycleCounter(c, t[q], ins[q], t[q + 1]);
    }
  }

  /** The counter rises by at most one per cycle. */
  lemma {:induction false} RisesSlowly(c: Controller, t: seq<State>, ins: seq<Inputs>, j: nat, m: nat)
    requires IsRun(c, t, ins) && Inv(c, t[0])
    requires j + m <= |ins|
    ensures t[j + m].counter <= t[j].counter + m
  {
    if m > 0 {
      RisesSlowly(c, t, ins, j, m - 1);
      var q := j + m - 1;
      RunInv(c, t, ins, q);
      RunCycle(c, t, ins, q);
      CycleCounter(c, t[q], ins[q], t[q + 1]);
    }
  }

  /**
   * An access starts only in a cycle where the counter rests, the bus
   * presents a request (`cyc` and `stb`) and the phase is 1.
   */
  lemma StartsOnRequestAtPhase1(c: Controller, t: seq<State>, ins: seq<Inputs>, k: nat)
    requires IsRun(c, t, ins) && Inv(c, t[0])
    requires k < |ins|
    requires t[k].counter == 0 && t[k + 1].counter != 0
    ensures ins[k].bus.cyc && ins[k].bus.stb && t[k].phase == 1
  {
    RunInv(c, t, ins, k);
    RunCycle(c, t, ins, k);
    CycleCounter(c, t[k], ins[k], t[k + 1]);
  }

  /**
   * One access, cycle by cycle: once started at `t[0]` the counter equals
   * the number of cycles elapsed up to the end of the table and then rests,
   * whatever the bus does meanwhile (further requests are not honoured);
   * acknowledgment is high in exactly one of these cycles, `AckAt + 1`
   * cycles after the start.
   */
  lemma Access(c: Controller, t: seq<State>, ins: seq<Inputs>)
    requires IsRun(c, t, ins) && Inv(c, t[0])
    requires |ins| > EndAt(c.params)
    requires t[0].counter == 0 && Trigger(t[0], ins[0])
    ensures forall k :: 1 <= k <= EndAt(c.params) ==> t[k].counter == k
    ensures t[EndAt(c.params) + 1].counter == 0
    ensures forall k :: 0 <= k <= EndAt(c.params) + 1 ==> (t[k].ack <==> k == AckAt(c.params) + 1)
  {
    var e := EndAt(c.params);
    RunInv(c, t, ins, 0);
    RunCycle(c, t, ins, 0);
    CycleCounter(c, t[0], ins[0], t[1]);
    forall k | 1 <= k <= e
      ensures t[k].counter == k
    {
      Climbs(c, t, ins, 1, k - 1);
    }
    RunInv(c, t, ins, e);
    RunCycle(c, t, ins, e);
    CycleCounter(c, t[e], ins[e], t[e + 1]);
    forall k | 0 <= k <= e + 1
      ensures t[k].ack <==> k == AckAt(c.params) + 1
    {
      RunInv(c, t, ins, k);
    }
  }

  /**
   * Mutual exclusion: however often the bus requests, two acknowledgments
   * are at least one full access (`EndAt + 1` cycles) apart.
   */
  lemma AckSpacing(c: Controller, t: seq<State>, ins: seq<Inputs>, i: nat, j: nat)
    requires IsRun(c, t, ins) && Inv(c, t[0])
    requires i < j <= |ins|
    requires t[i].ack && t[j].ack
    ensures j - i >= EndAt(c.params) + 1
  {
    var p := c.params;
    var e := EndAt(p);
    var x := AckAt(p) + 1;
    RunInv(c, t, ins, i);
    RunInv(c, t, ins, j);
    assert t[i].counter == x && t[j].counter == x;
    if j - i <= e - x {
      Climbs(c, t, ins, i, j - i);
      assert false;
    }
    var r := i + (e - x) + 1;
    Climbs(c, t, ins, i, e - x);
    var q := r - 1;
    RunInv(c, t, ins, q);
    RunCycle(c, t, ins, q);
    CycleCounter(c, t[q], ins[q], t[q + 1]);
    assert t[r].counter == 0;
    RisesSlowly(c, t, ins, r, j - r);
  }

  /**
   * A running counter goes back to a start: `counter` cycles earlier it
   * rested and the bus presented a request at phase 1.
   */
  lemma {:induction false} CounterHasStart(c: Controller, t: seq<State>, ins: seq<Inputs>, j: nat)
    requires IsRun(c, t, ins) && Inv(c, t[0]) && t[0].counter == 0
    requires j <= |ins| && t[j].counter != 0
    ensures j >= t[j].counter
    ensures var s := j - t[j].counter; t[s].counter == 0 && Trigger(t[s], ins[s])
  {
    var q := j - 1;
    RunInv(c, t, ins, q);
    RunCycle(c, t, ins, q);
    CycleCounter(c, t[q], ins[q], t[q + 1]);
    if t[q].counter != 0 {
      CounterHasStart(c, t, ins, q);
    }
  }

  /**
   * No spurious acknowledgment: in a run that starts at rest, every
   * acknowledgment answers a request accepted `AckAt + 1` cycles earlier.
   * With `Access`, each accepted request gets exactly one acknowledgment.
   */
  lemma AckHasRequest(c: Controller, t: seq<State>, ins: seq<Inputs>, j: nat)
    requires IsRun(c, t, ins) && Inv(c, t[0]) && t[0].counter == 0
    requires j <= |ins| && t[j].ack
    ensures j >= AckAt(c.params) + 1
    ensures var s := j - AckAt(c.params) - 1; t[s].counter == 0 && Trigger(t[s], ins[s])
  {
    RunInv(c, t, ins, j);
    CounterHasStart(c, t, ins, j);
  }
}
