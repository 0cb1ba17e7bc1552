/**
 * The controller's data path: a 48-bit shift register that captures the
 * data lines and presents its top bits to them.
 *
 * On phases 0 and 2 the register shifts towards its top and the last
 * sample of the data lines enters at the bottom: 8 bits while the
 * command-address word is being sent (and always at width 8), 16 bits in the
 * data phase at width 16. The data lines are driven from the register's top
 * byte (command-address) or its top `width` bits (data). The bus read data
 * is the register's low 32 bits: the 48-bit register is assigned to the
 * 32-bit Wishbone read-data signal, which keeps the low bits.
 */
module DataPath {
  import opened Bits
  import opened CommandAddress

  /** The 48-bit shift register. */
  type Reg = r: Bits | |r| == 48 witness Zeros(48)

  /** The sixteen possible data lines; a width-8 device has only the low eight. */
  type Lines = d: Bits | |d| == 16 witness Zeros(16)

  /** A 32-bit bus word. */
  type Word = w: Bits | |w| == 32 witness Zeros(32)

  /** The input sample register is `width` bits wide: the lines a width-8 device lacks read 0. */
  function Sample(width: Width, dq: Lines): (v: Lines)
    ensures v[..width.Lines()] == dq[..width.Lines()]
    ensures v[width.Lines()..] == Zeros(16 - width.Lines())
  {
    match width
    case W8 => dq[..8] + Zeros(8)
    case W16 => dq
  }

  /** Bits moved per shift: a byte while the command-address word is sent, else the data width. */
  function StepBits(width: Width, caActive: bool): (k: nat)
    ensures k == 8 || k == 16
  {
    if caActive then 8 else width.Lines()
  }

  /** One shift: the sample enters at the bottom and the register's top `StepBits` bits drop out. */
  function Shift(width: Width, caActive: bool, sr: Reg, dqi: Lines): Reg {
    var k := StepBits(width, caActive);
    dqi[..k] + sr[..48 - k]
  }

  /** The value driven onto the device's data lines (as many as its width). */
  function DqOut(width: Width, caActive: bool, sr: Reg): (o: Bits)
    ensures |o| == width.Lines()
  {
    match width
    case W8 => sr[40..]
    case W16 => if caActive then sr[40..] + Zeros(8) else sr[32..]
  }

  /** The bus read data: the register's low 32 bits. */
  function ReadData(sr: Reg): Word {
    sr[..32]
  }

  /** Shifts in a sequence of samples, the first sample first. */
  function ShiftAll(width: Width, caActive: bool, sr: Reg, ds: seq<Lines>): Reg {
    if ds == [] then sr
    else Shift(width, caActive, ShiftAll(width, caActive, sr, ds[..|ds| - 1]), ds[|ds| - 1])
  }

  /** The bits the samples contribute, the latest sample lowest. */
  function Arrived(ds: seq<Lines>, k: nat): (a: Bits)
    requires k <= 16
    ensures |a| == k * |ds|
  {
    if ds == [] then []
    else ds[|ds| - 1][..k] + Arrived(ds[..|ds| - 1], k)
  }

  /**
   * After a run of shifts the register holds the captured samples at the
   * bottom, the latest lowest, and above them what remains of its former
   * contents, moved up by the bits shifted in.
   */
  lemma ShiftAllShape(width: Width, caActive: bool, sr: Reg, ds: seq<Lines>)
    requires StepBits(width, caActive) * |ds| <= 48
    ensures var k := StepBits(width, caActive);
      ShiftAll(width, caActive, sr, ds) == Arrived(ds, k) + sr[..48 - k * |ds|]
  {
    var k := StepBits(width, caActive);
    ShiftedShape(width, caActive, sr, ds, k, k * |ds|);
  }

  /** `ShiftAllShape` with the number of bits shifted in, `m`, given as a plain number. */
  lemma {:induction false} ShiftedShape(width: Width, caActive: bool, sr: Reg, ds: seq<Lines>, k: nat, m: nat)
    requires k == StepBits(width, caActive) && m == k * |ds| && m <= 48
    ensures ShiftAll(width, caActive, sr, ds) == Arrived(ds, k) + sr[..48 - m]
  {
    if ds != [] {
      var init, last := ds[..|ds| - 1], ds[|ds| - 1];
      assert k * |init| == m - k by {
        Times(k, |init|);
      }
      ShiftedShape(width, caActive, sr, init, k, m - k);
      var before := ShiftAll(width, caActive, sr, init);
      var a := Arrived(init, k);
      assert before == a + sr[..48 - m + k];
      assert before[..48 - k] == a + sr[..48 - m];
      assert Arrived(ds, k) == last[..k] + a;
      assert ShiftAll(width, caActive, sr, ds) == last[..k] + before[..48 - k];
    }
  }

  lemma Times(k: nat, n: nat)
    ensures k * (n + 1) == k * n + k
  {
  }

  /**
   * The command-address word leaves most significant byte first: after `n`
   * byte shifts the lines carry byte `5 - n` of the word that was loaded.
   */
  lemma CommandByteOrder(width: Width, ca: Reg, ds: seq<Lines>)
    requires |ds| <= 5
    ensures DqOut(width, true, ShiftAll(width, true, ca, ds))[..8]
         == ca[40 - 8 * |ds|..48 - 8 * |ds|]
  {
    ShiftAllShape(width, true, ca, ds);
  }

  /**
   * Write data leaves most significant part first: at width 8, after `n`
   * byte shifts of a register loaded with the 32-bit payload above 16 zero
   * bits, the lines carry byte `3 - n` of the payload; at width 16, after
   * `n` half-word shifts, half-word `1 - n`.
   */
  lemma WriteDataOrder(width: Width, data: Word, ds: seq<Lines>)
    requires |ds| < if width == W8 then 4 else 2
    ensures var k := width.Lines();
      DqOut(width, false, ShiftAll(width, false, Zeros(16) + data, ds))
        == data[32 - k * (|ds| + 1)..32 - k * |ds|]
  {
    var k := width.Lines();
    var n := |ds|;
    var m := k * n;
    assert m + k <= 32 && k * (n + 1) == m + k by {
      if width == W8 { assert k == 8; } else { assert k == 16; }
    }
    WriteDataAfter(width, data, ds, k, m);
    assert data[32 - k * (|ds| + 1)..32 - k * |ds|] == data[32 - m - k..32 - m];
  }

  /** `WriteDataOrder` with the number of bits shifted in, `m`, given as a plain number. */
  lemma WriteDataAfter(width: Width, data: Word, ds: seq<Lines>, k: nat, m: nat)
    requires k == width.Lines() && m == k * |ds| && m + k <= 32
    ensures DqOut(width, false, ShiftAll(width, false, Zeros(16) + data, ds)) == data[32 - m - k..32 - m]
  {
    DataTopAfterShifts(width, Zeros(16) + data, ds, k, m);
    DropZeros(data, m, k);
  }

  /** After `m` bits of data shifts the lines show the `k` bits that were just below the top `m`. */
  lemma DataTopAfterShifts(width: Width, sr: Reg, ds: seq<Lines>, k: nat, m: nat)
    requires k == width.Lines() && m == k * |ds| && m + k <= 48
    ensures DqOut(width, false, ShiftAll(width, false, sr, ds)) == sr[48 - m - k..48 - m]
  {
    assert StepBits(width, false) == k;
    ShiftAllShape(width, false, sr, ds);
    var r := ShiftAll(width, false, sr, ds);
    assert r == Arrived(ds, k) + sr[..48 - m];
    TopAfterShift(Arrived(ds, k), sr, m, k);
    assert DqOut(width, false, r) == r[48 - k..];
  }

  /** The `k` payload bits just below the top `m` sit 16 places higher in the loaded register. */
  lemma DropZeros(data: Word, m: nat, k: nat)
    requires m + k <= 32
    ensures (Zeros(16) + data)[48 - m - k..48 - m] == data[32 - m - k..32 - m]
  {
  }

  /** The top `k` bits of a register whose low `m` bits were shifted in. */
  lemma TopAfterShift(a: Bits, sr: Reg, m: nat, k: nat)
    requires |a| == m && m + k <= 48
    ensures (a + sr[..48 - m])[48 - k..] == sr[48 - m - k..48 - m]
  {
  }

  /**
   * A read: once 32 bits have been shifted in (four bytes at width 8, two
   * half-words at width 16), the read data is exactly the captured samples,
   * the first one most significant, whatever the register held before.
   */
  lemma ReadCapture(width: Width, sr: Reg, ds: seq<Lines>)
    requires width.Lines() * |ds| == 32
    ensures ReadData(ShiftAll(width, false, sr, ds)) == Arrived(ds, width.Lines())
  {
    ShiftAllShape(width, false, sr, ds);
  }

  /** The earliest sample sits at the top of what arrived. */
  lemma {:induction false} ArrivedFirst(ds: seq<Lines>, k: nat)
    requires ds != [] && k <= 16
    ensures Arrived(ds, k) == Arrived(ds[1..], k) + ds[0][..k]
  {
    if |ds| > 1 {
      var init := ds[..|ds| - 1];
      ArrivedFirst(init, k);
      assert ds[1..][..|ds[1..]| - 1] == init[1..];
      assert ds[1..][|ds[1..]| - 1] == ds[|ds| - 1];
    } else {
      assert ds[1..] == [];
    }
  }

  /**
   * A read that shifts in one sample more than the word holds: the first
   * sample has left the low 32 bits, which hold exactly the later ones.
   */
  lemma ReadCaptureAfter(width: Width, sr: Reg, first: Lines, ds: seq<Lines>)
    requires width.Lines() * |ds| == 32
    ensures ReadData(ShiftAll(width, false, sr, [first] + ds)) == Arrived(ds, width.Lines())
  {
    var all := [first] + ds;
    var k := width.Lines();
    assert k * |all| <= 48 by {
      if width == W8 { assert |ds| == 4; } else { assert |ds| == 2; }
    }
    ShiftAllShape(width, false, sr, all);
    ArrivedFirst(all, k);
    assert all[1..] == ds;
  }
}
