/**
 * The HyperBus command-address (CA) word: 48 bits sent at the start of every
 * access, most significant byte first.
 *
 *   [47]    read/write (1 = read, 0 = write)
 *   [46]    address space (0 = memory; never driven, so always 0)
 *   [45]    burst type (1 = linear)
 *   [44:16] row and upper column address
 *   [15:3]  reserved (never driven, so always 0)
 *   [2:0]   lower column address
 *
 * Where the address bits land depends on the configured data width. The
 * word is a pure function of the live bus request; it is never buffered.
 * Bits are listed least significant first, so `ca[16..45]` is field 44:16.
 */
module CommandAddress {
  import opened Bits

  /** Number of data lines of the HyperBus device, fixed at construction. */
  datatype Width = W8 | W16 {
    function Lines(): (n: nat)
      ensures n == 8 || n == 16
    {
      if W8? then 8 else 16
    }
  }

  /** The Wishbone word address: 30 bits (a 32-bit data bus addressed in words). */
  type Address = a: Bits | |a| == 30 witness Zeros(30)

  /** What a bus request tells the device: direction and address. */
  datatype Request = Request(we: bool, adr: Address)

  /** Builds the CA word for a request (`we` is the bus write-enable). */
  function Encode(width: Width, we: bool, adr: Address): (ca: Bits)
    ensures |ca| == 48
    ensures ca[47] == !we
    ensures !ca[46] && ca[45]
    ensures ca[3..16] == Zeros(13)
    ensures width == W8 ==> ca[16..45] == adr[2..] + [false] && ca[1..3] == adr[..2] && !ca[0]
    ensures width == W16 ==> ca[16..45] == adr[3..] + [false, false] && ca[1..3] == adr[1..3] && ca[0] == adr[0]
  {
    var top := [true, false, !we];
    match width
    case W8 => [false] + adr[..2] + Zeros(13) + adr[2..] + [false] + top
    case W16 => [adr[0]] + adr[1..3] + Zeros(13) + adr[3..] + [false, false] + top
  }

  /** Recovers the request from a CA word, following the width's layout. */
  function Decode(width: Width, ca: Bits): Request
    requires |ca| == 48
  {
    match width
    case W8 => Request(!ca[47], ca[1..3] + ca[16..44])
    case W16 => Request(!ca[47], [ca[0]] + ca[1..3] + ca[16..43])
  }

  /**
   * The words the encoder can produce: the fixed bits hold their constant
   * values and every address bit above the 30-bit bus address is zero.
   */
  predicate WellFormed(width: Width, ca: Bits) {
    && |ca| == 48
    && !ca[46] && ca[45]
    && ca[3..16] == Zeros(13)
    && match width
       case W8 => !ca[44] && !ca[0]
       case W16 => !ca[44] && !ca[43]
  }

  /** Decoding an encoded word gives back the request, and the word is well-formed. */
  lemma DecodeEncode(width: Width, we: bool, adr: Address)
    ensures WellFormed(width, Encode(width, we, adr))
    ensures Decode(width, Encode(width, we, adr)) == Request(we, adr)
  {
    var ca := Encode(width, we, adr);
    match width
    case W8 =>
      assert ca[1..3] + ca[16..44] == adr[..2] + adr[2..];
      assert adr[..2] + adr[2..] == adr;
    case W16 =>
      assert [ca[0]] + ca[1..3] + ca[16..43] == adr[..1] + adr[1..3] + adr[3..];
      assert adr[..1] + adr[1..3] + adr[3..] == adr;
  }

  /** Every well-formed word is the encoding of the request it decodes to. */
  lemma EncodeDecode(width: Width, ca: Bits)
    requires WellFormed(width, ca)
    ensures Encode(width, Decode(width, ca).we, Decode(width, ca).adr) == ca
  {
    var r := Decode(width, ca);
    var e := Encode(width, r.we, r.adr);
    assert e[..3] == ca[..3];
    assert e[3..16] == ca[3..16];
    assert e[16..45] == ca[16..45];
    assert e[45..] == ca[45..];
    assert e == e[..3] + e[3..16] + e[16..45] + e[45..];
    assert ca == ca[..3] + ca[3..16] + ca[16..45] + ca[45..];
  }

  /**
   * The address as a number: at width 8 it is field 44:16 shifted left by
   * two plus field 2:1; at width 16 it is field 44:16 shifted left by three,
   * plus field 2:1 shifted left by one, plus bit 0.
   */
  lemma AddressValue(width: Width, we: bool, adr: Address)
    ensures var ca := Encode(width, we, adr);
      match width
      case W8 => Value(adr) == 4 * Value(ca[16..45]) + Value(ca[1..3])
      case W16 => Value(adr) == 8 * Value(ca[16..45]) + 2 * Value(ca[1..3]) + (if ca[0] then 1 else 0)
  {
    var ca := Encode(width, we, adr);
    match width
    case W8 =>
      assert adr == adr[..2] + adr[2..];
      ValueConcat(adr[..2], adr[2..]);
      ValueZeroExtend(adr[2..], 1);
      assert Zeros(1) == [false];
    case W16 =>
      assert adr == adr[..1] + adr[1..3] + adr[3..];
      ValueConcat(adr[..1] + adr[1..3], adr[3..]);
      ValueConcat(adr[..1], adr[1..3]);
      ValueZeroExtend(adr[3..], 2);
      assert Zeros(2) == [false, false];
      assert Value(adr[..1]) == if adr[0] then 1 else 0;
  }
}
