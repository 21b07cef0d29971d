/**
 * Stand-ins for the bytecode package that the virtual machine imports: the two
 * opcodes it dispatches on and the big-endian 16-bit operand encoding.
 */
module Code {
  import opened Ints

  /** Load a constant; one 2-byte operand, the constant-pool index. */
  const OpConstant: byte := 0
  /** Pop two Integers and push their sum; no operand. */
  const OpAdd: byte := 1

  /** Decodes the big-endian unsigned 16-bit operand at the start of `ins`. */
  function ReadUint16(ins: seq<byte>): (v: nat)
    requires |ins| >= 2
    ensures v < 0x1_0000
    ensures v / 0x100 == ins[0] as int && v % 0x100 == ins[1] as int
  {
    ins[0] as int * 0x100 + ins[1] as int
  }

  /** Encodes a 16-bit operand big-endian, high byte first. */
  function PutUint16(v: nat): (b: seq<byte>)
    requires v < 0x1_0000
    ensures |b| == 2 && ReadUint16(b) == v
  {
    [(v / 0x100) as byte, (v % 0x100) as byte]
  }

  /** Decoding then encoding gives back the two operand bytes. */
  lemma PutReadUint16(b: seq<byte>)
    requires |b| == 2
    ensures PutUint16(ReadUint16(b)) == b
  {
    var v := ReadUint16(b);
    assert PutUint16(v)[0] == b[0] && PutUint16(v)[1] == b[1];
  }

  /** The three bytes of an `OpConstant index` instruction. */
  function MakeConstant(index: nat): (ins: seq<byte>)
    requires index < 0x1_0000
    ensures |ins| == 3 && ins[0] == OpConstant && ReadUint16(ins[1..]) == index
  {
    assert ([OpConstant] + PutUint16(index))[1..] == PutUint16(index);
    [OpConstant] + PutUint16(index)
  }
}
