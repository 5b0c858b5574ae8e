/** The 38-byte training record `PackedPos` and its layout in the output file:
    board[32], int16 score, uint16 move, int8 result, uint8 side, little-endian,
    no padding (every field is at an offset that is a multiple of its size). */
module PackedRecord {
  import opened Machine
  import opened BoardPacking

  /** `sizeof(PackedPos)` = 32 + 2 + 2 + 1 + 1. */
  const RECORD_SIZE: nat := 38

  datatype PackedPos = PackedPos(board: seq<u8>, score: i16, move: u16, result: i8, side: u8)

  predicate WellFormed(p: PackedPos) {
    |p.board| == BOARD_BYTES
  }

  /** The bytes `outfile.write(&rec, sizeof(PackedPos))` emits for one record. */
  function Serialize(p: PackedPos): (bytes: seq<u8>)
    requires WellFormed(p)
    ensures |bytes| == RECORD_SIZE
  {
    p.board + LE16(U16OfI16(p.score)) + LE16(p.move) + [U8OfI8(p.result), p.side]
  }

  /** Reading one record back from its 38 bytes. */
  function Deserialize(bytes: seq<u8>): (p: PackedPos)
    requires |bytes| == RECORD_SIZE
    ensures WellFormed(p)
  {
    PackedPos(bytes[..32], I16OfU16(FromLE16(bytes[32], bytes[33])), FromLE16(bytes[34], bytes[35]),
              I8OfU8(bytes[36]), bytes[37])
  }

  lemma DeserializeSerialize(p: PackedPos)
    requires WellFormed(p)
    ensures Deserialize(Serialize(p)) == p
  {
    var bytes := Serialize(p);
    var score := U16OfI16(p.score);
    assert bytes[..32] == p.board;
    assert FromLE16(bytes[32], bytes[33]) == score by {
      assert [bytes[32], bytes[33]] == LE16(score);
      LE16Injective(FromLE16(bytes[32], bytes[33]), score);
    }
    assert FromLE16(bytes[34], bytes[35]) == p.move by {
      assert [bytes[34], bytes[35]] == LE16(p.move);
      LE16Injective(FromLE16(bytes[34], bytes[35]), p.move);
    }
    I16Injective(I16OfU16(score), p.score);
    I8Injective(I8OfU8(bytes[36]), p.result);
  }

  lemma SerializeDeserialize(bytes: seq<u8>)
    requires |bytes| == RECORD_SIZE
    ensures Serialize(Deserialize(bytes)) == bytes
  {
    var p := Deserialize(bytes);
    assert Serialize(p) == bytes[..32] + [bytes[32], bytes[33]] + [bytes[34], bytes[35]] + [bytes[36], bytes[37]];
  }

  lemma LE16Injective(x: u16, y: u16)
    requires LE16(x) == LE16(y)
    ensures x == y
  {
  }

  lemma I16Injective(v: i16, w: i16)
    requires U16OfI16(v) == U16OfI16(w)
    ensures v == w
  {
  }

  lemma I8Injective(v: i8, w: i8)
    requires U8OfI8(v) == U8OfI8(w)
    ensures v == w
  {
  }

  predicate AllWellFormed(ps: seq<PackedPos>) {
    forall p <- ps :: WellFormed(p)
  }

  /** The bytes of several records written one after another. */
  function SerializeAll(ps: seq<PackedPos>): (bytes: seq<u8>)
    requires AllWellFormed(ps)
    ensures |bytes| == RECORD_SIZE * |ps|
  {
    if ps == [] then [] else SerializeAll(ps[..|ps| - 1]) + Serialize(ps[|ps| - 1])
  }

  /** Record `i` occupies bytes `38 i` to `38 i + 38` and reads back unchanged. */
  lemma {:induction false} RecordAt(ps: seq<PackedPos>, i: nat)
    requires AllWellFormed(ps) && i < |ps|
    ensures SerializeAll(ps)[RECORD_SIZE * i .. RECORD_SIZE * i + RECORD_SIZE] == Serialize(ps[i])
    ensures Deserialize(SerializeAll(ps)[RECORD_SIZE * i .. RECORD_SIZE * i + RECORD_SIZE]) == ps[i]
  {
    var init := ps[..|ps| - 1];
    assert SerializeAll(ps) == SerializeAll(init) + Serialize(ps[|ps| - 1]);
    if i < |ps| - 1 {
      RecordAt(init, i);
      assert init[i] == ps[i];
    }
    DeserializeSerialize(ps[i]);
  }

  /** Writing `a` then `b` gives the bytes of `a + b`. */
  lemma {:induction false} SerializeAllAppend(a: seq<PackedPos>, b: seq<PackedPos>)
    requires AllWellFormed(a) && AllWellFormed(b)
    ensures AllWellFormed(a + b)
    ensures SerializeAll(a + b) == SerializeAll(a) + SerializeAll(b)
    decreases |b|
  {
    if b == [] {
      assert a + b == a;
    } else {
      var b' := b[..|b| - 1];
      assert (a + b)[..|a + b| - 1] == a + b';
      SerializeAllAppend(a, b');
    }
  }
}
