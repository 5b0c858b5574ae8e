/** The 4-bits-per-square board of a packed training record: square `2k` goes to
    the low nibble of byte `k`, square `2k+1` to its high nibble. */
module BoardPacking {
  import opened Machine

  const SQUARES: nat := 64
  const BOARD_BYTES: nat := 32

  /** One board byte: square `lo` in the low nibble, square `hi` in the high one. */
  function PackByte(lo: u8, hi: u8): u8 {
    lo % 16 + 16 * (hi % 16)
  }

  /** The generator's `(lo & 0x0F) | ((hi & 0x0F) << 4)` is that byte: the masks
      keep the low nibbles and the shifted one does not overlap the other. */
  lemma PackByteValue(lo: u8, hi: u8)
    ensures BitOr(BitAnd(lo, 0x0F), BitAnd(hi, 0x0F) * 16) == PackByte(lo, hi)
  {
    MaskLowNibble(lo);
    MaskLowNibble(hi);
    assert Pow2(4) == 16;
    OrDisjoint(lo % 16, 4, hi % 16);
  }

  lemma NibblePair(l: nat, h: nat)
    requires l < 16 && h < 16
    ensures (l + 16 * h) % 16 == l && (l + 16 * h) / 16 == h && l + 16 * h < 256
  {
  }

  /** The packed board of the 64 piece codes `pieces` (square order a1, b1, ..., h8). */
  function PackedBoard(pieces: seq<u8>): (board: seq<u8>)
    requires |pieces| == SQUARES
    ensures |board| == BOARD_BYTES
  {
    seq(BOARD_BYTES, k requires 0 <= k < BOARD_BYTES => PackByte(pieces[2 * k], pieces[2 * k + 1]))
  }

  /** Byte `k` of the packed board holds square `2k` in its low nibble and square
      `2k+1` in its high nibble, and nothing else. */
  lemma PackedNibbles(pieces: seq<u8>, k: nat)
    requires |pieces| == SQUARES && k < BOARD_BYTES
    ensures PackedBoard(pieces)[k] % 16 == pieces[2 * k] % 16
    ensures PackedBoard(pieces)[k] / 16 == pieces[2 * k + 1] % 16
    ensures PackedBoard(pieces)[k] == pieces[2 * k] % 16 + 16 * (pieces[2 * k + 1] % 16)
  {
    NibblePair(pieces[2 * k] % 16, pieces[2 * k + 1] % 16);
  }

  /** Nibble `i` of a packed board: `board[i/2] & 0x0F` or `board[i/2] >> 4`. */
  function NibbleAt(board: seq<u8>, i: nat): (v: nat)
    requires |board| == BOARD_BYTES && i < SQUARES
    ensures v < 16
  {
    MaskLowNibble(board[i / 2]);
    if i % 2 == 0 then BitAnd(board[i / 2], 0x0F) else board[i / 2] / 16
  }

  /** The inverse of packing: one 4-bit code per square. */
  function Unpack(board: seq<u8>): (pieces: seq<u8>)
    requires |board| == BOARD_BYTES
    ensures |pieces| == SQUARES
  {
    seq(SQUARES, i requires 0 <= i < SQUARES => NibbleAt(board, i))
  }

  /** Unpacking a packed board gives back every square's code masked to four bits. */
  lemma UnpackPacked(pieces: seq<u8>)
    requires |pieces| == SQUARES
    ensures Unpack(PackedBoard(pieces)) == seq(SQUARES, i requires 0 <= i < SQUARES => pieces[i] % 16)
  {
    var board := PackedBoard(pieces);
    forall i | 0 <= i < SQUARES
      ensures Unpack(board)[i] == pieces[i] % 16
    {
      MaskLowNibble(board[i / 2]);
      PackedNibbles(pieces, i / 2);
      assert i % 2 == 0 ==> i == 2 * (i / 2);
      assert i % 2 == 1 ==> i == 2 * (i / 2) + 1;
    }
  }

  /** Hence packing loses nothing when every piece code is below 16. */
  lemma PackingLossless(pieces: seq<u8>)
    requires |pieces| == SQUARES
    requires forall i :: 0 <= i < SQUARES ==> pieces[i] < 16
    ensures Unpack(PackedBoard(pieces)) == pieces
  {
    UnpackPacked(pieces);
    assert forall i :: 0 <= i < SQUARES ==> pieces[i] % 16 == pieces[i];
  }

  /** A byte is the packing of its own two nibbles. */
  lemma PackByteOfNibbles(b: u8)
    ensures PackByte(b % 16, b / 16) == b
  {
    assert b / 16 < 16;
  }

  /** And every 32-byte board is the packing of its own nibbles. */
  lemma PackUnpacked(board: seq<u8>)
    requires |board| == BOARD_BYTES
    ensures PackedBoard(Unpack(board)) == board
  {
    forall k | 0 <= k < BOARD_BYTES
      ensures PackedBoard(Unpack(board))[k] == board[k]
    {
      PackUnpackedAt(board, k);
    }
  }

  lemma PackUnpackedAt(board: seq<u8>, k: nat)
    requires |board| == BOARD_BYTES && k < BOARD_BYTES
    ensures PackedBoard(Unpack(board))[k] == board[k]
  {
    var nibbles := Unpack(board);
    MaskLowNibble(board[k]);
    assert (2 * k) / 2 == k && (2 * k) % 2 == 0;
    assert (2 * k + 1) / 2 == k && (2 * k + 1) % 2 == 1;
    assert nibbles[2 * k] == board[k] % 16;
    assert nibbles[2 * k + 1] == board[k] / 16;
    PackByteOfNibbles(board[k]);
  }

  /** The second `|=` into byte `i/2` completes that byte of the packed board. */
  lemma HighNibbleStep(pieces: seq<u8>, i: nat)
    requires |pieces| == SQUARES && i < SQUARES && i % 2 == 1
    ensures BitOr(BitAnd(pieces[i - 1], 0x0F), BitAnd(pieces[i], 0x0F) * 16) == PackedBoard(pieces)[i / 2]
  {
    var k := i / 2;
    assert 2 * k == i - 1;
    var b := PackedBoard(pieces);
    assert b[k] == PackByte(pieces[2 * k], pieces[2 * k + 1]);
    PackByteValue(pieces[i - 1], pieces[i]);
  }

  /** The packing loop of the generator: a zeroed 32-byte buffer, then one `|=`
      per square into the low or high nibble of byte `i/2`. */
  method PackBoard(pieces: seq<u8>) returns (board: seq<u8>)
    requires |pieces| == SQUARES
    ensures board == PackedBoard(pieces)
  {
    ghost var packed := PackedBoard(pieces);
    var buf := new u8[BOARD_BYTES](_ => 0);
    for i := 0 to SQUARES
      invariant forall k :: 0 <= k < i / 2 ==> buf[k] == packed[k]
      invariant i % 2 == 1 ==> buf[i / 2] == BitAnd(pieces[i - 1], 0x0F)
      invariant forall k :: (i + 1) / 2 <= k < BOARD_BYTES ==> buf[k] == 0
    {
      var pc := pieces[i];
      var half := i / 2;
      if i % 2 == 0 {
        MaskLowNibble(pc);
        assert (i + 1) / 2 == half && (i + 1) % 2 == 1 && (i + 2) / 2 == half + 1;
        buf[half] := BitOr(buf[half], BitAnd(pc, 0x0F));
      } else {
        assert (i + 1) / 2 == half + 1 && (i + 1) % 2 == 0 && (i + 2) / 2 == half + 1;
        HighNibbleStep(pieces, i);
        buf[half] := BitOr(buf[half], BitAnd(pc, 0x0F) * 16);
      }
    }
    board := buf[..];
  }
}
