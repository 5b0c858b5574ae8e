/** One game of the generator: a random opening, then the engine plays itself with
    an epsilon-greedy choice between its two best root moves, one packed record per
    searched position, until a decisive score, a draw, no moves, or 200 plies.
    The engine, the rules and the random generator are parameters: they are called,
    not modelled. */
module SelfPlay {
  import opened Machine
  import opened BoardPacking
  import opened PackedRecord
  import opened Wrappers

  /** At most this many searched plies per game (`while (ply++ < 200)`). */
  const MAX_PLY: nat := 200
  /** The epsilon of the epsilon-greedy choice, in percent. */
  const EPSILON_PERCENT: nat := 10
  /** The second move is taken only when its score is within this of the best. */
  const SCORE_MARGIN: nat := 30

  datatype Color = White | Black

  /** `(uint8_t)side_to_move()`: WHITE is 0 and BLACK is 1. */
  function SideByte(c: Color): (b: u8)
    ensures b == 0 <==> c == White
    ensures b <= 1
  {
    if c == White then 0 else 1
  }

  /** An entry of the search's root move list: its score (an engine `Value`)
      and the raw 16-bit code of the first move of its principal variation. */
  datatype RootMove = RootMove(score: int, move: u16)

  /** What the generator asks of the engine and the rules. `P` is the engine's
      current position, with whatever history it keeps. */
  datatype Engine<!P> = Engine(
    startPos: P,                        // set_position(start FEN, {})
    legalMoves: P -> seq<u16>,          // MoveList<LEGAL>
    play: (P, u16) -> P,                // set_position(fen(), {move})
    search: (P, int) -> seq<RootMove>,  // go with a node limit, then rootMoves, best first
    pieceOn: (P, nat) -> u8,            // (uint8_t)piece_on(Square(i))
    sideToMove: P -> Color,
    isDraw: (P, int) -> bool,           // is_draw(ply)
    isWin: int -> bool,                 // is_win(value)
    isLoss: int -> bool)                // is_loss(value)

  /** The generator's random numbers: draw `k` is the k-th 64-bit output of its
      PRNG; `rand<T>()` converts one draw to `T`. */
  type Draws = nat -> u64

  // ---------------------------------------------------------------- opening

  /** `8 + (rng.rand<int>() % 5)` as written: a draw whose low 32 bits read as a
      negative int gives a negative remainder, so the length can drop to 4. */
  function OpeningLengthAsWritten(d: u64): (n: int)
    ensures 4 <= n <= 12
    ensures Low32(d) < 0x8000_0000 ==> 8 <= n
  {
    8 + CRem(Int32Of(d), 5)
  }

  /** The opening length of 8 to 12 plies the generator intends: the same draw
      read as unsigned. */
  function OpeningLength(d: u64): (n: nat)
    ensures 8 <= n <= 12
    ensures Low32(d) < 0x8000_0000 ==> n == OpeningLengthAsWritten(d)
  {
    8 + Low32(d) % 5
  }

  /** The draw whose low word is -4 as an int gives a 4-ply opening as written. */
  lemma OpeningTooShort()
    ensures OpeningLengthAsWritten(0xFFFF_FFFC) == 4
    ensures OpeningLength(0xFFFF_FFFC) == 10
  {
    assert Low32(0xFFFF_FFFC) == 0xFFFF_FFFC;
    assert Int32Of(0xFFFF_FFFC) == -4;
  }

  /** Which reading of the two random draws of lines 51 and 72 a game uses: the
      code as written (a signed `int` with C's `%`) or the one its comments
      intend (8 to 12 plies, a 10 % coin). `Datagen::start` runs `AsWritten`. */
  datatype Variant = AsWritten | Intended

  /** The opening length of the variant, on the draw's unsigned low word: a low
      word of 2^31 or more is the negative int `low - 2^32`, whose C remainder
      by 5 is `-((2^32 - low) % 5)`. */
  function OpeningLengthOf(v: Variant, d: u64): (n: nat)
    ensures 4 <= n <= 12
    ensures v == Intended ==> 8 <= n
    ensures Low32(d) < 0x8000_0000 ==> n == OpeningLength(d)
  {
    if v == Intended || Low32(d) < 0x8000_0000 then OpeningLength(d)
    else 8 - (TWO_32 - Low32(d)) % 5
  }

  /** The as-written variant computes exactly `8 + (rng.rand<int>() % 5)`. */
  lemma OpeningLengthOfAsWritten(d: u64)
    ensures OpeningLengthOf(AsWritten, d) == OpeningLengthAsWritten(d)
  {
  }

  datatype Opening<P> = Opening(pos: P, cursor: nat, plies: nat)

  /** The opening loop from ply `i` of `n`: one random legal ply per draw
      (`rand<size_t>() % moves.size()`), stopping early when there is no legal move. */
  function OpeningFrom<P>(e: Engine<P>, rand: Draws, pos: P, k: nat, i: nat, n: nat): Opening<P>
    requires i <= n
    decreases n - i
  {
    if i == n then Opening(pos, k, i)
    else
      var moves := e.legalMoves(pos);
      if |moves| == 0 then Opening(pos, k, i)
      else OpeningFrom(e, rand, e.play(pos, moves[rand(k) % |moves|]), k + 1, i + 1, n)
  }

  /** The opening of a game whose first draw is draw `k`. */
  function RandomOpening<P>(v: Variant, e: Engine<P>, rand: Draws, k: nat): Opening<P> {
    OpeningFrom(e, rand, e.startPos, k + 1, 0, OpeningLengthOf(v, rand(k)))
  }

  /** An opening plays at most its drawn length, uses one draw per ply, and is
      shorter only when it reached a position without legal moves. */
  lemma {:induction false} OpeningPlies<P>(e: Engine<P>, rand: Draws, pos: P, k: nat, i: nat, n: nat)
    requires i <= n
    ensures var o := OpeningFrom(e, rand, pos, k, i, n);
      && i <= o.plies <= n
      && o.cursor == k + (o.plies - i)
      && (o.plies < n ==> |e.legalMoves(o.pos)| == 0)
    decreases n - i
  {
    if i < n && |e.legalMoves(pos)| > 0 {
      var moves := e.legalMoves(pos);
      OpeningPlies(e, rand, e.play(pos, moves[rand(k) % |moves|]), k + 1, i + 1, n);
    }
  }

  /** The whole opening: at most 12 plies, one draw for the length and one per
      ply; fewer than 4 plies as written (8 as intended) only when the game
      reached a position without legal moves. */
  lemma OpeningBounds<P>(v: Variant, e: Engine<P>, rand: Draws, k: nat)
    ensures var o := RandomOpening(v, e, rand, k);
      && o.plies <= 12
      && o.cursor == k + 1 + o.plies
      && (o.plies < 4 ==> |e.legalMoves(o.pos)| == 0)
      && (v == Intended && o.plies < 8 ==> |e.legalMoves(o.pos)| == 0)
  {
    OpeningPlies(e, rand, e.startPos, k + 1, 0, OpeningLengthOf(v, rand(k)));
  }

  /** The opening loop: `rMoves` random legal plies from the start position. */
  method PlayOpening<P>(e: Engine<P>, rand: Draws, k0: nat) returns (pos: P, k: nat)
    ensures RandomOpening(AsWritten, e, rand, k0).pos == pos && RandomOpening(AsWritten, e, rand, k0).cursor == k
  {
    pos := e.startPos;
    var rMoves := OpeningLengthAsWritten(rand(k0));
    OpeningLengthOfAsWritten(rand(k0));
    k := k0 + 1;
    var i := 0;
    while i < rMoves
      invariant i <= rMoves
      invariant RandomOpening(AsWritten, e, rand, k0) == OpeningFrom(e, rand, pos, k, i, rMoves)
      decreases rMoves - i
    {
      var moves := e.legalMoves(pos);
      if |moves| == 0 {
        break;
      }
      var m := moves[rand(k) % |moves|];
      k := k + 1;
      pos := e.play(pos, m);
      i := i + 1;
    }
  }

  // ---------------------------------------------------------- move choice

  /** `rng.rand<int>() % 100 < 10` as written: every draw whose low 32 bits read
      as a negative int passes, on top of one in ten of the others. */
  function CoinAsWritten(d: u64): (heads: bool)
    ensures Low32(d) >= 0x8000_0000 ==> heads
    ensures Low32(d) < 0x8000_0000 ==> (heads <==> Low32(d) % 100 < EPSILON_PERCENT)
  {
    CRem(Int32Of(d), 100) < EPSILON_PERCENT
  }

  /** The 10 % coin the generator intends: the same draw read as unsigned. */
  function Coin(d: u64): bool {
    Low32(d) % 100 < EPSILON_PERCENT
  }

  /** The draw whose low word is -1 as an int passes the written coin and fails the intended one. */
  lemma CoinTooOften()
    ensures CoinAsWritten(0xFFFF_FFFF)
    ensures !Coin(0xFFFF_FFFF)
  {
    assert Low32(0xFFFF_FFFF) == 0xFFFF_FFFF;
  }

  /** The coin of the variant, on the draw's unsigned low word: as written, a
      low word of 2^31 or more is a negative int and always passes. */
  function CoinOf(v: Variant, d: u64): (heads: bool)
    ensures Low32(d) < 0x8000_0000 ==> (heads <==> Coin(d))
    ensures v == Intended ==> (heads <==> Coin(d))
  {
    (v == AsWritten && Low32(d) >= 0x8000_0000) || Coin(d)
  }

  /** The as-written variant computes exactly `rng.rand<int>() % 100 < 10`. */
  lemma CoinOfAsWritten(d: u64)
    ensures CoinOf(AsWritten, d) == CoinAsWritten(d)
  {
  }

  /** The coin of every draw, by its index in the generator's output: what the
      self-play loop consults when it has two root moves to choose from. */
  type Coins = nat -> bool

  /** The coins of the draws `rand` under the variant `v`. */
  function CoinsOf(v: Variant, rand: Draws): Coins {
    (k: nat) => CoinOf(v, rand(k))
  }

  /** `coins` are the as-written coins of `rand`. The quantifier is instantiated
      only where a draw's coin is computed, so proofs about the game loop never
      unfold the coin's arithmetic. */
  ghost predicate Tosses(coins: Coins, rand: Draws) {
    forall k: nat {:trigger CoinOf(AsWritten, rand(k))} :: coins(k) == CoinOf(AsWritten, rand(k))
  }

  /** The number of draws in `[from, from + n)` on which the intended coin passes
      (draws below 2^32, so each is its own low word). */
  function CoinCount(from: nat, n: nat): nat
    requires from + n <= TWO_32
    decreases n
  {
    if n == 0 then 0 else (if Coin(from) then 1 else 0) + CoinCount(from + 1, n - 1)
  }

  /** The intended coin passes on exactly 10 of every 100 consecutive low words,
      from a multiple of 100 on. */
  lemma {:induction false} CoinRate(q: nat, m: nat)
    requires 100 * (q + m) <= TWO_32
    ensures CoinCount(100 * q, 100 * m) == EPSILON_PERCENT * m
    decreases m
  {
    if m > 0 {
      CoinCountSplit(100 * q, 100, 100 * (m - 1));
      CoinBlock(q, 100);
      CoinRate(q + 1, m - 1);
    }
  }

  lemma {:induction false} CoinCountSplit(from: nat, a: nat, b: nat)
    requires from + a + b <= TWO_32
    ensures CoinCount(from, a + b) == CoinCount(from, a) + CoinCount(from + a, b)
    decreases a
  {
    if a > 0 {
      CoinCountSplit(from + 1, a - 1, b);
    }
  }

  /** Within one block of 100 starting at a multiple of 100, the last `n` values
      hold `n - 90` passes when `n > 90` and none otherwise. */
  lemma {:induction false} CoinBlock(q: nat, n: nat)
    requires n <= 100 && 100 * q + 100 <= TWO_32
    ensures CoinCount(100 * q + 100 - n, n) == if n > 90 then n - 90 else 0
    decreases n
  {
    if n > 0 {
      var from := 100 * q + 100 - n;
      assert Low32(from) == from;
      assert from % 100 == 100 - n;
      CoinBlock(q, n - 1);
    }
  }

  /** `moveIdx`: the second root move only when there is one, the coin passed and
      its score is within 30 of the best; the choice is never worse than that. */
  function PickIndex(rootMoves: seq<RootMove>, heads: bool): (idx: nat)
    requires |rootMoves| > 0
    ensures idx < |rootMoves| && idx <= 1
    ensures idx == 1 <==>
      |rootMoves| > 1 && heads && Abs(rootMoves[0].score - rootMoves[1].score) < SCORE_MARGIN
    ensures Abs(rootMoves[idx].score - rootMoves[0].score) < SCORE_MARGIN
  {
    if |rootMoves| > 1 && heads && Abs(rootMoves[0].score - rootMoves[1].score) < SCORE_MARGIN then 1 else 0
  }

  // ------------------------------------------------------- the result label

  /** The game result seen from White: the side to move in the last record won
      when its chosen score is a win, lost when it is a loss. */
  function WhiteResult<P>(e: Engine<P>, side: u8, value: int): (r: int)
    ensures r in {-1, 0, 1}
    ensures r != 0 <==> Decisive(e, value)
  {
    if e.isWin(value) then (if side == 0 then 1 else -1)
    else if e.isLoss(value) then (if side == 0 then -1 else 1)
    else 0
  }

  /** The side that holds the decisive score, if any. */
  function Winner<P>(e: Engine<P>, side: Color, value: int): Option<Color> {
    if e.isWin(value) then Some(side)
    else if e.isLoss(value) then Some(Opponent(side))
    else None
  }

  function Opponent(c: Color): Color {
    if c == White then Black else White
  }

  /** The result is White's view of the winner: +1 when White holds the decisive
      score, -1 when Black does, 0 without one; it does not depend on which side
      delivered it otherwise. */
  lemma WhiteResultIsWhitesView<P>(e: Engine<P>, side: Color, value: int)
    ensures WhiteResult(e, SideByte(side), value) in {-1, 0, 1}
    ensures WhiteResult(e, SideByte(side), value) == 1 <==> Winner(e, side, value) == Some(White)
    ensures WhiteResult(e, SideByte(side), value) == -1 <==> Winner(e, side, value) == Some(Black)
    ensures WhiteResult(e, SideByte(side), value) == 0 <==> !e.isWin(value) && !e.isLoss(value)
    ensures WhiteResult(e, SideByte(Opponent(side)), value) == -WhiteResult(e, SideByte(side), value)
  {
  }

  // ------------------------------------------------------------ self play

  /** The 64 piece codes of a position, square 0 (a1) to 63 (h8). */
  function Pieces<P>(e: Engine<P>, pos: P): (pieces: seq<u8>)
    ensures |pieces| == SQUARES
  {
    seq<u8>(SQUARES, i requires 0 <= i < SQUARES => e.pieceOn(pos, i))
  }

  /** The record of `pos` with the chosen root move, before the move is played.
      Its result is not known yet; labelling overwrites the 0 put here. */
  function Sample<P>(e: Engine<P>, pos: P, chosen: RootMove): (rec: PackedPos)
    ensures WellFormed(rec)
  {
    PackedPos(PackedBoard(Pieces(e, pos)), Int16Of(chosen.score), chosen.move, 0, SideByte(e.sideToMove(pos)))
  }

  /** One searched ply: the chosen root move, its record, the position after it
      and the next unused draw. */
  datatype Turn<P> = Turn(chosen: RootMove, rec: PackedPos, next: P, cursor: nat)

  /** One ply: the root move `PickIndex` chooses with the coin of draw `k`,
      which is drawn only when there are two root moves to choose from. */
  function TakeTurn<P>(e: Engine<P>, coins: Coins, rootMoves: seq<RootMove>, pos: P, k: nat): (t: Turn<P>)
    requires |rootMoves| > 0
    ensures t.chosen in rootMoves[..if |rootMoves| > 1 then 2 else 1]
    ensures t.chosen == rootMoves[PickIndex(rootMoves, |rootMoves| > 1 && coins(k))]
    ensures t.cursor == if |rootMoves| > 1 then k + 1 else k
    ensures t.rec == Sample(e, pos, t.chosen) && t.next == e.play(pos, t.chosen.move)
  {
    var heads := |rootMoves| > 1 && coins(k);
    var chosen := rootMoves[PickIndex(rootMoves, heads)];
    Turn(chosen, Sample(e, pos, chosen), e.play(pos, chosen.move), if |rootMoves| > 1 then k + 1 else k)
  }

  predicate Decisive<P>(e: Engine<P>, value: int) {
    e.isWin(value) || e.isLoss(value)
  }

  /** What the self-play loop produced: one record per searched ply, with the
      position it was taken in and the engine value of the chosen move, the
      result from White's side, and the next unused draw. */
  datatype Played<P> = Played(history: seq<PackedPos>, positions: seq<P>, values: seq<int>,
                              result: int, cursor: nat)

  function Prepend<P>(h: seq<PackedPos>, ps: seq<P>, vs: seq<int>, r: Played<P>): Played<P> {
    Played(h + r.history, ps + r.positions, vs + r.values, r.result, r.cursor)
  }

  /** The self-play loop from `pos` after `ply` searched plies, next draw `k`:
      nothing at the 200-ply cap or when the search returns no root move;
      otherwise this ply's record, and then the game stops with the result from
      White's side after a decisive value, stops drawn when the position after
      the move is a draw, and goes on otherwise. */
  function SelfPlayFrom<P>(e: Engine<P>, coins: Coins, nodes: int, pos: P, k: nat, ply: nat): Played<P>
    requires ply <= MAX_PLY
    decreases MAX_PLY - ply, 1
  {
    if ply == MAX_PLY || |e.search(pos, nodes)| == 0 then Played([], [], [], 0, k)
    else
      var t := TakeTurn(e, coins, e.search(pos, nodes), pos, k);
      Prepend([t.rec], [pos], [t.chosen.score], AfterTurn(e, coins, nodes, t, ply))
  }

  /** What follows the turn `t` taken at `ply`. */
  function AfterTurn<P>(e: Engine<P>, coins: Coins, nodes: int, t: Turn<P>, ply: nat): Played<P>
    requires ply < MAX_PLY
    decreases MAX_PLY - ply, 0
  {
    if Decisive(e, t.chosen.score) then Played([], [], [], WhiteResult(e, t.rec.side, t.chosen.score), t.cursor)
    else if e.isDraw(t.next, ply + 1) then Played([], [], [], 0, t.cursor)
    else SelfPlayFrom(e, coins, nodes, t.next, t.cursor, ply + 1)
  }

  /** Every searched ply puts its record in front of what follows it. */
  lemma SelfPlayStep<P>(e: Engine<P>, coins: Coins, nodes: int, pos: P, k: nat, ply: nat)
    requires ply < MAX_PLY && |e.search(pos, nodes)| > 0
    ensures var t := TakeTurn(e, coins, e.search(pos, nodes), pos, k);
      SelfPlayFrom(e, coins, nodes, pos, k, ply) == Prepend([t.rec], [pos], [t.chosen.score], AfterTurn(e, coins, nodes, t, ply))
  {
  }

  /** What follows the turn `t` taken at `ply`, case by case: the game ends
      with the mover's win or loss on a decisive value, drawn when the position
      after the move is a draw, and goes on from that position otherwise. */
  lemma TurnOutcome<P>(e: Engine<P>, coins: Coins, nodes: int, pos: P, k: nat, ply: nat, t: Turn<P>)
    returns (tail: Played<P>)
    requires ply < MAX_PLY && |e.search(pos, nodes)| > 0
    requires t == TakeTurn(e, coins, e.search(pos, nodes), pos, k)
    ensures SelfPlayFrom(e, coins, nodes, pos, k, ply) == Prepend([t.rec], [pos], [t.chosen.score], tail)
    ensures Decisive(e, t.chosen.score) ==>
      tail == Played([], [], [], WhiteResult(e, t.rec.side, t.chosen.score), t.cursor)
    ensures !Decisive(e, t.chosen.score) && e.isDraw(t.next, ply + 1) ==>
      tail == Played([], [], [], 0, t.cursor)
    ensures !Decisive(e, t.chosen.score) && !e.isDraw(t.next, ply + 1) ==>
      tail == SelfPlayFrom(e, coins, nodes, t.next, t.cursor, ply + 1)
  {
    SelfPlayStep(e, coins, nodes, pos, k, ply);
    tail := AfterTurn(e, coins, nodes, t, ply);
  }

  /** A game of at most 200 - ply records, each of the position before its move,
      each position reached from the one before by the recorded move. */
  lemma {:induction false} GameTrace<P>(e: Engine<P>, coins: Coins, nodes: int, pos: P, k: nat, ply: nat)
    requires ply <= MAX_PLY
    ensures var r := SelfPlayFrom(e, coins, nodes, pos, k, ply);
      && |r.history| <= MAX_PLY - ply
      && |r.positions| == |r.history| == |r.values|
      && (r.history != [] ==> r.positions[0] == pos)
      && (forall i :: 0 <= i < |r.history| ==>
            r.history[i] == Sample(e, r.positions[i], RootMove(r.values[i], r.history[i].move)))
      && (forall i :: 0 <= i < |r.history| - 1 ==>
            r.positions[i + 1] == e.play(r.positions[i], r.history[i].move))
    decreases MAX_PLY - ply
  {
    if ply < MAX_PLY && |e.search(pos, nodes)| > 0 {
      var t := TakeTurn(e, coins, e.search(pos, nodes), pos, k);
      if !Decisive(e, t.chosen.score) && !e.isDraw(t.next, ply + 1) {
        GameTrace(e, coins, nodes, t.next, t.cursor, ply + 1);
      }
    }
  }

  /** Every record's value and move are those of one of the first two root
      moves the search returned at its position. */
  lemma {:induction false} GameChoices<P>(e: Engine<P>, coins: Coins, nodes: int, pos: P, k: nat, ply: nat)
    requires ply <= MAX_PLY
    ensures var r := SelfPlayFrom(e, coins, nodes, pos, k, ply);
      && |r.positions| == |r.history| == |r.values|
      && (forall i :: 0 <= i < |r.history| ==>
            var rootMoves := e.search(r.positions[i], nodes);
            |rootMoves| > 0 && RootMove(r.values[i], r.history[i].move) in rootMoves[..if |rootMoves| > 1 then 2 else 1])
    decreases MAX_PLY - ply
  {
    if ply < MAX_PLY && |e.search(pos, nodes)| > 0 {
      var t := TakeTurn(e, coins, e.search(pos, nodes), pos, k);
      if !Decisive(e, t.chosen.score) && !e.isDraw(t.next, ply + 1) {
        GameChoices(e, coins, nodes, t.next, t.cursor, ply + 1);
      }
    }
  }

  /** The game goes on past record `i` only when its value was not decisive and
      the position after its move was not a draw. */
  lemma {:induction false} GameContinues<P>(e: Engine<P>, coins: Coins, nodes: int, pos: P, k: nat, ply: nat, i: nat)
    requires ply <= MAX_PLY
    requires i + 1 < |SelfPlayFrom(e, coins, nodes, pos, k, ply).history|
    ensures var r := SelfPlayFrom(e, coins, nodes, pos, k, ply);
      && i < |r.values| && i < |r.positions|
      && !Decisive(e, r.values[i])
      && !e.isDraw(e.play(r.positions[i], r.history[i].move), ply + i + 1)
    decreases i
  {
    var t, after := FirstPlyContinues(e, coins, nodes, pos, k, ply);
    if i > 0 {
      GameContinues(e, coins, nodes, t.next, t.cursor, ply + 1, i - 1);
      PrependAt(t.rec, pos, t.chosen.score, after, i);
      assert (ply + 1) + (i - 1) + 1 == ply + i + 1;
    }
  }

  /** A game that goes past its first record: that record's value was not
      decisive and the position after its move was not a draw, and the rest of
      the game is played from there. */
  lemma FirstPlyContinues<P>(e: Engine<P>, coins: Coins, nodes: int, pos: P, k: nat, ply: nat)
    returns (t: Turn<P>, after: Played<P>)
    requires ply <= MAX_PLY
    requires 1 < |SelfPlayFrom(e, coins, nodes, pos, k, ply).history|
    ensures ply < MAX_PLY && |e.search(pos, nodes)| > 0
    ensures t == TakeTurn(e, coins, e.search(pos, nodes), pos, k)
    ensures !Decisive(e, t.chosen.score) && !e.isDraw(t.next, ply + 1)
    ensures after == SelfPlayFrom(e, coins, nodes, t.next, t.cursor, ply + 1)
    ensures SelfPlayFrom(e, coins, nodes, pos, k, ply) == Prepend([t.rec], [pos], [t.chosen.score], after)
    ensures var r := SelfPlayFrom(e, coins, nodes, pos, k, ply);
      && 0 < |r.values| && 0 < |r.positions|
      && !Decisive(e, r.values[0])
      && !e.isDraw(e.play(r.positions[0], r.history[0].move), ply + 1)
  {
    t := TakeTurn(e, coins, e.search(pos, nodes), pos, k);
    after := TurnOutcome(e, coins, nodes, pos, k, ply, t);
    assert !Decisive(e, t.chosen.score) && !e.isDraw(t.next, ply + 1);
    assert t.rec.move == t.chosen.move;
    PrependFirst(t.rec, pos, t.chosen.score, after);
  }

  /** The result is the last record's value seen from White, so it is -1, 0 or
      +1, and it is non-zero only when the game ended on a decisive value. */
  lemma {:induction false} GameResult<P>(e: Engine<P>, coins: Coins, nodes: int, pos: P, k: nat, ply: nat)
    requires ply <= MAX_PLY
    ensures var r := SelfPlayFrom(e, coins, nodes, pos, k, ply);
      && |r.values| == |r.history|
      && r.result == (if r.history == [] then 0
                      else WhiteResult(e, r.history[|r.history| - 1].side, r.values[|r.values| - 1]))
    decreases MAX_PLY - ply
  {
    if ply < MAX_PLY && |e.search(pos, nodes)| > 0 {
      var t := TakeTurn(e, coins, e.search(pos, nodes), pos, k);
      if !Decisive(e, t.chosen.score) && !e.isDraw(t.next, ply + 1) {
        GameResult(e, coins, nodes, t.next, t.cursor, ply + 1);
        var r := SelfPlayFrom(e, coins, nodes, t.next, t.cursor, ply + 1);
        if r.history == [] {
          assert !e.isWin(t.chosen.score) && !e.isLoss(t.chosen.score);
        }
      } else if !Decisive(e, t.chosen.score) {
        assert !e.isWin(t.chosen.score) && !e.isLoss(t.chosen.score);
      }
    }
  }

  /** The choice of lines 71-74: the coin is drawn only when there is a second
      root move, and the second one is taken on heads when it is within 30. */
  method ChooseMove(rootMoves: seq<RootMove>, rand: Draws, ghost coins: Coins, k0: nat) returns (moveIdx: nat, k: nat)
    requires |rootMoves| > 0 && Tosses(coins, rand)
    ensures moveIdx == PickIndex(rootMoves, |rootMoves| > 1 && coins(k0))
    ensures k == if |rootMoves| > 1 then k0 + 1 else k0
  {
    moveIdx := 0;
    k := k0;
    if |rootMoves| > 1 {
      var draw := rand(k);
      k := k + 1;
      CoinOfAsWritten(draw);
      if CoinAsWritten(draw) {
        if Abs(rootMoves[0].score - rootMoves[1].score) < SCORE_MARGIN {
          moveIdx := 1;
        }
      }
    }
  }

  lemma PrependTwice<P>(h: seq<PackedPos>, ps: seq<P>, vs: seq<int>, rec: PackedPos, pos: P, v: int, r: Played<P>)
    ensures Prepend(h, ps, vs, Prepend([rec], [pos], [v], r)) == Prepend(h + [rec], ps + [pos], vs + [v], r)
  {
    assert h + ([rec] + r.history) == h + [rec] + r.history;
    assert ps + ([pos] + r.positions) == ps + [pos] + r.positions;
    assert vs + ([v] + r.values) == vs + [v] + r.values;
  }

  /** Entry `i > 0` of a game is entry `i - 1` of what follows its first ply. */
  lemma PrependAt<P>(rec: PackedPos, pos: P, v: int, after: Played<P>, i: nat)
    requires 0 < i && i - 1 < |after.history| && i - 1 < |after.positions| && i - 1 < |after.values|
    ensures var r := Prepend([rec], [pos], [v], after);
      && i < |r.history| && i < |r.positions| && i < |r.values|
      && r.history[i] == after.history[i - 1]
      && r.positions[i] == after.positions[i - 1]
      && r.values[i] == after.values[i - 1]
  {
  }

  /** Entry 0 of a game is its first ply. */
  lemma PrependFirst<P>(rec: PackedPos, pos: P, v: int, after: Played<P>)
    ensures var r := Prepend([rec], [pos], [v], after);
      && 0 < |r.history| && 0 < |r.positions| && 0 < |r.values|
      && r.history[0] == rec && r.positions[0] == pos && r.values[0] == v
  {
  }

  lemma PrependEmpty<P>(r: Played<P>)
    ensures Prepend([], [], [], r) == r
  {
    assert [] + r.history == r.history && [] + r.positions == r.positions && [] + r.values == r.values;
  }

  lemma PrependNothing<P>(h: seq<PackedPos>, ps: seq<P>, vs: seq<int>, result: int, cursor: nat)
    ensures Prepend(h, ps, vs, Played([], [], [], result, cursor)) == Played(h, ps, vs, result, cursor)
  {
    assert h + [] == h && ps + [] == ps && vs + [] == vs;
  }

  /** The checks of lines 95-97 after the move of a ply: the game stops on a
      decisive value, with the result seen from White, or drawn when the new
      position is a draw at `ply`; otherwise it goes on with no result yet. */
  method EndOfPly<P>(e: Engine<P>, side: u8, score: int, pos: P, ply: nat) returns (stop: bool, gameResult: int)
    ensures stop <==> Decisive(e, score) || e.isDraw(pos, ply)
    ensures gameResult == if Decisive(e, score) then WhiteResult(e, side, score) else 0
  {
    gameResult := 0;
    stop := false;
    if e.isWin(score) {
      gameResult := if side == 0 then 1 else -1;
      stop := true;
    } else if e.isLoss(score) {
      gameResult := if side == 0 then -1 else 1;
      stop := true;
    } else if e.isDraw(pos, ply) {
      stop := true;
    }
  }

  /** One searched ply, lines 71-93: choose among the root moves, pack the
      position into its record, play the move. */
  method PlayPly<P>(e: Engine<P>, rand: Draws, ghost coins: Coins, rootMoves: seq<RootMove>, pos: P, k0: nat)
    returns (rec: PackedPos, score: int, next: P, k: nat)
    requires |rootMoves| > 0 && Tosses(coins, rand)
    ensures TakeTurn(e, coins, rootMoves, pos, k0) == Turn(RootMove(score, rec.move), rec, next, k)
  {
    var moveIdx;
    moveIdx, k := ChooseMove(rootMoves, rand, coins, k0);
    var bestMove := rootMoves[moveIdx].move;
    score := rootMoves[moveIdx].score;
    var board := PackBoard(Pieces(e, pos));
    rec := PackedPos(board, Int16Of(score), bestMove, 0, SideByte(e.sideToMove(pos)));
    next := e.play(pos, bestMove);
  }

  /** A game at its ply limit, or whose search finds no root move, plays
      nothing more and has no result. */
  lemma NoMoreMoves<P>(e: Engine<P>, coins: Coins, nodes: int, pos: P, k: nat, ply: nat)
    requires ply <= MAX_PLY
    requires ply == MAX_PLY || |e.search(pos, nodes)| == 0
    ensures SelfPlayFrom(e, coins, nodes, pos, k, ply) == Played([], [], [], 0, k)
  {
  }

  /** One pass of the self-play loop, lines 67-97, on a non-empty search
      result: the ply's record and value, the position and draw cursor after
      it, whether the game stops there and with which result; `tail` is what
      the game plays after this ply. */
  method PlayTurn<P>(e: Engine<P>, rand: Draws, ghost coins: Coins, nodes: int, rootMoves: seq<RootMove>, pos: P, k0: nat, ply: nat)
    returns (rec: PackedPos, score: int, next: P, k: nat, stop: bool, gameResult: int, ghost tail: Played<P>)
    requires ply < MAX_PLY && rootMoves == e.search(pos, nodes) && |rootMoves| > 0 && Tosses(coins, rand)
    ensures SelfPlayFrom(e, coins, nodes, pos, k0, ply) == Prepend([rec], [pos], [score], tail)
    ensures stop <==> Decisive(e, score) || e.isDraw(next, ply + 1)
    ensures stop ==> tail == Played([], [], [], gameResult, k)
    ensures !stop ==> gameResult == 0 && tail == SelfPlayFrom(e, coins, nodes, next, k, ply + 1)
  {
    rec, score, next, k := PlayPly(e, rand, coins, rootMoves, pos, k0);
    tail := TurnOutcome(e, coins, nodes, pos, k0, ply, Turn(RootMove(score, rec.move), rec, next, k));
    stop, gameResult := EndOfPly(e, rec.side, score, next, ply + 1);
  }

  /** The self-play loop of `Datagen::start` for one game from `pos0`. */
  method SelfPlayGame<P>(e: Engine<P>, rand: Draws, ghost coins: Coins, nodes: int, pos0: P, k0: nat)
    returns (history: seq<PackedPos>, gameResult: int, k: nat)
    requires Tosses(coins, rand)
    ensures var r := SelfPlayFrom(e, coins, nodes, pos0, k0, 0);
      (history, gameResult, k) == (r.history, r.result, r.cursor)
  {
    var pos := pos0;
    k := k0;
    history := [];
    gameResult := 0;
    ghost var positions: seq<P> := [];
    ghost var values: seq<int> := [];
    ghost var whole := SelfPlayFrom(e, coins, nodes, pos0, k0, 0);
    PrependEmpty(whole);
    var ply := 0;
    while ply < MAX_PLY
      invariant ply <= MAX_PLY && gameResult == 0
      invariant whole == Prepend(history, positions, values, SelfPlayFrom(e, coins, nodes, pos, k, ply))
    {
      var rootMoves := e.search(pos, nodes);
      if |rootMoves| == 0 {
        NoMoreMoves(e, coins, nodes, pos, k, ply);
        break;
      }
      ghost var here := pos;
      var rec, score, stop;
      ghost var tail;
      rec, score, pos, k, stop, gameResult, tail := PlayTurn(e, rand, coins, nodes, rootMoves, pos, k, ply);
      PrependTwice(history, positions, values, rec, here, score, tail);
      history := history + [rec];
      positions := positions + [here];
      values := values + [score];
      ply := ply + 1;
      if stop {
        PrependNothing(history, positions, values, gameResult, k);
        break;
      }
    }
    if ply == MAX_PLY {
      NoMoreMoves(e, coins, nodes, pos, k, ply);
    }
    PrependNothing(history, positions, values, gameResult, k);
  }
}
