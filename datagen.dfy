/** `Datagen::start`: read the options, then play `games` self-play games and
    append every searched position of each, labelled with the game's result,
    to the training-data file as 38-byte records, reporting progress after
    every game and flushing the file every 20 games. */
module Datagen {
  import opened Machine
  import opened PackedRecord
  import opened SelfPlay
  import opened DatagenOptions

  /** `if (g % 20 == 0) outfile.flush();` */
  const FLUSH_EVERY: nat := 20

  /** The output stream: `data` is everything written to it, `flushed` how much
      of that an explicit flush is known to have handed to the operating system
      (a write may hand bytes over earlier when the stream's buffer fills). */
  class BinaryFile {
    var data: seq<u8>
    var flushed: nat

    predicate Valid()
      reads this
    {
      flushed <= |data|
    }

    /** Opening in append mode keeps the existing contents. */
    constructor Open(existing: seq<u8>)
      ensures Valid() && data == existing && flushed == |existing|
    {
      data := existing;
      flushed := |existing|;
    }

    /** Writing appends to the stream; it guarantees nothing about the buffer. */
    method Write(bytes: seq<u8>)
      requires Valid()
      modifies this
      ensures Valid() && data == old(data) + bytes && flushed == old(flushed)
    {
      data := data + bytes;
    }

    /** Flushing hands everything written so far to the operating system. */
    method Flush()
      requires Valid()
      modifies this
      ensures Valid() && data == old(data) && flushed == |data|
    {
      flushed := |data|;
    }

    /** `tellp()` of a file opened for appending: the end of the file. */
    function Tellp(): (n: nat)
      reads this
      ensures n == |data|
    {
      |data|
    }
  }

  // ------------------------------------------------------------ one game

  /** A finished game: its records (results not yet set), its result from
      White's side, and the next unused draw. */
  datatype Game = Game(history: seq<PackedPos>, result: int, cursor: nat)

  /** The game that starts with draw `k`: the random opening, then self-play. */
  function GameFrom<P>(e: Engine<P>, rand: Draws, nodes: int, k: nat): Game {
    var o := RandomOpening(AsWritten, e, rand, k);
    var r := SelfPlayFrom(e, CoinsOf(AsWritten, rand), nodes, o.pos, o.cursor, 0);
    Game(r.history, r.result, r.cursor)
  }

  /** Every game has at most 200 records, all well formed, and a result of -1, 0 or +1. */
  lemma GameShape<P>(e: Engine<P>, rand: Draws, nodes: int, k: nat)
    ensures var g := GameFrom(e, rand, nodes, k);
      |g.history| <= MAX_PLY && AllWellFormed(g.history) && g.result in {-1, 0, 1}
  {
    var o := RandomOpening(AsWritten, e, rand, k);
    GameTrace(e, CoinsOf(AsWritten, rand), nodes, o.pos, o.cursor, 0);
    GameResult(e, CoinsOf(AsWritten, rand), nodes, o.pos, o.cursor, 0);
  }

  /** The records of a game with the result written into each (lines 101-102). */
  function Labelled(history: seq<PackedPos>, result: i8): (ps: seq<PackedPos>)
    ensures |ps| == |history|
    ensures forall i :: 0 <= i < |ps| ==> ps[i] == history[i].(result := result)
  {
    seq(|history|, i requires 0 <= i < |history| => history[i].(result := result))
  }

  lemma LabelledWellFormed(history: seq<PackedPos>, result: i8)
    requires AllWellFormed(history)
    ensures AllWellFormed(Labelled(history, result))
  {
    assert forall i :: 0 <= i < |history| ==> WellFormed(history[i]);
  }

  /** The bytes a game adds to the file. */
  function GameBytes(g: Game): (bytes: seq<u8>)
    requires AllWellFormed(g.history) && g.result in {-1, 0, 1}
    ensures |bytes| == RECORD_SIZE * |g.history|
  {
    LabelledWellFormed(g.history, g.result);
    SerializeAll(Labelled(g.history, g.result))
  }

  /** Record `i` of a game's bytes reads back as position `i` of the game with
      the game's result: every record of a game carries the same result. */
  lemma GameRecordAt(g: Game, i: nat)
    requires AllWellFormed(g.history) && g.result in {-1, 0, 1} && i < |g.history|
    ensures Deserialize(GameBytes(g)[RECORD_SIZE * i .. RECORD_SIZE * i + RECORD_SIZE]) ==
      g.history[i].(result := g.result)
  {
    LabelledWellFormed(g.history, g.result);
    RecordAt(Labelled(g.history, g.result), i);
  }

  /** Writing the records of a game one at a time (lines 101-104). */
  method WriteGame(file: BinaryFile, history: seq<PackedPos>, gameResult: i8)
    requires file.Valid() && AllWellFormed(history)
    modifies file
    ensures file.Valid() && file.flushed == old(file.flushed)
    ensures AllWellFormed(Labelled(history, gameResult))
    ensures file.data == old(file.data) + SerializeAll(Labelled(history, gameResult))
  {
    LabelledWellFormed(history, gameResult);
    var i := 0;
    while i < |history|
      invariant i <= |history| && file.Valid() && file.flushed == old(file.flushed)
      invariant file.data == old(file.data) + SerializeAll(Labelled(history[..i], gameResult))
    {
      var rec := history[i].(result := gameResult);
      ghost var before := file.data;
      file.Write(Serialize(rec));
      LabelledStep(history, gameResult, i);
      assert before + Serialize(rec) == old(file.data) + (SerializeAll(Labelled(history[..i], gameResult)) + Serialize(rec));
      i := i + 1;
    }
    assert history[..i] == history;
  }

  /** Labelling one more record appends its bytes. */
  lemma LabelledStep(history: seq<PackedPos>, gameResult: i8, i: nat)
    requires i < |history| && AllWellFormed(history)
    ensures AllWellFormed(Labelled(history[..i], gameResult)) && WellFormed(history[i].(result := gameResult))
    ensures AllWellFormed(Labelled(history[..i + 1], gameResult))
    ensures SerializeAll(Labelled(history[..i + 1], gameResult))
      == SerializeAll(Labelled(history[..i], gameResult)) + Serialize(history[i].(result := gameResult))
  {
    var rec := history[i].(result := gameResult);
    var done := Labelled(history[..i], gameResult);
    LabelledWellFormed(history[..i + 1], gameResult);
    LabelledWellFormed(history[..i], gameResult);
    assert Labelled(history[..i + 1], gameResult) == done + [rec];
    assert (done + [rec])[..i] == done;
  }

  /** One whole game (lines 46-98): the opening, then self-play. */
  method PlayGame<P>(e: Engine<P>, rand: Draws, nodes: int, k0: nat)
    returns (history: seq<PackedPos>, gameResult: int, k: nat)
    ensures Game(history, gameResult, k) == GameFrom(e, rand, nodes, k0)
  {
    var pos;
    pos, k := PlayOpening(e, rand, k0);
    history, gameResult, k := SelfPlayGame(e, rand, CoinsOf(AsWritten, rand), nodes, pos, k);
  }

  // ------------------------------------------------------------ the run

  /** The progress line printed after each game (lines 106-111). */
  datatype Progress = Progress(game: int, total: int, storageKb: int, res: string)

  /** `1-0` when White won, `0-1` when Black won, `1/2` otherwise. */
  function ResultText(r: int): (text: string)
    ensures text == "1-0" <==> r == 1
    ensures text == "0-1" <==> r == -1
    ensures text == "1/2" <==> r != 1 && r != -1
  {
    if r == 1 then "1-0" else if r == -1 then "0-1" else "1/2"
  }

  /** Where a run stands after some games: the records appended so far, how
      many bytes of the file are flushed, the progress lines, and the next draw. */
  datatype Run = Run(records: seq<PackedPos>, flushed: nat, reports: seq<Progress>, cursor: nat)

  /** The game played from each starting draw. */
  type Player = nat -> Game

  /** Every game has well-formed records and a result of -1, 0 or +1. */
  ghost predicate Sound(play: Player) {
    forall k: nat :: AllWellFormed(play(k).history) && play(k).result in {-1, 0, 1}
  }

  /** The self-play games of an engine with node limit `nodes`. */
  function GamesOf<P>(e: Engine<P>, rand: Draws, nodes: int): Player {
    (k: nat) => GameFrom(e, rand, nodes, k)
  }

  /** `play` gives the self-play game of every starting draw. The trigger keeps a
      game from being expanded unless its own definition is already in view. */
  ghost predicate Plays<P>(play: Player, e: Engine<P>, rand: Draws, nodes: int) {
    forall k: nat {:trigger GameFrom(e, rand, nodes, k)} :: play(k) == GameFrom(e, rand, nodes, k)
  }

  lemma GamesSound<P>(play: Player, e: Engine<P>, rand: Draws, nodes: int)
    requires Plays(play, e, rand, nodes)
    ensures Sound(play)
  {
    forall k: nat
      ensures AllWellFormed(play(k).history) && play(k).result in {-1, 0, 1}
    {
      GameShape(e, rand, nodes, k);
    }
  }

  /** Game number `n` of `total` finishing, the file having held `start`
      bytes when it was opened: its records are appended, `tellp()` is then
      `start` plus 38 bytes per record, and every 20th game flushes the file. */
  function AfterGame(r: Run, g: Game, n: int, total: int, start: nat): Run
    requires g.result in {-1, 0, 1}
  {
    var records := r.records + Labelled(g.history, g.result);
    var size := start + RECORD_SIZE * |records|;
    Run(records,
        if n % FLUSH_EVERY == 0 then size else r.flushed,
        r.reports + [Progress(n, total, size / 1024, ResultText(g.result))],
        g.cursor)
  }

  /** The first `n` games of a run of `total`, each game starting with the draw
      after the last one its predecessor used; the file held `start` bytes, of
      which `flushed0` were flushed, when it was opened. */
  function RunFor(play: Player, total: int, start: nat, flushed0: nat, n: nat): (r: Run)
    requires Sound(play)
    ensures |r.reports| == n
  {
    if n == 0 then Run([], flushed0, [], 0)
    else
      var r := RunFor(play, total, start, flushed0, n - 1);
      AfterGame(r, play(r.cursor), n, total, start)
  }

  /** Game number `n` of a run (counting from 1). */
  function NthGame(play: Player, total: int, start: nat, flushed0: nat, n: nat): (g: Game)
    requires Sound(play) && n >= 1
    ensures AllWellFormed(g.history) && g.result in {-1, 0, 1}
  {
    play(RunFor(play, total, start, flushed0, n - 1).cursor)
  }

  /** The number of games `for (int g = 1; g <= total; ++g)` plays. */
  function GameCount(total: int): nat {
    if total < 0 then 0 else total
  }

  /** What `Datagen::start` leaves behind for `options`. */
  function StartRun<P>(e: Engine<P>, rand: Draws, options: string, start: nat, flushed0: nat): Run {
    var o := ParseOptions(options);
    GamesSound(GamesOf(e, rand, o.nodes), e, rand, o.nodes);
    RunFor(GamesOf(e, rand, o.nodes), o.games, start, flushed0, GameCount(o.games))
  }

  /** What game `n` adds to the run, field by field. */
  lemma RunStep(play: Player, total: int, start: nat, flushed0: nat, n: nat)
    requires Sound(play) && n >= 1
    ensures var r := RunFor(play, total, start, flushed0, n - 1);
      var r' := RunFor(play, total, start, flushed0, n);
      var g := NthGame(play, total, start, flushed0, n);
      var size := start + RECORD_SIZE * |r'.records|;
      && r'.records == r.records + Labelled(g.history, g.result)
      && r'.reports == r.reports + [Progress(n, total, size / 1024, ResultText(g.result))]
      && r'.flushed == (if n % FLUSH_EVERY == 0 then size else r.flushed)
      && r'.cursor == g.cursor
  {
  }

  /** Every record of a run is well formed and carries the result of its game. */
  lemma {:induction false} RunResults(play: Player, total: int, start: nat, flushed0: nat, n: nat)
    requires Sound(play)
    ensures AllWellFormed(RunFor(play, total, start, flushed0, n).records)
    ensures forall p <- RunFor(play, total, start, flushed0, n).records :: p.result in {-1, 0, 1}
  {
    if n > 0 {
      RunResults(play, total, start, flushed0, n - 1);
      RunStep(play, total, start, flushed0, n);
      var g := NthGame(play, total, start, flushed0, n);
      var added := Labelled(g.history, g.result);
      LabelledWellFormed(g.history, g.result);
      assert forall p <- added :: p.result == g.result;
    }
  }

  /** The records only grow: a later point of the run extends the records of
      an earlier one, so nothing written to the file is ever overwritten. */
  lemma {:induction false} RunGrows(play: Player, total: int, start: nat, flushed0: nat, m: nat, n: nat)
    requires Sound(play) && m <= n
    ensures RunFor(play, total, start, flushed0, m).records <= RunFor(play, total, start, flushed0, n).records
    decreases n
  {
    if m < n {
      RunGrows(play, total, start, flushed0, m, n - 1);
      RunStep(play, total, start, flushed0, n);
    }
  }

  /** Progress line `i` reports game `i + 1` of `total`, its result, and the
      file size in KiB once that game's records were written. */
  lemma {:induction false} RunReport(play: Player, total: int, start: nat, flushed0: nat, n: nat, i: nat)
    requires Sound(play) && i < n
    ensures var rep := RunFor(play, total, start, flushed0, n).reports[i];
      && rep.game == i + 1 && rep.total == total
      && rep.storageKb == (start + RECORD_SIZE * |RunFor(play, total, start, flushed0, i + 1).records|) / 1024
      && rep.res == ResultText(NthGame(play, total, start, flushed0, i + 1).result)
  {
    RunStep(play, total, start, flushed0, n);
    if i < n - 1 {
      RunReport(play, total, start, flushed0, n - 1, i);
      assert RunFor(play, total, start, flushed0, n).reports[i] == RunFor(play, total, start, flushed0, n - 1).reports[i];
    }
  }

  /** The number of games played when the file was last flushed, after `n` games. */
  function LastFlush(n: nat): (m: nat)
    ensures m <= n && m % FLUSH_EVERY == 0 && n - m < FLUSH_EVERY
  {
    n - n % FLUSH_EVERY
  }

  /** Game `n` either is a flush point or leaves the last one where it was. */
  lemma LastFlushStep(n: nat)
    requires n > 0
    ensures n % FLUSH_EVERY == 0 ==> LastFlush(n) == n
    ensures n % FLUSH_EVERY != 0 ==> LastFlush(n) == LastFlush(n - 1)
  {
  }

  /** After `n` games the file is flushed up to the end of the last game whose
      number is a multiple of 20, or as far as when it was opened. */
  lemma {:induction false} RunFlushed(play: Player, total: int, start: nat, flushed0: nat, n: nat)
    requires Sound(play)
    ensures RunFor(play, total, start, flushed0, n).flushed ==
      if LastFlush(n) == 0 then flushed0
      else start + RECORD_SIZE * |RunFor(play, total, start, flushed0, LastFlush(n)).records|
  {
    if n > 0 {
      RunFlushed(play, total, start, flushed0, n - 1);
      LastFlushStep(n);
      RunStep(play, total, start, flushed0, n);
    }
  }

  /** The `i`-th 38-byte block appended to the file reads back as the `i`-th
      record of the run, with a result of -1, 0 or +1. */
  lemma RunRecordAt(play: Player, total: int, start: nat, flushed0: nat, n: nat, i: nat)
    requires Sound(play) && i < |RunFor(play, total, start, flushed0, n).records|
    ensures var ps := RunFor(play, total, start, flushed0, n).records;
      && AllWellFormed(ps)
      && RECORD_SIZE * i + RECORD_SIZE <= |SerializeAll(ps)|
      && Deserialize(SerializeAll(ps)[RECORD_SIZE * i .. RECORD_SIZE * i + RECORD_SIZE]) == ps[i]
      && ps[i].result in {-1, 0, 1}
  {
    RunResults(play, total, start, flushed0, n);
    RecordAt(RunFor(play, total, start, flushed0, n).records, i);
  }

  /** The bookkeeping after game `n` (lines 101-112): append its records,
      report, and flush every 20 games. */
  method RecordGame(file: BinaryFile, ghost base: seq<u8>, ghost run: Run, ghost game: Game,
                    history: seq<PackedPos>, gameResult: i8, n: int, total: int, reports0: seq<Progress>)
    returns (reports: seq<Progress>)
    requires game.history == history && game.result == gameResult && gameResult in {-1, 0, 1}
    requires AllWellFormed(history) && AllWellFormed(run.records)
    requires file.Valid() && file.data == base + SerializeAll(run.records)
    requires file.flushed == run.flushed && reports0 == run.reports
    modifies file
    ensures var next := AfterGame(run, game, n, total, |base|);
      && AllWellFormed(next.records)
      && file.Valid() && file.data == base + SerializeAll(next.records)
      && file.flushed == next.flushed && reports == next.reports
  {
    ghost var next := AfterGame(run, game, n, total, |base|);
    WriteGame(file, history, gameResult);
    ghost var added := Labelled(history, gameResult);
    SerializeAllAppend(run.records, added);
    assert next.records == run.records + added;
    assert base + SerializeAll(run.records) + SerializeAll(added) == base + (SerializeAll(run.records) + SerializeAll(added));
    assert file.data == base + SerializeAll(next.records);
    reports := reports0 + [Progress(n, total, file.Tellp() / 1024, ResultText(gameResult))];
    if n % FLUSH_EVERY == 0 {
      file.Flush();
    }
  }

  /** One pass of the game loop (lines 46-112). */
  method NextGame<P>(e: Engine<P>, rand: Draws, nodes: int, total: int, ghost play: Player,
                     ghost start: nat, ghost flushed0: nat, n: nat,
                     file: BinaryFile, ghost base: seq<u8>, reports0: seq<Progress>, k0: nat)
    returns (reports: seq<Progress>, k: nat)
    requires n >= 1 && |base| == start && Sound(play) && Plays(play, e, rand, nodes)
    requires var run := RunFor(play, total, start, flushed0, n - 1);
      && AllWellFormed(run.records)
      && file.Valid() && file.data == base + SerializeAll(run.records)
      && file.flushed == run.flushed && reports0 == run.reports && k0 == run.cursor
    modifies file
    ensures var run := RunFor(play, total, start, flushed0, n);
      && AllWellFormed(run.records)
      && file.Valid() && file.data == base + SerializeAll(run.records)
      && file.flushed == run.flushed && reports == run.reports && k == run.cursor
  {
    ghost var run := RunFor(play, total, start, flushed0, n - 1);
    var history, gameResult;
    history, gameResult, k := PlayGame(e, rand, nodes, k0);
    ghost var game := Game(history, gameResult, k);
    assert game == play(k0);
    reports := RecordGame(file, base, run, game, history, gameResult, n, total, reports0);
  }

  /** The game loop of `Datagen::start` (lines 44-113) for `total` games. */
  method PlayGames<P>(e: Engine<P>, rand: Draws, nodes: int, total: int, ghost play: Player, file: BinaryFile)
    returns (reports: seq<Progress>)
    requires file.Valid() && Sound(play) && Plays(play, e, rand, nodes)
    modifies file
    ensures var r := RunFor(play, total, |old(file.data)|, old(file.flushed), GameCount(total));
      && AllWellFormed(r.records)
      && file.Valid()
      && file.data == old(file.data) + SerializeAll(r.records)
      && file.flushed == r.flushed
      && reports == r.reports
  {
    ghost var base, flushed0 := file.data, file.flushed;
    var k := 0;
    reports := [];
    var g := 1;
    while g <= total
      invariant 1 <= g <= GameCount(total) + 1
      invariant var run := RunFor(play, total, |base|, flushed0, g - 1);
        && AllWellFormed(run.records)
        && file.Valid() && file.data == base + SerializeAll(run.records)
        && file.flushed == run.flushed && reports == run.reports && k == run.cursor
    {
      reports, k := NextGame(e, rand, nodes, total, play, |base|, flushed0, g, file, base, reports, k);
      g := g + 1;
    }
    AllPlayed(play, total, |base|, flushed0, g);
  }

  /** The game loop stops after game `GameCount(total)`. */
  lemma AllPlayed(play: Player, total: int, start: nat, flushed0: nat, g: int)
    requires Sound(play) && 1 <= g <= GameCount(total) + 1 && total < g
    ensures g - 1 == GameCount(total)
    ensures RunFor(play, total, start, flushed0, g - 1) == RunFor(play, total, start, flushed0, GameCount(total))
  {
  }

  /** `Datagen::start`: `rand` stands for the generator seeded from the clock,
      `file` for `nextfish_data.binpack` opened for appending. Afterwards the
      file holds what it held before followed by the run's records, all of them
      handed over: the stream is closed when `start` returns (line 115). */
  method Start<P>(e: Engine<P>, rand: Draws, options: string, file: BinaryFile) returns (reports: seq<Progress>)
    requires file.Valid()
    modifies file
    ensures var r := StartRun(e, rand, options, |old(file.data)|, old(file.flushed));
      && AllWellFormed(r.records)
      && file.Valid()
      && file.data == old(file.data) + SerializeAll(r.records)
      && file.flushed == |file.data|
      && reports == r.reports
  {
    var nodesLimit, gamesCount := ParseOptionString(options);
    ghost var play := GamesOf(e, rand, nodesLimit);
    GamesSound(play, e, rand, nodesLimit);
    reports := PlayGames(e, rand, nodesLimit, gamesCount, play, file);
    // the destructor of `outfile` flushes and closes it
    file.Flush();
  }
}
