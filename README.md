# nextfish-data: self-play data generation and PGN cleanup, modelled in Dafny

This project models two parts of the nextfish-data repository.

- `Datagen::start` (`src/datagen.cpp`). It reads `nodes`/`games` from the option
  string, opens `nextfish_data.binpack` in append mode and plays one game per
  iteration. Each game starts with a random opening of `8 + rand<int>() % 5`
  plies. Because C's `%` keeps the sign of a negative draw, that is 4 to 12 plies,
  not the 8 to 12 the comment at line 50 names. The engine then plays itself for up
  to 200 plies. It takes the second root move, when that move is within 30 of the
  best, whenever `rand<int>() % 100 < 10`. That coin passes for every draw whose
  low 32 bits read as a negative `int`, and for one in ten of the others. Each
  position before a move is packed into a 38-byte `PackedPos` record. Every record
  of a game is labelled with the game's result from White's point of view and
  appended to the file. A progress report follows each game, the file is flushed
  every 20 games, and it is flushed and closed when `start` returns.
- `extract_fens` (`preprocess_pgn.py`). It takes each game's movetext and removes
  the move numbers (`\d+\.`) and the one-line `{...}` comments. It then turns
  newlines into spaces, strips the result, and writes each non-empty result as one
  line of the book file.

The modules follow the program's structure:

| file | module | what it holds |
|---|---|---|
| `wrappers.dfy` | `Wrappers` | the `Option` datatype |
| `text.dfy` | `Text` | decimal digits and the leading digit run, shared by the option reader and the move-number pattern |
| `machine.dfy` | `Machine` | the fixed-width integers of the x86-64 build, C's truncating `%`, two's-complement casts, little-endian bytes, bitwise AND/OR on naturals |
| `packing.dfy` | `BoardPacking` | the 4-bit-per-square board packing (lines 80-86) and its inverse |
| `records.dfy` | `PackedRecord` | the 38-byte `PackedPos` layout, its serialization and its inverse |
| `options.dfy` | `DatagenOptions` | the option loop at lines 28-33, on the words of the option string |
| `selfplay.dfy` | `SelfPlay` | the random opening, the epsilon-greedy move choice, the self-play loop and the result label, with the opening length and the coin both as written and as intended |
| `datagen.dfy` | `Datagen` | the output file (a class), the per-game write, the report and flush bookkeeping, and `Start` |
| `pgn.dfy` | `PgnCleanup` | `re.sub` for the two patterns, `replace`, `strip`, and the writing loop (a class for the output file) |

The engine, meaning search, legal moves, making a move, `piece_on`, `side_to_move`,
`is_draw`, `is_win` and `is_loss`, is a parameter: a datatype of functions over an
abstract position type. The pseudo-random generator is a parameter too: a stream of
64-bit draws with a cursor that counts the draws used. `rand<int>()` is the low 32
bits of a draw read as a signed `int`, and `rand<size_t>()` is the whole draw.

`Start`, `PlayGames`, `NextGame`, `RecordGame`, `WriteGame`, `PlayOpening`,
`SelfPlayGame`, `PackBoard`, `ParseOptionString` and `ExtractFens` are methods for
the source's loops and loop bodies. Each is proved against a function of its inputs:
`RunFor`/`StartRun`, `SelfPlayFrom`, `PackedBoard`, `ParseOptions` or `BookText`.
Lemmas then state what those functions promise: round trips, the label of every
record, the flushed prefix, the report contents, and what the book file reads
back as.

The random opening and the coin are modelled in two variants (`SelfPlay.Variant`).
`AsWritten` computes what lines 51 and 72 compute. `Intended` reads the same draw
as unsigned, which gives the 8 to 12 plies and the 10 % rate the comments name.
`Datagen.Start` plays the `AsWritten` games. `SelfPlayFrom` takes any stream of
coins, so the `Intended` games are `SelfPlayFrom` over `CoinsOf(Intended, rand)`.

Facts about the program that the model keeps:
- Only the words `nodes` and `games` are read as keys. Every other word of the
  option string, `out` and `book` included, is skipped. The output file name is
  fixed, and no opening book is read.
- The file is opened in append mode. After a run it holds what it held before,
  followed by 38 bytes per record written (`Datagen.Start`).
- The progress report holds the game number, the game count, the file size in KB
  and the result text. It holds no ply count.

## Model

| member | source | states |
|---|---|---|
| Machine.Low32 | src/datagen.cpp:72 | the `uint32_t` value of a draw agrees with the draw modulo 2^32 |
| Machine.Int32Of | src/datagen.cpp:72 | `rand<int>()` is in the int range, agrees with the draw modulo 2^32, and is negative exactly when bit 31 of the draw is set |
| Machine.Int16Of | src/datagen.cpp:89 | `(int16_t)score` agrees with the score modulo 2^16 and is the score itself when that fits |
| Machine.CRem | src/datagen.cpp:72 | C's `%` by a positive divisor: magnitude below the divisor, sign of the dividend, and `a == b*quot + rem` |
| Machine.Abs | src/datagen.cpp:73 | `std::abs` returns `x` or `-x`, never negative |
| Machine.LE16 | src/datagen.cpp:18-19 | a 16-bit field is two bytes, low byte first, whose value is the field |
| Machine.FromLE16 | src/datagen.cpp:18-19 | reading two bytes back gives the field whose bytes they are |
| Machine.U16OfI16 | src/datagen.cpp:18 | the stored bits of an `int16_t` agree with its value modulo 2^16 |
| Machine.I16OfU16 | src/datagen.cpp:18 | every 16-bit pattern is the stored form of exactly the `int16_t` read back from it |
| Machine.U8OfI8 | src/datagen.cpp:20 | the stored byte of an `int8_t` agrees with its value modulo 256 |
| Machine.I8OfU8 | src/datagen.cpp:20 | every byte is the stored form of the `int8_t` read back from it |
| Machine.BitAnd | src/datagen.cpp:84-85 | bitwise `&` on non-negative integers, bit by bit; MaskLowNibble states that `x & 0x0F` keeps exactly the low four bits |
| Machine.BitOr | src/datagen.cpp:84-85 | bitwise OR on non-negative integers, bit by bit; OrDisjoint states that OR with a value shifted above the other's bits is addition |
| Machine.MaskLowNibble | src/datagen.cpp:84 | `pc & 0x0F` is `pc mod 16` |
| Machine.OrDisjoint | src/datagen.cpp:85 | OR-ing a value shifted above the bits of a smaller one is addition |
| BoardPacking.PackByte | src/datagen.cpp:84-85 | the board byte of a square pair: the even square's piece code modulo 16 in the low nibble, the odd square's in the high one; PackByteValue proves it is what the masks, the shift and the two ORs produce, and PackByteOfNibbles and UnpackPacked state what it keeps |
| BoardPacking.PackByteValue | src/datagen.cpp:84-85 | the two OR-assignments of a square pair produce the low nibble of the even square plus 16 times the low nibble of the odd square |
| BoardPacking.PackedBoard | src/datagen.cpp:81-86 | the packed board is 32 bytes |
| BoardPacking.PackedNibbles | src/datagen.cpp:84-85 | byte k holds square 2k in its low nibble and square 2k+1 in its high nibble |
| BoardPacking.NibbleAt | src/datagen.cpp:17 | a square read back from the board is below 16 |
| BoardPacking.Unpack | src/datagen.cpp:17 | unpacking gives 64 squares |
| BoardPacking.UnpackPacked | src/datagen.cpp:80-86 | unpacking the packed board gives every square's piece code modulo 16 |
| BoardPacking.PackingLossless | src/datagen.cpp:80-86 | piece codes below 16 survive packing and unpacking unchanged |
| BoardPacking.PackByteOfNibbles | src/datagen.cpp:84-85 | every byte is the packing of its own two nibbles |
| BoardPacking.PackUnpacked | src/datagen.cpp:17 | packing an unpacked board gives the board back, so the 32-byte encoding is a bijection with nibble boards |
| BoardPacking.PackUnpackedAt | src/datagen.cpp:17 | the same, byte by byte |
| BoardPacking.HighNibbleStep | src/datagen.cpp:85 | after an odd square the byte holds exactly the packed pair |
| BoardPacking.PackBoard | src/datagen.cpp:80-86 | the loop over 64 squares on a zeroed 32-byte buffer produces the packed board |
| PackedRecord.Serialize | src/datagen.cpp:16-22 | a record is 38 bytes |
| PackedRecord.Deserialize | src/datagen.cpp:16-22 | every 38 bytes read back as a well-formed record |
| PackedRecord.DeserializeSerialize | src/datagen.cpp:16-22 | reading back a written record gives the record |
| PackedRecord.SerializeDeserialize | src/datagen.cpp:16-22 | writing a record read from 38 bytes gives those bytes |
| PackedRecord.LE16Injective | src/datagen.cpp:19 | two moves with the same bytes are the same move |
| PackedRecord.I16Injective | src/datagen.cpp:18 | two scores with the same bytes are the same score |
| PackedRecord.I8Injective | src/datagen.cpp:20 | two results with the same byte are the same result |
| PackedRecord.SerializeAll | src/datagen.cpp:101-104 | writing n records produces 38n bytes |
| PackedRecord.RecordAt | src/datagen.cpp:101-104 | bytes 38i to 38i+38 of the written stream are record i and read back as record i |
| PackedRecord.SerializeAllAppend | src/datagen.cpp:101-104 | writing two batches one after the other is writing their concatenation |
| DatagenOptions.KeyOf | src/datagen.cpp:31-32 | only the exact words `nodes` and `games` are keys |
| DatagenOptions.With | src/datagen.cpp:31-32 | reading a key's value sets that option and leaves the other unchanged |
| DatagenOptions.WordLength | src/datagen.cpp:30 | a word is the maximal run of non-whitespace |
| DatagenOptions.Words | src/datagen.cpp:28-30 | the words read are non-empty and hold no whitespace |
| Text.DigitRun | src/datagen.cpp:31-32 | `>> int` and the pattern `\d+` (preprocess_pgn.py line 23) both take the maximal run of digits at the front |
| DatagenOptions.ReadWord | src/datagen.cpp:31-32 | a number read is in the int range and leaves a strictly shorter rest of the word; a failed read stores 0 or the clamped limit |
| DatagenOptions.ExtractInt | src/datagen.cpp:31-32 | the integer read finds no input exactly when no words remain, and never grows the remaining words |
| DatagenOptions.ParseFrom | src/datagen.cpp:30-33 | the word loop over the remaining words: a key reads the next word as its value, a failed read stores what the reader gives and ends the loop; OtherWordsSkipped, KeyValueSets, BadValueStops, KeyAtEndKeeps and ParseAppend state its promises |
| DatagenOptions.ParseOptions | src/datagen.cpp:25-33 | the options after the loop over all words of the string, from 3000 nodes and 1000 games; LastOccurrenceWins and the ParseFrom lemmas state its promises, and ParseOptionString computes it |
| DatagenOptions.ParseOptionString | src/datagen.cpp:25-33 | the option loop yields exactly the options `ParseOptions` gives, starting from 3000 nodes and 1000 games |
| DatagenOptions.OtherWordsSkipped | src/datagen.cpp:30-33 | words other than `nodes` and `games` change nothing |
| DatagenOptions.KeyValueSets | src/datagen.cpp:31-32 | `nodes N` or `games N` with N a decimal in range sets that option, and parsing goes on |
| DatagenOptions.DigitRunAll | src/datagen.cpp:31-32 | a word of digits is read whole |
| DatagenOptions.BadValueStops | src/datagen.cpp:31-32 | a non-numeric value stores 0 and stops all further parsing |
| DatagenOptions.KeyAtEndKeeps | src/datagen.cpp:31-32 | a key as the last word leaves its option unchanged |
| DatagenOptions.ParseAppend | src/datagen.cpp:30-33 | parsing a concatenation continues from where the first part left the options |
| DatagenOptions.ExtractAppend | src/datagen.cpp:31-32 | the integer read from a non-empty word list does not depend on later words |
| DatagenOptions.LastOccurrenceWins | src/datagen.cpp:30-33 | the last `nodes N` / `games N` wins over earlier ones |
| DatagenOptions.WordsAppend | src/datagen.cpp:28-30 | a space between two pieces of the option string splits their words |
| DatagenOptions.WordLengthAppend | src/datagen.cpp:30 | a word ends at the first whitespace |
| SelfPlay.SideByte | src/datagen.cpp:88 | the side byte is 0 exactly for White, and at most 1 |
| SelfPlay.OpeningLengthAsWritten | src/datagen.cpp:51 | `8 + rand<int>() % 5` as written lies in [4, 12], and in [8, 12] for non-negative draws |
| SelfPlay.OpeningLength | src/datagen.cpp:51 | the intended opening length lies in [8, 12] and agrees with the written one on non-negative draws |
| SelfPlay.OpeningTooShort | src/datagen.cpp:51 | the draw 0xFFFF_FFFC gives a 4-ply opening as written and a 10-ply one as intended |
| SelfPlay.OpeningLengthOf | src/datagen.cpp:51 | the opening length of either variant lies in [4, 12], in [8, 12] as intended, and both variants agree on draws whose low word is below 2^31 |
| SelfPlay.OpeningLengthOfAsWritten | src/datagen.cpp:51 | the as-written variant is exactly `8 + rand<int>() % 5` with C's truncating `%` |
| SelfPlay.OpeningFrom | src/datagen.cpp:52-57 | the opening loop from ply i of n: one random legal move per draw, `moves[rand<size_t>() % moves.size()]`, stopping early at a position without legal moves; OpeningPlies states its promises |
| SelfPlay.RandomOpening | src/datagen.cpp:46-57 | a game's opening: the length from the first draw under the variant, then OpeningFrom from the start position with the following draws; OpeningBounds states its promises, and PlayOpening computes the as-written one |
| SelfPlay.OpeningPlies | src/datagen.cpp:52-57 | the opening loop plays between its start and its limit, uses one draw per ply, and stops early only when there is no legal move |
| SelfPlay.OpeningBounds | src/datagen.cpp:51-57 | the opening has at most 12 plies and uses one draw for its length and one per ply; it has fewer than 4 plies as written, or fewer than 8 as intended, only when it reached a position without legal moves |
| SelfPlay.PlayOpening | src/datagen.cpp:50-57 | the opening loop as written, `8 + rand<int>() % 5` random legal plies with one draw each that stop early at a position without legal moves, reaches the position and draw cursor of the as-written `RandomOpening` |
| SelfPlay.CoinAsWritten | src/datagen.cpp:72 | `rand<int>() % 100 < 10` as written is true for every negative draw, and otherwise one time in ten |
| SelfPlay.CoinTooOften | src/datagen.cpp:72 | the draw 0xFFFF_FFFF passes the written coin and fails the intended one |
| SelfPlay.Coin | src/datagen.cpp:72 | the intended 10 % coin, the draw's low word modulo 100 below 10; CoinRate proves the rate, and CoinTooOften separates it from the coin as written |
| SelfPlay.CoinOf | src/datagen.cpp:72 | the coin of either variant is the intended 10 % coin on draws whose low word is below 2^31, and the intended variant is that coin on every draw |
| SelfPlay.CoinOfAsWritten | src/datagen.cpp:72 | the as-written variant is exactly `rng.rand<int>() % 100 < 10` with C's truncating `%` |
| SelfPlay.CoinsOf | src/datagen.cpp:72 | the coin of every draw of a stream under a variant, entry k being CoinOf of draw k; the games of Datagen.GameFrom consult `CoinsOf(AsWritten, rand)`, and PlayGame passes it to SelfPlayGame, whose requirement `Tosses` ties it to the draws the loop reads |
| SelfPlay.CoinRate | src/datagen.cpp:72 | the intended coin passes on exactly 10 of every 100 consecutive low words |
| SelfPlay.CoinCountSplit | src/datagen.cpp:72 | coin passes over two adjacent ranges add up |
| SelfPlay.CoinBlock | src/datagen.cpp:72 | the passes in the tail of one block of 100 |
| SelfPlay.PickIndex | src/datagen.cpp:71-74 | the second root move is chosen iff there are two, the coin passed and the scores differ by less than 30; the chosen move is within 30 of the best |
| SelfPlay.WhiteResult | src/datagen.cpp:95-96 | the label is -1, 0 or 1, and non-zero exactly for a win or loss score |
| SelfPlay.WhiteResultIsWhitesView | src/datagen.cpp:95-96 | the label is 1 iff White wins and -1 iff Black wins by the mover's score, and swapping the mover negates it |
| SelfPlay.Pieces | src/datagen.cpp:82-83 | the board read is 64 squares |
| SelfPlay.Sample | src/datagen.cpp:79-91 | the record built for a position is well formed |
| SelfPlay.TakeTurn | src/datagen.cpp:67-93 | one ply takes the root move `PickIndex` picks with the coin of the draw at the cursor, which is one of the first two and uses a draw exactly when there are two; its record is the sample of the position before the move, and the next position is that move played |
| SelfPlay.SelfPlayFrom | src/datagen.cpp:60-98 | the ply loop from a position: nothing at the 200-ply cap or without root moves, otherwise the ply's record in front of what follows it; GameTrace, GameChoices, GameContinues and GameResult state its promises, and SelfPlayGame computes it |
| SelfPlay.AfterTurn | src/datagen.cpp:95-98 | what follows a ply: the end of the game on a decisive value or a draw, otherwise the loop from the next position; TurnOutcome states it case by case |
| SelfPlay.SelfPlayStep | src/datagen.cpp:61-98 | a ply with root moves records its sample and continues with the rest of the game |
| SelfPlay.TurnOutcome | src/datagen.cpp:91-97 | after a ply's record the game ends with White's view of a decisive value, ends drawn when the position after the move is a draw, and otherwise goes on from that position at the next ply |
| SelfPlay.FirstPlyContinues | src/datagen.cpp:95-97 | a game with a second record had a first ply whose value was not decisive and whose resulting position was not a draw, and the rest of the game is played from that position |
| SelfPlay.GameTrace | src/datagen.cpp:60-98 | at most 200 records, the first at the starting position, each the sample of its position and chosen move, each position the previous one after its move |
| SelfPlay.GameChoices | src/datagen.cpp:67-77 | every record's value and move are those of one of the first two root moves the search returned at that record's position |
| SelfPlay.GameContinues | src/datagen.cpp:95-97 | every record but the last had a non-decisive score and did not reach a draw |
| SelfPlay.GameResult | src/datagen.cpp:95-97 | the game result is 0 for an empty game and otherwise White's view of the last record's score |
| SelfPlay.ChooseMove | src/datagen.cpp:70-74 | the loop's index is `PickIndex` under the as-written coin `rand<int>() % 100 < 10` of the draw at the cursor, and one draw is used exactly when there are two root moves |
| SelfPlay.PrependTwice | src/datagen.cpp:91 | pushing records one after the other is pushing them together |
| SelfPlay.PrependNothing | src/datagen.cpp:98 | a game that ends adds no records |
| SelfPlay.PlayPly | src/datagen.cpp:70-93 | one ply computes the turn `TakeTurn` describes: the chosen root move's value and move, the record of the position before the move, the position after it and the draw cursor after the coin |
| SelfPlay.EndOfPly | src/datagen.cpp:95-97 | the checks after a move stop the game exactly on a decisive value or a draw, with White's view of the value as the result and 0 for a draw or a game that goes on |
| SelfPlay.PlayTurn | src/datagen.cpp:67-97 | one pass of the ply loop with root moves puts the ply's record in front of the rest of the game, which is only the result when the pass stops and the game from the new position otherwise |
| SelfPlay.SelfPlayGame | src/datagen.cpp:59-98 | the ply loop yields the history, result and draw cursor of `SelfPlayFrom`: one record per searched ply, stopping at 200 plies, when the search finds no root move, on a decisive value with White's view of it as the result, or drawn when the position after the move is a draw |
| Datagen.BinaryFile.Open | src/datagen.cpp:42 | opening in append mode keeps the existing contents, which are all counted as handed to the operating system |
| Datagen.BinaryFile.Write | src/datagen.cpp:103 | writing appends the bytes to the stream and promises nothing about when they leave its buffer |
| Datagen.BinaryFile.Flush | src/datagen.cpp:112 | flushing hands everything written so far to the operating system and changes no byte |
| Datagen.BinaryFile.Tellp | src/datagen.cpp:108 | the write position is the file size |
| Datagen.GameFrom | src/datagen.cpp:46-98 | one game: the as-written random opening from the start position, then self-play under the as-written coin from where it ended; GameShape states its promises, and PlayGame computes it |
| Datagen.GameShape | src/datagen.cpp:45-98 | a game has at most 200 well-formed records and a result in {-1, 0, 1} |
| Datagen.Labelled | src/datagen.cpp:101-102 | labelling keeps every record and sets its result to the game's result |
| Datagen.LabelledWellFormed | src/datagen.cpp:101-102 | labelled records stay well formed |
| Datagen.GameBytes | src/datagen.cpp:101-104 | a game writes 38 bytes per record |
| Datagen.GameRecordAt | src/datagen.cpp:101-104 | the i-th 38-byte chunk of a game's bytes reads back as its i-th record with the game's result |
| Datagen.WriteGame | src/datagen.cpp:101-104 | the loop appends exactly the serialized labelled records and flushes nothing |
| Datagen.PlayGame | src/datagen.cpp:46-98 | the as-written opening followed by self-play under the as-written coin yields the game `GameFrom`, which `GameShape` bounds to 200 well-formed records and a result in {-1, 0, 1} |
| Datagen.ResultText | src/datagen.cpp:109 | the text is "1-0" iff the result is 1, "0-1" iff -1, and "1/2" otherwise |
| Datagen.GamesSound | src/datagen.cpp:45-98 | every game played has well-formed records and a result in {-1, 0, 1} |
| Datagen.AfterGame | src/datagen.cpp:100-112 | what game n adds to the run: its labelled records, the report with `tellp()` after them, and a flush when n is a multiple of 20; RunStep states it field by field, and RecordGame computes it |
| Datagen.RunFor | src/datagen.cpp:45-113 | after n games there are n reports |
| Datagen.NthGame | src/datagen.cpp:45-98 | the n-th game has well-formed records and a result in {-1, 0, 1} |
| Datagen.RunStep | src/datagen.cpp:100-112 | game n appends its labelled records and one report with the file size after them, flushes exactly when n is a multiple of 20, and moves the draw cursor past the game |
| Datagen.RunResults | src/datagen.cpp:100-104 | every record written is well formed and labelled 1, 0 or -1 |
| Datagen.RunGrows | src/datagen.cpp:45-113 | the records after m games are a prefix of the records after any later game |
| Datagen.RunReport | src/datagen.cpp:106-111 | report i names game i+1 of the total, the file size in KB after that game, and that game's result text |
| Datagen.LastFlush | src/datagen.cpp:112 | the last flush point is the largest multiple of 20 not above n |
| Datagen.LastFlushStep | src/datagen.cpp:112 | the last flush point moves only at multiples of 20 |
| Datagen.RunFlushed | src/datagen.cpp:112 | the flushed prefix is the file as it stood after the last game numbered a multiple of 20, or the original file before game 20 |
| Datagen.RunRecordAt | src/datagen.cpp:101-104 | record i of the run sits at byte 38i of what was appended, reads back unchanged, and carries a result in {-1, 0, 1} |
| Datagen.RecordGame | src/datagen.cpp:100-112 | writing, reporting and flushing one game moves the file and the reports to the run's next state |
| Datagen.NextGame | src/datagen.cpp:46-112 | one pass of the game loop takes the file, the reports and the draw cursor from the run after n-1 games to the run after n: the game's labelled records are appended, one report is added, and the file is flushed when n is a multiple of 20 |
| Datagen.PlayGames | src/datagen.cpp:45-113 | the game loop plays games 1 to `games`, none when the count is not positive; the file gains exactly their serialized labelled records in order, with the flushes and reports of `RunFor` |
| Datagen.StartRun | src/datagen.cpp:24-113 | the run `start` leaves for an option string: the parsed options, then RunFor over the games the loop plays; RunReport, RunFlushed, RunRecordAt and RunResults state its promises, and Start computes it |
| Datagen.Start | src/datagen.cpp:24-115 | `start` appends to the existing file exactly the serialized labelled records of the games the option string asks for (3000 nodes and 1000 games unless given), issues one report per game, and leaves the whole file handed to the operating system when the stream is closed at its return |
| PgnCleanup.CommentBody | preprocess_pgn.py:24 | the shortest body up to the first `}`, stopping at a newline since `.` does not match it |
| PgnCleanup.MatchAt | preprocess_pgn.py:23-24 | a match at the start of the text is no longer than the text |
| PgnCleanup.MoveNumberMatch | preprocess_pgn.py:23 | a match is digits followed by a dot, and any such prefix is exactly the match |
| PgnCleanup.CommentMatch | preprocess_pgn.py:24 | a match is a one-line `{...}` comment and is the shortest one at that point |
| PgnCleanup.Sub | preprocess_pgn.py:23-24 | substitution never lengthens the text |
| PgnCleanup.SubKeepsFirst | preprocess_pgn.py:23-24 | a character where no match starts is kept in front |
| PgnCleanup.NoMoveNumberLeft | preprocess_pgn.py:23 | after the move-number pass no digit is followed by a dot |
| PgnCleanup.NoDotKept | preprocess_pgn.py:23 | text without a dot has no move number to remove and is left unchanged |
| PgnCleanup.NoDigitKept | preprocess_pgn.py:23 | text without a digit is left unchanged by the move-number pass |
| PgnCleanup.NoBraceKept | preprocess_pgn.py:24 | text without `{` is left unchanged by the comment pass |
| PgnCleanup.CommentPrefixKept | preprocess_pgn.py:24 | text without `{` in front of any text is kept, and what follows it is cleaned as if it stood alone |
| PgnCleanup.OneLineMatch | preprocess_pgn.py:24 | at a one-line comment the lazy pattern matches exactly that comment, braces included |
| PgnCleanup.OneLineCommentRemoved | preprocess_pgn.py:24 | a one-line `{...}` comment after text without `{` is deleted with its braces, and the text around it is kept and joined |
| PgnCleanup.MultiLineCommentKept | preprocess_pgn.py:24 | a `{...}` comment with a newline before its `}`, after text without `{`, is not a match: it is kept whole, and the text after it is cleaned as if it stood alone |
| PgnCleanup.CommentExamples | preprocess_pgn.py:24 | `e4 {good} e5` becomes `e4  e5`, and `e4 {a`, newline, `b} e5` is kept whole |
| PgnCleanup.LineOpenKept | preprocess_pgn.py:24 | removing comments from a text whose first `}` or newline is a newline keeps that property, so a `{` in front of it still starts no comment |
| PgnCleanup.NoCommentLeft | preprocess_pgn.py:24 | after the comment pass no one-line comment starts anywhere in the text: removing one never joins its neighbours into a new one |
| PgnCleanup.NoMatchKept | preprocess_pgn.py:23-24 | a text in which the pattern matches nowhere is left unchanged by `re.sub` |
| PgnCleanup.CommentPassIdempotent | preprocess_pgn.py:24 | running the comment pass a second time changes nothing |
| PgnCleanup.MoveNumberPassIdempotent | preprocess_pgn.py:23 | running the move-number pass a second time changes nothing |
| PgnCleanup.DigitRunAppend | preprocess_pgn.py:23 | a digit run that ends inside a text is not lengthened by what follows it |
| PgnCleanup.SubMoveNumberAppend | preprocess_pgn.py:23 | a text that is empty or ends in a non-digit is cleaned of move numbers the same whatever follows, so the pass works piece by piece |
| PgnCleanup.NoDotPrefixKept | preprocess_pgn.py:23 | text without a dot, followed by nothing or by a character that is neither a digit nor a dot, is kept whole in front of the cleaned rest |
| PgnCleanup.ResultTokenKept | preprocess_pgn.py:23 | a token without a dot, such as the result `1-0` or `1/2-1/2`, survives the move-number pass wherever it stands, with the text on either side cleaned on its own |
| PgnCleanup.ReplaceNewlines | preprocess_pgn.py:25 | every newline becomes a space and every other character is kept |
| PgnCleanup.StripLeft | preprocess_pgn.py:25 | `lstrip()`; StripLeftSuffix states that it removes exactly the leading whitespace |
| PgnCleanup.StripRight | preprocess_pgn.py:25 | `rstrip()`; StripRightPrefix states that it removes exactly the trailing whitespace |
| PgnCleanup.Strip | preprocess_pgn.py:25 | `strip()`; StripIsMiddle and StripTrimmed state its promises |
| PgnCleanup.StripLeftSuffix | preprocess_pgn.py:25 | left stripping removes a whitespace prefix, all of it |
| PgnCleanup.StripRightPrefix | preprocess_pgn.py:25 | right stripping removes a whitespace suffix, all of it |
| PgnCleanup.StripIsMiddle | preprocess_pgn.py:25 | `strip` returns a middle slice, with only whitespace cut from either end and none left at its ends |
| PgnCleanup.StripTrimmed | preprocess_pgn.py:25 | text with no whitespace at its ends is stripped to itself |
| PgnCleanup.Clean | preprocess_pgn.py:23-25 | the cleaned movetext of one game: both substitutions, newlines to spaces, then strip; CleanShape, PlainTextStripped and the lemmas about Sub state its promises, and CleanMoves computes it |
| PgnCleanup.CleanShape | preprocess_pgn.py:23-25 | cleaned movetext is one line with no whitespace at either end |
| PgnCleanup.PlainTextStripped | preprocess_pgn.py:23-25 | movetext with no digits, braces or newlines is only stripped |
| PgnCleanup.Cleaned | preprocess_pgn.py:21-25 | one cleaned movetext per game |
| PgnCleanup.CleanedAt | preprocess_pgn.py:21-25 | the i-th cleaned movetext is the cleanup of game i |
| PgnCleanup.CleanedAppend | preprocess_pgn.py:21-25 | cleaning one more game appends its cleanup |
| PgnCleanup.NonEmpty | preprocess_pgn.py:26 | the kept lines are non-empty and among the cleaned movetexts |
| PgnCleanup.LineLength | preprocess_pgn.py:27 | a line read back ends at the first newline |
| PgnCleanup.LineLengthOf | preprocess_pgn.py:27 | a written line reads back at its own length |
| PgnCleanup.ReadWritten | preprocess_pgn.py:26-27 | reading back the text written for one-line strings gives the non-empty ones in order |
| PgnCleanup.Book | preprocess_pgn.py:26-27 | the text written for a list of cleaned movetexts, each non-empty one followed by a newline; BookOne, BookAppend and ReadWritten state its promises |
| PgnCleanup.Lines | preprocess_pgn.py:26-27 | the lines the book holds, one per game whose cleaned movetext is not empty; ReadBook and LinesClean state its promises |
| PgnCleanup.BookText | preprocess_pgn.py:20-27 | what `extract_fens` leaves in the output file; ReadBook and BookStep state its promises, and ExtractFens computes it |
| PgnCleanup.ReadLines | preprocess_pgn.py:27 | a text file read back line by line; ReadWritten and ReadBook state that the book reads back as its lines |
| PgnCleanup.ReadBook | preprocess_pgn.py:20-27 | the book file reads back as exactly one line per game with non-empty cleaned movetext, in game order |
| PgnCleanup.LinesClean | preprocess_pgn.py:21-27 | every book line is non-empty, holds no newline and has no whitespace at either end |
| PgnCleanup.BookAppend | preprocess_pgn.py:21-27 | the text written for two batches of games is the first batch's then the second's |
| PgnCleanup.BookOne | preprocess_pgn.py:26-27 | one game writes its line and a newline, or nothing when the line is empty |
| PgnCleanup.TextFile.Create | preprocess_pgn.py:20 | opening with `'w'` starts an empty file |
| PgnCleanup.TextFile.Write | preprocess_pgn.py:27 | writing appends the text |
| PgnCleanup.CleanMoves | preprocess_pgn.py:23-25 | the three cleanup statements compute `Clean` |
| PgnCleanup.WriteLine | preprocess_pgn.py:26-27 | the `if moves:` write appends the game's book text |
| PgnCleanup.BookStep | preprocess_pgn.py:21-27 | one more game adds its own line to the book text |
| PgnCleanup.ExtractFens | preprocess_pgn.py:20-27 | the loop writes exactly the book text of all games, in order |

## Findings

| source | as written | input that shows it | evidently intended | confidence | as-written member | corrected member |
|---|---|---|---|---|---|---|
| src/datagen.cpp:72 | `rng.rand<int>() % 100 < 10`: C's `%` of a negative `int` is zero or negative, so every draw whose low 32 bits read as negative passes the coin, more than half of all draws | draw 0xFFFF_FFFF: `rand<int>()` is -1, and -1 % 100 = -1 < 10 | a 10 % coin: the draw's low word modulo 100 below 10 | not executed | SelfPlay.CoinAsWritten (SelfPlay.CoinTooOften) | SelfPlay.Coin (SelfPlay.CoinRate) |
| src/datagen.cpp:51 | `8 + (rng.rand<int>() % 5)`: a negative draw gives a remainder in [-4, 0], so openings of 4 to 7 plies occur | draw 0xFFFF_FFFC: `rand<int>()` is -4, and 8 + (-4 % 5) = 4 | an opening of 8 to 12 plies | not executed | SelfPlay.OpeningLengthAsWritten (SelfPlay.OpeningTooShort) | SelfPlay.OpeningLength (SelfPlay.OpeningBounds) |

`Datagen.Start` plays the code as written, so its games use
`SelfPlay.OpeningLengthAsWritten` and `SelfPlay.CoinAsWritten`. The corrected
definitions are the `Intended` variant of `SelfPlay.OpeningLengthOf` and
`SelfPlay.CoinOf`. `SelfPlay.OpeningBounds` proves at least 8 plies (short of a
position without legal moves) for the `Intended` opening, and `SelfPlay.CoinRate`
proves the rate of exactly 10 in 100 for the `Intended` coin.

## Left out

- The engine's search, move generation, move making, draw detection and mate scores are parameters (`SelfPlay.Engine`). The start position set at line 46 is `e.startPos`. `engine.go` with its node limit and `wait_for_search_finished` are one call that returns the ranked root moves.
- The pseudo-random generator's algorithm and its clock seed (`PRNG rng(now())`): the draws are a parameter stream.
- The callbacks installed at lines 35-39, and the banner and closing console lines (41, 114). The progress line at 107-110 is kept as its values (`Datagen.Progress`), without the `\r` and padding formatting.
- `set_position(fen, {move})` loses the game's repetition history in the engine. The model's `e.play` is whatever the engine does with a position and a move, so repetition draws that need earlier positions are not represented.
- `rec.result` is uninitialised until line 102. The model gives each sample a result of 0 before labelling, and labelling overwrites it, so nothing observable differs.
- The conversion of a negative `nodesLimit` to the engine's unsigned node limit: the node budget is passed to the engine parameter as an `int`.
- The score subtraction in `std::abs(rootMoves[0].score - rootMoves[1].score)` is done in unbounded integers. Engine scores are taken as unbounded integers, and an `int` overflow on extreme values is not modelled.
- Datagen.GameCount: `for (int g = 1; g <= gamesCount; ++g)` (line 45) overflows `g` after game 2^31-1 when `gamesCount` is INT_MAX. That value can be reached, because `games 99999999999` is clamped to INT_MAX (`DatagenOptions.ReadWord`). The source's behaviour after that game is undefined, while the model plays exactly INT_MAX games and stops.
- Datagen.BinaryFile: the stream's buffer is not modelled. `flushed` counts only what an explicit flush, or the close when `start` returns, is known to have handed to the operating system. Bytes a full buffer writes out earlier are not tracked, and neither are I/O errors.
- Datagen.BinaryFile.Tellp: models `tellp()` as the file size. This is right for a stream opened in append mode that is only written at its end. A failed stream (`tellp() == -1`) and I/O errors are not modelled.
- In `preprocess_pgn.py`: reading the PGN file (lines 6-7); splitting it into games with the `findall` at line 10, whose result is the input `games` of `ExtractFens`; the unused `fens` list (5); the count printed at line 12; and the hard-coded file names at line 30.
- PgnCleanup: Python strings are sequences of code points, and so are Dafny's `string`s. No encoding or decoding of the file is modelled, and newlines are taken as already translated to `'\n'`.
- PgnCleanup.NoMoveNumberLeft: holds after the move-number pass only. The comment pass can join a digit and a dot again (`"1{c}. e4"` cleans to `"1. e4"`), so the cleaned line itself may still contain a move number.
- Text.IsDigit: `\d` is taken as the ASCII digits `0`-`9`. Python's `\d` on a `str` pattern also matches the other Unicode decimal digits, which PGN movetext does not use.
