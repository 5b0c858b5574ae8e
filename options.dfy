/** The option string of `datagen`: whitespace-separated words read with
    `is >> token`; after `nodes` or `games` the next value is read with `is >> int`. */
module DatagenOptions {
  import opened Machine
  import opened Wrappers
  import opened Text

  datatype Options = Options(nodes: int, games: int)

  /** `nodesLimit = 3000`, `gamesCount = 1000` before any word is read. */
  const DEFAULTS: Options := Options(3000, 1000)

  /** The two words the parser acts on; every other word is skipped. */
  datatype Key = Nodes | Games

  function KeyOf(word: string): (k: Option<Key>)
    ensures k == Some(Nodes) <==> word == "nodes"
    ensures k == Some(Games) <==> word == "games"
  {
    if word == "nodes" then Some(Nodes) else if word == "games" then Some(Games) else None
  }

  function With(o: Options, key: Key, v: int): (r: Options)
    ensures key == Nodes ==> r.nodes == v && r.games == o.games
    ensures key == Games ==> r.games == v && r.nodes == o.nodes
  {
    match key
    case Nodes => o.(nodes := v)
    case Games => o.(games := v)
  }

  /** Whitespace in the C locale, as `>>` skips it. */
  predicate IsSpace(c: char) {
    c == ' ' || c == '\t' || c == '\n' || c == '\U{B}' || c == '\U{C}' || c == '\r'
  }

  /** The length of the leading run of non-space characters. */
  function WordLength(s: string): (n: nat)
    ensures n <= |s|
    ensures forall i :: 0 <= i < n ==> !IsSpace(s[i])
    ensures n < |s| ==> IsSpace(s[n])
  {
    if s == [] || IsSpace(s[0]) then 0 else 1 + WordLength(s[1..])
  }

  /** The words `is >> token` reads from `s`, in order. */
  function Words(s: string): (ws: seq<string>)
    ensures forall w <- ws :: w != [] && forall c <- w :: !IsSpace(c)
    decreases |s|
  {
    if s == [] then []
    else if IsSpace(s[0]) then Words(s[1..])
    else
      var n := WordLength(s);
      [s[..n]] + Words(s[n..])
  }

  predicate AllDigits(d: string) {
    forall c <- d :: IsDigit(c)
  }

  /** The value of a string of decimal digits, most significant first. */
  function DecimalValue(d: string): (v: nat)
    requires AllDigits(d)
  {
    if d == [] then 0
    else 10 * DecimalValue(d[..|d| - 1]) + DigitValue(d[|d| - 1])
  }

  function DigitValue(c: char): (v: nat)
    requires IsDigit(c)
    ensures v < 10
  {
    c as int - '0' as int
  }

  /** What `is >> v` makes of the word it starts on. */
  datatype WordRead =
    | BadNumber(value: int)              // no digits (value 0) or out of range (clamped): the stream fails
    | Number(value: int, left: string)   // digits read; `left` is what follows them in the word

  /** `is >> v` for an `int v` (libstdc++, C++11 and later): an optional sign, then
      the longest run of digits, converted with overflow clamped to the int range. */
  function ReadWord(w: string): (r: WordRead)
    ensures r.Number? ==> INT_MIN <= r.value <= INT_MAX && |r.left| < |w|
    ensures r.BadNumber? ==> r.value in {0, INT_MIN, INT_MAX}
  {
    var signed := |w| > 0 && (w[0] == '+' || w[0] == '-');
    var body := if signed then w[1..] else w;
    var n := DigitRun(body);
    if n == 0 then BadNumber(0)
    else
      var magnitude: int := DecimalValue(body[..n]);
      var v := if signed && w[0] == '-' then -magnitude else magnitude;
      if v < INT_MIN then BadNumber(INT_MIN)
      else if v > INT_MAX then BadNumber(INT_MAX)
      else Number(v, body[n..])
  }

  /** What one `is >> int` does to the stream of remaining words. */
  datatype IntRead =
    | NoInput                               // only whitespace left: the variable keeps its value, the stream fails
    | Failed(value: int)                    // the value is stored and the stream fails
    | Read(value: int, rest: seq<string>)   // the value is stored; the rest of its word stays in the stream

  function ExtractInt(ws: seq<string>): (r: IntRead)
    ensures r.Read? ==> |r.rest| <= |ws|
    ensures r.NoInput? <==> ws == []
  {
    if ws == [] then NoInput
    else
      match ReadWord(ws[0])
      case BadNumber(v) => Failed(v)
      case Number(v, left) => Read(v, if left == [] then ws[1..] else [left] + ws[1..])
  }

  /** Where the word loop stops: `exhausted` when `is >> token` found no more
      words, otherwise a value read failed and ended the loop. */
  datatype Parsed = Parsed(options: Options, exhausted: bool)

  /** The loop `while (is >> token) { if (token == "nodes") is >> nodesLimit;
      if (token == "games") is >> gamesCount; }` over the remaining words `ws`. */
  function ParseFrom(ws: seq<string>, o: Options): Parsed
    decreases |ws|
  {
    if ws == [] then Parsed(o, true)
    else
      match KeyOf(ws[0])
      case None => ParseFrom(ws[1..], o)
      case Some(key) =>
        match ExtractInt(ws[1..])
        case NoInput => Parsed(o, false)
        case Failed(v) => Parsed(With(o, key, v), false)
        case Read(v, rest) => ParseFrom(rest, With(o, key, v))
  }

  function ParseOptions(s: string): Options {
    ParseFrom(Words(s), DEFAULTS).options
  }

  /** The option loop of `Datagen::start`, reading the words of `options` one at a time. */
  method ParseOptionString(options: string) returns (nodesLimit: int, gamesCount: int)
    ensures Options(nodesLimit, gamesCount) == ParseOptions(options)
  {
    nodesLimit, gamesCount := 3000, 1000;
    var stream := Words(options);
    var good := true;
    while good && stream != []
      invariant ParseFrom(Words(options), DEFAULTS) ==
        if good then ParseFrom(stream, Options(nodesLimit, gamesCount))
        else Parsed(Options(nodesLimit, gamesCount), false)
      decreases |stream|
    {
      var token := stream[0];
      stream := stream[1..];
      if token == "nodes" || token == "games" {
        var read := ExtractInt(stream);
        match read {
          case NoInput =>
            good := false;
          case Failed(v) =>
            if token == "nodes" { nodesLimit := v; } else { gamesCount := v; }
            good := false;
          case Read(v, rest) =>
            if token == "nodes" { nodesLimit := v; } else { gamesCount := v; }
            stream := rest;
        }
      }
    }
  }

  /** Words that are neither `nodes` nor `games` (among them `book`, `out` and
      their paths) change nothing. */
  lemma {:induction false} OtherWordsSkipped(ws: seq<string>, o: Options)
    requires forall w <- ws :: KeyOf(w).None?
    ensures ParseFrom(ws, o) == Parsed(o, true)
  {
    if ws != [] {
      OtherWordsSkipped(ws[1..], o);
    }
  }

  /** `nodes N` or `games N` with N a plain decimal number in range sets that option. */
  lemma KeyValueSets(key: string, d: string, ws: seq<string>, o: Options)
    requires KeyOf(key).Some?
    requires d != [] && AllDigits(d) && DecimalValue(d) <= INT_MAX
    ensures ParseFrom([key, d] + ws, o) == ParseFrom(ws, With(o, KeyOf(key).value, DecimalValue(d)))
  {
    assert ([key, d] + ws)[1..] == [d] + ws;
    assert DigitRun(d) == |d| by { DigitRunAll(d); }
    assert d[..|d|] == d;
  }

  lemma {:induction false} DigitRunAll(d: string)
    requires AllDigits(d)
    ensures DigitRun(d) == |d|
  {
    if d != [] {
      DigitRunAll(d[1..]);
    }
  }

  /** A value that is not a number (no digits after an optional sign) stores 0
      and ends all further parsing, whatever follows. */
  lemma BadValueStops(key: string, w: string, ws: seq<string>, o: Options)
    requires KeyOf(key).Some?
    requires ReadWord(w).BadNumber? && ReadWord(w).value == 0
    ensures ParseFrom([key, w] + ws, o) == Parsed(With(o, KeyOf(key).value, 0), false)
  {
    assert ([key, w] + ws)[1..] == [w] + ws;
  }

  /** `nodes` or `games` as the last word leaves the option unchanged. */
  lemma KeyAtEndKeeps(ws: seq<string>, key: string, o: Options)
    requires KeyOf(key).Some?
    requires ParseFrom(ws, o).exhausted
    ensures ParseFrom(ws + [key], o) == Parsed(ParseFrom(ws, o).options, false)
  {
    ParseAppend(ws, [key], o);
  }

  /** Reading stops only at the end: parsing `ws1 + ws2` is parsing `ws2` from
      wherever `ws1` left the options, provided `ws1` was read to its end. */
  lemma {:induction false} ParseAppend(ws1: seq<string>, ws2: seq<string>, o: Options)
    requires ParseFrom(ws1, o).exhausted
    ensures ParseFrom(ws1 + ws2, o) == ParseFrom(ws2, ParseFrom(ws1, o).options)
    decreases |ws1|
  {
    if ws1 != [] {
      assert (ws1 + ws2)[0] == ws1[0];
      assert (ws1 + ws2)[1..] == ws1[1..] + ws2;
      var key := KeyOf(ws1[0]);
      if key.None? {
        assert ParseFrom(ws1, o) == ParseFrom(ws1[1..], o);
        ParseAppend(ws1[1..], ws2, o);
        assert ParseFrom(ws1 + ws2, o) == ParseFrom(ws1[1..] + ws2, o);
      } else {
        var read := ExtractInt(ws1[1..]);
        assert read.Read?;
        var o' := With(o, key.value, read.value);
        assert ParseFrom(ws1, o) == ParseFrom(read.rest, o');
        ExtractAppend(ws1[1..], ws2);
        assert ParseFrom(ws1 + ws2, o) == ParseFrom(read.rest + ws2, o');
        ParseAppend(read.rest, ws2, o');
      }
    } else {
      assert ws1 + ws2 == ws2;
    }
  }

  /** An integer read that finds a word in `ws1` reads the same from `ws1 + ws2`. */
  lemma ExtractAppend(ws1: seq<string>, ws2: seq<string>)
    requires ws1 != []
    ensures ExtractInt(ws1).Failed? ==> ExtractInt(ws1 + ws2) == ExtractInt(ws1)
    ensures ExtractInt(ws1).Read? ==>
      ExtractInt(ws1 + ws2) == Read(ExtractInt(ws1).value, ExtractInt(ws1).rest + ws2)
  {
    assert (ws1 + ws2)[0] == ws1[0];
    assert (ws1 + ws2)[1..] == ws1[1..] + ws2;
    var r := ReadWord(ws1[0]);
    if r.Number? && r.left != [] {
      assert [r.left] + ws1[1..] + ws2 == [r.left] + (ws1[1..] + ws2);
    }
  }

  /** So the last `nodes N` (or `games N`) wins over every earlier one. */
  lemma LastOccurrenceWins(ws: seq<string>, key: string, d: string, o: Options)
    requires ParseFrom(ws, o).exhausted
    requires KeyOf(key).Some?
    requires d != [] && AllDigits(d) && DecimalValue(d) <= INT_MAX
    ensures ParseFrom(ws + [key, d], o) ==
      Parsed(With(ParseFrom(ws, o).options, KeyOf(key).value, DecimalValue(d)), true)
  {
    ParseAppend(ws, [key, d], o);
    KeyValueSets(key, d, [], ParseFrom(ws, o).options);
    assert [key, d] + [] == [key, d];
  }

  /** At the level of the option string: a space between two pieces splits the words. */
  lemma {:induction false} WordsAppend(a: string, b: string)
    ensures Words(a + " " + b) == Words(a) + Words(b)
    decreases |a|
  {
    var s := a + " " + b;
    if a == [] {
      assert s[1..] == b;
    } else if IsSpace(a[0]) {
      assert s[1..] == a[1..] + " " + b;
      WordsAppend(a[1..], b);
    } else {
      var n := WordLength(a);
      WordLengthAppend(a, " " + b);
      assert s == a + (" " + b);
      assert s[..n] == a[..n];
      assert s[n..] == a[n..] + " " + b;
      WordsAppend(a[n..], b);
    }
  }

  lemma {:induction false} WordLengthAppend(a: string, t: string)
    requires t != [] && IsSpace(t[0])
    ensures WordLength(a + t) == WordLength(a)
  {
    if a != [] && !IsSpace(a[0]) {
      assert (a + t)[1..] == a[1..] + t;
      WordLengthAppend(a[1..], t);
    }
  }
}
