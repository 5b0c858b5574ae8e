/** The move-text cleanup of `extract_fens`: each game's movetext loses its
    move numbers (`re.sub(r'\d+\.', '', g)`) and its brace comments
    (`re.sub(r'\{.*?\}', '', moves)`), has its newlines turned into spaces and
    is stripped; every non-empty result becomes one line of the book file. */
module PgnCleanup {
  import opened Text

  // ------------------------------------------------------------ characters

  /** Python's `str.isspace()`: what `str.strip()` removes. */
  predicate IsSpace(c: char) {
    '\t' <= c <= '\r' || '\U{1C}' <= c <= '\U{1F}' || c == ' ' || c == '\U{85}' || c == '\U{A0}'
    || c == '\U{1680}' || '\U{2000}' <= c <= '\U{200A}' || c == '\U{2028}' || c == '\U{2029}'
    || c == '\U{202F}' || c == '\U{205F}' || c == '\U{3000}'
  }

  // ------------------------------------------------------------ the two patterns

  /** A text matched by `\d+\.`: one or more digits, then a dot. */
  ghost predicate NumberToken(t: string) {
    |t| >= 2 && t[|t| - 1] == '.' && forall i :: 0 <= i < |t| - 1 ==> IsDigit(t[i])
  }

  /** A text matched by `\{.*?\}` without `re.DOTALL`: braces around anything
      but a newline. */
  ghost predicate CommentToken(t: string) {
    |t| >= 2 && t[0] == '{' && t[|t| - 1] == '}' && forall i :: 1 <= i < |t| - 1 ==> t[i] != '\n'
  }

  /** The length of the part of `s` before its first `}` or newline. */
  function CommentBody(s: string): (n: nat)
    ensures n <= |s|
    ensures forall i :: 0 <= i < n ==> s[i] != '}' && s[i] != '\n'
    ensures n < |s| ==> s[n] == '}' || s[n] == '\n'
  {
    if s == [] || s[0] == '}' || s[0] == '\n' then 0 else 1 + CommentBody(s[1..])
  }

  datatype Pattern = MoveNumber | Comment

  /** The length of the match of `p` at the front of `s`, 0 when there is none:
      `\d+` takes the whole digit run (giving digits back cannot help, since the
      next character would then be a digit and not the dot), and the lazy `.*?`
      stops at the first `}`, failing at a newline. */
  function MatchAt(p: Pattern, s: string): (n: nat)
    ensures n <= |s|
  {
    match p
    case MoveNumber =>
      var d := DigitRun(s);
      if 0 < d < |s| && s[d] == '.' then d + 1 else 0
    case Comment =>
      if s == [] || s[0] != '{' then 0
      else
        var b := 1 + CommentBody(s[1..]);
        if b < |s| && s[b] == '}' then b + 1 else 0
  }

  /** `\d+\.` matches at the front of `s` exactly when some prefix of `s` is a
      move number, and then the match is that (only) prefix. */
  lemma MoveNumberMatch(s: string)
    ensures MatchAt(MoveNumber, s) > 0 ==> NumberToken(s[..MatchAt(MoveNumber, s)])
    ensures forall n :: 0 < n <= |s| && NumberToken(s[..n]) ==> MatchAt(MoveNumber, s) == n
  {
    forall n | 0 < n <= |s| && NumberToken(s[..n])
      ensures MatchAt(MoveNumber, s) == n
    {
      assert s[n - 1] == '.' by {
        assert s[..n][n - 1] == s[n - 1];
      }
      forall i | 0 <= i < n - 1
        ensures IsDigit(s[i])
      {
        assert s[..n][i] == s[i];
      }
    }
  }

  /** `\{.*?\}` matches at the front of `s` exactly when some prefix of `s` is a
      one-line comment, and then the match is the shortest such prefix. */
  lemma CommentMatch(s: string)
    ensures MatchAt(Comment, s) > 0 ==> CommentToken(s[..MatchAt(Comment, s)])
    ensures forall n :: 0 < n <= |s| && CommentToken(s[..n]) ==> 0 < MatchAt(Comment, s) <= n
  {
    if s != [] && s[0] == '{' {
      var rest := s[1..];
      var b := CommentBody(rest);
      forall n | 0 < n <= |s| && CommentToken(s[..n])
        ensures 0 < MatchAt(Comment, s) <= n
      {
        assert rest[n - 2] == '}' by {
          assert s[..n][n - 1] == s[n - 1] == rest[n - 2];
        }
        forall i | 0 <= i < n - 2
          ensures rest[i] != '\n'
        {
          assert s[..n][i + 1] == s[i + 1] == rest[i];
        }
      }
    }
  }

  // ------------------------------------------------------------ re.sub

  /** `re.sub(p, '', s)`: scanning from the left, every match is deleted and
      the scan resumes after it; every other character is kept. */
  function Sub(p: Pattern, s: string): (r: string)
    ensures |r| <= |s|
    decreases |s|
  {
    if s == [] then []
    else
      var n := MatchAt(p, s);
      if n > 0 then Sub(p, s[n..]) else [s[0]] + Sub(p, s[1..])
  }

  /** A text with no match at its front keeps its first character. */
  lemma SubKeepsFirst(p: Pattern, s: string)
    requires s != [] && MatchAt(p, s) == 0
    ensures Sub(p, s) != [] && Sub(p, s)[0] == s[0]
  {
  }

  /** After removing move numbers no digit is followed by a dot. */
  lemma {:induction false} NoMoveNumberLeft(s: string)
    ensures forall i :: 0 <= i < |Sub(MoveNumber, s)| - 1 && IsDigit(Sub(MoveNumber, s)[i]) ==>
      Sub(MoveNumber, s)[i + 1] != '.'
    decreases |s|
  {
    if s != [] {
      var n := MatchAt(MoveNumber, s);
      if n > 0 {
        NoMoveNumberLeft(s[n..]);
        assert Sub(MoveNumber, s) == Sub(MoveNumber, s[n..]);
      } else {
        var rest := s[1..];
        NoMoveNumberLeft(rest);
        var r := Sub(MoveNumber, s);
        assert r == [s[0]] + Sub(MoveNumber, rest);
        if IsDigit(s[0]) && |Sub(MoveNumber, rest)| > 0 {
          // The digit was kept, so its run does not end in a dot, and the
          // next kept character is either the run's next digit or what
          // follows the run.
          var d := DigitRun(s);
          assert DigitRun(rest) == d - 1;
          assert rest != [];
          assert MatchAt(MoveNumber, rest) == 0;
          SubKeepsFirst(MoveNumber, rest);
          assert r[1] == rest[0] == s[1];
        }
      }
    }
  }

  /** Text without a dot has no move number to remove. */
  lemma {:induction false} NoDotKept(s: string)
    requires forall i :: 0 <= i < |s| ==> s[i] != '.'
    ensures Sub(MoveNumber, s) == s
    decreases |s|
  {
    if s != [] {
      assert MatchAt(MoveNumber, s) == 0;
      NoDotKept(s[1..]);
    }
  }

  /** Text without a digit has no move number to remove. */
  lemma {:induction false} NoDigitKept(s: string)
    requires forall i :: 0 <= i < |s| ==> !IsDigit(s[i])
    ensures Sub(MoveNumber, s) == s
    decreases |s|
  {
    if s != [] {
      assert MatchAt(MoveNumber, s) == 0;
      NoDigitKept(s[1..]);
    }
  }

  /** Text without `{` has no comment to remove. */
  lemma {:induction false} NoBraceKept(s: string)
    requires forall i :: 0 <= i < |s| ==> s[i] != '{'
    ensures Sub(Comment, s) == s
    decreases |s|
  {
    if s != [] {
      assert MatchAt(Comment, s) == 0;
      NoBraceKept(s[1..]);
    }
  }

  /** One kept step of `re.sub`: when nothing matches at the front of `x + s`,
      the first character of `x` is kept and the scan goes on after it. */
  lemma KeptStep(p: Pattern, x: string, s: string)
    requires x != [] && MatchAt(p, x + s) == 0
    requires Sub(p, x[1..] + s) == x[1..] + Sub(p, s)
    ensures Sub(p, x + s) == x + Sub(p, s)
  {
    TailOfAppend(x, s);
    ConsAppend(x, Sub(p, s));
  }

  lemma TailOfAppend(x: string, s: string)
    requires x != []
    ensures (x + s)[0] == x[0] && (x + s)[1..] == x[1..] + s
  {
  }

  lemma ConsAppend(x: string, y: string)
    requires x != []
    ensures [x[0]] + (x[1..] + y) == x + y
  {
    assert [x[0]] + x[1..] == x;
  }

  /** Text without `{` in front of `s` is kept, and `s` is cleaned as if it
      stood alone: no comment match starts in the prefix. */
  lemma {:induction false} CommentPrefixKept(x: string, s: string)
    requires forall i :: 0 <= i < |x| ==> x[i] != '{'
    ensures Sub(Comment, x + s) == x + Sub(Comment, s)
    decreases |x|
  {
    if x != [] {
      assert (x + s)[0] == x[0];
      CommentPrefixKept(x[1..], s);
      KeptStep(Comment, x, s);
    } else {
      assert x + s == s;
    }
  }

  /** `c` is a one-line comment: braces around text without `}` or a newline,
      exactly what the lazy `\{.*?\}` matches from a `{`. */
  predicate OneLineComment(c: string) {
    |c| >= 2 && c[0] == '{' && c[|c| - 1] == '}'
    && forall i :: 0 < i < |c| - 1 ==> c[i] != '}' && c[i] != '\n'
  }

  /** The comment body of `u` ends at its first `}` or newline, at `k`. */
  lemma {:induction false} CommentBodyAt(u: string, k: nat)
    requires k < |u| && (u[k] == '}' || u[k] == '\n')
    requires forall i :: 0 <= i < k ==> u[i] != '}' && u[i] != '\n'
    ensures CommentBody(u) == k
    decreases k
  {
    if k > 0 {
      CommentBodyAt(u[1..], k - 1);
    }
  }

  /** A one-line comment at the front is matched exactly. */
  lemma OneLineMatch(c: string, after: string)
    requires OneLineComment(c)
    ensures MatchAt(Comment, c + after) == |c|
  {
    var s := c + after;
    var u := s[1..];
    assert forall i :: 0 <= i < |c| - 1 ==> u[i] == c[i + 1];
    CommentBodyAt(u, |c| - 2);
  }

  /** A comment on one line is removed together with its braces, wherever it
      stands in the text. */
  lemma OneLineCommentRemoved(x: string, c: string, after: string)
    requires forall i :: 0 <= i < |x| ==> x[i] != '{'
    requires OneLineComment(c)
    ensures Sub(Comment, x + (c + after)) == x + Sub(Comment, after)
  {
    assert Sub(Comment, c + after) == Sub(Comment, after) by {
      OneLineMatch(c, after);
      assert (c + after)[|c|..] == after;
    }
    CommentPrefixKept(x, c + after);
  }

  /** A `{` whose first `}` comes after a newline starts no match. */
  lemma MultiLineNoMatch(c: string, nl: nat, after: string)
    requires |c| >= 2 && c[0] == '{' && 0 < nl < |c| - 1 && c[nl] == '\n'
    requires forall i :: 0 < i < |c| - 1 ==> c[i] != '{' && c[i] != '}'
    ensures MatchAt(Comment, c + after) == 0
  {
    var s := c + after;
    var u := s[1..];
    var k :| 0 <= k < nl && u[k] == '\n' && forall i :: 0 <= i < k ==> u[i] != '}' && u[i] != '\n'
      by { FirstNewline(c, nl, u); }
    CommentBodyAt(u, k);
    assert s[1 + k] == u[k];
  }

  /** The first newline of `u`, which agrees with `c` after its `{`, comes no
      later than `c`'s newline at `nl` and after no `}`. */
  lemma {:induction false} FirstNewline(c: string, nl: nat, u: string)
    requires 0 < nl < |c| - 1 && c[nl] == '\n' && |u| >= |c| - 1
    requires forall i :: 0 <= i < |c| - 1 ==> u[i] == c[i + 1]
    requires forall i :: 0 < i < |c| - 1 ==> c[i] != '}'
    ensures exists k :: 0 <= k < nl && u[k] == '\n' && forall i :: 0 <= i < k ==> u[i] != '}' && u[i] != '\n'
    decreases nl
  {
    if exists j :: 0 < j < nl && c[j] == '\n' {
      var j :| 0 < j < nl && c[j] == '\n';
      FirstNewline(c, j, u);
    } else {
      assert u[nl - 1] == c[nl];
      forall i | 0 <= i < nl - 1
        ensures u[i] != '}' && u[i] != '\n'
      {
        assert u[i] == c[i + 1];
      }
    }
  }

  /** A comment that spans lines is not a match, so it is kept whole, wherever
      it stands in the text. */
  lemma MultiLineCommentKept(x: string, c: string, nl: nat, after: string)
    requires forall i :: 0 <= i < |x| ==> x[i] != '{'
    requires |c| >= 2 && c[0] == '{' && c[|c| - 1] == '}' && 0 < nl < |c| - 1 && c[nl] == '\n'
    requires forall i :: 0 < i < |c| - 1 ==> c[i] != '{' && c[i] != '}'
    ensures Sub(Comment, x + (c + after)) == x + (c + Sub(Comment, after))
  {
    assert Sub(Comment, c + after) == c + Sub(Comment, after) by {
      MultiLineNoMatch(c, nl, after);
      CommentPrefixKept(c[1..], after);
      KeptStep(Comment, c, after);
    }
    CommentPrefixKept(x, c + after);
  }

  /** `e4 {good} e5` loses its comment; `e4 {a` newline `b} e5` keeps it. */
  lemma CommentExamples()
    ensures Sub(Comment, "e4 " + ("{good}" + " e5")) == "e4 " + " e5"
    ensures Sub(Comment, "e4 " + ("{a\nb}" + " e5")) == "e4 " + ("{a\nb}" + " e5")
  {
    assert Sub(Comment, " e5") == " e5" by {
      NoBraceKept(" e5");
    }
    OneLineCommentRemoved("e4 ", "{good}", " e5");
    MultiLineCommentKept("e4 ", "{a\nb}", 2, " e5");
  }

  /** The first `}` or newline of `t`, if any, is a newline: a `{` put in front
      of `t` starts no comment. */
  predicate LineOpen(t: string) {
    var c := CommentBody(t);
    c == |t| || t[c] == '\n'
  }

  /** Removing comments keeps a text line-open: a comment match is itself
      closed by a `}` on its line, so none starts before the first newline. */
  lemma {:induction false} LineOpenKept(t: string)
    requires LineOpen(t)
    ensures LineOpen(Sub(Comment, t))
    decreases |t|
  {
    if t != [] {
      NoMatchWhenOpen(t);
      var r := Sub(Comment, t);
      assert r == [t[0]] + Sub(Comment, t[1..]);
      if t[0] != '\n' {
        LineOpenTail(t);
        LineOpenKept(t[1..]);
        assert r[1..] == Sub(Comment, t[1..]);
        LineOpenCons(r);
      }
    }
  }

  /** A line-open text starts no comment match. */
  lemma NoMatchWhenOpen(t: string)
    requires t != [] && LineOpen(t)
    ensures MatchAt(Comment, t) == 0
  {
    if t[0] == '{' {
      var c := CommentBody(t[1..]);
      assert CommentBody(t) == 1 + c;
      if c < |t[1..]| {
        assert t[1 + c] == t[1..][c];
      }
    }
  }

  /** Dropping a first character other than a newline keeps a text line-open. */
  lemma LineOpenTail(t: string)
    requires t != [] && LineOpen(t) && t[0] != '\n'
    ensures LineOpen(t[1..])
  {
    var c := CommentBody(t[1..]);
    assert CommentBody(t) == 1 + c;
    if c < |t[1..]| {
      assert t[1 + c] == t[1..][c];
    }
  }

  /** Putting a character other than a newline or `}` in front of a line-open
      text keeps it line-open. */
  lemma LineOpenCons(r: string)
    requires r != [] && r[0] != '\n' && r[0] != '}' && LineOpen(r[1..])
    ensures LineOpen(r)
  {
    var c := CommentBody(r[1..]);
    assert CommentBody(r) == 1 + c;
    if c < |r[1..]| {
      assert r[1 + c] == r[1..][c];
    }
  }

  /** After removing comments no one-line comment is left: the pass does not
      join the text around a removed comment into a new one. */
  lemma {:induction false} NoCommentLeft(s: string)
    ensures Unmatched(Comment, Sub(Comment, s))
    decreases |s|
  {
    if s != [] {
      var n := MatchAt(Comment, s);
      if n > 0 {
        assert Sub(Comment, s) == Sub(Comment, s[n..]);
        NoCommentLeft(s[n..]);
      } else {
        var rest := Sub(Comment, s[1..]);
        var r := Sub(Comment, s);
        assert r == [s[0]] + rest;
        NoCommentLeft(s[1..]);
        if s[0] == '{' {
          var c := CommentBody(s[1..]);
          if c < |s[1..]| {
            assert s[1..][c] == s[1 + c];
          }
          LineOpenKept(s[1..]);
          assert r[1..] == rest;
          if rest != [] {
            NoMatchWhenOpen(rest);
          }
          OpenBrace(rest);
        }
        forall i | 1 <= i <= |r|
          ensures MatchAt(Comment, r[i..]) == 0
        {
          assert r[i..] == rest[i - 1..];
        }
        assert r[0..] == r;
      }
    }
  }

  /** A `{` in front of a line-open text starts no comment match. */
  lemma OpenBrace(t: string)
    requires LineOpen(t)
    ensures MatchAt(Comment, ['{'] + t) == 0
  {
    assert (['{'] + t)[1..] == t;
    var c := CommentBody(t);
    if c < |t| {
      assert (['{'] + t)[1 + c] == t[c];
    }
  }

  /** `p` matches nowhere in `s`. */
  predicate Unmatched(p: Pattern, s: string) {
    forall i :: 0 <= i <= |s| ==> MatchAt(p, s[i..]) == 0
  }

  /** A text in which `p` matches nowhere is left as it is. */
  lemma {:induction false} NoMatchKept(p: Pattern, s: string)
    requires Unmatched(p, s)
    ensures Sub(p, s) == s
    decreases |s|
  {
    if s != [] {
      assert s[0..] == s;
      forall i | 0 <= i <= |s[1..]|
        ensures MatchAt(p, s[1..][i..]) == 0
      {
        assert s[1..][i..] == s[i + 1..];
      }
      NoMatchKept(p, s[1..]);
    }
  }

  /** Removing comments a second time changes nothing. */
  lemma CommentPassIdempotent(s: string)
    ensures Sub(Comment, Sub(Comment, s)) == Sub(Comment, s)
  {
    NoCommentLeft(s);
    NoMatchKept(Comment, Sub(Comment, s));
  }

  /** Removing move numbers a second time changes nothing. */
  lemma MoveNumberPassIdempotent(s: string)
    ensures Sub(MoveNumber, Sub(MoveNumber, s)) == Sub(MoveNumber, s)
  {
    var r := Sub(MoveNumber, s);
    NoMoveNumberLeft(s);
    forall i | 0 <= i <= |r|
      ensures MatchAt(MoveNumber, r[i..]) == 0
    {
      var d := DigitRun(r[i..]);
      if 0 < d < |r[i..]| {
        var j := i + d - 1;
        assert IsDigit(r[i..][d - 1]);
        assert r[j] == r[i..][d - 1] && r[j + 1] == r[i..][d];
        assert j < |r| - 1 && IsDigit(r[j]);
        assert r[j + 1] != '.';
        assert r[i..][d] != '.';
      }
    }
    NoMatchKept(MoveNumber, r);
  }

  /** A digit run that stops inside `a` is not lengthened by what follows `a`. */
  lemma {:induction false} DigitRunAppend(a: string, b: string)
    requires DigitRun(a) < |a|
    ensures DigitRun(a + b) == DigitRun(a)
    decreases |a|
  {
    if IsDigit(a[0]) {
      assert (a + b)[1..] == a[1..] + b;
      DigitRunAppend(a[1..], b);
    }
  }

  /** A text ending in a non-digit has all its digit runs inside it. */
  lemma LastNotDigit(a: string)
    requires a != [] && !IsDigit(a[|a| - 1])
    ensures DigitRun(a) < |a|
  {
  }

  /** Move numbers are removed piece by piece: a text that is empty or ends in
      a non-digit is cleaned the same whatever follows it. */
  lemma {:induction false} SubMoveNumberAppend(a: string, b: string)
    requires a == [] || !IsDigit(a[|a| - 1])
    ensures Sub(MoveNumber, a + b) == Sub(MoveNumber, a) + Sub(MoveNumber, b)
    decreases |a|
  {
    if a == [] {
      assert a + b == b;
    } else {
      LastNotDigit(a);
      DigitRunAppend(a, b);
      var n := MatchAt(MoveNumber, a);
      assert MatchAt(MoveNumber, a + b) == n;
      if n > 0 {
        assert (a + b)[n..] == a[n..] + b;
        assert a[n..] == [] || a[n..][|a[n..]| - 1] == a[|a| - 1];
        SubMoveNumberAppend(a[n..], b);
      } else {
        assert (a + b)[1..] == a[1..] + b;
        assert a[1..] == [] || a[1..][|a[1..]| - 1] == a[|a| - 1];
        SubMoveNumberAppend(a[1..], b);
      }
    }
  }

  /** A text without a dot, followed by nothing or by a character that is
      neither a digit nor a dot, is kept whole. */
  lemma {:induction false} NoDotPrefixKept(t: string, b: string)
    requires forall i :: 0 <= i < |t| ==> t[i] != '.'
    requires b == [] || (!IsDigit(b[0]) && b[0] != '.')
    ensures Sub(MoveNumber, t + b) == t + Sub(MoveNumber, b)
    decreases |t|
  {
    if t != [] {
      NoDotNoMatch(t, b);
      NoDotPrefixKept(t[1..], b);
      KeptStep(MoveNumber, t, b);
    } else {
      assert t + b == b;
    }
  }

  /** No move number starts in a text without a dot when what follows it is
      neither a digit nor a dot. */
  lemma NoDotNoMatch(t: string, b: string)
    requires t != [] && forall i :: 0 <= i < |t| ==> t[i] != '.'
    requires b == [] || (!IsDigit(b[0]) && b[0] != '.')
    ensures MatchAt(MoveNumber, t + b) == 0
  {
    var s := t + b;
    var d := DigitRun(s);
    if b != [] {
      assert s[|t|] == b[0];
    }
    assert d <= |t|;
    if d < |t| {
      assert s[d] == t[d];
    } else if d < |s| {
      assert s[d] == b[0];
    }
  }

  /** A result token such as `1-0` or `1/2-1/2` survives the removal of move
      numbers: it holds no dot, and what stands around it is cleaned on its own. */
  lemma ResultTokenKept(a: string, t: string, b: string)
    requires a == [] || !IsDigit(a[|a| - 1])
    requires forall i :: 0 <= i < |t| ==> t[i] != '.'
    requires b == [] || (!IsDigit(b[0]) && b[0] != '.')
    ensures Sub(MoveNumber, a + (t + b)) == Sub(MoveNumber, a) + (t + Sub(MoveNumber, b))
  {
    SubMoveNumberAppend(a, t + b);
    NoDotPrefixKept(t, b);
  }

  // ------------------------------------------------------------ replace and strip

  /** `moves.replace('\n', ' ')`. */
  function ReplaceNewlines(s: string): (r: string)
    ensures |r| == |s|
    ensures forall i :: 0 <= i < |s| ==> r[i] == if s[i] == '\n' then ' ' else s[i]
  {
    seq(|s|, i requires 0 <= i < |s| => if s[i] == '\n' then ' ' else s[i])
  }

  /** `str.lstrip()`: `s` without its leading whitespace. */
  function StripLeft(s: string): string {
    if s != [] && IsSpace(s[0]) then StripLeft(s[1..]) else s
  }

  /** `str.rstrip()`: `s` without its trailing whitespace. */
  function StripRight(s: string): string {
    if s != [] && IsSpace(s[|s| - 1]) then StripRight(s[..|s| - 1]) else s
  }

  /** `str.strip()`. */
  function Strip(s: string): string {
    StripRight(StripLeft(s))
  }

  /** `lstrip` drops a whitespace prefix, and all of it. */
  lemma {:induction false} StripLeftSuffix(s: string)
    ensures var r := StripLeft(s);
      && |r| <= |s| && r == s[|s| - |r|..]
      && (forall i :: 0 <= i < |s| - |r| ==> IsSpace(s[i]))
      && (r != [] ==> !IsSpace(r[0]))
    decreases |s|
  {
    if s != [] && IsSpace(s[0]) {
      StripLeftSuffix(s[1..]);
    }
  }

  /** `rstrip` drops a whitespace suffix, and all of it. */
  lemma {:induction false} StripRightPrefix(s: string)
    ensures var r := StripRight(s);
      && |r| <= |s| && r == s[..|r|]
      && (forall i :: |r| <= i < |s| ==> IsSpace(s[i]))
      && (r != [] ==> !IsSpace(r[|r| - 1]))
    decreases |s|
  {
    if s != [] && IsSpace(s[|s| - 1]) {
      StripRightPrefix(s[..|s| - 1]);
    }
  }

  /** Stripping removes only whitespace from the two ends, and all of it. */
  lemma StripIsMiddle(s: string)
    ensures exists a, b :: (0 <= a <= b <= |s| && Strip(s) == s[a..b]
      && (forall i :: 0 <= i < a ==> IsSpace(s[i]))
      && (forall i :: b <= i < |s| ==> IsSpace(s[i])))
    ensures Strip(s) != [] ==> !IsSpace(Strip(s)[0]) && !IsSpace(Strip(s)[|Strip(s)| - 1])
  {
    var t := StripLeft(s);
    StripLeftSuffix(s);
    var r := StripRight(t);
    StripRightPrefix(t);
    var a := |s| - |t|;
    assert r == s[a..a + |r|];
    forall i | a + |r| <= i < |s|
      ensures IsSpace(s[i])
    {
      assert s[i] == t[i - a];
    }
    if r != [] {
      assert r[0] == t[0];
    }
  }

  /** Stripping text with nothing to strip changes nothing. */
  lemma StripTrimmed(s: string)
    requires s != [] ==> !IsSpace(s[0]) && !IsSpace(s[|s| - 1])
    ensures Strip(s) == s
  {
  }

  // ------------------------------------------------------------ one game

  /** Text holding no newline. */
  predicate OneLine(l: string) {
    forall i :: 0 <= i < |l| ==> l[i] != '\n'
  }

  /** The book line of one game's movetext (lines 23-25). */
  function Clean(g: string): string {
    Strip(ReplaceNewlines(Sub(Comment, Sub(MoveNumber, g))))
  }

  /** A cleaned line holds no newline and neither starts nor ends with whitespace. */
  lemma CleanShape(g: string)
    ensures OneLine(Clean(g))
    ensures Clean(g) != [] ==> !IsSpace(Clean(g)[0]) && !IsSpace(Clean(g)[|Clean(g)| - 1])
  {
    StripIsMiddle(ReplaceNewlines(Sub(Comment, Sub(MoveNumber, g))));
  }

  /** Text with no digit, no `{` and no newline comes out only stripped. */
  lemma PlainTextStripped(g: string)
    requires forall i :: 0 <= i < |g| ==> !IsDigit(g[i]) && g[i] != '{' && g[i] != '\n'
    ensures Clean(g) == Strip(g)
  {
    NoDigitKept(g);
    NoBraceKept(g);
    assert ReplaceNewlines(g) == g;
  }

  // ------------------------------------------------------------ the book file

  /** The cleaned movetext of every game, in game order. */
  function Cleaned(games: seq<string>): (moves: seq<string>)
    ensures |moves| == |games|
  {
    if games == [] then [] else Cleaned(games[..|games| - 1]) + [Clean(games[|games| - 1])]
  }

  /** Cleaning a batch of games cleans each one in place. */
  lemma {:induction false} CleanedAt(games: seq<string>, i: nat)
    requires i < |games|
    ensures Cleaned(games)[i] == Clean(games[i])
    decreases |games|
  {
    if i < |games| - 1 {
      CleanedAt(games[..|games| - 1], i);
    }
  }

  lemma CleanedAppend(games: seq<string>, g: string)
    ensures Cleaned(games + [g]) == Cleaned(games) + [Clean(g)]
  {
    assert (games + [g])[..|games|] == games;
  }

  /** The non-empty ones among `moves`, in order. */
  function NonEmpty(moves: seq<string>): (lines: seq<string>)
    ensures |lines| <= |moves|
    ensures forall l <- lines :: l != [] && l in moves
  {
    if moves == [] then [] else (if moves[0] != [] then [moves[0]] else []) + NonEmpty(moves[1..])
  }

  /** The text written for `moves`: each non-empty one followed by `'\n'`. */
  function Book(moves: seq<string>): string {
    if moves == [] then [] else (if moves[0] != [] then moves[0] + "\n" else []) + Book(moves[1..])
  }

  /** The book lines of the games: one per game whose cleaned movetext is not empty. */
  function Lines(games: seq<string>): seq<string> {
    NonEmpty(Cleaned(games))
  }

  /** What `extract_fens` leaves in the output file. */
  function BookText(games: seq<string>): string {
    Book(Cleaned(games))
  }

  /** Reading a text file back line by line (the last line needs no `'\n'`). */
  function ReadLines(t: string): seq<string>
    decreases |t|
  {
    if t == [] then []
    else
      var n := LineLength(t);
      if n < |t| then [t[..n]] + ReadLines(t[n + 1..]) else [t]
  }

  /** The length of the first line of `t`. */
  function LineLength(t: string): (n: nat)
    ensures n <= |t|
    ensures forall i :: 0 <= i < n ==> t[i] != '\n'
    ensures n < |t| ==> t[n] == '\n'
  {
    if t == [] || t[0] == '\n' then 0 else 1 + LineLength(t[1..])
  }

  lemma {:induction false} LineLengthOf(line: string, rest: string)
    requires OneLine(line)
    ensures LineLength(line + "\n" + rest) == |line|
    decreases |line|
  {
    if line != [] {
      assert (line + "\n" + rest)[1..] == line[1..] + "\n" + rest;
      LineLengthOf(line[1..], rest);
    }
  }

  /** Reading back the text written for one-line strings gives the non-empty ones. */
  lemma {:induction false} ReadWritten(moves: seq<string>)
    requires forall l <- moves :: OneLine(l)
    ensures ReadLines(Book(moves)) == NonEmpty(moves)
    decreases |moves|
  {
    if moves != [] {
      ReadWritten(moves[1..]);
      var l := moves[0];
      var rest := Book(moves[1..]);
      if l != [] {
        var t := l + "\n" + rest;
        assert Book(moves) == t;
        LineLengthOf(l, rest);
        assert t[..|l|] == l;
        assert t[|l| + 1..] == rest;
      } else {
        assert Book(moves) == rest;
        assert NonEmpty(moves) == NonEmpty(moves[1..]);
      }
    }
  }

  /** Reading the book back gives exactly its lines, one per game with
      non-empty cleaned movetext, in game order. */
  lemma ReadBook(games: seq<string>)
    ensures ReadLines(BookText(games)) == Lines(games)
  {
    forall l <- Cleaned(games)
      ensures OneLine(l)
    {
      var i :| 0 <= i < |games| && Cleaned(games)[i] == l;
      CleanedAt(games, i);
      CleanShape(games[i]);
    }
    ReadWritten(Cleaned(games));
  }

  /** Every book line is non-empty, holds no newline and starts and ends with
      a non-space character. */
  lemma LinesClean(games: seq<string>)
    ensures forall l <- Lines(games) :: (l != [] && OneLine(l) && !IsSpace(l[0]) && !IsSpace(l[|l| - 1]))
  {
    forall l <- Lines(games)
      ensures l != [] && OneLine(l) && !IsSpace(l[0]) && !IsSpace(l[|l| - 1])
    {
      var i :| 0 <= i < |games| && Cleaned(games)[i] == l;
      CleanedAt(games, i);
      CleanShape(games[i]);
    }
  }

  /** The text written for two batches of games is the first batch's then the second's. */
  lemma {:induction false} BookAppend(a: seq<string>, b: seq<string>)
    ensures Book(a + b) == Book(a) + Book(b)
    decreases |a|
  {
    if a != [] {
      assert (a + b)[1..] == a[1..] + b;
      BookAppend(a[1..], b);
    } else {
      assert a + b == b;
    }
  }

  lemma BookOne(l: string)
    ensures Book([l]) == if l != [] then l + "\n" else []
  {
    assert [l][1..] == [];
  }

  /** The output file, opened for writing (so it starts empty). */
  class TextFile {
    var text: string

    constructor Create()
      ensures text == []
    {
      text := [];
    }

    method Write(s: string)
      modifies this
      ensures text == old(text) + s
    {
      text := text + s;
    }
  }

  /** The cleanup of one game's movetext (lines 23-25). */
  method CleanMoves(g: string) returns (moves: string)
    ensures moves == Clean(g)
  {
    moves := Sub(MoveNumber, g);
    moves := Sub(Comment, moves);
    moves := Strip(ReplaceNewlines(moves));
  }

  /** Writes one game's line: the cleaned movetext and a newline, unless it
      is empty (lines 26-27). */
  method WriteLine(out: TextFile, moves: string)
    modifies out
    ensures out.text == old(out.text) + Book([moves])
  {
    BookOne(moves);
    if moves != [] {
      out.Write(moves + "\n");
    }
  }

  /** The book text for one more game is the old text and that game's line. */
  lemma BookStep(games: seq<string>, i: nat)
    requires i < |games|
    ensures Book(Cleaned(games[..i + 1])) == Book(Cleaned(games[..i])) + Book([Clean(games[i])])
  {
    assert games[..i + 1] == games[..i] + [games[i]];
    CleanedAppend(games[..i], games[i]);
    BookAppend(Cleaned(games[..i]), [Clean(games[i])]);
  }

  /** The writing loop of `extract_fens` (lines 20-27). */
  method ExtractFens(games: seq<string>, out: TextFile)
    modifies out
    ensures out.text == old(out.text) + BookText(games)
  {
    for i := 0 to |games|
      invariant out.text == old(out.text) + Book(Cleaned(games[..i]))
    {
      var moves := CleanMoves(games[i]);
      WriteLine(out, moves);
      BookStep(games, i);
    }
    assert games[..|games|] == games;
  }
}
