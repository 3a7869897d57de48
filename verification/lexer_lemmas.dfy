/** Properties of the lexer: each matcher finds the longest word of its pattern,
    the first matching pattern wins, the tokens reproduce the text, positions
    follow the text, and failures name the offending character. */
module LexerLemmas {
  import opened Common
  import opened Lexer

  /** The text a token list stands for. */
  function Text(toks: seq<Token>): string {
    if toks == [] then [] else toks[0].value + Text(toks[1..])
  }

  lemma {:induction false} TextAppend(a: seq<Token>, b: seq<Token>)
    ensures Text(a + b) == Text(a) + Text(b)
    decreases |a|
  {
    if a == [] {
      assert a + b == b;
    } else {
      assert (a + b)[1..] == a[1..] + b;
      TextAppend(a[1..], b);
    }
  }

  /** Number of newlines in a text. */
  function Newlines(t: string): nat {
    if t == [] then 0 else (if t[0] == '\n' then 1 else 0) + Newlines(t[1..])
  }

  // ---------------------------------------------------------------------------
  // Position tracking
  // ---------------------------------------------------------------------------

  /** Moving over `a + b` is moving over `a`, then over `b`. */
  lemma {:induction false} AdvanceAppend(p: Position, a: string, b: string)
    ensures Advance(p, a + b) == Advance(Advance(p, a), b)
    decreases |a|
  {
    if a == [] {
      assert a + b == b;
    } else {
      assert (a + b)[1..] == a[1..] + b;
      var q := if a[0] == '\n' then Position(p.line + 1, 1) else Position(p.line, p.column + 1);
      AdvanceAppend(q, a[1..], b);
    }
  }

  /** Closed form of the position update: the line grows by the number of newlines,
      and on a text without newlines the column grows by its length. */
  lemma {:induction false} AdvanceClosedForm(p: Position, t: string)
    ensures Advance(p, t).line == p.line + Newlines(t)
    ensures '\n' !in t ==> Advance(p, t).column == p.column + |t|
    ensures |t| > 0 && t[|t| - 1] == '\n' ==> Advance(p, t).column == 1
    decreases |t|
  {
    if t != [] {
      var q := if t[0] == '\n' then Position(p.line + 1, 1) else Position(p.line, p.column + 1);
      AdvanceClosedForm(q, t[1..]);
      if '\n' !in t {
        assert '\n' !in t[1..];
      }
      if |t| > 1 {
        assert t[1..][|t[1..]| - 1] == t[|t| - 1];
      }
    }
  }

  // ---------------------------------------------------------------------------
  // Matchers against the declarative languages
  // ---------------------------------------------------------------------------

  lemma RunCoversClassPrefix(s: string, i: nat, k: CharClass, m: nat)
    requires i <= m <= |s|
    requires AllIn(k, s[i..m])
    ensures i + RunFrom(s, i, k) >= m
  {
  }

  lemma RunIsClassPrefix(s: string, i: nat, k: CharClass)
    requires i <= |s|
    ensures AllIn(k, s[i..i + RunFrom(s, i, k)])
  {
    var w := s[i..i + RunFrom(s, i, k)];
    forall j | 0 <= j < |w|
      ensures InClass(k, w[j])
    {
      assert w[j] == s[i + j];
    }
  }

  /** Each matcher returns the longest prefix of `s` in its pattern's language,
      and 0 exactly when no non-empty prefix is in it. */
  lemma MatchIsLongestPrefix(p: Pattern, s: string)
    ensures MatchLength(p, s) > 0 ==> InLanguage(p, s[..MatchLength(p, s)])
    ensures forall n :: 0 < n <= |s| && InLanguage(p, s[..n]) ==> n <= MatchLength(p, s)
  {
    var m := MatchLength(p, s);
    match p
    case AnnotationBlock =>
      if m > 0 {
        var c := RunFrom(s, 1, NotCloseBrace);
        RunIsClassPrefix(s, 1, NotCloseBrace);
        assert s[..m][1..|s[..m]| - 1] == s[1..1 + c];
      }
      forall n | 0 < n <= |s| && InLanguage(p, s[..n])
        ensures n <= m
      {
        var w := s[..n];
        assert w[1..|w| - 1] == s[1..n - 1];
        RunCoversClassPrefix(s, 1, NotCloseBrace, n - 1);
        assert s[n - 1] == '}' by {
          assert s[n - 1] == w[|w| - 1];
        }
      }
    case RepeatCount =>
      if m > 0 {
        if s[0] == '%' {
          RunIsClassPrefix(s, 2, Digits);
          assert s[..m][2..] == s[2..m];
        } else {
          RunIsClassPrefix(s, 1, Digits);
          assert s[..m][1..] == s[1..m];
        }
      }
      forall n | 0 < n <= |s| && InLanguage(p, s[..n])
        ensures n <= m
      {
        var w := s[..n];
        if w[0] == 'x' {
          assert w[1..] == s[1..n];
          RunCoversClassPrefix(s, 1, Digits, n);
          assert InClass(Digits, w[1..][0]);
        } else {
          assert w[2..] == s[2..n];
          RunCoversClassPrefix(s, 2, Digits, n);
          assert InClass(Digits, w[2..][0]);
        }
      }
    case ChordText =>
      if m > 0 {
        RunIsClassPrefix(s, 1, ChordChars);
        assert s[..m][1..] == s[1..m];
      }
      forall n | 0 < n <= |s| && InLanguage(p, s[..n])
        ensures n <= m
      {
        var w := s[..n];
        assert w[1..] == s[1..n];
        if !AllIn(ChordChars, w[1..]) {
          assert w[2..] == s[2..n];
          forall j | 0 <= j < |w[1..]|
            ensures InClass(ChordChars, w[1..][j])
          {
            if j > 0 {
              assert w[1..][j] == w[2..][j - 1];
            }
          }
        }
        RunCoversClassPrefix(s, 1, ChordChars, n);
      }
    case Blank =>
      if m > 0 {
        RunIsClassPrefix(s, 0, Blanks);
      }
      forall n | 0 < n <= |s| && InLanguage(p, s[..n])
        ensures n <= m
      {
        assert s[..n] == s[0..n];
        RunCoversClassPrefix(s, 0, Blanks, n);
      }
    case _ =>
      forall n | 0 < n <= |s| && InLanguage(p, s[..n])
        ensures n <= m
      {
      }
  }

  /** The characters each pattern's match can begin with. */
  predicate CanStart(p: Pattern, c: char) {
    match p
    case AnnotationBlock => c == '{'
    case RepeatStartMark => c == '|'
    case RepeatEndMark => c == ':'
    case RepeatCount => c == '%' || c == 'x'
    case RepeatMark => c == '%'
    case BarMark => c == '|'
    case NoChordMark => c == 'N'
    case TupletOpen => c == '('
    case TupletClose => c == ')'
    case ContinuationDot => c == '.'
    case ChordText => IsNoteLetter(c)
    case Blank => IsBlank(c)
    case LineBreak => c == '\n'
  }

  lemma MatchNeedsStart(p: Pattern, s: string)
    ensures MatchLength(p, s) > 0 ==> |s| > 0 && CanStart(p, s[0])
  {
    if MatchLength(p, s) > 0 {
      match p
      case RepeatStartMark => assert s[..2][0] == s[0];
      case RepeatEndMark => assert s[..2][0] == s[0];
      case RepeatMark => assert s[..1][0] == s[0];
      case BarMark => assert s[..1][0] == s[0];
      case NoChordMark => assert s[..4][0] == s[0];
      case TupletOpen => assert s[..1][0] == s[0];
      case TupletClose => assert s[..1][0] == s[0];
      case ContinuationDot => assert s[..1][0] == s[0];
      case LineBreak => assert s[..1][0] == s[0];
      case _ =>
    }
  }

  /** A text whose first character can start no pattern matches no pattern. */
  lemma NoPatternWithoutStarter(s: string)
    requires |s| > 0
    requires forall p: Pattern :: !CanStart(p, s[0])
    ensures FirstMatch(s) == None
  {
    forall j | 0 <= j < |Patterns|
      ensures MatchLength(Patterns[j], s) == 0
    {
      MatchNeedsStart(Patterns[j], s);
    }
  }

  // ---------------------------------------------------------------------------
  // Priority
  // ---------------------------------------------------------------------------

  /** `|:` is a repeat-section start, never a bar followed by something else. */
  lemma RepeatStartBeatsBar(s: string, pos: Position)
    ensures FirstMatch("|:" + s) == Some(1)
    ensures Patterns[1] == RepeatStartMark && MatchLength(RepeatStartMark, "|:" + s) == 2
    ensures Lex("|:" + s, pos).Ok? ==> Lex("|:" + s, pos).value[0] == Token(RepeatStart, "|:", pos.line, pos.column)
  {
    var t := "|:" + s;
    assert MatchLength(Patterns[0], t) == 0;
    assert StartsWith(t, "|:");
    assert t[..2] == "|:";
  }

  /** `%xN` is one repeat-count token, never a bare `%` followed by `xN`. */
  lemma CountBeatsRepeatMark(d: string, s: string, pos: Position)
    requires |d| > 0 && AllIn(Digits, d)
    requires s == [] || !IsDigit(s[0])
    ensures FirstMatch("%x" + d + s) == Some(3)
    ensures Patterns[3] == RepeatCount && MatchLength(RepeatCount, "%x" + d + s) == 2 + |d|
    ensures Lex("%x" + d + s, pos).Ok? ==>
              Lex("%x" + d + s, pos).value[0] == Token(MultiRepeat, "%x" + d, pos.line, pos.column)
  {
    var t := "%x" + d + s;
    RunCoversClassPrefix(t, 2, Digits, 2 + |d|);
    assert t[2..2 + |d|] == d;
    assert |s| > 0 ==> t[2 + |d|] == s[0];
    assert t[..2][0] == '%';
    assert !StartsWith(t, "|:") && !StartsWith(t, ":|");
    assert MatchLength(Patterns[0], t) == 0;
    assert MatchLength(Patterns[3], t) == 2 + |d|;
    assert t[..2 + |d|] == "%x" + d;
  }

  // ---------------------------------------------------------------------------
  // Annotations
  // ---------------------------------------------------------------------------

  /** `{c}` with a non-empty `c` free of `}` becomes exactly three tokens: the open brace,
      the content `c` and the close brace, each at the position reached so far; the rest
      of the text is then scanned from the position moved over `{c}` twice. */
  lemma AnnotationSplits(c: string, rest: string, pos: Position)
    requires |c| > 0 && '}' !in c
    ensures var value := "{" + c + "}";
            var after := Advance(Advance(pos, value), value);
            var p1 := Advance(pos, "{");
            var p2 := Advance(p1, c);
            && (Lex(value + rest, pos).Ok? <==> Lex(rest, after).Ok?)
            && (Lex(value + rest, pos).Ok? ==>
                  Lex(value + rest, pos).value ==
                    [ Token(AnnotationStart, "{", pos.line, pos.column),
                      Token(AnnotationContent, c, p1.line, p1.column),
                      Token(AnnotationEnd, "}", p2.line, p2.column) ] + Lex(rest, after).value)
  {
    var value := "{" + c + "}";
    var t := value + rest;
    assert AllIn(NotCloseBrace, t[1..1 + |c|]) by {
      assert t[1..1 + |c|] == c;
    }
    RunCoversClassPrefix(t, 1, NotCloseBrace, 1 + |c|);
    assert t[1 + |c|] == '}';
    assert RunFrom(t, 1, NotCloseBrace) == |c|;
    assert MatchLength(AnnotationBlock, t) == |c| + 2;
    assert FirstMatch(t) == Some(0);
    assert t[..|c| + 2] == value;
    assert t[|c| + 2..] == rest;
    assert value[1..|value| - 1] == c;
  }

  /** An empty annotation `{}` matches no pattern: the scan fails on its `{`. */
  lemma EmptyAnnotationRejected(rest: string, pos: Position)
    ensures Lex("{}" + rest, pos) == Err(LexError('{', pos.line, pos.column))
  {
    var t := "{}" + rest;
    assert t[0] == '{' && t[1] == '}';
    assert RunFrom(t, 1, NotCloseBrace) == 0;
    forall j | 0 <= j < |Patterns|
      ensures MatchLength(Patterns[j], t) == 0
    {
      MatchNeedsStart(Patterns[j], t);
    }
  }

  // ---------------------------------------------------------------------------
  // Round trip, positions and failures
  // ---------------------------------------------------------------------------

  lemma AnnotationTokensText(value: string, p: Position)
    requires |value| >= 2 && value[0] == '{' && value[|value| - 1] == '}'
    ensures Text(AnnotationTokens(value, p)) == value
  {
    var toks := AnnotationTokens(value, p);
    assert Text(toks[2..]) == "}";
    assert Text(toks[1..]) == value[1..|value| - 1] + "}";
    assert value == "{" + value[1..|value| - 1] + "}";
  }

  /** With whitespace kept, the token values concatenate back to the scanned text. */
  lemma {:induction false} LexRoundTrip(rest: string, pos: Position)
    ensures Lex(rest, pos).Ok? ==> Text(Lex(rest, pos).value) == rest
    decreases |rest|
  {
    if rest != [] && Lex(rest, pos).Ok? {
      var i := FirstMatch(rest).value;
      var n := MatchLength(Patterns[i], rest);
      var value := rest[..n];
      AnnotationTextIsAnnotationPattern(Patterns[i], rest);
      assert rest == value + rest[n..];
      if IsAnnotationText(value) {
        var q := Advance(Advance(pos, value), value);
        LexRoundTrip(rest[n..], q);
        AnnotationTokensText(value, pos);
        TextAppend(AnnotationTokens(value, pos), Lex(rest[n..], q).value);
      } else {
        var q := Advance(pos, value);
        LexRoundTrip(rest[n..], q);
        var tok := Token(KindOf(Patterns[i]), value, pos.line, pos.column);
        TextAppend([tok], Lex(rest[n..], q).value);
      }
    }
  }

  /** Tokenize with whitespace kept is lossless. */
  lemma TokenizeRoundTrip(text: string)
    ensures Tokenize(text, true).Ok? ==> Text(Tokenize(text, true).value) == text
  {
    LexRoundTrip(text, Start);
  }

  /** Every token records the position reached by moving from `pos` over the text of
      the tokens before it. */
  predicate Tracked(toks: seq<Token>, pos: Position) {
    forall i :: 0 <= i < |toks| ==> Position(toks[i].line, toks[i].column) == Advance(pos, Text(toks[..i]))
  }

  lemma TrackedCons(t0: Token, more: seq<Token>, pos: Position)
    requires Position(t0.line, t0.column) == pos
    requires Tracked(more, Advance(pos, t0.value))
    ensures Tracked([t0] + more, pos)
  {
    var toks := [t0] + more;
    var q := Advance(pos, t0.value);
    forall k | 0 <= k < |toks|
      ensures Position(toks[k].line, toks[k].column) == Advance(pos, Text(toks[..k]))
    {
      if k > 0 {
        assert toks[..k] == [t0] + more[..k - 1];
        TextAppend([t0], more[..k - 1]);
        assert Text([t0]) == t0.value by {
          assert [t0][1..] == [];
        }
        AdvanceAppend(pos, t0.value, Text(more[..k - 1]));
        assert toks[k] == more[k - 1];
      } else {
        assert toks[..k] == [];
      }
    }
  }

  /** On text without annotations (no `{`), every token records the position reached
      by moving from the start over the text of the tokens before it. */
  lemma {:induction false} PositionsFollowText(rest: string, pos: Position)
    requires '{' !in rest
    ensures Lex(rest, pos).Ok? ==> Tracked(Lex(rest, pos).value, pos)
    decreases |rest|
  {
    if rest != [] && Lex(rest, pos).Ok? {
      var i := FirstMatch(rest).value;
      var n := MatchLength(Patterns[i], rest);
      var value := rest[..n];
      AnnotationTextIsAnnotationPattern(Patterns[i], rest);
      assert value[0] in rest;
      assert !IsAnnotationText(value);
      var q := Advance(pos, value);
      assert '{' !in rest[n..] by {
        forall j | 0 <= j < |rest[n..]| ensures rest[n..][j] != '{' {
          assert rest[n..][j] == rest[n + j];
        }
      }
      PositionsFollowText(rest[n..], q);
      var t0 := Token(KindOf(Patterns[i]), value, pos.line, pos.column);
      TrackedCons(t0, Lex(rest[n..], q).value, pos);
    }
  }

  /** `e` is a failure at offset `k` of `rest`: the character there, where no pattern
      matches, and (with no `{` before it) the position reached by the text before it. */
  predicate FailsAt(rest: string, pos: Position, e: LexError, k: int) {
    && 0 <= k < |rest| && e.character == rest[k]
    && (forall j :: 0 <= j < |Patterns| ==> MatchLength(Patterns[j], rest[k..]) == 0)
    && ('{' !in rest[..k] ==> Position(e.line, e.column) == Advance(pos, rest[..k]))
  }

  lemma FailsAtShift(rest: string, pos: Position, n: nat, q: Position, e: LexError, k': int)
    requires 0 < n <= |rest|
    requires FailsAt(rest[n..], q, e, k')
    requires rest[0] != '{' ==> q == Advance(pos, rest[..n])
    ensures FailsAt(rest, pos, e, n + k')
  {
    var k := n + k';
    assert rest[k..] == rest[n..][k'..];
    assert rest[..k] == rest[..n] + rest[n..][..k'];
    if '{' !in rest[..k] {
      assert rest[0] == rest[..k][0];
      assert '{' !in rest[n..][..k'] by {
        forall j | 0 <= j < k' ensures rest[n..][..k'][j] != '{' {
          assert rest[n..][..k'][j] == rest[..k][n + j];
        }
      }
      AdvanceAppend(pos, rest[..n], rest[n..][..k']);
    }
  }

  /** A failed scan stops at a character of the text where no pattern matches; on
      text without annotations before it, the error records that character's position. */
  lemma {:induction false} LexErrorLocated(rest: string, pos: Position)
    ensures Lex(rest, pos).Err? ==> exists k :: FailsAt(rest, pos, Lex(rest, pos).error, k)
    decreases |rest|
  {
    if rest != [] && Lex(rest, pos).Err? {
      var e := Lex(rest, pos).error;
      match FirstMatch(rest)
      case None =>
        assert rest[0..] == rest;
        assert FailsAt(rest, pos, e, 0);
      case Some(i) =>
        var n := MatchLength(Patterns[i], rest);
        var value := rest[..n];
        AnnotationTextIsAnnotationPattern(Patterns[i], rest);
        var q := if IsAnnotationText(value) then Advance(Advance(pos, value), value) else Advance(pos, value);
        LexErrorLocated(rest[n..], q);
        assert Lex(rest[n..], q).Err? && Lex(rest[n..], q).error == e;
        var k' :| FailsAt(rest[n..], q, e, k');
        assert value[0] == rest[0];
        FailsAtShift(rest, pos, n, q, e, k');
    }
  }

  /** Pattern `i` is the first to match when its starter is the only one `s[0]` fits. */
  lemma FirstMatchIs(s: string, i: nat)
    requires i < |Patterns| && |s| > 0
    requires MatchLength(Patterns[i], s) > 0
    requires forall j :: 0 <= j < i ==> !CanStart(Patterns[j], s[0])
    ensures FirstMatch(s) == Some(i)
  {
    forall j | 0 <= j < i
      ensures MatchLength(Patterns[j], s) == 0
    {
      MatchNeedsStart(Patterns[j], s);
    }
  }

  /** The chart in the lexer's own error test fails on its first character. */
  lemma InvalidCharacterRejected()
    ensures Tokenize("Invalid @ Character", false) == Err(LexError('I', 1, 1))
  {
    var t := "Invalid @ Character";
    NoPatternWithoutStarter(t);
    assert Lex(t, Start) == Err(LexError('I', 1, 1));
  }

  // ---------------------------------------------------------------------------
  // Chord tokens
  // ---------------------------------------------------------------------------

  /** Every token the scan produces has non-empty text, and the first token's text
      starts with the first character of the text scanned. */
  lemma {:induction false} TokensStartText(rest: string, pos: Position)
    ensures Lex(rest, pos).Ok? ==>
              var toks := Lex(rest, pos).value;
              && (forall i :: 0 <= i < |toks| ==> |toks[i].value| > 0)
              && (|toks| > 0 <==> |rest| > 0)
              && (|toks| > 0 ==> toks[0].value[0] == rest[0])
    decreases |rest|
  {
    if rest != [] && Lex(rest, pos).Ok? {
      var i := FirstMatch(rest).value;
      var n := MatchLength(Patterns[i], rest);
      var value := rest[..n];
      AnnotationTextIsAnnotationPattern(Patterns[i], rest);
      var q := if IsAnnotationText(value) then Advance(Advance(pos, value), value) else Advance(pos, value);
      TokensStartText(rest[n..], q);
      if IsAnnotationText(value) {
        MatchIsLongestPrefix(Patterns[i], rest);
      }
    }
  }

  /** A chord token is a root letter followed by chord characters (so it holds no
      parenthesis), and it is maximal: the next token does not start with a chord character. */
  lemma {:induction false} ChordTokensMaximal(rest: string, pos: Position)
    ensures Lex(rest, pos).Ok? ==>
              var toks := Lex(rest, pos).value;
              forall i :: 0 <= i < |toks| && toks[i].kind == ChordSymbol ==>
                && |toks[i].value| >= 1
                && IsNoteLetter(toks[i].value[0])
                && AllIn(ChordChars, toks[i].value[1..])
                && '(' !in toks[i].value && ')' !in toks[i].value
                && (i + 1 < |toks| ==> |toks[i + 1].value| > 0 && !IsChordChar(toks[i + 1].value[0]))
    decreases |rest|
  {
    if rest != [] && Lex(rest, pos).Ok? {
      var toks := Lex(rest, pos).value;
      var i := FirstMatch(rest).value;
      var n := MatchLength(Patterns[i], rest);
      var value := rest[..n];
      AnnotationTextIsAnnotationPattern(Patterns[i], rest);
      var q := if IsAnnotationText(value) then Advance(Advance(pos, value), value) else Advance(pos, value);
      ChordTokensMaximal(rest[n..], q);
      TokensStartText(rest[n..], q);
      var more := Lex(rest[n..], q).value;
      var head := if IsAnnotationText(value) then AnnotationTokens(value, pos)
                  else [Token(KindOf(Patterns[i]), value, pos.line, pos.column)];
      assert toks == head + more;
      forall k | 0 <= k < |toks| && toks[k].kind == ChordSymbol
        ensures && |toks[k].value| >= 1
                && IsNoteLetter(toks[k].value[0])
                && AllIn(ChordChars, toks[k].value[1..])
                && '(' !in toks[k].value && ')' !in toks[k].value
                && (k + 1 < |toks| ==> |toks[k + 1].value| > 0 && !IsChordChar(toks[k + 1].value[0]))
      {
        if k >= |head| {
          assert toks[k] == more[k - |head|];
          if k + 1 < |toks| {
            assert toks[k + 1] == more[k + 1 - |head|];
          }
        } else {
          assert !IsAnnotationText(value) && k == 0;
          assert Patterns[i] == ChordText;
          RunIsClassPrefix(rest, 1, ChordChars);
          assert value[1..] == rest[1..n];
          assert '(' !in value && ')' !in value by {
            forall j | 0 <= j < |value| ensures value[j] != '(' && value[j] != ')' {
              if j > 0 {
                assert value[j] == value[1..][j - 1];
              }
            }
          }
          if k + 1 < |toks| {
            assert toks[1] == more[0];
            assert more[0].value[0] == rest[n..][0] == rest[n];
          }
        }
      }
    }
  }

  // ---------------------------------------------------------------------------
  // Whitespace filtering
  // ---------------------------------------------------------------------------

  /** Filtering distributes over concatenation, so the kept tokens keep their order. */
  lemma {:induction false} WithoutWhitespaceAppend(a: seq<Token>, b: seq<Token>)
    ensures WithoutWhitespace(a + b) == WithoutWhitespace(a) + WithoutWhitespace(b)
    decreases |a|
  {
    if a == [] {
      assert a + b == b;
    } else {
      assert (a + b)[1..] == a[1..] + b;
      WithoutWhitespaceAppend(a[1..], b);
    }
  }

  /** Exactly the whitespace tokens are removed: every other token occurs as often as before. */
  lemma {:induction false} WithoutWhitespaceKeepsOthers(toks: seq<Token>)
    ensures forall t: Token :: t.kind != Whitespace ==> multiset(WithoutWhitespace(toks))[t] == multiset(toks)[t]
    ensures forall t: Token :: t.kind == Whitespace ==> multiset(WithoutWhitespace(toks))[t] == 0
    decreases |toks|
  {
    if toks != [] {
      WithoutWhitespaceKeepsOthers(toks[1..]);
      assert toks == [toks[0]] + toks[1..];
      assert multiset(toks) == multiset([toks[0]]) + multiset(toks[1..]);
    }
  }

  /** One scan step over a non-annotation match of pattern `i`. */
  lemma LexStep(rest: string, pos: Position, i: nat)
    requires |rest| > 0 && FirstMatch(rest) == Some(i) && Patterns[i] != AnnotationBlock
    ensures var n := MatchLength(Patterns[i], rest);
            var tok := Token(KindOf(Patterns[i]), rest[..n], pos.line, pos.column);
            Lex(rest, pos) == match Lex(rest[n..], Advance(pos, rest[..n]))
                              case Ok(more) => Ok([tok] + more)
                              case Err(e) => Err(e)
  {
    AnnotationTextIsAnnotationPattern(Patterns[i], rest);
  }

  /** The scan result with `tok` put in front of a successful tail. */
  function Prepend(tok: Token, r: Result<seq<Token>, LexError>): Result<seq<Token>, LexError> {
    match r
    case Ok(more) => Ok([tok] + more)
    case Err(e) => Err(e)
  }

  /** A one-letter chord symbol not followed by a chord character is one chord token. */
  lemma LexLetterChord(c: char, rest: string, pos: Position)
    requires IsNoteLetter(c)
    requires rest == [] || !IsChordChar(rest[0])
    ensures Lex([c] + rest, pos) == Prepend(Token(ChordSymbol, [c], pos.line, pos.column), Lex(rest, Advance(pos, [c])))
  {
    var t := [c] + rest;
    assert t[1..] == rest && t[..1] == [c];
    assert RunFrom(t, 1, ChordChars) == 0;
    FirstMatchIs(t, 10);
    LexStep(t, pos, 10);
  }

  /** A single blank not followed by another blank is one whitespace token. */
  lemma LexSingleBlank(rest: string, pos: Position)
    requires rest == [] || !IsBlank(rest[0])
    ensures Lex([' '] + rest, pos) == Prepend(Token(Whitespace, " ", pos.line, pos.column), Lex(rest, Advance(pos, " ")))
  {
    var t := [' '] + rest;
    assert t[1..] == rest && t[..1] == " ";
    assert RunFrom(t, 1, Blanks) == 0;
    assert RunFrom(t, 0, Blanks) == 1;
    FirstMatchIs(t, 11);
    LexStep(t, pos, 11);
  }
}
