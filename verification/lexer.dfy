/**
 * The noten lexer: a fixed, priority-ordered list of patterns is tried at
 * each scan position, the first pattern that matches wins, and its match
 * becomes a token that records the line and column where it starts.
 *
 * Each pattern is written as an explicit prefix matcher over `string`
 * returning the length of its match (0 when it does not match); no regular
 * expression engine is modelled. `InLanguage` states, independently, the
 * set of words each pattern denotes.
 */
module Lexer {
  import opened Common

  /** The kinds of token the lexer can produce (`BarEnd` is declared but never produced). */
  datatype TokenType =
    | AnnotationStart | AnnotationEnd | AnnotationContent
    | BarStart | BarEnd | RepeatStart | RepeatEnd
    | ChordSymbol | NoChord | ContinuationMark
    | TupletStart | TupletEnd
    | SingleRepeat | MultiRepeat
    | Newline | Whitespace

  /** A token: its kind, the exact text it stands for, and its 1-based line and column. */
  datatype Token = Token(kind: TokenType, value: string, line: int, column: int)

  /** The scan position the lexer keeps while consuming text. */
  datatype Position = Position(line: int, column: int)

  const Start := Position(1, 1)

  /** The only failure of the lexer: a character no pattern accepts, with where it was found. */
  datatype LexError = LexError(character: char, line: int, column: int)

  /** Moves the position over `text`: a newline starts the next line at column 1,
      every other character moves one column to the right. */
  function Advance(p: Position, text: string): Position
    decreases |text|
  {
    if text == [] then p
    else
      var q := if text[0] == '\n' then Position(p.line + 1, 1) else Position(p.line, p.column + 1);
      Advance(q, text[1..])
  }

  // ---------------------------------------------------------------------------
  // Character classes
  // ---------------------------------------------------------------------------

  /** An ASCII decimal digit. */
  predicate IsDigit(c: char) {
    '0' <= c <= '9'
  }

  /** A chord root letter `A`..`G`. */
  predicate IsNoteLetter(c: char) {
    'A' <= c <= 'G'
  }

  /** A character that may follow the root letter inside a chord symbol:
      an ASCII letter or digit, `#`, `+`, a degree sign, a slashed o, or `/`. */
  predicate IsChordChar(c: char) {
    || 'a' <= c <= 'z'
    || 'A' <= c <= 'Z'
    || '0' <= c <= '9'
    || c == '#' || c == '+' || c == '\U{00B0}' || c == '\U{00F8}' || c == '/'
  }

  /** A blank inside a line: a space or a tab. */
  predicate IsBlank(c: char) {
    c == ' ' || c == '\t'
  }

  datatype CharClass = Digits | ChordChars | Blanks | NotCloseBrace

  predicate InClass(k: CharClass, c: char) {
    match k
    case Digits => IsDigit(c)
    case ChordChars => IsChordChar(c)
    case Blanks => IsBlank(c)
    case NotCloseBrace => c != '}'
  }

  predicate AllIn(k: CharClass, w: string) {
    forall i :: 0 <= i < |w| ==> InClass(k, w[i])
  }

  /** Length of the longest run of class-`k` characters of `s` starting at `i`. */
  function RunFrom(s: string, i: nat, k: CharClass): (n: nat)
    requires i <= |s|
    ensures i + n <= |s|
    ensures forall j :: i <= j < i + n ==> InClass(k, s[j])
    ensures i + n == |s| || !InClass(k, s[i + n])
    decreases |s| - i
  {
    if i < |s| && InClass(k, s[i]) then 1 + RunFrom(s, i + 1, k) else 0
  }

  // ---------------------------------------------------------------------------
  // Patterns, in priority order
  // ---------------------------------------------------------------------------

  datatype Pattern =
    | AnnotationBlock   // {content}, content non-empty and free of '}'
    | RepeatStartMark   // |:
    | RepeatEndMark     // :|
    | RepeatCount       // an optional %, then x and one or more digits
    | RepeatMark        // %
    | BarMark           // |
    | NoChordMark       // N.C.
    | TupletOpen        // (
    | TupletClose       // )
    | ContinuationDot   // .
    | ChordText         // root letter, optional # or b, then chord characters
    | Blank             // one or more spaces or tabs
    | LineBreak         // a newline

  /** Priority order: annotation blocks before braces, the two-character repeat
      markers before the bar, counts before the bare `%`, and `N.C.` before the dot. */
  const Patterns: seq<Pattern> := [
    AnnotationBlock, RepeatStartMark, RepeatEndMark, RepeatCount, RepeatMark,
    BarMark, NoChordMark, TupletOpen, TupletClose, ContinuationDot,
    ChordText, Blank, LineBreak
  ]

  /** The token kind a non-annotation pattern produces. */
  function KindOf(p: Pattern): TokenType
    requires p != AnnotationBlock
  {
    match p
    case RepeatStartMark => RepeatStart
    case RepeatEndMark => RepeatEnd
    case RepeatCount => MultiRepeat
    case RepeatMark => SingleRepeat
    case BarMark => BarStart
    case NoChordMark => NoChord
    case TupletOpen => TupletStart
    case TupletClose => TupletEnd
    case ContinuationDot => ContinuationMark
    case ChordText => ChordSymbol
    case Blank => Whitespace
    case LineBreak => Newline
  }

  /** The words each pattern denotes, written out declaratively. */
  predicate InLanguage(p: Pattern, w: string) {
    match p
    case AnnotationBlock =>
      |w| >= 3 && w[0] == '{' && w[|w| - 1] == '}' && AllIn(NotCloseBrace, w[1..|w| - 1])
    case RepeatStartMark => w == "|:"
    case RepeatEndMark => w == ":|"
    case RepeatCount =>
      || (|w| >= 2 && w[0] == 'x' && AllIn(Digits, w[1..]))
      || (|w| >= 3 && w[0] == '%' && w[1] == 'x' && AllIn(Digits, w[2..]))
    case RepeatMark => w == "%"
    case BarMark => w == "|"
    case NoChordMark => w == "N.C."
    case TupletOpen => w == "("
    case TupletClose => w == ")"
    case ContinuationDot => w == "."
    case ChordText =>
      && |w| >= 1 && IsNoteLetter(w[0])
      && (|| AllIn(ChordChars, w[1..])
          || (|w| >= 2 && (w[1] == '#' || w[1] == 'b') && AllIn(ChordChars, w[2..])))
    case Blank => |w| >= 1 && AllIn(Blanks, w)
    case LineBreak => w == "\n"
  }

  /** Length of the match of pattern `p` at the start of `s`, or 0 when it does not match. */
  function MatchLength(p: Pattern, s: string): (n: nat)
    ensures n <= |s|
  {
    match p
    case AnnotationBlock =>
      if |s| >= 1 && s[0] == '{' then
        var c := RunFrom(s, 1, NotCloseBrace);
        if c >= 1 && 1 + c < |s| then c + 2 else 0
      else 0
    case RepeatStartMark => if StartsWith(s, "|:") then 2 else 0
    case RepeatEndMark => if StartsWith(s, ":|") then 2 else 0
    case RepeatCount =>
      if |s| >= 1 && s[0] == '%' then
        (if |s| >= 2 && s[1] == 'x' && RunFrom(s, 2, Digits) >= 1 then 2 + RunFrom(s, 2, Digits) else 0)
      else if |s| >= 1 && s[0] == 'x' && RunFrom(s, 1, Digits) >= 1 then 1 + RunFrom(s, 1, Digits)
      else 0
    case RepeatMark => if StartsWith(s, "%") then 1 else 0
    case BarMark => if StartsWith(s, "|") then 1 else 0
    case NoChordMark => if StartsWith(s, "N.C.") then 4 else 0
    case TupletOpen => if StartsWith(s, "(") then 1 else 0
    case TupletClose => if StartsWith(s, ")") then 1 else 0
    case ContinuationDot => if StartsWith(s, ".") then 1 else 0
    case ChordText => if |s| >= 1 && IsNoteLetter(s[0]) then 1 + RunFrom(s, 1, ChordChars) else 0
    case Blank => RunFrom(s, 0, Blanks)
    case LineBreak => if StartsWith(s, "\n") then 1 else 0
  }

  /** Index (into `Patterns`) of the first pattern that matches at the start of `s`. */
  function FirstMatch(s: string): (r: Option<nat>)
    ensures r.Some? ==> r.value < |Patterns| && MatchLength(Patterns[r.value], s) > 0
    ensures r.Some? ==> forall j :: 0 <= j < r.value ==> MatchLength(Patterns[j], s) == 0
    ensures r.None? <==> forall j :: 0 <= j < |Patterns| ==> MatchLength(Patterns[j], s) == 0
  {
    FirstMatchFrom(s, 0)
  }

  function FirstMatchFrom(s: string, i: nat): (r: Option<nat>)
    requires i <= |Patterns|
    requires forall j :: 0 <= j < i ==> MatchLength(Patterns[j], s) == 0
    ensures r.Some? ==> i <= r.value < |Patterns| && MatchLength(Patterns[r.value], s) > 0
    ensures r.Some? ==> forall j :: 0 <= j < r.value ==> MatchLength(Patterns[j], s) == 0
    ensures r.None? ==> forall j :: 0 <= j < |Patterns| ==> MatchLength(Patterns[j], s) == 0
    decreases |Patterns| - i
  {
    if i == |Patterns| then None
    else if MatchLength(Patterns[i], s) > 0 then Some(i)
    else FirstMatchFrom(s, i + 1)
  }

  // ---------------------------------------------------------------------------
  // Scanning
  // ---------------------------------------------------------------------------

  /** The test the scanner applies to a matched value before splitting it as an annotation. */
  predicate IsAnnotationText(value: string) {
    |value| > 0 && value[0] == '{' && value[|value| - 1] == '}'
  }

  /** The three tokens an annotation `{content}` becomes; each records the position
      reached after the text of the ones before it. */
  function AnnotationTokens(value: string, p: Position): seq<Token>
    requires |value| >= 2
  {
    var content := value[1..|value| - 1];
    var p1 := Advance(p, "{");
    var p2 := Advance(p1, content);
    [ Token(AnnotationStart, "{", p.line, p.column),
      Token(AnnotationContent, content, p1.line, p1.column),
      Token(AnnotationEnd, "}", p2.line, p2.column) ]
  }

  /** An annotation match is the only match whose text starts with `{` and ends with `}`. */
  lemma AnnotationTextIsAnnotationPattern(p: Pattern, s: string)
    requires MatchLength(p, s) > 0
    ensures IsAnnotationText(s[..MatchLength(p, s)]) <==> p == AnnotationBlock
    ensures p == AnnotationBlock ==> MatchLength(p, s) >= 3
  {
  }

  /** Tokenizes `rest`, the text not yet consumed, starting at position `pos`.
      After an annotation the position is moved over its text twice: once while
      its three tokens are emitted and once more by the main loop. */
  function Lex(rest: string, pos: Position): Result<seq<Token>, LexError>
    decreases |rest|
  {
    if rest == [] then Ok([])
    else
      match FirstMatch(rest)
      case None => Err(LexError(rest[0], pos.line, pos.column))
      case Some(i) =>
        var n := MatchLength(Patterns[i], rest);
        var value := rest[..n];
        AnnotationTextIsAnnotationPattern(Patterns[i], rest);
        if IsAnnotationText(value) then
          var more :- Lex(rest[n..], Advance(Advance(pos, value), value));
          Ok(AnnotationTokens(value, pos) + more)
        else
          var more :- Lex(rest[n..], Advance(pos, value));
          Ok([Token(KindOf(Patterns[i]), value, pos.line, pos.column)] + more)
  }

  /** The tokens in order, without the whitespace ones. */
  function WithoutWhitespace(toks: seq<Token>): (r: seq<Token>)
    ensures forall i :: 0 <= i < |r| ==> r[i].kind != Whitespace
    ensures forall i :: 0 <= i < |r| ==> r[i] in toks
    ensures |r| <= |toks|
  {
    if toks == [] then []
    else if toks[0].kind == Whitespace then WithoutWhitespace(toks[1..])
    else [toks[0]] + WithoutWhitespace(toks[1..])
  }

  /** The lexer's token list, filtered unless whitespace is asked for. */
  function GetTokens(toks: seq<Token>, includeWhitespace: bool): seq<Token> {
    if includeWhitespace then toks else WithoutWhitespace(toks)
  }

  /** Tokenizes a whole chart from line 1, column 1. */
  function Tokenize(text: string, includeWhitespace: bool): Result<seq<Token>, LexError> {
    var toks :- Lex(text, Start);
    Ok(GetTokens(toks, includeWhitespace))
  }
}
