/**
 * The noten parser: a recursive-descent reader over the token list with an
 * index cursor. Every routine takes the tokens and the cursor and returns
 * the node it built together with the cursor after it, or the error the
 * parser raises. Its loops become tail-recursive functions that
 * thread an accumulator.
 */
module Parser {
  import opened Common
  import opened Lexer
  import opened Ast

  /** A parsed value and the cursor just after it. */
  datatype Parsed<+T> = Parsed(value: T, next: nat)

  /** Why parsing stopped. */
  datatype ParseError =
    /** A top-level token that starts neither an annotation nor a measure line. */
    | UnexpectedToken(kind: TokenType, line: int)
    /** A required token was missing; carries the token found instead, or none at the end. */
    | Expected(wanted: TokenType, found: Option<Token>)
    /** The content of a measure stopped at something that does not end a bar. */
    | MissingClosingBar(got: Option<TokenType>)
    /** A repeat count with no item before it on its line. */
    | RepeatCountAtLineStart
    /** A chord token the chord decomposer rejects. */
    | BadChord(error: ChordError)

  /** The outcome of a parsing routine. */
  type Outcome<T> = Result<Parsed<T>, ParseError>

  /** The errors of a whole-text parse: from the lexer or from the parser. */
  datatype Failure = LexFailure(lex: LexError) | ParseFailure(parse: ParseError)

  // ---------------------------------------------------------------------------
  // Cursor tests
  // ---------------------------------------------------------------------------

  /** The cursor is on a token of kind `k` (never true past the end). */
  predicate At(toks: seq<Token>, p: nat, k: TokenType) {
    p < |toks| && toks[p].kind == k
  }

  /** The cursor is on a token that ends a bar: `|`, `:|` or a newline. */
  predicate AtBarEnd(toks: seq<Token>, p: nat) {
    At(toks, p, BarStart) || At(toks, p, RepeatEnd) || At(toks, p, Newline)
  }

  /** The cursor is on a token that starts a measure line: `|`, `|:` or `%`. */
  predicate AtMeasureStart(toks: seq<Token>, p: nat) {
    At(toks, p, BarStart) || At(toks, p, RepeatStart) || At(toks, p, SingleRepeat)
  }

  /** The token under the cursor, or none at the end. Consuming a token of kind `k` where
      another one (or nothing) stands fails with `Expected(k, Peek(toks, p))`. */
  function Peek(toks: seq<Token>, p: nat): Option<Token> {
    if p < |toks| then Some(toks[p]) else None
  }

  /** Decomposes the chord symbol of a chord or no-chord token. */
  function ChordOf(t: Token): Result<Chord, ParseError> {
    match DecomposeChord(t.value)
    case Ok(c) => Ok(c)
    case Err(e) => Err(BadChord(e))
  }

  /** A chord or no-chord token. */
  predicate IsChordKind(k: TokenType) {
    k == ChordSymbol || k == NoChord
  }

  // ---------------------------------------------------------------------------
  // Repeat counts
  // ---------------------------------------------------------------------------

  /** The value of an ASCII digit (0 for any other character). */
  function DigitOf(c: char): nat {
    if IsDigit(c) then c as int - '0' as int else 0
  }

  /** Length of the run of ASCII digits of `s` starting at `i`. */
  function DigitRun(s: string, i: nat): (n: nat)
    requires i <= |s|
    ensures i + n <= |s|
    decreases |s| - i
  {
    if i < |s| && IsDigit(s[i]) then 1 + DigitRun(s, i + 1) else 0
  }

  /** The number the digits `s[a..b]` denote, most significant digit first. */
  function DigitsValue(s: string, a: nat, b: nat): nat
    requires a <= b <= |s|
    decreases b - a
  {
    if a == b then 0 else 10 * DigitsValue(s, a, b - 1) + DigitOf(s[b - 1])
  }

  /** An `x` followed by a digit stands at position `j` of `s`. */
  predicate CountMarkAt(s: string, j: nat) {
    j + 1 < |s| && s[j] == 'x' && IsDigit(s[j + 1])
  }

  /** The first position of an `x` followed by a digit in `s`, at or after `i`. */
  function CountStart(s: string, i: nat): (r: Option<nat>)
    requires i <= |s|
    ensures r.Some? ==> i <= r.value && CountMarkAt(s, r.value)
    ensures r.Some? ==> forall j :: i <= j < r.value ==> !CountMarkAt(s, j)
    ensures r.None? ==> forall j :: i <= j ==> !CountMarkAt(s, j)
    decreases |s| - i
  {
    if i + 1 >= |s| then None
    else if CountMarkAt(s, i) then Some(i)
    else CountStart(s, i + 1)
  }

  /** The number written by the run of digits after the count mark at `i`. */
  function CountDigitsValue(s: string, i: nat): nat
    requires CountMarkAt(s, i)
  {
    DigitsValue(s, i + 1, i + 1 + DigitRun(s, i + 1))
  }

  /** Scans `s` from `i` for the first count mark and reads the digits after it; 1 when
      there is none. */
  function CountFrom(s: string, i: nat): nat
    requires i <= |s|
    decreases |s| - i
  {
    if i + 1 >= |s| then 1
    else if CountMarkAt(s, i) then CountDigitsValue(s, i)
    else CountFrom(s, i + 1)
  }

  /** The repeat count a multi-repeat token denotes. */
  function CountOf(value: string): nat {
    CountFrom(value, 0)
  }

  /** The count is read after the first `x` that is followed by a digit, and is 1 when no
      `x` is followed by a digit. */
  lemma {:induction false} CountFromFirstMark(s: string, i: nat)
    requires i <= |s|
    ensures CountFrom(s, i) == match CountStart(s, i) case None => 1 case Some(j) => CountDigitsValue(s, j)
    decreases |s| - i
  {
    if i + 1 < |s| && !CountMarkAt(s, i) {
      CountFromFirstMark(s, i + 1);
    }
  }

  /** Consumes a multi-repeat token and reads its count. */
  function ParseCount(toks: seq<Token>, p: nat): (r: Outcome<nat>)
    ensures r.Ok? <==> At(toks, p, MultiRepeat)
    ensures r.Ok? ==> r.value == Parsed(CountOf(toks[p].value), p + 1)
  {
    if !At(toks, p, MultiRepeat) then Err(Expected(MultiRepeat, Peek(toks, p)))
    else Ok(Parsed(CountOf(toks[p].value), p + 1))
  }

  // ---------------------------------------------------------------------------
  // Tuplets and measure content
  // ---------------------------------------------------------------------------

  /** The chords of a tuplet, read until `)`, the end, or a token that is not a chord. */
  function TupletChords(toks: seq<Token>, p: nat, acc: seq<Chord>): (r: Outcome<seq<Chord>>)
    requires p <= |toks|
    ensures r.Ok? ==> p <= r.value.next <= |toks| && acc <= r.value.value
    ensures r.Ok? ==> !(r.value.next < |toks| && IsChordKind(toks[r.value.next].kind))
                      || At(toks, r.value.next, TupletEnd)
    decreases |toks| - p
  {
    if p < |toks| && toks[p].kind != TupletEnd && IsChordKind(toks[p].kind) then
      match ChordOf(toks[p])
      case Err(e) => Err(e)
      case Ok(c) => TupletChords(toks, p + 1, acc + [c])
    else Ok(Parsed(acc, p))
  }

  /** `( chords )`: a tuplet must be closed by `)`. */
  function ParseTuplet(toks: seq<Token>, p: nat): (r: Outcome<seq<Chord>>)
    requires p <= |toks|
    ensures r.Ok? ==> p < r.value.next <= |toks|
    ensures r.Ok? ==> At(toks, p, TupletStart) && At(toks, r.value.next - 1, TupletEnd)
    ensures r.Ok? ==> p + 2 + |r.value.value| == r.value.next
  {
    if !At(toks, p, TupletStart) then Err(Expected(TupletStart, Peek(toks, p)))
    else
      match TupletChords(toks, p + 1, [])
      case Err(e) => Err(e)
      case Ok(cs) =>
        assert cs.next - (p + 1) == |cs.value| by {
          TupletChordsCount(toks, p + 1, []);
        }
        if !At(toks, cs.next, TupletEnd) then Err(Expected(TupletEnd, Peek(toks, cs.next)))
        else Ok(Parsed(cs.value, cs.next + 1))
  }

  /** Each chord the tuplet loop reads takes one token. */
  lemma {:induction false} TupletChordsCount(toks: seq<Token>, p: nat, acc: seq<Chord>)
    requires p <= |toks|
    requires TupletChords(toks, p, acc).Ok?
    ensures var r := TupletChords(toks, p, acc).value; r.next - p == |r.value| - |acc|
    decreases |toks| - p
  {
    if p < |toks| && toks[p].kind != TupletEnd && IsChordKind(toks[p].kind) {
      var c := ChordOf(toks[p]).value;
      TupletChordsCount(toks, p + 1, acc + [c]);
    }
  }

  /** The beats of a measure, read until a bar end, the end of input, or a token that is not
      a chord, a continuation or a tuplet. */
  function Content(toks: seq<Token>, p: nat, acc: seq<Beat>): (r: Outcome<seq<Beat>>)
    requires p <= |toks|
    ensures r.Ok? ==> p <= r.value.next <= |toks| && acc <= r.value.value
    ensures r.Ok? && r.value.next == p ==> r.value.value == acc
    ensures r.Ok? && r.value.next > p ==> |r.value.value| > |acc|
    decreases |toks| - p
  {
    if AtBarEnd(toks, p) || p >= |toks| then Ok(Parsed(acc, p))
    else if IsChordKind(toks[p].kind) then ContentChord(toks, p, acc)
    else if toks[p].kind == ContinuationMark then ContentThen(toks, p + 1, acc, Continuation)
    else if toks[p].kind == TupletStart then ContentTuplet(toks, p, acc)
    else Ok(Parsed(acc, p))
  }

  /** A chord beat of a measure. */
  function ContentChord(toks: seq<Token>, p: nat, acc: seq<Beat>): (r: Outcome<seq<Beat>>)
    requires p < |toks| && IsChordKind(toks[p].kind)
    ensures r.Ok? ==> p < r.value.next <= |toks| && acc <= r.value.value && |r.value.value| > |acc|
    decreases |toks| - p, 1
  {
    match ChordOf(toks[p])
    case Err(e) => Err(e)
    case Ok(c) => ContentThen(toks, p + 1, acc, ChordBeat(c))
  }

  /** A tuplet beat of a measure. */
  function ContentTuplet(toks: seq<Token>, p: nat, acc: seq<Beat>): (r: Outcome<seq<Beat>>)
    requires p < |toks|
    ensures r.Ok? ==> p < r.value.next <= |toks| && acc <= r.value.value && |r.value.value| > |acc|
    decreases |toks| - p, 1
  {
    match ParseTuplet(toks, p)
    case Err(e) => Err(e)
    case Ok(t) => ContentThen(toks, t.next, acc, Tuplet(t.value))
  }

  /** Appends one beat and carries on reading content. */
  function ContentThen(toks: seq<Token>, q: nat, acc: seq<Beat>, b: Beat): (r: Outcome<seq<Beat>>)
    requires 0 < q <= |toks|
    ensures r.Ok? ==> q <= r.value.next <= |toks| && acc <= r.value.value
    ensures r.Ok? ==> |r.value.value| > |acc|
    decreases |toks| - q + 1, 0
  {
    var r := Content(toks, q, acc + [b]);
    r
  }

  // ---------------------------------------------------------------------------
  // Bars
  // ---------------------------------------------------------------------------

  /** `| content`: the content must stop at a bar end, which is left for the caller. noten
      then looks for a multi-repeat token, which a bar end never is, so the count stays 1. */
  function ParseMeasure(toks: seq<Token>, p: nat): (r: Outcome<Bar>)
    requires p <= |toks|
    ensures r.Ok? ==> p < r.value.next <= |toks| && AtBarEnd(toks, r.value.next)
    ensures r.Ok? ==> At(toks, p, BarStart) && r.value.value.Measure? && r.value.value.repeatCount == 1
  {
    if !At(toks, p, BarStart) then Err(Expected(BarStart, Peek(toks, p)))
    else
      match Content(toks, p + 1, [])
      case Err(e) => Err(e)
      case Ok(c) =>
        if !AtBarEnd(toks, c.next) then
          Err(MissingClosingBar(if c.next < |toks| then Some(toks[c.next].kind) else None))
        else Ok(Parsed(Measure(c.value, 1), c.next))
  }

  /** `%`, optionally followed by a multi-repeat count (1 when absent). */
  function ParseRepeatMeasure(toks: seq<Token>, p: nat): (r: Outcome<Bar>)
    requires p <= |toks|
    ensures r.Ok? <==> At(toks, p, SingleRepeat)
    ensures r.Ok? ==> r.value.value.RepeatMeasure? && p < r.value.next <= |toks|
    ensures r.Ok? ==> if At(toks, p + 1, MultiRepeat)
                      then r.value == Parsed(RepeatMeasure(CountOf(toks[p + 1].value)), p + 2)
                      else r.value == Parsed(RepeatMeasure(1), p + 1)
  {
    if !At(toks, p, SingleRepeat) then Err(Expected(SingleRepeat, Peek(toks, p)))
    else if At(toks, p + 1, MultiRepeat) then
      var n := ParseCount(toks, p + 1).value;
      Ok(Parsed(RepeatMeasure(n.value), n.next))
    else Ok(Parsed(RepeatMeasure(1), p + 1))
  }

  /** The bars of a repeat section after its first element: each `%` is a repeat measure; each
      `|` is followed by a repeat measure, ends the section at `:|`, or starts a measure. */
  function SectionBars(toks: seq<Token>, p: nat, acc: seq<Bar>): (r: Outcome<seq<Bar>>)
    requires p <= |toks|
    ensures r.Ok? ==> p <= r.value.next <= |toks| && acc <= r.value.value
    decreases |toks| - p
  {
    if At(toks, p, SingleRepeat) then
      var m := ParseRepeatMeasure(toks, p).value;
      SectionBarsThen(toks, m.next, acc, m.value)
    else if At(toks, p, BarStart) then
      var q := p + 1;
      if At(toks, q, SingleRepeat) then
        var m := ParseRepeatMeasure(toks, q).value;
        SectionBarsThen(toks, m.next, acc, m.value)
      else if At(toks, q, RepeatEnd) then Ok(Parsed(acc, q))
      else
        match Content(toks, q, [])
        case Err(e) => Err(e)
        case Ok(c) => SectionBarsThen(toks, c.next, acc, Measure(c.value, 1))
    else Ok(Parsed(acc, p))
  }

  /** Appends one bar and carries on reading section bars. */
  function SectionBarsThen(toks: seq<Token>, q: nat, acc: seq<Bar>, b: Bar): (r: Outcome<seq<Bar>>)
    requires 0 < q <= |toks|
    ensures r.Ok? ==> q <= r.value.next <= |toks| && acc <= r.value.value
    decreases |toks| - q + 1, 0
  {
    var r := SectionBars(toks, q, acc + [b]);
    r
  }

  /** The first element of a repeat section: a repeat measure if `%` comes first; otherwise
      the content read there, kept as a measure when it has beats or stops at `|` or `:|`.
      (noten also tests for `%` after empty content; that content is then empty only
      because nothing was read, so the test can never succeed and is not modelled.) */
  function SectionFirst(toks: seq<Token>, p: nat): (r: Outcome<seq<Bar>>)
    requires p <= |toks|
    ensures r.Ok? ==> p <= r.value.next <= |toks| && |r.value.value| <= 1
  {
    if At(toks, p, SingleRepeat) then
      var m := ParseRepeatMeasure(toks, p).value;
      Ok(Parsed([m.value], m.next))
    else
      match Content(toks, p, [])
      case Err(e) => Err(e)
      case Ok(c) =>
        if c.value != [] || At(toks, c.next, BarStart) || At(toks, c.next, RepeatEnd) then
          Ok(Parsed([Measure(c.value, 1)], c.next))
        else Ok(Parsed([], c.next))
  }

  /** `|: bars :|`, then an optional multi-repeat count for the whole section (1 when absent). */
  function ParseRepeatSection(toks: seq<Token>, p: nat): (r: Outcome<LineItem>)
    requires p <= |toks|
    ensures r.Ok? ==> p < r.value.next <= |toks| && At(toks, p, RepeatStart)
    ensures r.Ok? ==> r.value.value.RepeatSection?
    ensures r.Ok? ==> (At(toks, r.value.next - 1, RepeatEnd) && r.value.value.repeatCount == 1)
                      || (At(toks, r.value.next - 1, MultiRepeat)
                          && r.value.value.repeatCount == CountOf(toks[r.value.next - 1].value))
  {
    if !At(toks, p, RepeatStart) then Err(Expected(RepeatStart, Peek(toks, p)))
    else
      match SectionFirst(toks, p + 1)
      case Err(e) => Err(e)
      case Ok(first) =>
        match SectionBars(toks, first.next, first.value)
        case Err(e) => Err(e)
        case Ok(rest) =>
          if !At(toks, rest.next, RepeatEnd) then Err(Expected(RepeatEnd, Peek(toks, rest.next)))
          else
            var e := rest.next + 1;
            if At(toks, e, MultiRepeat) then
              var n := ParseCount(toks, e).value;
              Ok(Parsed(RepeatSection(rest.value, n.value), n.next))
            else Ok(Parsed(RepeatSection(rest.value, 1), e))
  }

  // ---------------------------------------------------------------------------
  // Measure lines
  // ---------------------------------------------------------------------------

  /** The closing-bar rule after a bar: a `|` under the cursor is consumed when a newline or a
      multi-repeat follows it, or when it is the last token; otherwise it is left to open the
      next measure. */
  function CloseBar(toks: seq<Token>, q: nat): (r: nat)
    requires q <= |toks|
    ensures q <= r <= q + 1 && r <= |toks|
    ensures r == q + 1 <==> At(toks, q, BarStart) &&
                            (q + 1 == |toks| || toks[q + 1].kind == Newline || toks[q + 1].kind == MultiRepeat)
  {
    if At(toks, q, BarStart) then
      if q + 1 < |toks| then
        if toks[q + 1].kind in {Newline, MultiRepeat} then q + 1 else q
      else q + 1
    else q
  }

  /** Attaches a count that follows an item: it replaces a measure's count and multiplies a
      repeat measure's or a repeat section's count. */
  function AttachCount(item: LineItem, n: nat): (r: LineItem)
    ensures r.BarItem? == item.BarItem? && (r.BarItem? ==> r.bar.Measure? == item.bar.Measure?)
    ensures r.BarItem? && r.bar.Measure? ==> r.bar == Measure(item.bar.beats, n)
    ensures r.BarItem? && r.bar.RepeatMeasure? ==> r.bar.count == n * item.bar.count
    ensures r.RepeatSection? ==> r.measures == item.measures && r.repeatCount == item.repeatCount * n
  {
    match item
    case BarItem(Measure(beats, _)) => BarItem(Measure(beats, n))
    case BarItem(RepeatMeasure(c)) => BarItem(RepeatMeasure(n * c))
    case RepeatSection(ms, k) => RepeatSection(ms, k * n)
  }

  /** The items of a measure line, read until a newline, the end, or a token that starts no item. */
  function LineItems(toks: seq<Token>, p: nat, items: seq<LineItem>): (r: Outcome<seq<LineItem>>)
    requires p <= |toks|
    ensures r.Ok? ==> p <= r.value.next <= |toks|
    ensures r.Ok? && AtMeasureStart(toks, p) ==> p < r.value.next
    ensures r.Ok? ==> |items| <= |r.value.value|
    ensures r.Ok? && AtMeasureStart(toks, p) ==> |r.value.value| > 0
    decreases |toks| - p
  {
    if p >= |toks| || At(toks, p, Newline) then Ok(Parsed(items, p))
    else if At(toks, p, RepeatStart) then LineSection(toks, p, items)
    else if At(toks, p, SingleRepeat) then LineRepeat(toks, p, items)
    else if At(toks, p, MultiRepeat) then LineCount(toks, p, items)
    else if At(toks, p, BarStart) then LineBar(toks, p, items)
    else Ok(Parsed(items, p))
  }

  /** A repeat section in a measure line. */
  function LineSection(toks: seq<Token>, p: nat, items: seq<LineItem>): (r: Outcome<seq<LineItem>>)
    requires At(toks, p, RepeatStart)
    ensures r.Ok? ==> p < r.value.next <= |toks| && |items| < |r.value.value|
    decreases |toks| - p, 1
  {
    match ParseRepeatSection(toks, p)
    case Err(e) => Err(e)
    case Ok(s) => LineItemsThen(toks, s.next, items, s.value)
  }

  /** A `%` repeat measure in a measure line. */
  function LineRepeat(toks: seq<Token>, p: nat, items: seq<LineItem>): (r: Outcome<seq<LineItem>>)
    requires At(toks, p, SingleRepeat)
    ensures r.Ok? ==> p < r.value.next <= |toks| && |items| < |r.value.value|
    decreases |toks| - p, 1
  {
    var m := ParseRepeatMeasure(toks, p).value;
    LineItemsThen(toks, m.next, items, BarItem(m.value))
  }

  /** A count in a measure line: it applies to the item before it, and there must be one. */
  function LineCount(toks: seq<Token>, p: nat, items: seq<LineItem>): (r: Outcome<seq<LineItem>>)
    requires At(toks, p, MultiRepeat)
    ensures r.Ok? ==> p < r.value.next <= |toks| && |items| <= |r.value.value|
    ensures items == [] ==> r == Err(RepeatCountAtLineStart)
    decreases |toks| - p, 1
  {
    if items == [] then Err(RepeatCountAtLineStart)
    else
      var n := ParseCount(toks, p).value;
      LineItemsThen(toks, n.next, items[..|items| - 1], AttachCount(items[|items| - 1], n.value))
  }

  /** A bar in a measure line: `| %` is a repeat measure, anything else after `|` a measure;
      either way the closing-bar rule then applies. */
  function LineBar(toks: seq<Token>, p: nat, items: seq<LineItem>): (r: Outcome<seq<LineItem>>)
    requires At(toks, p, BarStart)
    ensures r.Ok? ==> p < r.value.next <= |toks| && |items| < |r.value.value|
    decreases |toks| - p, 1
  {
    if p + 1 < |toks| && toks[p + 1].kind == SingleRepeat then
      var m := ParseRepeatMeasure(toks, p + 1).value;
      LineItemsThen(toks, CloseBar(toks, m.next), items, BarItem(m.value))
    else
      match ParseMeasure(toks, p)
      case Err(e) => Err(e)
      case Ok(m) => LineItemsThen(toks, CloseBar(toks, m.next), items, BarItem(m.value))
  }

  /** Appends one item (after dropping the last one when a count replaced it) and carries
      on reading the line. */
  function LineItemsThen(toks: seq<Token>, q: nat, items: seq<LineItem>, it: LineItem): (r: Outcome<seq<LineItem>>)
    requires 0 < q <= |toks|
    ensures r.Ok? ==> q <= r.value.next <= |toks|
    ensures r.Ok? ==> |items| < |r.value.value|
    decreases |toks| - q + 1, 0
  {
    var r := LineItems(toks, q, items + [it]);
    r
  }

  /** A measure line: its items, then the newline that ends it if there is one. */
  function ParseMeasureLine(toks: seq<Token>, p: nat): (r: Outcome<seq<LineItem>>)
    requires p <= |toks|
    ensures r.Ok? ==> p <= r.value.next <= |toks|
    ensures r.Ok? && AtMeasureStart(toks, p) ==> p < r.value.next && |r.value.value| > 0
  {
    match LineItems(toks, p, [])
    case Err(e) => Err(e)
    case Ok(l) => Ok(Parsed(l.value, if At(toks, l.next, Newline) then l.next + 1 else l.next))
  }

  /** `{ content }`, then the newline after it if there is one. */
  function ParseAnnotation(toks: seq<Token>, p: nat): (r: Outcome<string>)
    requires p <= |toks|
    ensures r.Ok? <==> At(toks, p, AnnotationStart) && At(toks, p + 1, AnnotationContent)
                       && At(toks, p + 2, AnnotationEnd)
    ensures r.Ok? ==> r.value.value == toks[p + 1].value
    ensures r.Ok? ==> r.value.next == if At(toks, p + 3, Newline) then p + 4 else p + 3
  {
    if !At(toks, p, AnnotationStart) then Err(Expected(AnnotationStart, Peek(toks, p)))
    else if !At(toks, p + 1, AnnotationContent) then Err(Expected(AnnotationContent, Peek(toks, p + 1)))
    else if !At(toks, p + 2, AnnotationEnd) then Err(Expected(AnnotationEnd, Peek(toks, p + 2)))
    else Ok(Parsed(toks[p + 1].value, if At(toks, p + 3, Newline) then p + 4 else p + 3))
  }

  // ---------------------------------------------------------------------------
  // Whole charts
  // ---------------------------------------------------------------------------

  /** The top-level loop: blank lines are skipped, `{` starts an annotation, `|`, `|:` or `%`
      starts a measure line, and any other token is an error. */
  function SongBody(toks: seq<Token>, p: nat, body: seq<Node>): (r: Result<seq<Node>, ParseError>)
    requires p <= |toks|
    ensures r.Ok? ==> body <= r.value
    decreases |toks| - p
  {
    if p >= |toks| then Ok(body)
    else if At(toks, p, Newline) then SongBody(toks, p + 1, body)
    else if At(toks, p, AnnotationStart) then SongAnnotation(toks, p, body)
    else if AtMeasureStart(toks, p) then SongLine(toks, p, body)
    else Err(UnexpectedToken(toks[p].kind, toks[p].line))
  }

  /** An annotation at the top level. */
  function SongAnnotation(toks: seq<Token>, p: nat, body: seq<Node>): (r: Result<seq<Node>, ParseError>)
    requires p < |toks|
    ensures r.Ok? ==> body <= r.value
    decreases |toks| - p, 1
  {
    match ParseAnnotation(toks, p)
    case Err(e) => Err(e)
    case Ok(a) => SongBodyThen(toks, a.next, body, Annotation(a.value))
  }

  /** A measure line at the top level. */
  function SongLine(toks: seq<Token>, p: nat, body: seq<Node>): (r: Result<seq<Node>, ParseError>)
    requires AtMeasureStart(toks, p)
    ensures r.Ok? ==> body <= r.value
    decreases |toks| - p, 1
  {
    match ParseMeasureLine(toks, p)
    case Err(e) => Err(e)
    case Ok(l) => SongBodyThen(toks, l.next, body, MeasureLine(l.value))
  }

  /** Appends one node and carries on with the top-level loop. */
  function SongBodyThen(toks: seq<Token>, q: nat, body: seq<Node>, n: Node): (r: Result<seq<Node>, ParseError>)
    requires 0 < q <= |toks|
    ensures r.Ok? ==> body <= r.value
    decreases |toks| - q + 1, 0
  {
    var r := SongBody(toks, q, body + [n]);
    r
  }

  /** Parses a token list into a song. */
  function ParseTokens(toks: seq<Token>): Result<Song, ParseError> {
    match SongBody(toks, 0, [])
    case Err(e) => Err(e)
    case Ok(body) => Ok(Song(body))
  }
}
