/**
 * What the noten parser does, stated one rule at a time: how a count token
 * is read, how a chord token decomposes, what a tuplet may hold, and what
 * one turn of each of the parser's loops does with the token under the
 * cursor. Each loop lemma says which branch is taken and where the loop
 * goes on from, so that together they describe the whole parser. Where
 * each loop finds its parts, and two charts read token by token, are in
 * ParserLayout.
 */
module ParserLemmas {
  import opened Common
  import opened Lexer
  import opened Ast
  import opened Parser

  // ---------------------------------------------------------------------------
  // Small facts about sequences, kept out of the parser proofs
  // ---------------------------------------------------------------------------

  lemma AppendEmpty<T>(xs: seq<T>)
    ensures [] + xs == xs && xs + [] == xs
  {
  }

  lemma AppendHead<T>(acc: seq<T>, xs: seq<T>)
    requires xs != []
    ensures acc + [xs[0]] + xs[1..] == acc + xs
  {
    assert [xs[0]] + xs[1..] == xs;
  }

  lemma DropAppend<T>(acc: seq<T>, xs: seq<T>)
    ensures (acc + xs)[|acc|..] == xs
  {
  }

  lemma DropOne<T>(xs: seq<T>, k: nat)
    requires k < |xs|
    ensures xs[k..] == [xs[k]] + xs[k + 1..] && xs[k..][1..] == xs[k + 1..]
  {
  }

  lemma DropNone<T>(xs: seq<T>)
    ensures xs[0..] == xs
  {
  }

  // ---------------------------------------------------------------------------
  // Decimal counts
  // ---------------------------------------------------------------------------

  /** The ASCII digit for a value below ten. */
  function DigitChar(v: nat): (c: char)
    requires v < 10
    ensures IsDigit(c) && DigitOf(c) == v
  {
    ('0' as int + v) as char
  }

  /** A number written in decimal, most significant digit first, without leading zeros. */
  function Decimal(n: nat): (d: string)
    ensures |d| > 0 && forall i :: 0 <= i < |d| ==> IsDigit(d[i])
    ensures |d| > 1 ==> d[0] != '0'
  {
    if n < 10 then [DigitChar(n)] else Decimal(n / 10) + [DigitChar(n % 10)]
  }

  /** Digits laid out in `s` between `a` and `b` are read back as the number they write. */
  lemma {:induction false} DigitsValueDecimal(s: string, a: nat, b: nat, n: nat)
    requires a <= b <= |s| && s[a..b] == Decimal(n)
    ensures DigitsValue(s, a, b) == n
    decreases n
  {
    var d := Decimal(n);
    assert s[b - 1] == d[|d| - 1];
    if n >= 10 {
      assert d == Decimal(n / 10) + [DigitChar(n % 10)];
      assert s[a..b - 1] == s[a..b][..|d| - 1];
      assert d[..|d| - 1] == Decimal(n / 10);
      DigitsValueDecimal(s, a, b - 1, n / 10);
    } else {
      assert a == b - 1;
    }
  }

  /** A run of digits reaching the end of `s` is read whole. */
  lemma {:induction false} DigitRunToEnd(s: string, i: nat)
    requires i <= |s| && forall j :: i <= j < |s| ==> IsDigit(s[j])
    ensures DigitRun(s, i) == |s| - i
    decreases |s| - i
  {
    if i < |s| {
      DigitRunToEnd(s, i + 1);
    }
  }

  /** The multi-repeat token text for a count. */
  function CountText(n: nat): string {
    "x" + Decimal(n)
  }

  /** A repeat count written as `xN` (or `%xN`, which the lexer reads as one token) is
      read back as N. */
  lemma {:induction false} CountOfCountText(n: nat, percent: bool)
    ensures CountOf((if percent then "%" else "") + CountText(n)) == n
  {
    var s := (if percent then "%" else "") + CountText(n);
    var i := if percent then 1 else 0;
    var d := Decimal(n);
    assert s[i] == 'x' && s[i + 1..] == d;
    assert IsDigit(s[i + 1]) by {
      assert s[i + 1] == d[0];
    }
    assert CountFrom(s, i) == CountDigitsValue(s, i);
    if percent {
      assert !CountMarkAt(s, 0);
      assert CountFrom(s, 0) == CountFrom(s, 1);
    }
    forall j | i + 1 <= j < |s| ensures IsDigit(s[j]) {
      assert s[j] == d[j - i - 1];
    }
    DigitRunToEnd(s, i + 1);
    assert s[i + 1..|s|] == d;
    DigitsValueDecimal(s, i + 1, |s|, n);
  }

  /** A count text with no `x` followed by a digit counts once. */
  lemma CountOfNoMark(s: string)
    requires forall j :: 0 <= j < |s| - 1 ==> !(s[j] == 'x' && IsDigit(s[j + 1]))
    ensures CountOf(s) == 1
  {
    CountFromFirstMark(s, 0);
  }

  // ---------------------------------------------------------------------------
  // Chord tokens
  // ---------------------------------------------------------------------------

  /** A chord as the lexer would emit it: the no-chord symbol, or a chord symbol. */
  function ChordToken(c: Chord, line: int, column: int): Token {
    Token(if c == NoChordValue then NoChord else ChordSymbol, SymbolOf(c), line, column)
  }

  /** A well-formed chord's token is a chord token that decomposes back to the chord. */
  lemma ChordTokenRead(c: Chord, line: int, column: int)
    requires WellFormedChord(c)
    ensures IsChordKind(ChordToken(c, line, column).kind) && ChordOf(ChordToken(c, line, column)) == Ok(c)
  {
    DecomposeSymbolOf(c);
  }

  // ---------------------------------------------------------------------------
  // Tuplets
  // ---------------------------------------------------------------------------

  /** The tokens from `p` on are chord or no-chord tokens that decompose to `cs`, in order. */
  predicate ChordsAt(toks: seq<Token>, p: nat, cs: seq<Chord>)
    decreases |cs|
  {
    cs == [] ||
    (p < |toks| && IsChordKind(toks[p].kind) && ChordOf(toks[p]) == Ok(cs[0])
     && ChordsAt(toks, p + 1, cs[1..]))
  }

  /** The tuplet loop reads the chords laid out before a token that is not a chord. */
  lemma {:induction false} TupletChordsReads(toks: seq<Token>, p: nat, cs: seq<Chord>, acc: seq<Chord>)
    requires p <= |toks| && ChordsAt(toks, p, cs)
    requires !(p + |cs| < |toks| && IsChordKind(toks[p + |cs|].kind))
    ensures p + |cs| <= |toks|
    ensures TupletChords(toks, p, acc) == Ok(Parsed(acc + cs, p + |cs|))
    decreases |cs|
  {
    if cs == [] {
      AppendEmpty(acc);
    } else {
      TupletChordsReads(toks, p + 1, cs[1..], acc + [cs[0]]);
      AppendHead(acc, cs);
    }
  }

  /** Whatever the tuplet loop reads is a run of chord tokens, and it stops at a token
      that is not a chord or at the end. */
  lemma {:induction false} TupletChordsOnlyChords(toks: seq<Token>, p: nat, acc: seq<Chord>)
    requires p <= |toks| && TupletChords(toks, p, acc).Ok?
    ensures var r := TupletChords(toks, p, acc).value;
            |acc| <= |r.value| && r.next == p + |r.value| - |acc|
            && ChordsAt(toks, p, r.value[|acc|..])
    decreases |toks| - p
  {
    TupletChordsCount(toks, p, acc);
    var r := TupletChords(toks, p, acc).value;
    if p < |toks| && toks[p].kind != TupletEnd && IsChordKind(toks[p].kind) {
      var c := ChordOf(toks[p]).value;
      TupletChordsOnlyChords(toks, p + 1, acc + [c]);
      DropOne(r.value, |acc|);
    }
  }

  /** `(`, chord tokens, then `)` is read as a tuplet of those chords. */
  lemma TupletRead(toks: seq<Token>, p: nat, cs: seq<Chord>)
    requires At(toks, p, TupletStart) && ChordsAt(toks, p + 1, cs) && At(toks, p + 1 + |cs|, TupletEnd)
    ensures ParseTuplet(toks, p) == Ok(Parsed(cs, p + 2 + |cs|))
  {
    assert !IsChordKind(toks[p + 1 + |cs|].kind);
    TupletChordsReads(toks, p + 1, cs, []);
    AppendEmpty(cs);
    ParseTupletOver(toks, p, cs);
  }

  /** `(`, chords the tuplet loop reads, then `)`: the tuplet parser returns those chords. */
  lemma ParseTupletOver(toks: seq<Token>, p: nat, cs: seq<Chord>)
    requires At(toks, p, TupletStart) && At(toks, p + 1 + |cs|, TupletEnd)
    requires TupletChords(toks, p + 1, []) == Ok(Parsed(cs, p + 1 + |cs|))
    ensures ParseTuplet(toks, p) == Ok(Parsed(cs, p + 2 + |cs|))
  {
  }

  /** A tuplet the parser accepts is `(`, chord tokens for its chords, then `)`. */
  lemma TupletOnlyChords(toks: seq<Token>, p: nat)
    requires p <= |toks| && ParseTuplet(toks, p).Ok?
    ensures var r := ParseTuplet(toks, p).value;
            At(toks, p, TupletStart) && ChordsAt(toks, p + 1, r.value) && At(toks, p + 1 + |r.value|, TupletEnd)
            && r.next == p + 2 + |r.value|
  {
    TupletChordsOnlyChords(toks, p + 1, []);
    DropNone(TupletChords(toks, p + 1, []).value.value);
  }

  /** A tuplet is `(`, chord and no-chord tokens only (none at all is allowed), then `)`:
      the tuplet parser succeeds exactly on that shape and returns the chords. */
  lemma TupletShape(toks: seq<Token>, p: nat, cs: seq<Chord>, q: nat)
    requires p <= |toks|
    ensures ParseTuplet(toks, p) == Ok(Parsed(cs, q)) <==>
            At(toks, p, TupletStart) && ChordsAt(toks, p + 1, cs) && At(toks, p + 1 + |cs|, TupletEnd)
            && q == p + 2 + |cs|
  {
    if ParseTuplet(toks, p).Ok? {
      TupletOnlyChords(toks, p);
    }
    if At(toks, p, TupletStart) && ChordsAt(toks, p + 1, cs) && At(toks, p + 1 + |cs|, TupletEnd) {
      TupletRead(toks, p, cs);
    }
  }

  /** A tuplet whose chords are not followed by `)` fails, naming what stood there. */
  lemma TupletMissingEnd(toks: seq<Token>, p: nat, cs: seq<Chord>, q: nat)
    requires At(toks, p, TupletStart) && TupletChords(toks, p + 1, []) == Ok(Parsed(cs, q))
    requires !At(toks, q, TupletEnd)
    ensures ParseTuplet(toks, p) == Err(Expected(TupletEnd, Peek(toks, q)))
  {
  }

  // ---------------------------------------------------------------------------
  // Measure content
  // ---------------------------------------------------------------------------

  /** A chord token adds a chord beat. */
  lemma ContentChordStep(toks: seq<Token>, p: nat, c: Chord, acc: seq<Beat>)
    requires p < |toks| && IsChordKind(toks[p].kind) && ChordOf(toks[p]) == Ok(c)
    ensures Content(toks, p, acc) == Content(toks, p + 1, acc + [ChordBeat(c)])
  {
    assert Content(toks, p, acc) == ContentChord(toks, p, acc);
    assert ContentChord(toks, p, acc) == ContentThen(toks, p + 1, acc, ChordBeat(c));
  }

  /** A chord token the decomposer rejects fails the measure with the decomposer's error. */
  lemma ContentBadChord(toks: seq<Token>, p: nat, e: ChordError, acc: seq<Beat>)
    requires p < |toks| && IsChordKind(toks[p].kind) && DecomposeChord(toks[p].value) == Err(e)
    ensures Content(toks, p, acc) == Err(BadChord(e))
  {
    assert Content(toks, p, acc) == ContentChord(toks, p, acc);
  }

  /** A continuation mark adds a continuation beat. */
  lemma ContentContinuationStep(toks: seq<Token>, p: nat, acc: seq<Beat>)
    requires p < |toks| && toks[p].kind == ContinuationMark
    ensures Content(toks, p, acc) == Content(toks, p + 1, acc + [Continuation])
  {
  }

  /** A tuplet adds one tuplet beat and reading goes on after its `)`. */
  lemma ContentTupletStep(toks: seq<Token>, p: nat, cs: seq<Chord>, q: nat, acc: seq<Beat>)
    requires p < |toks| && ParseTuplet(toks, p) == Ok(Parsed(cs, q))
    ensures Content(toks, p, acc) == Content(toks, q, acc + [Tuplet(cs)])
  {
    assert toks[p].kind == TupletStart;
    assert Content(toks, p, acc) == ContentTuplet(toks, p, acc);
  }

  /** Content stops, reading nothing, at a bar end, at the end of the tokens, and at any
      token that starts no beat. */
  lemma ContentStop(toks: seq<Token>, p: nat, acc: seq<Beat>)
    requires p <= |toks|
    requires p == |toks| || AtBarEnd(toks, p)
             || !(IsChordKind(toks[p].kind) || toks[p].kind in {ContinuationMark, TupletStart})
    ensures Content(toks, p, acc) == Ok(Parsed(acc, p))
  {
  }

  /** The tokens from `p` up to `q` are the beats `bs`: each one a chord token, a
      continuation mark, or a tuplet the tuplet parser accepts. */
  predicate BeatsAt(toks: seq<Token>, p: nat, bs: seq<Beat>, q: nat)
    decreases |bs|
  {
    if bs == [] then p == q
    else
      p < |toks| &&
      match bs[0]
      case ChordBeat(c) => IsChordKind(toks[p].kind) && ChordOf(toks[p]) == Ok(c) && BeatsAt(toks, p + 1, bs[1..], q)
      case Continuation => toks[p].kind == ContinuationMark && BeatsAt(toks, p + 1, bs[1..], q)
      case Tuplet(cs) =>
        ParseTuplet(toks, p) == Ok(Parsed(cs, p + 2 + |cs|)) && BeatsAt(toks, p + 2 + |cs|, bs[1..], q)
  }

  /** Where content stops: the end of the tokens, a bar end, or a token that starts no beat. */
  predicate ContentEnds(toks: seq<Token>, q: nat) {
    q == |toks| || (q < |toks| && (AtBarEnd(toks, q) || !(IsChordKind(toks[q].kind) || toks[q].kind in {ContinuationMark, TupletStart})))
  }

  /** Beats laid out up to a place where content stops are read as exactly those beats. */
  lemma {:induction false} ContentReads(toks: seq<Token>, p: nat, bs: seq<Beat>, q: nat, acc: seq<Beat>)
    requires p <= |toks| && BeatsAt(toks, p, bs, q) && ContentEnds(toks, q)
    ensures Content(toks, p, acc) == Ok(Parsed(acc + bs, q))
    decreases |bs|
  {
    if bs == [] {
      ContentStop(toks, p, acc);
      AppendEmpty(acc);
    } else {
      AppendHead(acc, bs);
      match bs[0]
      case ChordBeat(c) =>
        ContentChordStep(toks, p, c, acc);
        ContentReads(toks, p + 1, bs[1..], q, acc + [bs[0]]);
      case Continuation =>
        ContentContinuationStep(toks, p, acc);
        ContentReads(toks, p + 1, bs[1..], q, acc + [bs[0]]);
      case Tuplet(cs) =>
        var r := p + 2 + |cs|;
        ContentTupletStep(toks, p, cs, r, acc);
        ContentReads(toks, r, bs[1..], q, acc + [bs[0]]);
    }
  }

  /** `r` extends `acc` by beats laid out from `p` to where it stopped, and content ends there. */
  predicate ReadBeats(toks: seq<Token>, p: nat, acc: seq<Beat>, r: Parsed<seq<Beat>>) {
    |acc| <= |r.value| && r.value[..|acc|] == acc
    && BeatsAt(toks, p, r.value[|acc|..], r.next) && ContentEnds(toks, r.next)
  }

  /** Whatever the content loop reads is beats laid out from where it started to where it
      stopped, and it stops only where content ends. */
  lemma {:induction false} ContentShape(toks: seq<Token>, p: nat, acc: seq<Beat>)
    requires p <= |toks| && Content(toks, p, acc).Ok?
    ensures ReadBeats(toks, p, acc, Content(toks, p, acc).value)
    decreases |toks| - p, 1
  {
    if AtBarEnd(toks, p) || p >= |toks| {
      ContentStop(toks, p, acc);
    } else if IsChordKind(toks[p].kind) {
      var c := ChordOf(toks[p]).value;
      ContentChordStep(toks, p, c, acc);
      ContentShapeStep(toks, p, ChordBeat(c), p + 1, acc);
    } else if toks[p].kind == ContinuationMark {
      ContentContinuationStep(toks, p, acc);
      ContentShapeStep(toks, p, Continuation, p + 1, acc);
    } else if toks[p].kind == TupletStart {
      ContentShapeTuplet(toks, p, acc);
    } else {
      ContentStop(toks, p, acc);
    }
  }

  /** A tuplet, then what the loop reads after it. */
  lemma {:induction false} ContentShapeTuplet(toks: seq<Token>, p: nat, acc: seq<Beat>)
    requires p < |toks| && toks[p].kind == TupletStart && Content(toks, p, acc).Ok?
    ensures ReadBeats(toks, p, acc, Content(toks, p, acc).value)
    decreases |toks| - p, 0
  {
    assert Content(toks, p, acc) == ContentTuplet(toks, p, acc);
    var t := ParseTuplet(toks, p).value;
    TupletOnlyChords(toks, p);
    ContentTupletStep(toks, p, t.value, t.next, acc);
    ContentShapeStep(toks, p, Tuplet(t.value), t.next, acc);
  }

  /** One beat `b` laid out from `p` to `q`, then what the loop reads from `q`. */
  lemma {:induction false} ContentShapeStep(toks: seq<Token>, p: nat, b: Beat, q: nat, acc: seq<Beat>)
    requires p < q <= |toks| && Content(toks, p, acc) == Content(toks, q, acc + [b])
    requires Content(toks, q, acc + [b]).Ok?
    requires BeatsAt(toks, p, [b], q)
    ensures ReadBeats(toks, p, acc, Content(toks, p, acc).value)
    decreases |toks| - q, 2
  {
    var r := Content(toks, q, acc + [b]).value;
    ContentShape(toks, q, acc + [b]);
    BeatsCons(toks, p, b, q, r.value[|acc| + 1..], r.next);
    DropOne(r.value, |acc|);
  }

  /** One beat from `p` to `q` followed by beats from `q` to `e` are beats from `p` to `e`. */
  lemma BeatsCons(toks: seq<Token>, p: nat, b: Beat, q: nat, bs: seq<Beat>, e: nat)
    requires BeatsAt(toks, p, [b], q) && BeatsAt(toks, q, bs, e)
    ensures BeatsAt(toks, p, [b] + bs, e)
  {
    assert ([b] + bs)[1..] == bs && [b][1..] == [];
  }

  /** The content loop reads `bs` and stops at `q` exactly when the tokens from the cursor to
      `q` are the beats `bs` and content ends at `q`. */
  lemma ContentIff(toks: seq<Token>, p: nat, bs: seq<Beat>, q: nat, acc: seq<Beat>)
    requires p <= |toks|
    ensures Content(toks, p, acc) == Ok(Parsed(acc + bs, q)) <==> BeatsAt(toks, p, bs, q) && ContentEnds(toks, q)
  {
    if Content(toks, p, acc) == Ok(Parsed(acc + bs, q)) {
      ContentShape(toks, p, acc);
      DropAppend(acc, bs);
    }
    if BeatsAt(toks, p, bs, q) && ContentEnds(toks, q) {
      ContentReads(toks, p, bs, q, acc);
    }
  }

  // ---------------------------------------------------------------------------
  // Measures
  // ---------------------------------------------------------------------------

  /** `| content` followed by a bar end is a measure with those beats and count 1; the bar
      end is not consumed. */
  lemma ParseMeasureOver(toks: seq<Token>, p: nat, bs: seq<Beat>, q: nat)
    requires At(toks, p, BarStart) && Content(toks, p + 1, []) == Ok(Parsed(bs, q))
    requires AtBarEnd(toks, q)
    ensures ParseMeasure(toks, p) == Ok(Parsed(Measure(bs, 1), q))
  {
  }

  /** Content that stops anywhere but at `|`, `:|` or a newline, the end of the tokens
      included, is a missing closing bar. */
  lemma MeasureMissingClosingBar(toks: seq<Token>, p: nat, bs: seq<Beat>, q: nat)
    requires At(toks, p, BarStart) && Content(toks, p + 1, []) == Ok(Parsed(bs, q))
    requires !AtBarEnd(toks, q)
    ensures ParseMeasure(toks, p) == Err(MissingClosingBar(if q < |toks| then Some(toks[q].kind) else None))
  {
  }

  // ---------------------------------------------------------------------------
  // Measure lines
  // ---------------------------------------------------------------------------

  /** After a measure the line goes on where the closing-bar rule says. */
  lemma LineMeasureStep(toks: seq<Token>, p: nat, m: Bar, q: nat, acc: seq<LineItem>)
    requires At(toks, p, BarStart) && !At(toks, p + 1, SingleRepeat)
    requires ParseMeasure(toks, p) == Ok(Parsed(m, q))
    ensures LineItems(toks, p, acc) == LineItems(toks, CloseBar(toks, q), acc + [BarItem(m)])
  {
    assert LineItems(toks, p, acc) == LineBar(toks, p, acc);
    assert LineBar(toks, p, acc) == LineItemsThen(toks, CloseBar(toks, q), acc, BarItem(m));
  }

  /** The `|` that ends a measure also opens the next one, unless a newline or a count
      follows it. */
  lemma SharedBar(toks: seq<Token>, p: nat, m: Bar, q: nat, acc: seq<LineItem>)
    requires At(toks, p, BarStart) && !At(toks, p + 1, SingleRepeat)
    requires ParseMeasure(toks, p) == Ok(Parsed(m, q))
    requires At(toks, q, BarStart) && q + 1 < |toks| && toks[q + 1].kind !in {Newline, MultiRepeat}
    ensures LineItems(toks, p, acc) == LineItems(toks, q, acc + [BarItem(m)])
  {
    LineMeasureStep(toks, p, m, q, acc);
  }

  /** A `|` that ends a measure and is followed by a newline, a count or nothing is consumed. */
  lemma ClosingBar(toks: seq<Token>, p: nat, m: Bar, q: nat, acc: seq<LineItem>)
    requires At(toks, p, BarStart) && !At(toks, p + 1, SingleRepeat)
    requires ParseMeasure(toks, p) == Ok(Parsed(m, q))
    requires At(toks, q, BarStart) && (q + 1 == |toks| || toks[q + 1].kind in {Newline, MultiRepeat})
    ensures LineItems(toks, p, acc) == LineItems(toks, q + 1, acc + [BarItem(m)])
  {
    LineMeasureStep(toks, p, m, q, acc);
  }

  /** `| %`, with its count if one follows, is a repeat measure, after which the closing-bar
      rule applies as after a measure. */
  lemma LineBarRepeatStep(toks: seq<Token>, p: nat, b: Bar, q: nat, acc: seq<LineItem>)
    requires At(toks, p, BarStart) && ParseRepeatMeasure(toks, p + 1) == Ok(Parsed(b, q))
    ensures LineItems(toks, p, acc) == LineItems(toks, CloseBar(toks, q), acc + [BarItem(b)])
  {
    assert LineItems(toks, p, acc) == LineBar(toks, p, acc);
  }

  /** A `%` with no `|` before it is a repeat measure, and no closing bar is looked for. */
  lemma LineRepeatStep(toks: seq<Token>, p: nat, b: Bar, q: nat, acc: seq<LineItem>)
    requires p <= |toks| && ParseRepeatMeasure(toks, p) == Ok(Parsed(b, q))
    ensures LineItems(toks, p, acc) == LineItems(toks, q, acc + [BarItem(b)])
  {
    assert LineItems(toks, p, acc) == LineRepeat(toks, p, acc);
  }

  /** A count replaces the last item of the line by that item with the count attached. */
  lemma LineCountStep(toks: seq<Token>, p: nat, acc: seq<LineItem>)
    requires At(toks, p, MultiRepeat) && acc != []
    ensures LineItems(toks, p, acc)
            == LineItems(toks, p + 1, acc[..|acc| - 1] + [AttachCount(acc[|acc| - 1], CountOf(toks[p].value))])
  {
    assert LineItems(toks, p, acc) == LineCount(toks, p, acc);
  }

  /** A count with nothing before it on its line is an error. */
  lemma LineCountAtStart(toks: seq<Token>, p: nat)
    requires At(toks, p, MultiRepeat)
    ensures LineItems(toks, p, []) == Err(RepeatCountAtLineStart)
  {
    assert LineItems(toks, p, []) == LineCount(toks, p, []);
  }

  /** A repeat section is one item of the line. */
  lemma LineSectionStep(toks: seq<Token>, p: nat, it: LineItem, q: nat, acc: seq<LineItem>)
    requires p <= |toks| && ParseRepeatSection(toks, p) == Ok(Parsed(it, q))
    ensures LineItems(toks, p, acc) == LineItems(toks, q, acc + [it])
  {
    assert LineItems(toks, p, acc) == LineSection(toks, p, acc);
  }

  /** A line ends, without consuming anything, at the end of the tokens, at a newline and
      at any token that starts no item. */
  lemma LineStop(toks: seq<Token>, p: nat, acc: seq<LineItem>)
    requires p <= |toks|
    requires p == |toks| || toks[p].kind !in {RepeatStart, SingleRepeat, MultiRepeat, BarStart}
    ensures LineItems(toks, p, acc) == Ok(Parsed(acc, p))
  {
  }

  // ---------------------------------------------------------------------------
  // Repeat sections
  // ---------------------------------------------------------------------------

  /** A section that opens with `%` starts with that repeat measure. */
  lemma SectionFirstRepeat(toks: seq<Token>, p: nat, b: Bar, q: nat)
    requires p <= |toks| && ParseRepeatMeasure(toks, p) == Ok(Parsed(b, q))
    ensures SectionFirst(toks, p) == Ok(Parsed([b], q))
  {
  }

  /** Otherwise the section starts with the content read there, as a measure, unless that
      content is empty and stops at neither `|` nor `:|`. */
  lemma SectionFirstContent(toks: seq<Token>, p: nat, bs: seq<Beat>, q: nat)
    requires p <= |toks| && !At(toks, p, SingleRepeat) && Content(toks, p, []) == Ok(Parsed(bs, q))
    ensures SectionFirst(toks, p)
            == Ok(Parsed(if bs != [] || At(toks, q, BarStart) || At(toks, q, RepeatEnd) then [Measure(bs, 1)] else [], q))
  {
  }

  /** A `%` inside a section, with or without `|` before it, is a repeat measure of the section. */
  lemma SectionBarsRepeatStep(toks: seq<Token>, p: nat, b: Bar, q: nat, acc: seq<Bar>)
    requires (p <= |toks| && ParseRepeatMeasure(toks, p) == Ok(Parsed(b, q)))
             || (At(toks, p, BarStart) && ParseRepeatMeasure(toks, p + 1) == Ok(Parsed(b, q)))
    ensures SectionBars(toks, p, acc) == SectionBars(toks, q, acc + [b])
  {
  }

  /** `|` and content inside a section is a measure of the section; the bar end after the
      content is left for the next turn. */
  lemma SectionBarsMeasureStep(toks: seq<Token>, p: nat, bs: seq<Beat>, q: nat, acc: seq<Bar>)
    requires At(toks, p, BarStart) && !At(toks, p + 1, SingleRepeat) && !At(toks, p + 1, RepeatEnd)
    requires Content(toks, p + 1, []) == Ok(Parsed(bs, q))
    ensures SectionBars(toks, p, acc) == SectionBars(toks, q, acc + [Measure(bs, 1)])
  {
  }

  /** `| :|` ends the bars of a section without adding an empty measure. */
  lemma SectionBarsEnd(toks: seq<Token>, p: nat, acc: seq<Bar>)
    requires At(toks, p, BarStart) && At(toks, p + 1, RepeatEnd)
    ensures SectionBars(toks, p, acc) == Ok(Parsed(acc, p + 1))
  {
  }

  /** Anything but `|` or `%` ends the bars of a section, consuming nothing. */
  lemma SectionBarsStop(toks: seq<Token>, p: nat, acc: seq<Bar>)
    requires p <= |toks| && !At(toks, p, BarStart) && !At(toks, p, SingleRepeat)
    ensures SectionBars(toks, p, acc) == Ok(Parsed(acc, p))
  {
  }

  /** `|:`, the first bar, the other bars and `:|` make a section with those bars; a count
      right after `:|` is the section's count, otherwise it is played once. */
  lemma ParseRepeatSectionOver(toks: seq<Token>, p: nat, first: seq<Bar>, q: nat, ms: seq<Bar>, e: nat)
    requires At(toks, p, RepeatStart) && SectionFirst(toks, p + 1) == Ok(Parsed(first, q))
    requires SectionBars(toks, q, first) == Ok(Parsed(ms, e)) && At(toks, e, RepeatEnd)
    ensures ParseRepeatSection(toks, p)
            == if At(toks, e + 1, MultiRepeat)
               then Ok(Parsed(RepeatSection(ms, CountOf(toks[e + 1].value)), e + 2))
               else Ok(Parsed(RepeatSection(ms, 1), e + 1))
  {
  }

  /** A section whose bars are not followed by `:|` fails, naming what stood there. */
  lemma SectionMissingEnd(toks: seq<Token>, p: nat, first: seq<Bar>, q: nat, ms: seq<Bar>, e: nat)
    requires At(toks, p, RepeatStart) && SectionFirst(toks, p + 1) == Ok(Parsed(first, q))
    requires SectionBars(toks, q, first) == Ok(Parsed(ms, e)) && !At(toks, e, RepeatEnd)
    ensures ParseRepeatSection(toks, p) == Err(Expected(RepeatEnd, Peek(toks, e)))
  {
  }

  // ---------------------------------------------------------------------------
  // The top-level loop
  // ---------------------------------------------------------------------------

  /** Blank lines are skipped. */
  lemma SongNewlineStep(toks: seq<Token>, p: nat, body: seq<Node>)
    requires At(toks, p, Newline)
    ensures SongBody(toks, p, body) == SongBody(toks, p + 1, body)
  {
  }

  /** `{` starts an annotation. */
  lemma SongAnnotationStep(toks: seq<Token>, p: nat, c: string, q: nat, body: seq<Node>)
    requires p <= |toks| && ParseAnnotation(toks, p) == Ok(Parsed(c, q))
    ensures SongBody(toks, p, body) == SongBody(toks, q, body + [Annotation(c)])
  {
    assert SongBody(toks, p, body) == SongAnnotation(toks, p, body);
    assert SongAnnotation(toks, p, body) == SongBodyThen(toks, q, body, Annotation(c));
  }

  /** `|`, `|:` or `%` starts a measure line. */
  lemma SongLineStep(toks: seq<Token>, p: nat, items: seq<LineItem>, q: nat, body: seq<Node>)
    requires AtMeasureStart(toks, p) && ParseMeasureLine(toks, p) == Ok(Parsed(items, q))
    ensures SongBody(toks, p, body) == SongBody(toks, q, body + [MeasureLine(items)])
  {
    assert SongBody(toks, p, body) == SongLine(toks, p, body);
    assert SongLine(toks, p, body) == SongBodyThen(toks, q, body, MeasureLine(items));
  }

  /** Any other token at the top level is an error that names its kind and line. */
  lemma SongUnexpected(toks: seq<Token>, p: nat, body: seq<Node>)
    requires p < |toks| && toks[p].kind !in {Newline, AnnotationStart, BarStart, RepeatStart, SingleRepeat}
    ensures SongBody(toks, p, body) == Err(UnexpectedToken(toks[p].kind, toks[p].line))
  {
  }

  /** Every measure line of a parsed chart has at least one item. */
  predicate LinesNonEmpty(body: seq<Node>) {
    forall i :: 0 <= i < |body| && body[i].MeasureLine? ==> body[i].items != []
  }

  /** The top-level loop only ever adds measure lines with items. */
  lemma {:induction false} SongBodyLinesNonEmpty(toks: seq<Token>, p: nat, body: seq<Node>)
    requires p <= |toks| && LinesNonEmpty(body) && SongBody(toks, p, body).Ok?
    ensures LinesNonEmpty(SongBody(toks, p, body).value)
    decreases |toks| - p
  {
    if p < |toks| {
      if At(toks, p, Newline) {
        SongBodyLinesNonEmpty(toks, p + 1, body);
      } else if At(toks, p, AnnotationStart) {
        var a := ParseAnnotation(toks, p).value;
        SongAnnotationStep(toks, p, a.value, a.next, body);
        SongBodyLinesNonEmpty(toks, a.next, body + [Annotation(a.value)]);
      } else {
        var l := ParseMeasureLine(toks, p).value;
        SongLineStep(toks, p, l.value, l.next, body);
        SongBodyLinesNonEmpty(toks, l.next, body + [MeasureLine(l.value)]);
      }
    }
  }

  /** No parsed chart has an empty measure line. */
  lemma ParsedLinesNonEmpty(toks: seq<Token>)
    requires ParseTokens(toks).Ok?
    ensures LinesNonEmpty(ParseTokens(toks).value.body)
  {
    SongBodyLinesNonEmpty(toks, 0, []);
  }

}
