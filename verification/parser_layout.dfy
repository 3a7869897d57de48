/**
 * Where the parser's loops find their parts in the token list. For the bars of
 * a repeat section, the items of a measure line and the nodes of a chart, a
 * predicate describes the tokens each part is written with, and an
 * if-and-only-if lemma shows that the loop reads exactly what those tokens lay
 * out. Two charts, written out token by token, close the file.
 */
module ParserLayout {
  import opened Common
  import opened Lexer
  import opened Ast
  import opened Parser
  import opened ParserLemmas

  // ---------------------------------------------------------------------------
  // Counts and repeat measures
  // ---------------------------------------------------------------------------

  /** Where an optional count at `p` ends: after a multi-repeat token, or at `p` itself. */
  function CountEnd(toks: seq<Token>, p: nat): nat {
    if At(toks, p, MultiRepeat) then p + 1 else p
  }

  /** The optional count at `p`: a multi-repeat token gives its count, anything else 1. */
  predicate CountAt(toks: seq<Token>, p: nat, n: nat) {
    if At(toks, p, MultiRepeat) then n == CountOf(toks[p].value) else n == 1
  }

  /** Where a `%` at `p` and its optional count end. */
  function AfterRepeatMeasure(toks: seq<Token>, p: nat): nat {
    CountEnd(toks, p + 1)
  }

  /** `%` at `p` and its optional count: a repeat measure played `n` times. */
  predicate RepeatMeasureAt(toks: seq<Token>, p: nat, n: nat) {
    At(toks, p, SingleRepeat) && CountAt(toks, p + 1, n)
  }

  /** The repeat-measure reader accepts exactly a `%` with its optional count. */
  lemma RepeatMeasureIff(toks: seq<Token>, p: nat, n: nat, q: nat)
    requires p <= |toks|
    ensures ParseRepeatMeasure(toks, p) == Ok(Parsed(RepeatMeasure(n), q))
            <==> RepeatMeasureAt(toks, p, n) && q == AfterRepeatMeasure(toks, p)
  {
  }

  // ---------------------------------------------------------------------------
  // Beats
  // ---------------------------------------------------------------------------

  /** How many tokens beats are written with: one per chord or continuation, and a tuplet's
      chords between its two brackets. */
  function BeatsWidth(bs: seq<Beat>): nat {
    if bs == [] then 0
    else (match bs[0] case Tuplet(cs) => 2 + |cs| case _ => 1) + BeatsWidth(bs[1..])
  }

  /** Laid-out beats end `BeatsWidth` tokens after they start, within the tokens. */
  lemma {:induction false} BeatsAtWidth(toks: seq<Token>, p: nat, bs: seq<Beat>, q: nat)
    requires p <= |toks| && BeatsAt(toks, p, bs, q)
    ensures q == p + BeatsWidth(bs) && q <= |toks|
    decreases |bs|
  {
    if bs != [] {
      match bs[0]
      case ChordBeat(_) => BeatsAtWidth(toks, p + 1, bs[1..], q);
      case Continuation => BeatsAtWidth(toks, p + 1, bs[1..], q);
      case Tuplet(cs) => BeatsAtWidth(toks, p + 2 + |cs|, bs[1..], q);
    }
  }

  /** Beats from `p`, up to a place where content ends. */
  predicate ContentAt(toks: seq<Token>, p: nat, bs: seq<Beat>) {
    BeatsAt(toks, p, bs, p + BeatsWidth(bs)) && ContentEnds(toks, p + BeatsWidth(bs))
  }

  /** The content loop reads exactly the beats laid out up to where content ends. */
  lemma ContentAtIff(toks: seq<Token>, p: nat, bs: seq<Beat>, q: nat)
    requires p <= |toks|
    ensures Content(toks, p, []) == Ok(Parsed(bs, q)) <==> ContentAt(toks, p, bs) && q == p + BeatsWidth(bs)
  {
    AppendEmpty(bs);
    ContentIff(toks, p, bs, q, []);
    if BeatsAt(toks, p, bs, q) {
      BeatsAtWidth(toks, p, bs, q);
    }
  }

  // ---------------------------------------------------------------------------
  // The bars of a repeat section
  // ---------------------------------------------------------------------------

  /** Where the bars of a section stop: `| :|` stops them on the `:|`, and any token but `|`
      and `%` (or the end) stops them where it stands. */
  predicate SectionBarsStopAt(toks: seq<Token>, p: nat, e: nat) {
    if At(toks, p, BarStart) then At(toks, p + 1, RepeatEnd) && e == p + 1
    else !At(toks, p, SingleRepeat) && e == p
  }

  /** Where a section bar starts once its optional `|` is passed. */
  function BarBody(toks: seq<Token>, p: nat): nat {
    if At(toks, p, BarStart) then p + 1 else p
  }

  /** Where a section bar laid out at `p` ends. */
  function SectionBarEnd(toks: seq<Token>, p: nat, b: Bar): nat {
    match b
    case RepeatMeasure(_) => AfterRepeatMeasure(toks, BarBody(toks, p))
    case Measure(bs, _) => p + 1 + BeatsWidth(bs)
  }

  /** One section bar at `p`: `%` with or without `|` before it is a repeat measure; `|` and
      then beats up to where content ends is a measure with count 1, unless the beats start
      with `%` or `:|`. */
  predicate SectionBarAt(toks: seq<Token>, p: nat, b: Bar) {
    match b
    case RepeatMeasure(n) => RepeatMeasureAt(toks, BarBody(toks, p), n)
    case Measure(bs, k) =>
      k == 1 && At(toks, p, BarStart) && !At(toks, p + 1, SingleRepeat) && !At(toks, p + 1, RepeatEnd)
      && ContentAt(toks, p + 1, bs)
  }

  /** The tokens from `p` lay out the section bars `ms`, and the bars stop at `e`. */
  predicate SectionBarsAt(toks: seq<Token>, p: nat, ms: seq<Bar>, e: nat)
    decreases |ms|
  {
    if ms == [] then SectionBarsStopAt(toks, p, e)
    else SectionBarAt(toks, p, ms[0]) && SectionBarsAt(toks, SectionBarEnd(toks, p, ms[0]), ms[1..], e)
  }

  /** One laid-out section bar is read as that bar, up to where it ends. */
  lemma SectionBarStep(toks: seq<Token>, p: nat, b: Bar, acc: seq<Bar>)
    requires p <= |toks| && SectionBarAt(toks, p, b)
    ensures p < SectionBarEnd(toks, p, b) <= |toks|
    ensures SectionBars(toks, p, acc) == SectionBars(toks, SectionBarEnd(toks, p, b), acc + [b])
  {
    var q := SectionBarEnd(toks, p, b);
    match b
    case RepeatMeasure(n) =>
      SectionBarsRepeatStep(toks, p, b, q, acc);
    case Measure(bs, _) =>
      ContentAtIff(toks, p + 1, bs, q);
      BeatsAtWidth(toks, p + 1, bs, q);
      SectionBarsMeasureStep(toks, p, bs, q, acc);
  }

  /** Section bars laid out from `p` are read as exactly those bars, stopping at `e`. */
  lemma {:induction false} SectionBarsReads(toks: seq<Token>, p: nat, ms: seq<Bar>, e: nat, acc: seq<Bar>)
    requires p <= |toks| && SectionBarsAt(toks, p, ms, e)
    ensures SectionBars(toks, p, acc) == Ok(Parsed(acc + ms, e))
    decreases |ms|
  {
    if ms == [] {
      AppendEmpty(acc);
      if At(toks, p, BarStart) {
        SectionBarsEnd(toks, p, acc);
      } else {
        SectionBarsStop(toks, p, acc);
      }
    } else {
      var q := SectionBarEnd(toks, p, ms[0]);
      SectionBarStep(toks, p, ms[0], acc);
      SectionBarsReads(toks, q, ms[1..], e, acc + [ms[0]]);
      AppendHead(acc, ms);
    }
  }

  /** `r` extends `acc` by section bars laid out from `p` to where they stopped. */
  predicate ReadBars(toks: seq<Token>, p: nat, acc: seq<Bar>, r: Parsed<seq<Bar>>) {
    |acc| <= |r.value| && r.value[..|acc|] == acc && SectionBarsAt(toks, p, r.value[|acc|..], r.next)
  }

  /** The bar found at `p` when the section-bars loop does not stop there. */
  function BarFound(toks: seq<Token>, p: nat): Bar
    requires p <= |toks|
  {
    var s := BarBody(toks, p);
    if At(toks, s, SingleRepeat) then ParseRepeatMeasure(toks, s).value.value
    else match Content(toks, s, []) case Ok(c) => Measure(c.value, 1) case Err(_) => Measure([], 1)
  }

  /** When the section-bars loop goes on at `p`, the bar it finds there is laid out there. */
  lemma BarFoundAt(toks: seq<Token>, p: nat, acc: seq<Bar>)
    requires p <= |toks| && SectionBars(toks, p, acc).Ok?
    requires At(toks, p, BarStart) || At(toks, p, SingleRepeat)
    requires !(At(toks, p, BarStart) && At(toks, p + 1, RepeatEnd))
    ensures SectionBarAt(toks, p, BarFound(toks, p))
  {
    if !At(toks, BarBody(toks, p), SingleRepeat) {
      var c := Content(toks, p + 1, []);
      assert c.Ok?;
      ContentAtIff(toks, p + 1, c.value.value, c.value.next);
    }
  }

  /** Whatever the section-bars loop reads is section bars laid out from where it started. */
  lemma {:induction false} SectionBarsShape(toks: seq<Token>, p: nat, acc: seq<Bar>)
    requires p <= |toks| && SectionBars(toks, p, acc).Ok?
    ensures ReadBars(toks, p, acc, SectionBars(toks, p, acc).value)
    decreases |toks| - p, 1
  {
    if !At(toks, p, BarStart) && !At(toks, p, SingleRepeat) {
      SectionBarsStop(toks, p, acc);
      assert acc[..|acc|] == acc && acc[|acc|..] == [];
    } else if At(toks, p, BarStart) && At(toks, p + 1, RepeatEnd) {
      SectionBarsEnd(toks, p, acc);
      assert acc[..|acc|] == acc && acc[|acc|..] == [];
    } else {
      BarFoundAt(toks, p, acc);
      SectionBarsShapeStep(toks, p, BarFound(toks, p), acc);
    }
  }

  /** One section bar `b` laid out at `p`, then what the loop reads after it. */
  lemma {:induction false} SectionBarsShapeStep(toks: seq<Token>, p: nat, b: Bar, acc: seq<Bar>)
    requires p <= |toks| && SectionBarAt(toks, p, b) && SectionBars(toks, p, acc).Ok?
    ensures ReadBars(toks, p, acc, SectionBars(toks, p, acc).value)
    decreases |toks| - p, 0
  {
    var q := SectionBarEnd(toks, p, b);
    SectionBarStep(toks, p, b, acc);
    var r := SectionBars(toks, q, acc + [b]).value;
    SectionBarsShape(toks, q, acc + [b]);
    DropOne(r.value, |acc|);
    assert r.value[..|acc| + 1][..|acc|] == r.value[..|acc|];
  }

  /** The section-bars loop reads `ms` and stops at `e` exactly when the tokens from the
      cursor lay out the section bars `ms` stopping at `e`. */
  lemma SectionBarsIff(toks: seq<Token>, p: nat, ms: seq<Bar>, e: nat, acc: seq<Bar>)
    requires p <= |toks|
    ensures SectionBars(toks, p, acc) == Ok(Parsed(acc + ms, e)) <==> SectionBarsAt(toks, p, ms, e)
  {
    if SectionBars(toks, p, acc) == Ok(Parsed(acc + ms, e)) {
      SectionBarsShape(toks, p, acc);
      DropAppend(acc, ms);
    }
    if SectionBarsAt(toks, p, ms, e) {
      SectionBarsReads(toks, p, ms, e, acc);
    }
  }

  /** Where section bars laid out from `p` stop: past the last bar, on the `:|` of a
      closing `| :|`, or on the token that ended them. */
  function BarsStop(toks: seq<Token>, p: nat, ms: seq<Bar>): nat
    decreases |ms|
  {
    if ms == [] then BarBody(toks, p)
    else BarsStop(toks, SectionBarEnd(toks, p, ms[0]), ms[1..])
  }

  /** Laid-out section bars stop only where `BarsStop` says. */
  lemma {:induction false} BarsStopAt(toks: seq<Token>, p: nat, ms: seq<Bar>, e: nat)
    requires SectionBarsAt(toks, p, ms, e)
    ensures e == BarsStop(toks, p, ms)
    decreases |ms|
  {
    if ms != [] {
      BarsStopAt(toks, SectionBarEnd(toks, p, ms[0]), ms[1..], e);
    }
  }

  // ---------------------------------------------------------------------------
  // Repeat sections
  // ---------------------------------------------------------------------------

  /** The first element of a section at `p`: a `%` is a repeat measure; otherwise the beats
      up to where content ends are a measure with count 1 when there are some or a `|` or
      `:|` follows them, and there is no first element when the content is empty and stops
      at anything else. */
  predicate SectionFirstAt(toks: seq<Token>, p: nat, first: seq<Bar>, q: nat) {
    if At(toks, p, SingleRepeat) then
      |first| == 1 && first[0].RepeatMeasure? && RepeatMeasureAt(toks, p, first[0].count)
      && q == AfterRepeatMeasure(toks, p)
    else if first == [] then
      q == p && ContentEnds(toks, p) && !At(toks, p, BarStart) && !At(toks, p, RepeatEnd)
    else
      |first| == 1 && first[0].Measure? && first[0].repeatCount == 1 && ContentAt(toks, p, first[0].beats)
      && q == p + BeatsWidth(first[0].beats)
      && (first[0].beats != [] || At(toks, q, BarStart) || At(toks, q, RepeatEnd))
  }

  /** The first-element reader returns exactly the first element laid out at the cursor. */
  lemma SectionFirstIff(toks: seq<Token>, p: nat, first: seq<Bar>, q: nat)
    requires p <= |toks|
    ensures SectionFirst(toks, p) == Ok(Parsed(first, q)) <==> SectionFirstAt(toks, p, first, q)
  {
    if |first| == 1 {
      assert first == [first[0]];
    }
    if !At(toks, p, SingleRepeat) {
      var c := Content(toks, p, []);
      if c.Ok? {
        ContentAtIff(toks, p, c.value.value, c.value.next);
        SectionFirstContent(toks, p, c.value.value, c.value.next);
      }
      if first == [] && SectionFirstAt(toks, p, first, q) {
        ContentAtIff(toks, p, [], p);
      } else if first != [] && SectionFirstAt(toks, p, first, q) {
        ContentAtIff(toks, p, first[0].beats, q);
      }
    }
  }

  /** Where the first element `b` of a section, laid out at `p`, ends. */
  function FirstEnd(toks: seq<Token>, p: nat, b: Bar): nat {
    match b
    case RepeatMeasure(_) => AfterRepeatMeasure(toks, p)
    case Measure(bs, _) => p + BeatsWidth(bs)
  }

  /** Where the `:|` of a section at `p` with bars `ms` stands. */
  function SectionClose(toks: seq<Token>, p: nat, ms: seq<Bar>): nat {
    if ms == [] then p else BarsStop(toks, FirstEnd(toks, p + 1, ms[0]), ms[1..])
  }

  /** Where a section at `p` with bars `ms` ends, its count included. */
  function SectionEnd(toks: seq<Token>, p: nat, ms: seq<Bar>): nat {
    CountEnd(toks, SectionClose(toks, p, ms) + 1)
  }

  /** A repeat section at `p`: `|:`, a first element, the other bars, `:|`, and an optional
      count that is the section's count `k`. */
  predicate SectionAt(toks: seq<Token>, p: nat, ms: seq<Bar>, k: nat) {
    At(toks, p, RepeatStart) && ms != []
    && SectionFirstAt(toks, p + 1, ms[..1], FirstEnd(toks, p + 1, ms[0]))
    && SectionBarsAt(toks, FirstEnd(toks, p + 1, ms[0]), ms[1..], SectionClose(toks, p, ms))
    && At(toks, SectionClose(toks, p, ms), RepeatEnd)
    && CountAt(toks, SectionClose(toks, p, ms) + 1, k)
  }

  /** `|:`, a laid-out first element and section bars, `:|` and a count are read as that
      section. */
  lemma SectionReads(toks: seq<Token>, p: nat, ms: seq<Bar>, k: nat)
    requires p <= |toks| && SectionAt(toks, p, ms, k)
    ensures ParseRepeatSection(toks, p) == Ok(Parsed(RepeatSection(ms, k), SectionEnd(toks, p, ms)))
  {
    var q := FirstEnd(toks, p + 1, ms[0]);
    var m := SectionClose(toks, p, ms);
    assert SectionFirst(toks, p + 1) == Ok(Parsed(ms[..1], q)) by {
      SectionFirstIff(toks, p + 1, ms[..1], q);
    }
    assert SectionBars(toks, q, ms[..1]) == Ok(Parsed(ms, m)) by {
      SectionBarsAfterFirst(toks, q, ms, m);
    }
    SectionOver(toks, p, ms[..1], q, ms, m, k);
  }

  /** The section reader's result once its parts are read, with the count as `CountAt` and
      the end as `SectionEnd` state them. */
  lemma SectionOver(toks: seq<Token>, p: nat, first: seq<Bar>, q: nat, ms: seq<Bar>, m: nat, k: nat)
    requires At(toks, p, RepeatStart) && SectionFirst(toks, p + 1) == Ok(Parsed(first, q))
    requires SectionBars(toks, q, first) == Ok(Parsed(ms, m)) && At(toks, m, RepeatEnd)
    requires CountAt(toks, m + 1, k) && m == SectionClose(toks, p, ms)
    ensures ParseRepeatSection(toks, p) == Ok(Parsed(RepeatSection(ms, k), SectionEnd(toks, p, ms)))
  {
    ParseRepeatSectionOver(toks, p, first, q, ms, m);
  }

  /** Section bars laid out after a first element are read on top of it. */
  lemma SectionBarsAfterFirst(toks: seq<Token>, q: nat, ms: seq<Bar>, m: nat)
    requires q <= |toks| && ms != [] && SectionBarsAt(toks, q, ms[1..], m)
    ensures SectionBars(toks, q, ms[..1]) == Ok(Parsed(ms, m))
  {
    SectionBarsReads(toks, q, ms[1..], m, ms[..1]);
    assert ms[..1] + ms[1..] == ms;
  }

  /** A section the reader accepts has a first element: without one, the bars would stop
      where the first element did, on a token that is not `:|`. */
  lemma SectionHasFirst(toks: seq<Token>, p: nat, first: Parsed<seq<Bar>>, rest: Parsed<seq<Bar>>)
    requires p <= |toks| && SectionFirst(toks, p) == Ok(first)
    requires SectionBars(toks, first.next, first.value) == Ok(rest) && At(toks, rest.next, RepeatEnd)
    ensures |first.value| == 1 && rest.value[..1] == first.value
  {
    SectionFirstIff(toks, p, first.value, first.next);
    if first.value == [] {
      SectionBarsStop(toks, p, []);
    }
  }

  /** A first element and the section bars after it, then `:|` and a count, are a section
      laid out at `p` that closes where the bars stopped. */
  lemma SectionJoin(toks: seq<Token>, p: nat, first: seq<Bar>, q: nat, ms: seq<Bar>, m: nat, k: nat)
    requires At(toks, p, RepeatStart) && |first| == 1 && SectionFirstAt(toks, p + 1, first, q)
    requires |first| <= |ms| && ms[..1] == first && SectionBarsAt(toks, q, ms[1..], m)
    requires At(toks, m, RepeatEnd) && CountAt(toks, m + 1, k)
    ensures SectionAt(toks, p, ms, k) && SectionEnd(toks, p, ms) == CountEnd(toks, m + 1)
  {
    assert FirstEnd(toks, p + 1, ms[0]) == q;
    BarsStopAt(toks, q, ms[1..], m);
  }

  /** A section the reader accepts is laid out at the cursor. */
  lemma SectionShape(toks: seq<Token>, p: nat, ms: seq<Bar>, k: nat, e: nat)
    requires p <= |toks| && ParseRepeatSection(toks, p) == Ok(Parsed(RepeatSection(ms, k), e))
    ensures SectionAt(toks, p, ms, k) && e == SectionEnd(toks, p, ms)
  {
    var first := SectionFirst(toks, p + 1).value;
    var rest := SectionBars(toks, first.next, first.value).value;
    var m := rest.next;
    assert rest.value == ms && CountAt(toks, m + 1, k) && e == CountEnd(toks, m + 1) by {
      ParseRepeatSectionOver(toks, p, first.value, first.next, rest.value, m);
    }
    assert |first.value| == 1 && ms[..1] == first.value by {
      SectionHasFirst(toks, p + 1, first, rest);
    }
    assert SectionFirstAt(toks, p + 1, first.value, first.next) by {
      SectionFirstIff(toks, p + 1, first.value, first.next);
    }
    assert SectionBarsAt(toks, first.next, ms[1..], m) by {
      SectionBarsShape(toks, first.next, first.value);
    }
    SectionJoin(toks, p, first.value, first.next, ms, m, k);
  }

  /** The section reader reads the section `RepeatSection(ms, k)` and stops at `e` exactly
      when a section with bars `ms` and count `k` is laid out at the cursor and ends at `e`. */
  lemma SectionIff(toks: seq<Token>, p: nat, ms: seq<Bar>, k: nat, e: nat)
    requires p <= |toks|
    ensures ParseRepeatSection(toks, p) == Ok(Parsed(RepeatSection(ms, k), e))
            <==> SectionAt(toks, p, ms, k) && e == SectionEnd(toks, p, ms)
  {
    if ParseRepeatSection(toks, p) == Ok(Parsed(RepeatSection(ms, k), e)) {
      SectionShape(toks, p, ms, k, e);
    }
    if SectionAt(toks, p, ms, k) {
      SectionReads(toks, p, ms, k);
    }
  }

  // ---------------------------------------------------------------------------
  // Measure lines
  // ---------------------------------------------------------------------------

  /** What a measure line is written with, piece by piece: an item, or a count that goes
      to the item before it. */
  datatype Piece = ItemPiece(item: LineItem) | CountPiece(count: nat)

  /** Where piece `pc` laid out at `p` ends, before the closing-bar rule. */
  function PieceEnd(toks: seq<Token>, p: nat, pc: Piece): nat {
    match pc
    case CountPiece(_) => p + 1
    case ItemPiece(RepeatSection(ms, _)) => SectionEnd(toks, p, ms)
    case ItemPiece(BarItem(b)) => SectionBarEnd(toks, p, b)
  }

  /** Where the line goes on after piece `pc` at `p`: after a bar that opened with `|`, the
      closing-bar rule applies. */
  function PieceNext(toks: seq<Token>, p: nat, pc: Piece): nat {
    var q := PieceEnd(toks, p, pc);
    if pc.ItemPiece? && pc.item.BarItem? && At(toks, p, BarStart) && q <= |toks| then CloseBar(toks, q) else q
  }

  /** Piece `pc` at `p`: a count token; a repeat section; `%` with or without `|` before it
      and its optional count; or `|` and beats up to a bar end, unless `%` follows the `|`. */
  predicate PieceAt(toks: seq<Token>, p: nat, pc: Piece) {
    match pc
    case CountPiece(n) => At(toks, p, MultiRepeat) && n == CountOf(toks[p].value)
    case ItemPiece(RepeatSection(ms, k)) => SectionAt(toks, p, ms, k)
    case ItemPiece(BarItem(RepeatMeasure(n))) => RepeatMeasureAt(toks, BarBody(toks, p), n)
    case ItemPiece(BarItem(Measure(bs, k))) =>
      k == 1 && At(toks, p, BarStart) && !At(toks, p + 1, SingleRepeat) && ContentAt(toks, p + 1, bs)
      && AtBarEnd(toks, p + 1 + BeatsWidth(bs))
  }

  /** Where a line ends: at the end of the tokens, or on a token that starts no item. */
  predicate LineEndsAt(toks: seq<Token>, p: nat) {
    p == |toks| || (p < |toks| && toks[p].kind !in {RepeatStart, SingleRepeat, MultiRepeat, BarStart})
  }

  /** The tokens from `p` lay out the pieces `ps`, and the line ends at `e`. */
  predicate PiecesAt(toks: seq<Token>, p: nat, ps: seq<Piece>, e: nat)
    decreases |ps|
  {
    p <= |toks| &&
    if ps == [] then e == p && LineEndsAt(toks, p)
    else PieceAt(toks, p, ps[0]) && PiecesAt(toks, PieceNext(toks, p, ps[0]), ps[1..], e)
  }

  /** The items after one more piece: an item is appended, and a count replaces the last
      item by that item with the count attached. */
  function Gather1(items: seq<LineItem>, pc: Piece): seq<LineItem> {
    match pc
    case ItemPiece(it) => items + [it]
    case CountPiece(n) => if items == [] then [] else items[..|items| - 1] + [AttachCount(items[|items| - 1], n)]
  }

  /** The items the pieces `ps` make on top of `items`; none when a count has no item
      before it. */
  function Gather(items: seq<LineItem>, ps: seq<Piece>): Option<seq<LineItem>>
    decreases |ps|
  {
    if ps == [] then Some(items)
    else if ps[0].CountPiece? && items == [] then None
    else Gather(Gather1(items, ps[0]), ps[1..])
  }

  /** One laid-out piece is read as that piece, and the line goes on where `PieceNext` says. */
  lemma PieceStep(toks: seq<Token>, p: nat, pc: Piece, items: seq<LineItem>)
    requires p <= |toks| && PieceAt(toks, p, pc) && (pc.CountPiece? ==> items != [])
    ensures p < PieceNext(toks, p, pc) <= |toks|
    ensures LineItems(toks, p, items) == LineItems(toks, PieceNext(toks, p, pc), Gather1(items, pc))
  {
    match pc
    case CountPiece(n) =>
      LineCountStep(toks, p, items);
    case ItemPiece(RepeatSection(ms, k)) =>
      SectionReads(toks, p, ms, k);
      LineSectionStep(toks, p, pc.item, PieceEnd(toks, p, pc), items);
    case ItemPiece(BarItem(RepeatMeasure(n))) =>
      RepeatPieceStep(toks, p, n, items);
    case ItemPiece(BarItem(Measure(bs, k))) =>
      MeasurePieceStep(toks, p, bs, k, items);
  }

  /** `PieceStep` for a `%`, with or without `|` before it. */
  lemma RepeatPieceStep(toks: seq<Token>, p: nat, n: nat, items: seq<LineItem>)
    requires p <= |toks| && PieceAt(toks, p, ItemPiece(BarItem(RepeatMeasure(n))))
    ensures var pc := ItemPiece(BarItem(RepeatMeasure(n)));
            p < PieceNext(toks, p, pc) <= |toks|
            && LineItems(toks, p, items) == LineItems(toks, PieceNext(toks, p, pc), Gather1(items, pc))
  {
    var pc := ItemPiece(BarItem(RepeatMeasure(n)));
    var q := PieceEnd(toks, p, pc);
    if At(toks, p, BarStart) {
      RepeatMeasureIff(toks, p + 1, n, q);
      LineBarRepeatStep(toks, p, pc.item.bar, q, items);
    } else {
      RepeatMeasureIff(toks, p, n, q);
      LineRepeatStep(toks, p, pc.item.bar, q, items);
    }
  }

  /** `PieceStep` for `|` and the beats of a measure. */
  lemma MeasurePieceStep(toks: seq<Token>, p: nat, bs: seq<Beat>, k: nat, items: seq<LineItem>)
    requires p <= |toks| && PieceAt(toks, p, ItemPiece(BarItem(Measure(bs, k))))
    ensures var pc := ItemPiece(BarItem(Measure(bs, k)));
            p < PieceNext(toks, p, pc) <= |toks|
            && LineItems(toks, p, items) == LineItems(toks, PieceNext(toks, p, pc), Gather1(items, pc))
  {
    var pc := ItemPiece(BarItem(Measure(bs, k)));
    var q := PieceEnd(toks, p, pc);
    ContentAtIff(toks, p + 1, bs, q);
    ParseMeasureOver(toks, p, bs, q);
    LineMeasureStep(toks, p, pc.item.bar, q, items);
  }

  /** Pieces laid out from `p` are read as the items they gather, and the line ends at `e`. */
  lemma {:induction false} LineReads(toks: seq<Token>, p: nat, ps: seq<Piece>, e: nat, items: seq<LineItem>)
    requires PiecesAt(toks, p, ps, e) && Gather(items, ps).Some?
    ensures LineItems(toks, p, items) == Ok(Parsed(Gather(items, ps).value, e))
    decreases |ps|
  {
    if ps == [] {
      LineStop(toks, p, items);
    } else {
      PieceStep(toks, p, ps[0], items);
      LineReads(toks, PieceNext(toks, p, ps[0]), ps[1..], e, Gather1(items, ps[0]));
    }
  }

  /** The piece the line loop finds at `p` when it does not stop there. */
  function PieceFound(toks: seq<Token>, p: nat): Piece
    requires p < |toks|
  {
    if At(toks, p, RepeatStart) then
      ItemPiece(match ParseRepeatSection(toks, p) case Ok(s) => s.value case Err(_) => RepeatSection([], 1))
    else if At(toks, p, MultiRepeat) then CountPiece(CountOf(toks[p].value))
    else if At(toks, p, BarStart) && !At(toks, p + 1, SingleRepeat) then
      ItemPiece(BarItem(match ParseMeasure(toks, p) case Ok(m) => m.value case Err(_) => Measure([], 1)))
    else
      ItemPiece(BarItem(match ParseRepeatMeasure(toks, BarBody(toks, p)) case Ok(m) => m.value case Err(_) => RepeatMeasure(1)))
  }

  /** When the line loop goes on at `p`, the piece it finds there is laid out there, and a
      count has an item before it. */
  lemma PieceFoundAt(toks: seq<Token>, p: nat, items: seq<LineItem>)
    requires p < |toks| && toks[p].kind in {RepeatStart, SingleRepeat, MultiRepeat, BarStart}
    requires LineItems(toks, p, items).Ok?
    ensures PieceAt(toks, p, PieceFound(toks, p))
    ensures PieceFound(toks, p).CountPiece? ==> items != []
  {
    if At(toks, p, RepeatStart) {
      assert LineItems(toks, p, items) == LineSection(toks, p, items);
      var s := ParseRepeatSection(toks, p).value;
      SectionShape(toks, p, s.value.measures, s.value.repeatCount, s.next);
    } else if At(toks, p, MultiRepeat) {
      assert LineItems(toks, p, items) == LineCount(toks, p, items);
    } else if At(toks, p, BarStart) && !At(toks, p + 1, SingleRepeat) {
      assert LineItems(toks, p, items) == LineBar(toks, p, items);
      var c := Content(toks, p + 1, []);
      assert c.Ok?;
      ContentAtIff(toks, p + 1, c.value.value, c.value.next);
    }
  }

  /** Whatever the line loop reads is gathered from pieces laid out from where it started. */
  lemma {:induction false} LineShape(toks: seq<Token>, p: nat, items: seq<LineItem>) returns (ps: seq<Piece>)
    requires p <= |toks| && LineItems(toks, p, items).Ok?
    ensures PiecesAt(toks, p, ps, LineItems(toks, p, items).value.next)
    ensures Gather(items, ps) == Some(LineItems(toks, p, items).value.value)
    decreases |toks| - p, 1
  {
    if p == |toks| || toks[p].kind !in {RepeatStart, SingleRepeat, MultiRepeat, BarStart} {
      LineStop(toks, p, items);
      ps := [];
    } else {
      PieceFoundAt(toks, p, items);
      ps := LineShapeStep(toks, p, PieceFound(toks, p), items);
    }
  }

  /** One piece `pc` laid out at `p`, then what the line loop reads after it. */
  lemma {:induction false} LineShapeStep(toks: seq<Token>, p: nat, pc: Piece, items: seq<LineItem>) returns (ps: seq<Piece>)
    requires p <= |toks| && PieceAt(toks, p, pc) && (pc.CountPiece? ==> items != [])
    requires LineItems(toks, p, items).Ok?
    ensures PiecesAt(toks, p, ps, LineItems(toks, p, items).value.next)
    ensures Gather(items, ps) == Some(LineItems(toks, p, items).value.value)
    decreases |toks| - p, 0
  {
    PieceStep(toks, p, pc, items);
    var rest := LineShape(toks, PieceNext(toks, p, pc), Gather1(items, pc));
    ps := [pc] + rest;
    assert ps[0] == pc && ps[1..] == rest;
  }

  /** The line loop reads the items `r` and stops at `e` exactly when some pieces laid out
      from the cursor end the line at `e` and gather into `r`. */
  lemma LineIff(toks: seq<Token>, p: nat, items: seq<LineItem>, r: seq<LineItem>, e: nat)
    requires p <= |toks|
    ensures LineItems(toks, p, items) == Ok(Parsed(r, e))
            <==> exists ps :: PiecesAt(toks, p, ps, e) && Gather(items, ps) == Some(r)
  {
    if LineItems(toks, p, items) == Ok(Parsed(r, e)) {
      var ps := LineShape(toks, p, items);
      assert PiecesAt(toks, p, ps, e) && Gather(items, ps) == Some(r);
    }
    forall ps | PiecesAt(toks, p, ps, e) && Gather(items, ps) == Some(r)
      ensures LineItems(toks, p, items) == Ok(Parsed(r, e))
    {
      LineReads(toks, p, ps, e, items);
    }
  }

  // ---------------------------------------------------------------------------
  // Whole charts
  // ---------------------------------------------------------------------------

  /** Node `n` at `p`: `{`, the annotation's text and `}`; or a measure line, which starts
      with `|`, `|:` or `%` and holds the items the line loop reads there (as `LineIff`
      lays them out). */
  predicate NodeAt(toks: seq<Token>, p: nat, n: Node) {
    match n
    case Annotation(c) =>
      At(toks, p, AnnotationStart) && At(toks, p + 1, AnnotationContent) && toks[p + 1].value == c
      && At(toks, p + 2, AnnotationEnd)
    case MeasureLine(items) =>
      AtMeasureStart(toks, p) && LineItems(toks, p, []).Ok? && LineItems(toks, p, []).value.value == items
  }

  /** Where node `n` at `p` ends, the newline after it included. */
  function NodeEnd(toks: seq<Token>, p: nat, n: Node): nat {
    var q := match n
      case Annotation(_) => p + 3
      case MeasureLine(_) =>
        if p <= |toks| then match LineItems(toks, p, []) case Ok(l) => l.next case Err(_) => p else p;
    if At(toks, q, Newline) then q + 1 else q
  }

  /** A measure-line node, in terms of the line's pieces: it starts a measure and its
      pieces, gathered from no items, are the line's items. */
  lemma MeasureLineNodeAt(toks: seq<Token>, p: nat, items: seq<LineItem>)
    requires p <= |toks|
    ensures NodeAt(toks, p, MeasureLine(items)) <==>
              AtMeasureStart(toks, p) && exists ps, e :: PiecesAt(toks, p, ps, e) && Gather([], ps) == Some(items)
  {
    if NodeAt(toks, p, MeasureLine(items)) {
      LineNodePieces(toks, p, items);
    }
    if AtMeasureStart(toks, p) && exists ps, e :: PiecesAt(toks, p, ps, e) && Gather([], ps) == Some(items) {
      var ps, e :| PiecesAt(toks, p, ps, e) && Gather([], ps) == Some(items);
      PiecesLineNode(toks, p, items, ps, e);
    }
  }

  /** A measure-line node's items come from pieces laid out after it. */
  lemma LineNodePieces(toks: seq<Token>, p: nat, items: seq<LineItem>)
    requires p <= |toks| && NodeAt(toks, p, MeasureLine(items))
    ensures exists ps, e :: PiecesAt(toks, p, ps, e) && Gather([], ps) == Some(items)
  {
    var e := LineItems(toks, p, []).value.next;
    LineIff(toks, p, [], items, e);
  }

  /** Pieces laid out after a measure start make a measure-line node of what they gather. */
  lemma PiecesLineNode(toks: seq<Token>, p: nat, items: seq<LineItem>, ps: seq<Piece>, e: nat)
    requires p <= |toks| && AtMeasureStart(toks, p) && PiecesAt(toks, p, ps, e) && Gather([], ps) == Some(items)
    ensures NodeAt(toks, p, MeasureLine(items))
  {
    LineIff(toks, p, [], items, e);
  }

  /** The tokens from `p` to the end lay out the nodes `nodes`, with blank lines between. */
  predicate NodesAt(toks: seq<Token>, p: nat, nodes: seq<Node>)
    decreases |toks| - p
  {
    if p >= |toks| then nodes == []
    else if At(toks, p, Newline) then NodesAt(toks, p + 1, nodes)
    else
      nodes != [] && NodeAt(toks, p, nodes[0]) && p < NodeEnd(toks, p, nodes[0]) <= |toks|
      && NodesAt(toks, NodeEnd(toks, p, nodes[0]), nodes[1..])
  }

  /** One laid-out node is read as that node, and the chart goes on where it ends. */
  lemma NodeStep(toks: seq<Token>, p: nat, n: Node, body: seq<Node>)
    requires p <= |toks| && NodeAt(toks, p, n) && NodeEnd(toks, p, n) <= |toks|
    ensures SongBody(toks, p, body) == SongBody(toks, NodeEnd(toks, p, n), body + [n])
  {
    match n
    case Annotation(c) =>
      SongAnnotationStep(toks, p, c, NodeEnd(toks, p, n), body);
    case MeasureLine(items) =>
      SongLineStep(toks, p, items, NodeEnd(toks, p, n), body);
  }

  /** Nodes laid out from `p` are read as exactly those nodes. */
  lemma {:induction false} SongReads(toks: seq<Token>, p: nat, nodes: seq<Node>, body: seq<Node>)
    requires p <= |toks| && NodesAt(toks, p, nodes)
    ensures SongBody(toks, p, body) == Ok(body + nodes)
    decreases |toks| - p
  {
    if p == |toks| {
      AppendEmpty(body);
    } else if At(toks, p, Newline) {
      SongNewlineStep(toks, p, body);
      SongReads(toks, p + 1, nodes, body);
    } else {
      NodeStep(toks, p, nodes[0], body);
      SongReads(toks, NodeEnd(toks, p, nodes[0]), nodes[1..], body + [nodes[0]]);
      AppendHead(body, nodes);
    }
  }

  /** `r` extends `body` by nodes laid out from `p` to the end. */
  predicate ReadNodes(toks: seq<Token>, p: nat, body: seq<Node>, r: seq<Node>) {
    |body| <= |r| && r[..|body|] == body && NodesAt(toks, p, r[|body|..])
  }

  /** The node the top-level loop finds at `p`, when it finds one. */
  function NodeFound(toks: seq<Token>, p: nat): Node
    requires p <= |toks|
  {
    match ParseAnnotation(toks, p)
    case Ok(a) => Annotation(a.value)
    case Err(_) => MeasureLine(match LineItems(toks, p, []) case Ok(l) => l.value case Err(_) => [])
  }

  /** Whatever the top-level loop reads is nodes laid out from where it started. */
  lemma {:induction false} SongShape(toks: seq<Token>, p: nat, body: seq<Node>)
    requires p <= |toks| && SongBody(toks, p, body).Ok?
    ensures ReadNodes(toks, p, body, SongBody(toks, p, body).value)
    decreases |toks| - p, 1
  {
    if p == |toks| {
      assert body[..|body|] == body && body[|body|..] == [];
    } else if At(toks, p, Newline) {
      SongNewlineStep(toks, p, body);
      SongShape(toks, p + 1, body);
    } else if At(toks, p, AnnotationStart) {
      assert SongBody(toks, p, body) == SongAnnotation(toks, p, body);
      SongShapeStep(toks, p, NodeFound(toks, p), body);
    } else if AtMeasureStart(toks, p) {
      assert SongBody(toks, p, body) == SongLine(toks, p, body);
      assert LineItems(toks, p, []).Ok?;
      SongShapeStep(toks, p, NodeFound(toks, p), body);
    } else {
      SongUnexpected(toks, p, body);
    }
  }

  /** One node `n` laid out at `p`, then what the top-level loop reads after it. */
  lemma {:induction false} SongShapeStep(toks: seq<Token>, p: nat, n: Node, body: seq<Node>)
    requires p < |toks| && !At(toks, p, Newline) && NodeAt(toks, p, n)
    requires NodeEnd(toks, p, n) <= |toks| && SongBody(toks, p, body).Ok?
    ensures ReadNodes(toks, p, body, SongBody(toks, p, body).value)
    decreases |toks| - p, 0
  {
    var q := NodeEnd(toks, p, n);
    NodeStep(toks, p, n, body);
    var r := SongBody(toks, q, body + [n]).value;
    SongShape(toks, q, body + [n]);
    DropOne(r, |body|);
    assert r[..|body| + 1][..|body|] == r[..|body|];
  }

  /** The top-level loop reads the nodes `nodes` after `body` exactly when the tokens from
      the cursor lay out those nodes. */
  lemma SongIff(toks: seq<Token>, p: nat, body: seq<Node>, nodes: seq<Node>)
    requires p <= |toks|
    ensures SongBody(toks, p, body) == Ok(body + nodes) <==> NodesAt(toks, p, nodes)
  {
    if SongBody(toks, p, body) == Ok(body + nodes) {
      SongShape(toks, p, body);
      DropAppend(body, nodes);
    }
    if NodesAt(toks, p, nodes) {
      SongReads(toks, p, nodes, body);
    }
  }

  /** A token list parses into the song with nodes `nodes` exactly when it lays them out. */
  lemma ParseTokensIff(toks: seq<Token>, nodes: seq<Node>)
    ensures ParseTokens(toks) == Ok(Song(nodes)) <==> NodesAt(toks, 0, nodes)
  {
    SongIff(toks, 0, [], nodes);
    AppendEmpty(nodes);
  }

  /** The parse loop's result, for every candidate node list at once. */
  lemma ParseTokensNodes(toks: seq<Token>)
    ensures forall nodes :: ParseTokens(toks) == Ok(Song(nodes)) <==> NodesAt(toks, 0, nodes)
  {
    forall nodes
      ensures ParseTokens(toks) == Ok(Song(nodes)) <==> NodesAt(toks, 0, nodes)
    {
      ParseTokensIff(toks, nodes);
    }
  }

  /** Parses chart text: tokenize without whitespace, then parse the tokens. The text
      parses to a song exactly when it lexes and its tokens lay out as that song's nodes;
      a failure is a lexing failure exactly when the text does not lex. */
  function Parse(text: string): (r: Result<Song, Failure>)
    ensures Tokenize(text, false).Err? ==> r == Err(LexFailure(Tokenize(text, false).error))
    ensures forall nodes :: r == Ok(Song(nodes)) <==>
              Tokenize(text, false).Ok? && NodesAt(Tokenize(text, false).value, 0, nodes)
    ensures r.Err? ==> (r.error.LexFailure? <==> Tokenize(text, false).Err?)
  {
    match Tokenize(text, false)
    case Err(e) => Err(LexFailure(e))
    case Ok(toks) =>
      ParseTokensNodes(toks);
      match ParseTokens(toks)
      case Ok(s) => Ok(s)
      case Err(e) => Err(ParseFailure(e))
  }

  // ---------------------------------------------------------------------------
  // Two charts
  // ---------------------------------------------------------------------------

  /** A token on the first line of a chart. */
  function Tok(kind: TokenType, value: string, column: int): Token {
    Token(kind, value, 1, column)
  }

  /** `| g . c . | d . g . |` for chords written with one letter, without its whitespace. */
  function TwoMeasures(g: Chord, c: Chord, d: Chord): seq<Token> {
    [ Tok(BarStart, "|", 1), ChordToken(g, 1, 3), Tok(ContinuationMark, ".", 5),
      ChordToken(c, 1, 7), Tok(ContinuationMark, ".", 9), Tok(BarStart, "|", 11),
      ChordToken(d, 1, 13), Tok(ContinuationMark, ".", 15), ChordToken(g, 1, 17),
      Tok(ContinuationMark, ".", 19), Tok(BarStart, "|", 21) ]
  }

  /** The beats of a measure with two chords, each held for one more beat. */
  function TwoHeld(x: Chord, y: Chord): seq<Beat> {
    [ChordBeat(x), Continuation, ChordBeat(y), Continuation]
  }

  /** A chord, a continuation, a chord and a continuation, then `|`, lay out those beats up
      to the `|`. */
  lemma TwoHeldAt(toks: seq<Token>, p: nat, x: Chord, y: Chord)
    requires p + 4 < |toks| && At(toks, p + 4, BarStart)
    requires IsChordKind(toks[p].kind) && ChordOf(toks[p]) == Ok(x) && toks[p + 1].kind == ContinuationMark
    requires IsChordKind(toks[p + 2].kind) && ChordOf(toks[p + 2]) == Ok(y) && toks[p + 3].kind == ContinuationMark
    ensures ContentAt(toks, p, TwoHeld(x, y)) && BeatsWidth(TwoHeld(x, y)) == 4
  {
    var bs := TwoHeld(x, y);
    assert bs[1..][1..] == bs[2..] && bs[2..][1..] == bs[3..] && bs[3..][1..] == [];
    assert BeatsAt(toks, p + 2, bs[2..], p + 4) by {
      assert BeatsAt(toks, p + 3, bs[3..], p + 4);
    }
    assert BeatsWidth(bs[2..]) == 2 by {
      assert BeatsWidth(bs[3..]) == 1;
    }
  }

  /** Both measures of `| g . c . | d . g . |` are laid out, up to the `|` after each. */
  lemma TwoMeasuresBeats(g: Chord, c: Chord, d: Chord)
    requires WellFormedChord(g) && WellFormedChord(c) && WellFormedChord(d)
    ensures ContentAt(TwoMeasures(g, c, d), 1, TwoHeld(g, c)) && ContentAt(TwoMeasures(g, c, d), 6, TwoHeld(d, g))
    ensures BeatsWidth(TwoHeld(g, c)) == 4 && BeatsWidth(TwoHeld(d, g)) == 4
  {
    var toks := TwoMeasures(g, c, d);
    ChordTokenRead(g, 1, 3);
    ChordTokenRead(c, 1, 7);
    ChordTokenRead(d, 1, 13);
    ChordTokenRead(g, 1, 17);
    TwoHeldAt(toks, 1, g, c);
    TwoHeldAt(toks, 6, d, g);
  }

  /** The two measures of `| g . c . | d . g . |`. */
  function TwoMeasureItems(g: Chord, c: Chord, d: Chord): seq<LineItem> {
    [BarItem(Measure(TwoHeld(g, c), 1)), BarItem(Measure(TwoHeld(d, g), 1))]
  }

  /** `|`, beats up to a `|`, and what follows: a measure piece, after which the line goes
      on where the closing-bar rule says. */
  lemma MeasurePiece(toks: seq<Token>, p: nat, bs: seq<Beat>)
    requires At(toks, p, BarStart) && !At(toks, p + 1, SingleRepeat) && ContentAt(toks, p + 1, bs)
    requires At(toks, p + 1 + BeatsWidth(bs), BarStart)
    ensures PieceAt(toks, p, ItemPiece(BarItem(Measure(bs, 1))))
    ensures PieceNext(toks, p, ItemPiece(BarItem(Measure(bs, 1)))) == CloseBar(toks, p + 1 + BeatsWidth(bs))
  {
  }

  /** A piece laid out at `p`, then pieces laid out from where it leaves the line. */
  lemma PiecesCons(toks: seq<Token>, p: nat, pc: Piece, ps: seq<Piece>, e: nat)
    requires p <= |toks| && PieceAt(toks, p, pc) && PiecesAt(toks, PieceNext(toks, p, pc), ps, e)
    ensures PiecesAt(toks, p, [pc] + ps, e)
  {
    assert ([pc] + ps)[1..] == ps;
  }

  /** A chart that is one measure line running to the end of the tokens is the song of
      that line alone. */
  lemma OneLineSong(toks: seq<Token>, items: seq<LineItem>)
    requires AtMeasureStart(toks, 0) && LineItems(toks, 0, []) == Ok(Parsed(items, |toks|))
    ensures ParseTokens(toks) == Ok(Song([MeasureLine(items)]))
  {
    var n := MeasureLine(items);
    assert NodeEnd(toks, 0, n) == |toks|;
    NodeStep(toks, 0, n, []);
    assert [] + [n] == [n];
  }

  /** `|`, four beats `xs`, `|`, four beats `ys` opening with a chord, `|`, and nothing
      after: a line of the two measures. */
  lemma TwoMeasureLine(toks: seq<Token>, xs: seq<Beat>, ys: seq<Beat>)
    requires |toks| == 11 && At(toks, 0, BarStart) && At(toks, 5, BarStart) && At(toks, 10, BarStart)
    requires IsChordKind(toks[1].kind) && IsChordKind(toks[6].kind)
    requires ContentAt(toks, 1, xs) && BeatsWidth(xs) == 4 && ContentAt(toks, 6, ys) && BeatsWidth(ys) == 4
    ensures LineItems(toks, 0, []) == Ok(Parsed([BarItem(Measure(xs, 1)), BarItem(Measure(ys, 1))], 11))
  {
    var pc0, pc1 := ItemPiece(BarItem(Measure(xs, 1))), ItemPiece(BarItem(Measure(ys, 1)));
    MeasurePiece(toks, 0, xs);
    MeasurePiece(toks, 5, ys);
    assert PiecesAt(toks, 11, [], 11);
    PiecesCons(toks, 5, pc1, [], 11);
    assert [pc1] + [] == [pc1];
    PiecesCons(toks, 0, pc0, [pc1], 11);
    var ps := [pc0, pc1];
    assert PiecesAt(toks, 0, ps, 11) by {
      assert [pc0] + [pc1] == ps;
    }
    var items := [pc0.item, pc1.item];
    assert Gather([pc0.item], [pc1]) == Some(items) by {
      assert [pc1][1..] == [];
      assert Gather1([pc0.item], pc1) == items;
    }
    assert Gather([], ps) == Some(items) by {
      assert ps[1..] == [pc1];
      assert Gather1([], pc0) == [pc0.item];
    }
    assert LineItems(toks, 0, []) == Ok(Parsed(items, 11)) by {
      LineReads(toks, 0, ps, 11, []);
    }
  }

  /** `| g . c . | d . g . |` is one measure line of two measures, `g` and `c` in the first
      and `d` and `g` in the second, each chord held for two beats. */
  lemma TwoMeasuresParse(g: Chord, c: Chord, d: Chord)
    requires WellFormedChord(g) && WellFormedChord(c) && WellFormedChord(d)
    ensures ParseTokens(TwoMeasures(g, c, d)) == Ok(Song([MeasureLine(TwoMeasureItems(g, c, d))]))
  {
    var toks := TwoMeasures(g, c, d);
    TwoMeasuresBeats(g, c, d);
    ChordTokenRead(g, 1, 3);
    ChordTokenRead(d, 1, 13);
    TwoMeasureLine(toks, TwoHeld(g, c), TwoHeld(d, g));
    OneLineSong(toks, TwoMeasureItems(g, c, d));
  }

  /** `|: g | c :| x3` for chords written with one letter, without its whitespace. */
  function ThreeTimes(g: Chord, c: Chord): seq<Token> {
    [ Tok(RepeatStart, "|:", 1), ChordToken(g, 1, 4), Tok(BarStart, "|", 6), ChordToken(c, 1, 8),
      Tok(RepeatEnd, ":|", 10), Tok(MultiRepeat, "x3", 13) ]
  }

  /** A measure of one chord. */
  function OneChord(x: Chord): Bar {
    Measure([ChordBeat(x)], 1)
  }

  /** A chord token and then a bar end lay out that chord's beat up to the bar end. */
  lemma OneChordAt(toks: seq<Token>, p: nat, x: Chord)
    requires p + 1 < |toks| && AtBarEnd(toks, p + 1)
    requires IsChordKind(toks[p].kind) && ChordOf(toks[p]) == Ok(x)
    ensures ContentAt(toks, p, OneChord(x).beats) && BeatsWidth(OneChord(x).beats) == 1
  {
    assert OneChord(x).beats[1..] == [];
  }

  /** `|:`, a chord, `|`, a chord, `:|` and a count of `n`, and nothing after: a line of one
      section of the two one-chord measures, repeated `n` times. */
  lemma SectionLine(toks: seq<Token>, x: Chord, y: Chord, n: nat)
    requires |toks| == 6 && At(toks, 0, RepeatStart) && At(toks, 2, BarStart) && At(toks, 4, RepeatEnd)
    requires At(toks, 5, MultiRepeat) && CountOf(toks[5].value) == n
    requires IsChordKind(toks[1].kind) && IsChordKind(toks[3].kind)
    requires ContentAt(toks, 1, OneChord(x).beats) && BeatsWidth(OneChord(x).beats) == 1
    requires ContentAt(toks, 3, OneChord(y).beats) && BeatsWidth(OneChord(y).beats) == 1
    ensures LineItems(toks, 0, []) == Ok(Parsed([RepeatSection([OneChord(x), OneChord(y)], n)], 6))
  {
    var ms := [OneChord(x), OneChord(y)];
    assert SectionFirstAt(toks, 1, ms[..1], 2) by {
      assert ms[..1] == [OneChord(x)];
    }
    assert SectionBarsAt(toks, 2, ms[1..], 4) by {
      assert ms[1..] == [OneChord(y)] && ms[1..][1..] == [];
      assert SectionBarsAt(toks, 4, [], 4);
    }
    SectionJoin(toks, 0, ms[..1], 2, ms, 4, n);
    var pc := ItemPiece(RepeatSection(ms, n));
    assert PieceNext(toks, 0, pc) == 6;
    assert PiecesAt(toks, 6, [], 6);
    PiecesCons(toks, 0, pc, [], 6);
    assert Gather([], [pc] + []) == Some([pc.item]) by {
      assert [pc] + [] == [pc] && [pc][1..] == [];
      assert Gather1([], pc) == [pc.item];
    }
    assert LineItems(toks, 0, []) == Ok(Parsed([pc.item], 6)) by {
      LineReads(toks, 0, [pc] + [], 6, []);
    }
  }

  /** `|: g | c :| x3` is one measure line holding one section, a measure of `g` and a
      measure of `c`, repeated three times. */
  lemma ThreeTimesParse(g: Chord, c: Chord)
    requires WellFormedChord(g) && WellFormedChord(c)
    ensures ParseTokens(ThreeTimes(g, c)) == Ok(Song([MeasureLine([RepeatSection([OneChord(g), OneChord(c)], 3)])]))
  {
    var toks := ThreeTimes(g, c);
    ChordTokenRead(g, 1, 4);
    ChordTokenRead(c, 1, 8);
    assert CountOf(toks[5].value) == 3 by {
      CountOfCountText(3, false);
      assert "" + CountText(3) == "x3";
    }
    OneChordAt(toks, 1, g);
    OneChordAt(toks, 3, c);
    SectionLine(toks, g, c, 3);
    OneLineSong(toks, [RepeatSection([OneChord(g), OneChord(c)], 3)]);
  }
}
