# noten in Dafny

A model of the three-stage pipeline of noten, a plain-text chord-chart format. The stages are:
lexing the chart text into tokens, parsing the tokens into a syntax tree, and computing each
chord's start time and duration in beats.

- `common.dfy` (`Common`): `Option`, `Result` and a prefix test.
- `lexer.dfy` (`Lexer`): the token kinds, the priority-ordered pattern list, and the scan.
  - Each pattern is an explicit prefix matcher that returns its match length.
  - `GetTokens` (`src/noten/noten_lexer.py:244-258`) returns the scan as is, or filtered by
    `WithoutWhitespace`, whose behaviour its own contract and `LexerLemmas` state.
  - `InLanguage` says, independently, which words each pattern denotes.
  - `Lex` tries the patterns in order at every position; the first match wins.
  - `Lex` splits an `{annotation}` into three tokens and tracks line and column.
  - `Lex` fails on a character no pattern accepts.
  - noten moves the position over an annotation's text twice: once while emitting its three
    tokens, and once more in the main loop. The model keeps that.
- `lexer_lemmas.dfy` (`LexerLemmas`): properties of the lexer.
  - Which pattern wins on overlaps.
  - The annotation split.
  - Concatenating the token texts gives back the input.
  - Positions follow the text.
  - Where a failure is located.
  - Chord tokens are maximal.
  - What whitespace filtering keeps.
- `ast.dfy` (`Ast`): the syntax tree as datatypes, and the chord decomposer.
  - The decomposer handles `N.C.`, the split at the first `/`, and the greedy root `[A-G][#b]?`.
- `parser.dfy` (`Parser`): the recursive-descent parser over `seq<Token>` with an index cursor.
  - Each `_parse_*` routine is a function returning the parsed value and the next index, or a
    `ParseError`.
  - Each branch of a parsing loop is its own function in the recursive cluster.
- `parser_lemmas.dfy` (`ParserLemmas`): each loop branch as a rewrite step, and characterisations
  of the tuplet and measure-content readers.
  - Repeat counts round-trip.
  - Every parsed measure line is non-empty.
- `parser_layout.dfy` (`ParserLayout`): where each parsing loop finds its parts in the token list.
  - A layout predicate per loop: section bars, the first element of a section, a whole section,
    the pieces of a measure line, the nodes of a chart.
  - For each, the loop reads a result exactly when the tokens lay it out (an if-and-only-if).
  - `Parse`, the text-to-song entry point, is defined here so that its contract can say which
    text parses to which song in terms of these layouts.
  - Two charts, `| g . c . | d . g . |` and `|: g | c :| x3` for any chords g, c, d, written out
    token by token.
- `rhythm.dfy` (`Rhythm`): time signatures and the duration calculator.
  - It works over exact `real`s, which hold the same values as noten's `Fraction`.
  - `SongSignature` (`src/noten/noten_rhythm.py:79-85`) picks the signature in use; its
    behaviour is stated by `RhythmLemmas.DefaultSignatureKept` and `FirstTimeAnnotationWins`.
  - The folds `SongEvents` (lines 87-95), `LineEvents` (99-114), `BarEvents` and
    `ItemEvents` (116-129) and `BarsEvents` and `SectionEvents` (213-232) play the chart.
  - `SongChords` and its helpers say, independently, which chords a chart writes; the
    `...PlaysChords` lemmas prove that each fold's events carry exactly those chords, in order.
    Their timing is stated in `RhythmLemmas`.
- `rhythm_lemmas.dfy` (`RhythmLemmas`): properties of the rhythm stage.
  - Time-signature parsing and its round trip.
  - The first `time:` annotation wins.
  - A measure's durations fill its beats.
  - Tuplets split their share.
  - Silent bars advance the clock.
  - Repeat sections unroll.
  - Events never overlap.

The rhythm stage follows the code, which is not always what the repository's tests expect:
- A continuation only lengthens an event of its own measure.
- A `%` (repeat measure) emits nothing and moves the clock on one measure.
- Only the first `time:` annotation counts, for the whole song.
- A measure's own repeat count never reaches the rhythm stage.
- The caller's signature is parsed, and refused if malformed, even when the chart's own annotation
  then overrides it.
- A repeat section's inner clock is not passed on. The line continues from the end of the
  section's last event, or one measure later when the section emitted nothing.

## Model

| member | source | states |
|---|---|---|
| Lexer.RunFrom | src/noten/noten_lexer.py:120-123 | A character-class run starting at i stays in the class and is maximal: it ends at the end of the text or before a character outside the class |
| Lexer.FirstMatch | src/noten/noten_lexer.py:160-184 | The pattern chosen is the first in priority order that matches; every earlier pattern fails; none is chosen exactly when no pattern matches |
| Lexer.AnnotationTextIsAnnotationPattern | src/noten/noten_lexer.py:164-169 | A match starts with `{` and ends with `}` exactly when it came from the annotation pattern, so the annotation test at line 168 splits only annotations; an annotation match is at least three characters |
| Lexer.WithoutWhitespace | src/noten/noten_lexer.py:255-258 | The filtered list holds no whitespace token, only tokens of the input, and is no longer than it |
| LexerLemmas.AdvanceAppend | src/noten/noten_lexer.py:230-242 | Moving the position over a + b is moving over a, then over b |
| LexerLemmas.AdvanceClosedForm | src/noten/noten_lexer.py:230-242 | The line grows by the number of newlines; without a newline the column grows by the text length; after a final newline the column is 1 |
| LexerLemmas.MatchIsLongestPrefix | src/noten/noten_lexer.py:92-127 | Each matcher returns a prefix in its pattern's language, and the longest such prefix, as the greedy regular expression does |
| LexerLemmas.NoPatternWithoutStarter | src/noten/noten_lexer.py:156-191 | A text whose first character can start no pattern matches no pattern |
| LexerLemmas.RepeatStartBeatsBar | src/noten/noten_lexer.py:97-107 | `\|:` is taken by the REPEAT_START pattern, before the bar pattern, and becomes one REPEAT_START token at the current position |
| LexerLemmas.CountBeatsRepeatMark | src/noten/noten_lexer.py:101-104 | `%x` followed by digits is one MULTI_REPEAT token covering all the digits, not a SINGLE_REPEAT |
| LexerLemmas.AnnotationSplits | src/noten/noten_lexer.py:164-228 | `{c}` with non-empty `c` free of `}` yields exactly ANNOTATION_START `{`, ANNOTATION_CONTENT `c` and ANNOTATION_END `}` at the positions reached; scanning then resumes with the position moved over `{c}` twice |
| LexerLemmas.EmptyAnnotationRejected | src/noten/noten_lexer.py:186-191 | `{}` matches no pattern, and scanning fails on its `{` at the current line and column |
| LexerLemmas.LexRoundTrip | src/noten/noten_lexer.py:156-228 | On success, concatenating all token texts gives back the scanned text |
| LexerLemmas.TokenizeRoundTrip | src/noten/noten_lexer.py:244-261 | With whitespace kept, a successful tokenize's token texts concatenate to the input |
| LexerLemmas.PositionsFollowText | src/noten/noten_lexer.py:172-242 | In annotation-free text each token records the position reached by moving over all text before it |
| LexerLemmas.LexErrorLocated | src/noten/noten_lexer.py:186-191 | A failure names a character of the text where no pattern matches; before any annotation, its line and column are those reached by the text before it |
| LexerLemmas.FirstMatchIs | src/noten/noten_lexer.py:160-184 | A pattern that matches wins when no earlier pattern can start with the first character |
| LexerLemmas.InvalidCharacterRejected | src/noten/noten_lexer.py:186-191 | `Invalid @ Character` is rejected at its first character, line 1, column 1, since `I` starts no pattern |
| LexerLemmas.TokensStartText | src/noten/noten_lexer.py:156-184 | Every token has non-empty text; tokens exist exactly when there is text; the first token starts with the text's first character |
| LexerLemmas.ChordTokensMaximal | src/noten/noten_lexer.py:120-184 | A chord token is a letter A-G then chord characters; it holds no parenthesis; the next token does not start with a chord character |
| LexerLemmas.WithoutWhitespaceKeepsOthers | src/noten/noten_lexer.py:255-258 | Filtering keeps every non-whitespace token exactly as often as it occurs and drops every whitespace token |
| LexerLemmas.WithoutWhitespaceAppend | src/noten/noten_lexer.py:255-258 | Filtering a concatenation is concatenating the filtered parts, so the kept tokens stay in their order |
| LexerLemmas.LexStep | src/noten/noten_lexer.py:164-184 | A non-annotation match becomes one token at the current position, and the rest is scanned from the position moved over the match |
| LexerLemmas.LexLetterChord | src/noten/noten_lexer.py:120-182 | A lone note letter followed by a non-chord character is a one-letter chord token |
| LexerLemmas.LexSingleBlank | src/noten/noten_lexer.py:123-182 | A single blank followed by a non-blank is one WHITESPACE token |
| Ast.SplitAtFirstSlash | src/noten/noten_parser.py:289-291 | The text before the first `/` holds no `/`; there is a bass exactly when the text has a `/`, and then main part, `/` and bass give back the text |
| Ast.DecomposeChordSpec | src/noten/noten_parser.py:285-303 | `N.C.` gives root `N.C.`, empty quality and no bass; decomposition fails exactly when the symbol is neither `N.C.` nor starts with A-G; otherwise the root is the greedy `[A-G][#b]?`, root + quality + `/bass` gives the symbol back, and the bass is absent exactly when there is no `/` |
| Ast.DecomposeSymbolOf | src/noten/noten_parser.py:285-303 | Every well-formed chord written as a symbol decomposes back to itself |
| Ast.DecomposedChordWellFormed | src/noten/noten_parser.py:294-303 | Every chord the decomposer returns is well formed |
| Parser.CountFromFirstMark | src/noten/noten_parser.py:582-585 | The count is read at the first `x` followed by a digit, taking all the digits after it; it is 1 when there is none |
| Parser.ParseCount | src/noten/noten_parser.py:578-585 | A count is read exactly at a MULTI_REPEAT token, consuming it and yielding its value |
| Parser.ParseTuplet | src/noten/noten_parser.py:561-576 | An accepted tuplet starts with `(`, ends with `)`, and spans two tokens more than its chords |
| Parser.ParseMeasure | src/noten/noten_parser.py:451-470 | An accepted measure starts at `\|`, stops at a bar end, and carries repeat count 1: the count branch at lines 464-468 never runs |
| Parser.ParseRepeatMeasure | src/noten/noten_parser.py:472-480 | A repeat measure is read exactly at `%`; a following count is its count, otherwise the count is 1 |
| Parser.ParseRepeatSection | src/noten/noten_parser.py:482-538 | An accepted section starts at `\|:` and ends at `:\|` with count 1, or at a count token whose value is its count |
| Parser.CloseBar | src/noten/noten_parser.py:432-441 | A `\|` after a bar is consumed exactly when a newline or a count follows it, or it is the last token; otherwise it opens the next measure |
| Parser.AttachCount | src/noten/noten_parser.py:391-405 | A count replaces a measure's count, and multiplies a repeat measure's or a repeat section's count; the kind of item is kept |
| Parser.LineCount | src/noten/noten_parser.py:385-388 | A count with nothing before it on the line is the "repeat count at start of line" error |
| Parser.ParseAnnotation | src/noten/noten_parser.py:363-373 | An annotation parses exactly at `{` followed by content; the value is the content; one newline after `}` is consumed |
| Parser.LineItems | src/noten/noten_parser.py:375-449 | A measure line read from a measure start consumes tokens and holds at least one item; the line never ends with fewer items than it started with, since a count replaces the last item rather than adding one |
| Parser.ParseMeasureLine | src/noten/noten_parser.py:375-449 | Reading a measure line never moves the cursor back or past the end; from a measure start it consumes tokens and yields at least one item |
| ParserLemmas.CountOfCountText | src/noten/noten_parser.py:578-585 | The text `xN`, or `%xN`, reads back as N |
| ParserLemmas.CountOfNoMark | src/noten/noten_parser.py:582-585 | A token text with no `x` followed by a digit counts as 1 |
| ParserLemmas.ChordTokenRead | src/noten/noten_parser.py:545-547 | A chord token for a well-formed chord is read as that chord |
| ParserLemmas.TupletShape | src/noten/noten_parser.py:561-576 | The tuplet parser succeeds exactly on `(`, then chord or N.C. tokens only (possibly none), then `)`, returning those chords |
| ParserLemmas.TupletMissingEnd | src/noten/noten_parser.py:574 | A tuplet whose chords are not followed by `)` fails, naming the token found there |
| ParserLemmas.ContentIff | src/noten/noten_parser.py:540-559 | Measure content reads the beats bs up to q exactly when the tokens there are those beats and q is a place where content stops |
| ParserLemmas.ContentBadChord | src/noten/noten_parser.py:545-547 | A chord token the decomposer rejects makes the content fail with that chord error |
| ParserLemmas.ContentStop | src/noten/noten_parser.py:544-557 | Content stops at the end, at a bar end, or at a token that starts no beat, reading nothing more |
| ParserLemmas.ParseMeasureOver | src/noten/noten_parser.py:451-470 | `\|` then content stopped at a bar end is the measure of that content, with count 1 |
| ParserLemmas.MeasureMissingClosingBar | src/noten/noten_parser.py:460-461 | Content that stops anywhere but at `\|`, `:\|` or a newline, end of input included, is the "expected closing bar" error naming what was found |
| ParserLemmas.SharedBar | src/noten/noten_parser.py:427-441 | After a measure, a `\|` followed by anything other than a newline or a count is left to open the next measure |
| ParserLemmas.ClosingBar | src/noten/noten_parser.py:432-441 | After a measure, a `\|` followed by a newline or a count, or at the end, is consumed as the closing bar |
| ParserLemmas.LineBarRepeatStep | src/noten/noten_parser.py:409-426 | `\| %` adds the repeat measure and then applies the closing-bar rule |
| ParserLemmas.LineCountStep | src/noten/noten_parser.py:385-405 | A count on a line replaces the line's last item by that item with the count attached |
| ParserLemmas.LineCountAtStart | src/noten/noten_parser.py:387-388 | A count first on a line is an error |
| ParserLemmas.LineSectionStep | src/noten/noten_parser.py:381-382 | A `\|:` on a line adds the repeat section read there |
| ParserLemmas.LineStop | src/noten/noten_parser.py:380-443 | A line ends at the end or at any token other than `\|:`, `%`, a count or `\|` |
| ParserLemmas.SectionFirstContent | src/noten/noten_parser.py:491-498 | A section not starting with `%` starts with the content read there as a measure, unless that content is empty and stops at neither `\|` nor `:\|` |
| ParserLemmas.SectionBarsEnd | src/noten/noten_parser.py:525-527 | A final `\| :\|` ends the section without adding an empty measure |
| ParserLemmas.ParseRepeatSectionOver | src/noten/noten_parser.py:532-538 | Bars closed by `:\|` form the section, with the following count, else 1, as its play count |
| ParserLemmas.SectionMissingEnd | src/noten/noten_parser.py:532 | A section whose bars are not followed by `:\|` fails, naming what was found |
| ParserLemmas.SongNewlineStep | src/noten/noten_parser.py:345-347 | Newlines at top level are skipped |
| ParserLemmas.SongAnnotationStep | src/noten/noten_parser.py:350-351 | A top-level `{` adds the annotation read there |
| ParserLemmas.SongLineStep | src/noten/noten_parser.py:352-353 | A top-level `\|`, `\|:` or `%` adds the measure line read there |
| ParserLemmas.SongUnexpected | src/noten/noten_parser.py:354-359 | Any other top-level token is the "unexpected token" error with its kind and line |
| ParserLemmas.ParsedLinesNonEmpty | src/noten/noten_parser.py:343-449 | Every measure line of a parsed song holds at least one item |
| ParserLayout.RepeatMeasureIff | src/noten/noten_parser.py:472-480 | `%` is read at p with count n, ending at q, exactly when p holds `%`, n is the value of a count token right after it or else 1, and q is just past them |
| ParserLayout.BeatsAtWidth | src/noten/noten_parser.py:540-559 | Laid-out beats take one token per chord or continuation and two more than its chords per tuplet, and stay within the tokens |
| ParserLayout.ContentAtIff | src/noten/noten_parser.py:540-559 | Measure content from p reads bs, stopping at q, exactly when the tokens lay out bs from p, q is p plus their width, and content stops there |
| ParserLayout.SectionBarsIff | src/noten/noten_parser.py:513-530 | The section's bar loop reads bars ms and stops at e exactly when the tokens lay them out: `%` or `\| %` a repeat measure, `\|` and content a measure; it stops before a token other than `\|` or `%`, or after the `\|` of a final `\| :\|` |
| ParserLayout.SectionFirstIff | src/noten/noten_parser.py:488-510 | A section's first element is a repeat measure at `%`; otherwise it is the content read there as a measure, unless that content is empty and stops at neither `\|` nor `:\|`, in which case there is no first element |
| ParserLayout.SectionIff | src/noten/noten_parser.py:482-538 | A repeat section is read at p with bars ms and count k exactly when `\|:`, a first element, further bars, `:\|` and an optional count lay it out; it ends past the count, if any |
| ParserLayout.LineIff | src/noten/noten_parser.py:375-443 | A measure line read from p on top of items gives r ending at e exactly when the tokens lay out pieces (items and counts) from p to e and gathering them onto items gives r, each count replacing the last item by that item with the count attached |
| ParserLayout.MeasureLineNodeAt | src/noten/noten_parser.py:375-449 | A measure-line node stands at p exactly when p opens a measure and the tokens from p lay out pieces that, gathered from no items, are the line's items |
| ParserLayout.SongIff | src/noten/noten_parser.py:343-359 | The top-level loop from p gives body followed by nodes exactly when the tokens from p lay out those nodes, separated by blank lines |
| ParserLayout.ParseTokensIff | src/noten/noten_parser.py:341-361 | A token list parses to the song of nodes exactly when it lays those nodes out from its first token |
| ParserLayout.Parse | src/noten/noten_parser.py:632-650 | Chart text parses to the song of nodes exactly when it lexes without whitespace and the tokens lay those nodes out; a failure is a lexing failure exactly when the text does not lex |
| ParserLayout.OneLineSong | src/noten/noten_parser.py:343-353 | A measure line that runs to the end of the tokens is the whole song |
| ParserLayout.TwoMeasureLine | src/noten/noten_parser.py:407-441 | `\|`, four beats, `\|`, four beats opening with a chord, `\|` is a line of the two measures: the middle `\|` is shared, the last is consumed |
| ParserLayout.TwoMeasuresParse | src/noten/noten_parser.py:341-470 | For any well-formed chords g, c and d, `\| g . c . \| d . g . \|` parses to one line of two measures, each of two chords held two beats |
| ParserLayout.SectionLine | src/noten/noten_parser.py:482-538 | `\|:`, a chord, `\|`, a chord, `:\|` and a count n is a line of one section of the two one-chord measures, played n times |
| ParserLayout.ThreeTimesParse | src/noten/noten_parser.py:341-538 | For any well-formed chords g and c, `\|: g \| c :\| x3` parses to one line holding one section of a g measure and a c measure, played three times |
| Rhythm.SplitParts | src/noten/noten_rhythm.py:19 | Splitting gives one more part than there are separators, and no part holds a separator |
| RhythmLemmas.JoinSplit | src/noten/noten_rhythm.py:19 | Joining the parts with the separator gives back the text |
| RhythmLemmas.SplitOnce | src/noten/noten_rhythm.py:19-21 | Text with a single separator splits into exactly the two sides |
| Rhythm.ParseNumber | src/noten/noten_rhythm.py:23-24 | A part is accepted exactly when it is a non-empty run of decimal digits; otherwise the error names the part |
| Rhythm.ParseTimeSignature | src/noten/noten_rhythm.py:19-21 | Any count of `/` other than exactly one is the "invalid time signature" error for the whole text |
| RhythmLemmas.SignatureOfParts | src/noten/noten_rhythm.py:19-24 | `a/b` is the signature of the values of a and b when both are numerals; otherwise it is the number error for the numerator, which is checked first, or else for the denominator |
| RhythmLemmas.SignatureRoundTrip | src/noten/noten_rhythm.py:12-41 | Every signature written as `numerator/denominator` parses back to itself |
| RhythmLemmas.StripPadded | src/noten/noten_rhythm.py:83 | Stripping removes exactly the surrounding whitespace and keeps the inner text |
| RhythmLemmas.DefaultSignatureKept | src/noten/noten_rhythm.py:79-85 | Without a `time:` annotation the caller's signature is used |
| RhythmLemmas.FirstTimeAnnotationWins | src/noten/noten_rhythm.py:79-85 | The first `time:` annotation decides the signature, whatever follows it |
| RhythmLemmas.ThreeFourText | src/noten/noten_rhythm.py:82-83 | `{time: 3/4}` gives the signature text `3/4` |
| RhythmLemmas.ThreeFourSignature | src/noten/noten_rhythm.py:19-38 | `3/4` parses to numerator 3 and denominator 4 |
| RhythmLemmas.DenominatorIgnored | src/noten/noten_rhythm.py:27-38 | Caller signatures with the same numerator give the same events, whatever the denominators |
| Rhythm.MeasureEvents | src/noten/noten_rhythm.py:131-182 | A measure emits one event per chord and one per tuplet chord, and none for a continuation |
| RhythmLemmas.MeasureLayout | src/noten/noten_rhythm.py:143-182 | A measure's events are exactly the reference layout: each beat's own events in its slot of beats/n, the last of them held on by the continuations after it |
| RhythmLemmas.MeasureSlot | src/noten/noten_rhythm.py:149-182 | Beat i's events sit right after those of the beats before it, start at slot i, and the last is lengthened by the continuations that follow, up to the next sounding beat |
| RhythmLemmas.ChordEventAt | src/noten/noten_rhythm.py:154-172 | A chord at beat i gives the event at position EventCount(beats[..i]): it starts at t + i·share, lasts one share plus the following continuations, carries that chord, and is not a tuplet member |
| RhythmLemmas.TupletEventsAt | src/noten/noten_rhythm.py:174-180 | A non-empty tuplet at beat i gives its chords in order from t + i·share, each share/k long, with the last lengthened by the following continuations |
| RhythmLemmas.HeldByContinuations | src/noten/noten_rhythm.py:168-172 | j continuations before the next chord or non-empty tuplet, or the end of the measure, hold the previous event on for j shares |
| RhythmLemmas.TupletSplitsShare | src/noten/noten_rhythm.py:184-211 | A tuplet of k > 0 chords splits its share into k equal, consecutive events, in order and marked as tuplet members, from the beat's start to exactly one share later |
| RhythmLemmas.MeasureTotal | src/noten/noten_rhythm.py:143-182 | A measure's durations add up to the time its sounding elements take, each element taking beats/n; a leading continuation and an empty tuplet pass their share in silence |
| RhythmLemmas.MeasureFillsBeats | src/noten/noten_rhythm.py:143-182 | With a chord or tuplet first and no empty tuplet, a measure's durations add up exactly to the numerator |
| RhythmLemmas.DottedMeasure | src/noten/noten_rhythm.py:151-172 | `\| C . . G \|` in four gives C for 3 beats from 0, then G for 1 beat from 3 |
| RhythmLemmas.ThreeChordsInThree | src/noten/noten_rhythm.py:143-166 | `\| C G Am \|` in three gives three one-beat events starting at 0, 1 and 2 |
| RhythmLemmas.TupletThenContinuation | src/noten/noten_rhythm.py:168-182 | In `\| (C G) . \|` in four, the tuplet's chords get one beat each and the continuation lengthens G, the tuplet's last event, by two beats |
| RhythmLemmas.MeasureOrdered | src/noten/noten_rhythm.py:149-182 | With a positive measure length, a measure's events have positive durations, start at or after the measure's start, and none starts before the previous one ends |
| Rhythm.MeasurePlaysChords | src/noten/noten_rhythm.py:143-182 | A measure's events carry the chords written in it, in order: a chord gives its own, a tuplet gives each of its chords, a continuation none |
| Rhythm.ItemPlaysChords | src/noten/noten_rhythm.py:116-129 | A measure plays its written chords, a `%` none, and a repeat section its bars' chords once per pass |
| Rhythm.BarsPlayChords | src/noten/noten_rhythm.py:222-230 | Bars played in turn carry their chords in bar order |
| Rhythm.SectionPlaysChords | src/noten/noten_rhythm.py:213-232 | A section played k times carries its bars' chords k times over |
| Rhythm.LinePlaysChords | src/noten/noten_rhythm.py:99-114 | A measure line's events carry the chords of its items in line order |
| Rhythm.SongPlaysChords | src/noten/noten_rhythm.py:87-95 | A song's events carry the chords of its measure lines, line after line; annotations carry none |
| RhythmLemmas.SilentBarAdvances | src/noten/noten_rhythm.py:107-140 | A bar emitting nothing, whether empty, all continuations or `%`, moves the line's clock on by one measure |
| RhythmLemmas.RepeatBarSilent | src/noten/noten_rhythm.py:122-125 | `\| C \| % \|` yields exactly one event |
| RhythmLemmas.SectionUnrolls | src/noten/noten_rhythm.py:213-232 | A section played k times is k copies of one pass, each shifted to start where the previous one ended; the clock ends k pass lengths later |
| RhythmLemmas.SectionEventCount | src/noten/noten_rhythm.py:222-232 | A section played k times emits k times the events of one pass |
| RhythmLemmas.TwoPassSection | src/noten/noten_rhythm.py:213-232 | `\|: C :\| x2` in four gives events starting at 0 and at 4 |
| RhythmLemmas.SectionOrdered | src/noten/noten_rhythm.py:213-232 | With a positive measure length, the events of a repeat section played from t have positive durations, start at or after t, never overlap, and end by the clock the section reaches |
| RhythmLemmas.SongOrdered | src/noten/noten_rhythm.py:75-97 | With a positive measure length, the events of a whole song played from t have positive durations, start at or after t, and none starts before the previous one ends |
| RhythmLemmas.ChartTimeline | src/noten/noten_rhythm.py:87-112 | With a positive numerator, durations succeed and are the song's events at the measure length of the signature in use (the first `time:` annotation's, else the caller's), every event lasts a positive time and starts at or after 0, each starts no earlier than every earlier one ends, and starts strictly increase |
| Rhythm.CalculateDurations | src/noten/noten_rhythm.py:235-247 | A malformed caller signature is an error, even when the chart gives its own; otherwise a malformed first `time:` annotation is that annotation's error; otherwise the computation succeeds, and its events carry exactly the chart's written chords, in order |
| RhythmLemmas.ChartEvents | src/noten/noten_rhythm.py:63-97 | Whenever a signature is in use, whatever its numerator, the result is the song's events at that signature's measure length; when the caller's text or the chart's first `time:` annotation is malformed, the result is that error |

## Left out

- Exact error-message text: errors are datatypes carrying the token kind, the token or the line the message would name.
- Python leniency in time signatures: `int()` also accepts surrounding whitespace, a sign, `_` separators and non-ASCII digits. Here only ASCII decimal digits are a number, so `3 / 4` is an error. Non-ASCII `\d` digits in the lexer and the count search are likewise not digits here.
- Rhythm.ParseTimeSignature: its contract states only the wrong-number-of-parts error; the accepted and bad-number cases are stated by RhythmLemmas.SignatureOfParts.
- Rhythm.MeasureEvents: its own contract states only the event count. What each event is (start, duration, chord, tuplet mark) is stated by RhythmLemmas.MeasureLayout, MeasureSlot, ChordEventAt and TupletEventsAt; totals and order by MeasureTotal and MeasureOrdered.
- Rhythm.CalculateDurations: its contract states both signature errors (the caller's and the chart's first `time:` annotation's), success otherwise, and which chords the events carry; the timing of the events is stated by RhythmLemmas.ChartEvents, ChartTimeline and the lemmas they build on.
- `print_rhythm_analysis` and the `__main__` blocks: console output.
- `to_dict` serialisation and `Token.__repr__`: the rhythm stage reads the syntax tree directly. Since `to_dict` drops a measure's repeat count, the rhythm stage ignores `Measure.repeatCount`.
- `_consume`, `_check`, `_peek` and `_advance`: folded into the cursor arithmetic. A failed `_consume` is the `Expected` error with the token found, or none at the end of input.
- A full parse-then-print round trip for charts: there is no printer in noten. The parser is characterised by the layout if-and-only-if lemmas instead, and two charts are worked through as token lists.
- Behaviour the repository's tests expect but the code does not implement: chords with parentheses, and continuations across measure boundaries.
- Applying a measure's own repeat count, or a `%` replaying the previous measure, in the rhythm stage: the code does neither.
