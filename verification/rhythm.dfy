/**
 * The rhythm stage: it turns a parsed chart into chord events with exact start
 * times and durations, measured in beats from the start of the song.
 *
 * noten computes with `Fraction`; Dafny's `real` is exact over the
 * rationals, so every value here is the fraction noten would hold.
 */
module Rhythm {
  import opened Common
  import opened Lexer
  import opened Ast
  import Parser

  // ---------------------------------------------------------------------------
  // Time signatures
  // ---------------------------------------------------------------------------

  /** A time signature `numerator/denominator`. */
  datatype TimeSignature = TimeSignature(numerator: nat, denominator: nat)

  /** Why a time signature was refused: not exactly two `/`-separated parts, or a
      part that is not a decimal number. */
  datatype RhythmError =
    | InvalidTimeSignature(text: string)
    | InvalidNumber(text: string)

  /** The signature used when neither the caller nor the chart gives one. */
  const DefaultSignature := "4/4"

  /** Beats in one measure: the numerator; the denominator plays no part. */
  function BeatsPerMeasure(ts: TimeSignature): real {
    ts.numerator as real
  }

  /** The pieces of `s` between occurrences of `sep`, like Python's `str.split(sep)`. */
  function Split(s: string, sep: char): (parts: seq<string>)
    ensures |parts| >= 1
    decreases |s|
  {
    if s == [] then [""]
    else
      var rest := Split(s[1..], sep);
      if s[0] == sep then [""] + rest else [[s[0]] + rest[0]] + rest[1..]
  }

  /** `Split` gives one more piece than there are separators, none holding a separator. */
  lemma {:induction false} SplitParts(s: string, sep: char)
    ensures |Split(s, sep)| == multiset(s)[sep] + 1
    ensures forall i :: 0 <= i < |Split(s, sep)| ==> sep !in Split(s, sep)[i]
    decreases |s|
  {
    if s != [] {
      SplitParts(s[1..], sep);
      assert s == [s[0]] + s[1..];
      var rest := Split(s[1..], sep);
      if s[0] != sep {
        var parts := Split(s, sep);
        assert parts == [[s[0]] + rest[0]] + rest[1..];
        forall i | 0 <= i < |parts|
          ensures sep !in parts[i]
        {
          if i > 0 {
            assert parts[i] == rest[i];
          }
        }
      }
    }
  }

  /** A non-empty run of ASCII decimal digits. */
  predicate Numeral(s: string) {
    |s| > 0 && forall i :: 0 <= i < |s| ==> IsDigit(s[i])
  }

  /** A decimal number, or the error for text that is not one. */
  function ParseNumber(s: string): (r: Result<nat, RhythmError>)
    ensures r.Ok? <==> Numeral(s)
    ensures r.Err? ==> r.error == InvalidNumber(s)
  {
    if Numeral(s) then Ok(Parser.DigitsValue(s, 0, |s|)) else Err(InvalidNumber(s))
  }

  /** Reads `numerator/denominator`: exactly one `/`, with a number on each side. */
  function ParseTimeSignature(s: string): (r: Result<TimeSignature, RhythmError>)
    ensures multiset(s)['/'] != 1 ==> r == Err(InvalidTimeSignature(s))
  {
    SplitParts(s, '/');
    var parts := Split(s, '/');
    if |parts| != 2 then Err(InvalidTimeSignature(s))
    else
      var n :- ParseNumber(parts[0]);
      var d :- ParseNumber(parts[1]);
      Ok(TimeSignature(n, d))
  }

  /** Python's notion of whitespace (`str.isspace`), which `str.strip` removes. */
  predicate IsSpace(c: char) {
    var n := c as int;
    n == 32 || 9 <= n <= 13 || 28 <= n <= 31 || n == 0x85 || n == 0xA0 || n == 0x1680
    || 0x2000 <= n <= 0x200A || n == 0x2028 || n == 0x2029 || n == 0x202F || n == 0x205F
    || n == 0x3000
  }

  /** `s` without its leading whitespace. */
  function StripStart(s: string): (r: string)
    ensures |r| <= |s| && r == s[|s| - |r|..]
    ensures forall i :: 0 <= i < |s| - |r| ==> IsSpace(s[i])
    ensures r != [] ==> !IsSpace(r[0])
    decreases |s|
  {
    if s != [] && IsSpace(s[0]) then StripStart(s[1..]) else s
  }

  /** `s` without its trailing whitespace. */
  function StripEnd(s: string): (r: string)
    ensures |r| <= |s| && r == s[..|r|]
    ensures forall i :: |r| <= i < |s| ==> IsSpace(s[i])
    ensures r != [] ==> !IsSpace(r[|r| - 1])
    decreases |s|
  {
    if s != [] && IsSpace(s[|s| - 1]) then StripEnd(s[..|s| - 1]) else s
  }

  /** Python's `str.strip()`. */
  function Strip(s: string): string {
    StripEnd(StripStart(s))
  }

  /** The prefix that marks an annotation as a time signature. */
  const TimePrefix := "time:"

  /** An annotation that sets the time signature. */
  predicate IsTimeAnnotation(n: Node) {
    n.Annotation? && StartsWith(n.content, TimePrefix)
  }

  /** The signature text of a time annotation: what follows its first `:`, stripped. */
  function TimeText(n: Node): string
    requires IsTimeAnnotation(n)
  {
    Strip(n.content[|TimePrefix|..])
  }

  /** The song's time signature: the one the first time annotation gives, else `ts`. */
  function SongSignature(body: seq<Node>, ts: TimeSignature): Result<TimeSignature, RhythmError> {
    if body == [] then Ok(ts)
    else if IsTimeAnnotation(body[0]) then ParseTimeSignature(TimeText(body[0]))
    else SongSignature(body[1..], ts)
  }

  // ---------------------------------------------------------------------------
  // Events
  // ---------------------------------------------------------------------------

  /** A chord sounding from `start` for `duration` beats; `inTuplet` marks tuplet members. */
  datatype Event = Event(start: real, duration: real, chord: Chord, inTuplet: bool)

  /** When an event stops sounding. */
  function End(e: Event): real {
    e.start + e.duration
  }

  /** How many events a beat emits: one for a chord, one per chord of a tuplet. */
  function BeatEventCount(b: Beat): nat {
    match b
    case ChordBeat(_) => 1
    case Continuation => 0
    case Tuplet(cs) => |cs|
  }

  /** How many events a list of beats emits. */
  function EventCount(bs: seq<Beat>): nat {
    if bs == [] then 0 else BeatEventCount(bs[0]) + EventCount(bs[1..])
  }

  // ---------------------------------------------------------------------------
  // The chords a chart plays
  // ---------------------------------------------------------------------------

  /** The chords of events, in order. */
  function ChordsOf(evs: seq<Event>): seq<Chord>
    decreases |evs|
  {
    if evs == [] then [] else [evs[0].chord] + ChordsOf(evs[1..])
  }

  /** The chords of a concatenation are those of its parts. */
  lemma {:induction false} ChordsOfAppend(a: seq<Event>, b: seq<Event>)
    ensures ChordsOf(a + b) == ChordsOf(a) + ChordsOf(b)
    decreases |a|
  {
    if a == [] {
      assert a + b == b;
    } else {
      assert (a + b)[0] == a[0] && (a + b)[1..] == a[1..] + b;
      ChordsOfAppend(a[1..], b);
      assert [a[0].chord] + (ChordsOf(a[1..]) + ChordsOf(b)) == [a[0].chord] + ChordsOf(a[1..]) + ChordsOf(b);
    }
  }

  /** The chords a beat names: its chord, a tuplet's chords, none for a continuation. */
  function BeatChords(b: Beat): seq<Chord> {
    match b
    case ChordBeat(c) => [c]
    case Continuation => []
    case Tuplet(cs) => cs
  }

  /** The chords written in a list of beats, in order. */
  function WrittenChords(bs: seq<Beat>): seq<Chord>
    decreases |bs|
  {
    if bs == [] then [] else BeatChords(bs[0]) + WrittenChords(bs[1..])
  }

  /** The chords written in a bar; a `%` names none. */
  function BarChords(b: Bar): seq<Chord> {
    match b
    case Measure(beats, _) => WrittenChords(beats)
    case RepeatMeasure(_) => []
  }

  /** The chords written in bars, in order. */
  function BarsChords(ms: seq<Bar>): seq<Chord>
    decreases |ms|
  {
    if ms == [] then [] else BarChords(ms[0]) + BarsChords(ms[1..])
  }

  /** `cs` written out `k` times. */
  function Repeated(cs: seq<Chord>, k: nat): seq<Chord>
    decreases k
  {
    if k == 0 then [] else cs + Repeated(cs, k - 1)
  }

  /** The chords a line item plays: a section's chords once per pass. */
  function ItemChords(it: LineItem): seq<Chord> {
    match it
    case BarItem(b) => BarChords(b)
    case RepeatSection(ms, k) => Repeated(BarsChords(ms), k)
  }

  /** The chords a measure line plays, in order. */
  function LineChords(items: seq<LineItem>): seq<Chord>
    decreases |items|
  {
    if items == [] then [] else ItemChords(items[0]) + LineChords(items[1..])
  }

  /** The chords a song plays, line after line; annotations play none. */
  function SongChords(body: seq<Node>): seq<Chord>
    decreases |body|
  {
    if body == [] then []
    else
      match body[0]
      case Annotation(_) => SongChords(body[1..])
      case MeasureLine(items) => LineChords(items) + SongChords(body[1..])
  }

  /** The chords `cs`, back to back from `start`, each lasting `d` beats. */
  function TupletRun(cs: seq<Chord>, start: real, d: real): (evs: seq<Event>)
    ensures |evs| == |cs|
    decreases |cs|
  {
    if cs == [] then [] else [Event(start, d, cs[0], true)] + TupletRun(cs[1..], start + d, d)
  }

  /** A tuplet's events: its chords share the beat's `share` equally. */
  function TupletEvents(cs: seq<Chord>, start: real, share: real): (evs: seq<Event>)
    ensures |evs| == |cs|
  {
    if cs == [] then [] else TupletRun(cs, start, share / |cs| as real)
  }

  /** The events with the last one lengthened by `d` (none to lengthen when empty). */
  function ExtendLast(evs: seq<Event>, d: real): (r: seq<Event>)
    ensures |r| == |evs|
    ensures forall i :: 0 <= i < |evs| - 1 ==> r[i] == evs[i]
    ensures evs != [] ==> r[|r| - 1] == evs[|evs| - 1].(duration := evs[|evs| - 1].duration + d)
  {
    if evs == [] then [] else evs[..|evs| - 1] + [evs[|evs| - 1].(duration := evs[|evs| - 1].duration + d)]
  }

  /** The events of one beat played at `t` for `share` beats, added to `evs`, the events
      of the measure so far. A continuation lengthens the measure's latest event. */
  function BeatStep(b: Beat, t: real, share: real, evs: seq<Event>): (r: seq<Event>)
    ensures |r| == |evs| + BeatEventCount(b)
  {
    match b
    case ChordBeat(c) => evs + [Event(t, share, c, false)]
    case Continuation => ExtendLast(evs, share)
    case Tuplet(cs) => evs + TupletEvents(cs, t, share)
  }

  /** The beats `bs` played from `t`, each taking `share` beats, after the measure's
      events so far `evs`. */
  function BeatsEvents(bs: seq<Beat>, t: real, share: real, evs: seq<Event>): (r: seq<Event>)
    ensures |r| == |evs| + EventCount(bs)
    decreases |bs|
  {
    if bs == [] then evs
    else BeatsEvents(bs[1..], t + share, share, BeatStep(bs[0], t, share, evs))
  }

  /** A tuplet run plays its chords in order. */
  lemma {:induction false} ChordsOfTupletRun(cs: seq<Chord>, start: real, d: real)
    ensures ChordsOf(TupletRun(cs, start, d)) == cs
    decreases |cs|
  {
    if cs != [] {
      var rest := TupletRun(cs[1..], start + d, d);
      assert ([Event(start, d, cs[0], true)] + rest)[1..] == rest;
      ChordsOfTupletRun(cs[1..], start + d, d);
    }
  }

  /** Lengthening the last event keeps the chords. */
  lemma ChordsOfExtendLast(evs: seq<Event>, d: real)
    ensures ChordsOf(ExtendLast(evs, d)) == ChordsOf(evs)
  {
    if evs != [] {
      var n := |evs| - 1;
      assert evs == evs[..n] + [evs[n]];
      ChordsOfAppend(evs[..n], [evs[n]]);
      ChordsOfAppend(evs[..n], [evs[n].(duration := evs[n].duration + d)]);
    }
  }

  /** One beat adds the chords it names to those of the measure so far. */
  lemma ChordsOfBeatStep(b: Beat, t: real, share: real, evs: seq<Event>)
    ensures ChordsOf(BeatStep(b, t, share, evs)) == ChordsOf(evs) + BeatChords(b)
  {
    match b
    case ChordBeat(c) =>
      ChordsOfAppend(evs, [Event(t, share, c, false)]);
    case Continuation =>
      ChordsOfExtendLast(evs, share);
    case Tuplet(cs) =>
      ChordsOfAppend(evs, TupletEvents(cs, t, share));
      if cs != [] {
        ChordsOfTupletRun(cs, t, share / |cs| as real);
      }
  }

  /** Beats played after `evs` add the chords written in them, in order. */
  lemma {:induction false} ChordsOfBeats(bs: seq<Beat>, t: real, share: real, evs: seq<Event>)
    ensures ChordsOf(BeatsEvents(bs, t, share, evs)) == ChordsOf(evs) + WrittenChords(bs)
    decreases |bs|
  {
    if bs == [] {
      assert ChordsOf(evs) + [] == ChordsOf(evs);
    } else {
      var next := BeatStep(bs[0], t, share, evs);
      var before, own, later := ChordsOf(evs), BeatChords(bs[0]), WrittenChords(bs[1..]);
      calc {
        ChordsOf(BeatsEvents(bs, t, share, evs));
        ChordsOf(BeatsEvents(bs[1..], t + share, share, next));
        { ChordsOfBeats(bs[1..], t + share, share, next); }
        ChordsOf(next) + later;
        { ChordsOfBeatStep(bs[0], t, share, evs); }
        before + own + later;
        before + (own + later);
        before + WrittenChords(bs);
      }
    }
  }

  /** A measure's events: each top-level beat gets an equal share of the measure. */
  function MeasureEvents(beats: seq<Beat>, start: real, bpm: real): (evs: seq<Event>)
    ensures |evs| == EventCount(beats)
  {
    if beats == [] then [] else BeatsEvents(beats, start, bpm / |beats| as real, [])
  }

  /** A bar's events; a measure's own repeat count plays no part and a `%` is silent. */
  function BarEvents(b: Bar, start: real, bpm: real): seq<Event> {
    match b
    case Measure(beats, _) => MeasureEvents(beats, start, bpm)
    case RepeatMeasure(_) => []
  }

  /** The clock after events `evs` played from `t`: the end of the last one, or one
      measure later when there are none. */
  function After(t: real, evs: seq<Event>, bpm: real): real {
    if evs == [] then t + bpm else End(evs[|evs| - 1])
  }

  /** Events emitted and the clock reached. */
  datatype Played = Played(events: seq<Event>, clock: real)

  /** The bars `ms` played one after another from `t`. */
  function BarsEvents(ms: seq<Bar>, t: real, bpm: real): Played
    decreases |ms|
  {
    if ms == [] then Played([], t)
    else
      var e := BarEvents(ms[0], t, bpm);
      var rest := BarsEvents(ms[1..], After(t, e, bpm), bpm);
      Played(e + rest.events, rest.clock)
  }

  /** A repeat section: its bars played `k` times, each pass from where the last ended. */
  function SectionEvents(ms: seq<Bar>, k: nat, t: real, bpm: real): Played
    decreases k
  {
    if k == 0 then Played([], t)
    else
      var pass := BarsEvents(ms, t, bpm);
      var rest := SectionEvents(ms, k - 1, pass.clock, bpm);
      Played(pass.events + rest.events, rest.clock)
  }

  /** The events of one item of a measure line; a section's inner clock is not kept. */
  function ItemEvents(it: LineItem, t: real, bpm: real): seq<Event> {
    match it
    case BarItem(b) => BarEvents(b, t, bpm)
    case RepeatSection(ms, k) => SectionEvents(ms, k, t, bpm).events
  }

  /** The items of a measure line played from `t`. */
  function LineEvents(items: seq<LineItem>, t: real, bpm: real): seq<Event>
    decreases |items|
  {
    if items == [] then []
    else
      var e := ItemEvents(items[0], t, bpm);
      e + LineEvents(items[1..], After(t, e, bpm), bpm)
  }

  /** The clock after a line's events `evs` from `t`: the end of the last, else unchanged. */
  function LineAfter(t: real, evs: seq<Event>): real {
    if evs == [] then t else End(evs[|evs| - 1])
  }

  /** The song's lines played from `t`; annotations emit nothing. */
  function SongEvents(body: seq<Node>, t: real, bpm: real): seq<Event>
    decreases |body|
  {
    if body == [] then []
    else
      match body[0]
      case Annotation(_) => SongEvents(body[1..], t, bpm)
      case MeasureLine(items) =>
        var e := LineEvents(items, t, bpm);
        e + SongEvents(body[1..], LineAfter(t, e), bpm)
  }

  /** A measure plays the chords written in it, in order: one event per chord, one per
      tuplet chord, none for a continuation. */
  lemma MeasurePlaysChords(beats: seq<Beat>, start: real, bpm: real)
    ensures ChordsOf(MeasureEvents(beats, start, bpm)) == WrittenChords(beats)
  {
    if beats != [] {
      ChordsOfBeats(beats, start, bpm / |beats| as real, []);
    }
  }

  /** Bars played one after another play their chords in order; a `%` plays none. */
  lemma {:induction false} BarsPlayChords(ms: seq<Bar>, t: real, bpm: real)
    ensures ChordsOf(BarsEvents(ms, t, bpm).events) == BarsChords(ms)
    decreases |ms|
  {
    if ms != [] {
      var e := BarEvents(ms[0], t, bpm);
      if ms[0].Measure? {
        MeasurePlaysChords(ms[0].beats, t, bpm);
      }
      BarsPlayChords(ms[1..], After(t, e, bpm), bpm);
      ChordsOfAppend(e, BarsEvents(ms[1..], After(t, e, bpm), bpm).events);
    }
  }

  /** A section played `k` times plays the chords of its bars `k` times over. */
  lemma {:induction false} SectionPlaysChords(ms: seq<Bar>, k: nat, t: real, bpm: real)
    ensures ChordsOf(SectionEvents(ms, k, t, bpm).events) == Repeated(BarsChords(ms), k)
    decreases k
  {
    if k > 0 {
      var pass := BarsEvents(ms, t, bpm);
      BarsPlayChords(ms, t, bpm);
      SectionPlaysChords(ms, k - 1, pass.clock, bpm);
      ChordsOfAppend(pass.events, SectionEvents(ms, k - 1, pass.clock, bpm).events);
    }
  }

  /** One item of a measure line plays its chords. */
  lemma ItemPlaysChords(it: LineItem, t: real, bpm: real)
    ensures ChordsOf(ItemEvents(it, t, bpm)) == ItemChords(it)
  {
    match it
    case BarItem(b) =>
      if b.Measure? {
        MeasurePlaysChords(b.beats, t, bpm);
      }
    case RepeatSection(ms, k) =>
      SectionPlaysChords(ms, k, t, bpm);
  }

  /** A measure line plays the chords of its items in order, each section's once per pass. */
  lemma {:induction false} LinePlaysChords(items: seq<LineItem>, t: real, bpm: real)
    ensures ChordsOf(LineEvents(items, t, bpm)) == LineChords(items)
    decreases |items|
  {
    if items != [] {
      var e := ItemEvents(items[0], t, bpm);
      ItemPlaysChords(items[0], t, bpm);
      LinePlaysChords(items[1..], After(t, e, bpm), bpm);
      ChordsOfAppend(e, LineEvents(items[1..], After(t, e, bpm), bpm));
    }
  }

  /** A song plays the chords of its measure lines, line after line. */
  lemma {:induction false} SongPlaysChords(body: seq<Node>, t: real, bpm: real)
    ensures ChordsOf(SongEvents(body, t, bpm)) == SongChords(body)
    decreases |body|
  {
    if body != [] {
      match body[0]
      case Annotation(_) =>
        SongPlaysChords(body[1..], t, bpm);
      case MeasureLine(items) =>
        var e := LineEvents(items, t, bpm);
        LinePlaysChords(items, t, bpm);
        SongPlaysChords(body[1..], LineAfter(t, e), bpm);
        ChordsOfAppend(e, SongEvents(body[1..], LineAfter(t, e), bpm));
    }
  }

  /** All chord events of a song, from beat 0, under the caller's signature `signature`
      unless a time annotation overrides it. A malformed caller signature, or a malformed
      first `time:` annotation, makes the whole computation fail with its error. */
  function CalculateDurations(song: Song, signature: string): (r: Result<seq<Event>, RhythmError>)
    ensures ParseTimeSignature(signature).Err? ==> r == Err(ParseTimeSignature(signature).error)
    ensures ParseTimeSignature(signature).Ok? && SongSignature(song.body, ParseTimeSignature(signature).value).Err? ==>
              r == Err(SongSignature(song.body, ParseTimeSignature(signature).value).error)
    ensures ParseTimeSignature(signature).Ok? && SongSignature(song.body, ParseTimeSignature(signature).value).Ok? ==>
              r.Ok?
    ensures r.Ok? ==> ChordsOf(r.value) == SongChords(song.body)
  {
    var ts :- ParseTimeSignature(signature);
    var used :- SongSignature(song.body, ts);
    SongPlaysChords(song.body, 0.0, BeatsPerMeasure(used));
    Ok(SongEvents(song.body, 0.0, BeatsPerMeasure(used)))
  }
}
