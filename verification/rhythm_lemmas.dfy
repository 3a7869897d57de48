/**
 * Properties of the rhythm stage: what the time-signature reader accepts, which
 * annotation sets the signature, how much time a measure's events fill, that the
 * events of a song never overlap, and how a repeat section unrolls.
 */
module RhythmLemmas {
  import opened Common
  import opened Lexer
  import opened Ast
  import opened Parser
  import opened ParserLemmas
  import opened Rhythm

  // ---------------------------------------------------------------------------
  // Splitting and stripping
  // ---------------------------------------------------------------------------

  /** The pieces put back together with `sep` between them. */
  function Join(parts: seq<string>, sep: char): string
    decreases |parts|
  {
    if parts == [] then [] else if |parts| == 1 then parts[0] else parts[0] + [sep] + Join(parts[1..], sep)
  }

  /** Joining a piece onto the front of at least one more piece. */
  lemma JoinCons(p: string, rest: seq<string>, sep: char)
    requires rest != []
    ensures Join([p] + rest, sep) == p + [sep] + Join(rest, sep)
  {
    assert ([p] + rest)[1..] == rest;
  }

  /** Extending the first piece extends the joined text. */
  lemma JoinFirst(c: char, rest: seq<string>, sep: char)
    requires rest != []
    ensures Join([[c] + rest[0]] + rest[1..], sep) == [c] + Join(rest, sep)
  {
    if |rest| > 1 {
      JoinCons([c] + rest[0], rest[1..], sep);
      JoinCons(rest[0], rest[1..], sep);
      assert [rest[0]] + rest[1..] == rest;
    }
  }

  /** Splitting loses nothing: joining the pieces with the separator gives the text back. */
  lemma {:induction false} JoinSplit(s: string, sep: char)
    ensures Join(Split(s, sep), sep) == s
    decreases |s|
  {
    if s != [] {
      JoinSplit(s[1..], sep);
      var rest := Split(s[1..], sep);
      assert s == [s[0]] + s[1..];
      if s[0] == sep {
        assert Split(s, sep) == [""] + rest;
        JoinCons("", rest, sep);
      } else {
        assert Split(s, sep) == [[s[0]] + rest[0]] + rest[1..];
        JoinFirst(s[0], rest, sep);
      }
    }
  }

  /** Text without the separator is one piece. */
  lemma {:induction false} SplitNone(s: string, sep: char)
    requires sep !in s
    ensures Split(s, sep) == [s]
    decreases |s|
  {
    if s != [] {
      SplitNone(s[1..], sep);
      assert s == [s[0]] + s[1..];
    }
  }

  /** Text with exactly one separator splits into what stands on either side of it. */
  lemma {:induction false} SplitOnce(a: string, b: string, sep: char)
    requires sep !in a && sep !in b
    ensures Split(a + [sep] + b, sep) == [a, b]
    decreases |a|
  {
    var s := a + [sep] + b;
    if a == [] {
      assert s[0] == sep && s[1..] == b;
      SplitNone(b, sep);
      assert Split(s, sep) == [""] + Split(b, sep);
    } else {
      assert s[0] == a[0] && a[0] != sep;
      assert s[1..] == a[1..] + [sep] + b;
      SplitOnce(a[1..], b, sep);
      var rest := Split(s[1..], sep);
      assert rest == [a[1..], b];
      assert Split(s, sep) == [[s[0]] + rest[0]] + rest[1..];
      assert [a[0]] + a[1..] == a;
    }
  }

  /** Stripping leading whitespace that is all whitespace leaves nothing, and otherwise
      keeps everything from the first non-space character on. */
  lemma {:induction false} StripStartPadded(lead: string, s: string)
    requires forall i :: 0 <= i < |lead| ==> IsSpace(lead[i])
    requires s != [] ==> !IsSpace(s[0])
    ensures StripStart(lead + s) == s
    decreases |lead|
  {
    if lead == [] {
      assert lead + s == s;
    } else {
      assert (lead + s)[1..] == lead[1..] + s;
      StripStartPadded(lead[1..], s);
    }
  }

  /** Stripping trailing whitespace after text that ends in a non-space character. */
  lemma {:induction false} StripEndPadded(s: string, trail: string)
    requires forall i :: 0 <= i < |trail| ==> IsSpace(trail[i])
    requires s != [] ==> !IsSpace(s[|s| - 1])
    ensures StripEnd(s + trail) == s
    decreases |trail|
  {
    if trail == [] {
      assert s + trail == s;
    } else {
      assert (s + trail)[..|s + trail| - 1] == s + trail[..|trail| - 1];
      StripEndPadded(s, trail[..|trail| - 1]);
    }
  }

  /** `strip` removes exactly the surrounding whitespace: padding text whose ends are not
      whitespace with whitespace on both sides and stripping gives the text back. */
  lemma StripPadded(lead: string, s: string, trail: string)
    requires forall i :: 0 <= i < |lead| ==> IsSpace(lead[i])
    requires forall i :: 0 <= i < |trail| ==> IsSpace(trail[i])
    requires s != [] ==> !IsSpace(s[0]) && !IsSpace(s[|s| - 1])
    ensures Strip(lead + s + trail) == s
  {
    if s == [] {
      assert lead + s + trail == lead + trail;
      StripStartPadded(lead + trail, []);
      assert lead + trail + [] == lead + trail;
    } else {
      assert lead + s + trail == lead + (s + trail);
      StripStartPadded(lead, s + trail);
      StripEndPadded(s, trail);
    }
  }

  // ---------------------------------------------------------------------------
  // Time signatures
  // ---------------------------------------------------------------------------

  /** A time signature written out in decimal. */
  function SignatureText(ts: TimeSignature): string {
    Decimal(ts.numerator) + "/" + Decimal(ts.denominator)
  }

  /** A decimal number is read back as itself. */
  lemma ParseNumberDecimal(n: nat)
    ensures ParseNumber(Decimal(n)) == Ok(n)
  {
    var d := Decimal(n);
    assert d[0..|d|] == d;
    DigitsValueDecimal(d, 0, |d|, n);
  }

  /** Decimal text holds no `/`. */
  lemma DecimalNoSlash(n: nat)
    ensures '/' !in Decimal(n)
  {
    assert !IsDigit('/');
  }

  /** Text with a single `/` reads as a signature exactly when both sides are numerals,
      the numerator being checked first; the signature holds their values. */
  lemma SignatureOfParts(a: string, b: string)
    requires '/' !in a && '/' !in b
    ensures ParseTimeSignature(a + "/" + b)
         == if !Numeral(a) then Err(InvalidNumber(a))
            else if !Numeral(b) then Err(InvalidNumber(b))
            else Ok(TimeSignature(DigitsValue(a, 0, |a|), DigitsValue(b, 0, |b|)))
  {
    SplitOnce(a, b, '/');
  }

  /** Every time signature written out is read back unchanged. */
  lemma SignatureRoundTrip(ts: TimeSignature)
    ensures ParseTimeSignature(SignatureText(ts)) == Ok(ts)
  {
    DecimalNoSlash(ts.numerator);
    DecimalNoSlash(ts.denominator);
    SignatureOfParts(Decimal(ts.numerator), Decimal(ts.denominator));
    ParseNumberDecimal(ts.numerator);
    ParseNumberDecimal(ts.denominator);
  }

  /** No annotation of `body` sets the time signature. */
  predicate NoTimeAnnotation(body: seq<Node>) {
    forall i :: 0 <= i < |body| ==> !IsTimeAnnotation(body[i])
  }

  /** Without a time annotation the given signature stays. */
  lemma {:induction false} DefaultSignatureKept(body: seq<Node>, ts: TimeSignature)
    requires NoTimeAnnotation(body)
    ensures SongSignature(body, ts) == Ok(ts)
    decreases |body|
  {
    if body != [] {
      assert !IsTimeAnnotation(body[0]);
      DefaultSignatureKept(body[1..], ts);
    }
  }

  /** The first time annotation decides the signature for the whole song, whatever
      follows it; later time annotations are ignored. */
  lemma {:induction false} FirstTimeAnnotationWins(pre: seq<Node>, n: Node, post: seq<Node>, ts: TimeSignature)
    requires NoTimeAnnotation(pre) && IsTimeAnnotation(n)
    ensures SongSignature(pre + [n] + post, ts) == ParseTimeSignature(TimeText(n))
    decreases |pre|
  {
    var body := pre + [n] + post;
    if pre == [] {
      assert body[0] == n;
    } else {
      assert body[0] == pre[0] && !IsTimeAnnotation(pre[0]);
      assert body[1..] == pre[1..] + [n] + post;
      FirstTimeAnnotationWins(pre[1..], n, post, ts);
    }
  }

  /** The text of `time: 3/4` is `3/4`. */
  lemma ThreeFourText()
    ensures TimeText(Annotation("time: 3/4")) == "3/4"
  {
    var n := Annotation("time: 3/4");
    assert n.content[|TimePrefix|..] == " " + "3/4" + "";
    StripPadded(" ", "3/4", "");
  }

  /** `3/4` reads as three beats over four. */
  lemma ThreeFourSignature()
    ensures ParseTimeSignature("3/4") == Ok(TimeSignature(3, 4))
  {
    assert SignatureText(TimeSignature(3, 4)) == "3/4";
    SignatureRoundTrip(TimeSignature(3, 4));
  }

  /** Signatures that agree on the numerator lead to the same song signature, unless
      the song has no time annotation and each is kept as it is. */
  lemma {:induction false} SongSignatureBeats(body: seq<Node>, ts1: TimeSignature, ts2: TimeSignature)
    ensures || SongSignature(body, ts1) == SongSignature(body, ts2)
            || (SongSignature(body, ts1) == Ok(ts1) && SongSignature(body, ts2) == Ok(ts2))
    decreases |body|
  {
    if body != [] && !IsTimeAnnotation(body[0]) {
      SongSignatureBeats(body[1..], ts1, ts2);
    }
  }

  /** The denominator plays no part: caller signatures with the same numerator give
      the same events. */
  lemma DenominatorIgnored(song: Song, a: string, b: string)
    requires ParseTimeSignature(a).Ok? && ParseTimeSignature(b).Ok?
    requires ParseTimeSignature(a).value.numerator == ParseTimeSignature(b).value.numerator
    ensures CalculateDurations(song, a) == CalculateDurations(song, b)
  {
    SongSignatureBeats(song.body, ParseTimeSignature(a).value, ParseTimeSignature(b).value);
  }

  // ---------------------------------------------------------------------------
  // Durations within a measure
  // ---------------------------------------------------------------------------

  /** The summed durations of `evs`. */
  function Total(evs: seq<Event>): real
    decreases |evs|
  {
    if evs == [] then 0.0 else Total(evs[..|evs| - 1]) + evs[|evs| - 1].duration
  }

  /** Durations add up across a concatenation. */
  lemma {:induction false} TotalAppend(a: seq<Event>, b: seq<Event>)
    ensures Total(a + b) == Total(a) + Total(b)
    decreases |b|
  {
    if b == [] {
      assert a + b == a;
    } else {
      assert (a + b)[..|a + b| - 1] == a + b[..|b| - 1];
      TotalAppend(a, b[..|b| - 1]);
    }
  }

  /** Whether beat `b` sounds: a chord, a non-empty tuplet, or a continuation once an
      earlier beat of the measure has sounded (`started`). */
  predicate Sounds(b: Beat, started: bool) {
    b.ChordBeat? || (b.Continuation? && started) || (b.Tuplet? && b.chords != [])
  }

  /** The time during which the beats `bs` sound, each taking `share` beats. Leading
      continuations and empty tuplets pass their time in silence. */
  function SoundingTime(bs: seq<Beat>, started: bool, share: real): real
    decreases |bs|
  {
    if bs == [] then 0.0
    else (if Sounds(bs[0], started) then share else 0.0)
         + SoundingTime(bs[1..], started || Sounds(bs[0], started), share)
  }

  /** A tuplet run holds the chords in order, each lasting `d`, marked as tuplet members,
      the first starting at `t` and each later one when the one before it ends. */
  lemma {:induction false} TupletRunShape(cs: seq<Chord>, t: real, d: real)
    ensures var evs := TupletRun(cs, t, d);
      (evs != [] ==> evs[0].start == t)
      && (forall i :: 0 <= i < |evs| ==> evs[i].duration == d && evs[i].chord == cs[i] && evs[i].inTuplet)
      && (forall i :: 0 < i < |evs| ==> evs[i].start == End(evs[i - 1]))
    decreases |cs|
  {
    if cs != [] {
      var rest := TupletRun(cs[1..], t + d, d);
      TupletRunShape(cs[1..], t + d, d);
      var evs := [Event(t, d, cs[0], true)] + rest;
      assert TupletRun(cs, t, d) == evs;
      forall i | 0 < i < |evs|
        ensures evs[i].start == End(evs[i - 1])
      {
        assert evs[i] == rest[i - 1];
        if i > 1 {
          assert evs[i - 1] == rest[i - 2];
        }
      }
      forall i | 0 < i < |evs|
        ensures evs[i].duration == d && evs[i].chord == cs[i] && evs[i].inTuplet
      {
        assert evs[i] == rest[i - 1] && cs[i] == cs[1..][i - 1];
      }
    }
  }

  /** One event lasts its duration. */
  lemma TotalSingle(e: Event)
    ensures Total([e]) == e.duration
  {
    assert [e][..0] == [];
  }

  /** `k + 1` lots of `d` are `d` more than `k` lots. */
  lemma MulSucc(k: nat, d: real)
    ensures (k + 1) as real * d == d + k as real * d
  {
  }

  /** A run of `k` tuplet chords of `d` beats each lasts `k * d` beats. */
  lemma {:induction false} TupletRunTotal(cs: seq<Chord>, t: real, d: real)
    ensures Total(TupletRun(cs, t, d)) == |cs| as real * d
    decreases |cs|
  {
    if cs != [] {
      var e := Event(t, d, cs[0], true);
      var rest := TupletRun(cs[1..], t + d, d);
      TupletRunTotal(cs[1..], t + d, d);
      assert TupletRun(cs, t, d) == [e] + rest;
      TotalAppend([e], rest);
      TotalSingle(e);
      MulSucc(|cs| - 1, d);
    }
  }

  /** A run of `k` tuplet chords of `d` beats each from `t` ends at `t + k * d`. */
  lemma {:induction false} TupletRunEnd(cs: seq<Chord>, t: real, d: real)
    requires cs != []
    ensures End(TupletRun(cs, t, d)[|cs| - 1]) == t + |cs| as real * d
    decreases |cs|
  {
    var rest := TupletRun(cs[1..], t + d, d);
    assert TupletRun(cs, t, d) == [Event(t, d, cs[0], true)] + rest;
    if |cs| > 1 {
      TupletRunEnd(cs[1..], t + d, d);
      assert TupletRun(cs, t, d)[|cs| - 1] == rest[|cs| - 2];
      MulSucc(|cs| - 1, d);
    }
  }

  /** A tuplet of k > 0 chords splits its share into k equal, consecutive events, all
      marked as tuplet members, that start with the beat and end exactly a share later. */
  lemma TupletSplitsShare(cs: seq<Chord>, t: real, share: real)
    requires cs != []
    ensures var evs := TupletEvents(cs, t, share);
      |evs| == |cs| && evs[0].start == t && End(evs[|evs| - 1]) == t + share
      && Total(evs) == share
      && (forall i :: 0 <= i < |evs| ==>
            evs[i].duration == share / |cs| as real && evs[i].chord == cs[i] && evs[i].inTuplet)
      && (forall i :: 0 < i < |evs| ==> evs[i].start == End(evs[i - 1]))
  {
    var k := |cs| as real;
    var d := share / k;
    TupletRunTotal(cs, t, d);
    TupletRunEnd(cs, t, d);
    TupletRunShape(cs, t, d);
    assert k * d == share;
  }

  /** What one beat adds to the measure's total, and whether the measure has sounded. */
  lemma BeatStepTotal(b: Beat, t: real, share: real, evs: seq<Event>)
    ensures var next := BeatStep(b, t, share, evs);
      Total(next) == Total(evs) + (if Sounds(b, evs != []) then share else 0.0)
      && (next != []) == (evs != [] || Sounds(b, evs != []))
  {
    match b {
      case ChordBeat(c) =>
        assert (evs + [Event(t, share, c, false)])[..|evs|] == evs;
      case Continuation =>
        if evs != [] {
          var r := ExtendLast(evs, share);
          assert r[..|r| - 1] == evs[..|evs| - 1];
        }
      case Tuplet(cs) =>
        TotalAppend(evs, TupletEvents(cs, t, share));
        if cs != [] {
          TupletSplitsShare(cs, t, share);
        } else {
          assert evs + [] == evs;
        }
    }
  }

  /** The beats after the measure's events so far add the time during which they sound. */
  lemma {:induction false} BeatsTotal(bs: seq<Beat>, t: real, share: real, evs: seq<Event>)
    ensures Total(BeatsEvents(bs, t, share, evs)) == Total(evs) + SoundingTime(bs, evs != [], share)
    decreases |bs|
  {
    if bs != [] {
      var next := BeatStep(bs[0], t, share, evs);
      BeatStepTotal(bs[0], t, share, evs);
      BeatsTotal(bs[1..], t + share, share, next);
    }
  }

  /** A measure's event durations add up to the time its sounding elements take, each
      element taking an equal share of the measure. */
  lemma MeasureTotal(beats: seq<Beat>, t: real, bpm: real)
    requires beats != []
    ensures Total(MeasureEvents(beats, t, bpm)) == SoundingTime(beats, false, bpm / |beats| as real)
  {
    BeatsTotal(beats, t, bpm / |beats| as real, []);
  }

  /** No tuplet of `bs` is empty. */
  predicate NoEmptyTuplet(bs: seq<Beat>) {
    forall i :: 0 <= i < |bs| ==> bs[i] != Tuplet([])
  }

  /** Once a measure has sounded, every beat but an empty tuplet sounds for its share. */
  lemma {:induction false} AllSounding(bs: seq<Beat>, share: real)
    requires NoEmptyTuplet(bs)
    ensures SoundingTime(bs, true, share) == |bs| as real * share
    decreases |bs|
  {
    if bs != [] {
      assert bs[0] != Tuplet([]);
      AllSounding(bs[1..], share);
      assert |bs| as real * share == share + (|bs| - 1) as real * share;
    }
  }

  /** With a chord (or a non-empty tuplet) first and no empty tuplet, a measure's event
      durations add up exactly to the beats of the measure. */
  lemma MeasureFillsBeats(beats: seq<Beat>, t: real, bpm: real)
    requires beats != [] && NoEmptyTuplet(beats)
    requires beats[0].ChordBeat? || beats[0].Tuplet?
    ensures Total(MeasureEvents(beats, t, bpm)) == bpm
  {
    var n := |beats| as real;
    var share := bpm / n;
    MeasureTotal(beats, t, bpm);
    assert beats[0] != Tuplet([]);
    AllSounding(beats[1..], share);
    assert SoundingTime(beats, false, share) == share + (n - 1.0) * share;
    assert share + (n - 1.0) * share == n * share;
    assert n * share == bpm;
  }

  // ---------------------------------------------------------------------------
  // Where each beat's events land
  // ---------------------------------------------------------------------------

  /** How long the continuations at the front of `bs` hold the event before them on: a
      share each, up to the next beat that emits an event. An empty tuplet emits nothing
      and so does not end the run. */
  function HeldTime(bs: seq<Beat>, share: real): real
    decreases |bs|
  {
    if bs == [] then 0.0
    else match bs[0]
      case Continuation => share + HeldTime(bs[1..], share)
      case Tuplet(cs) => if cs == [] then HeldTime(bs[1..], share) else 0.0
      case ChordBeat(_) => 0.0
  }

  /** The events beat `b` emits by itself when its slot starts at `t`. */
  function OwnEvents(b: Beat, t: real, share: real): seq<Event> {
    match b
    case ChordBeat(c) => [Event(t, share, c, false)]
    case Continuation => []
    case Tuplet(cs) => TupletEvents(cs, t, share)
  }

  /** Reference layout of a measure: beat `i` plays its own events in the `i`-th slot of
      `share` beats, and the last of them is held on by the continuations after it. */
  function Layout(bs: seq<Beat>, t: real, share: real): (evs: seq<Event>)
    ensures |evs| == EventCount(bs)
    decreases |bs|
  {
    if bs == [] then []
    else ExtendLast(OwnEvents(bs[0], t, share), HeldTime(bs[1..], share)) + Layout(bs[1..], t + share, share)
  }

  /** Lengthening by nothing changes nothing. */
  lemma ExtendLastZero(evs: seq<Event>)
    ensures ExtendLast(evs, 0.0) == evs
  {
    if evs != [] {
      assert evs[|evs| - 1].(duration := evs[|evs| - 1].duration + 0.0) == evs[|evs| - 1];
      assert evs[..|evs| - 1] + [evs[|evs| - 1]] == evs;
    }
  }

  /** The last event of `a + b` is the last of `b` when `b` has one. */
  lemma ExtendLastAppend(a: seq<Event>, b: seq<Event>, h: real)
    requires b != []
    ensures ExtendLast(a + b, h) == a + ExtendLast(b, h)
  {
    assert (a + b)[..|a + b| - 1] == a + b[..|b| - 1];
  }

  /** Lengthening twice is lengthening by the sum. */
  lemma ExtendLastTwice(evs: seq<Event>, x: real, y: real)
    ensures ExtendLast(ExtendLast(evs, x), y) == ExtendLast(evs, x + y)
  {
    if evs != [] {
      var once := ExtendLast(evs, x);
      assert once[..|once| - 1] == evs[..|evs| - 1];
    }
  }

  /** How long beat `b` and then `h` more of held time hold the event before `b` on. */
  function HeldThrough(b: Beat, h: real, share: real): real {
    match b
    case Continuation => share + h
    case Tuplet(cs) => if cs == [] then h else 0.0
    case ChordBeat(_) => 0.0
  }

  /** One beat's step, followed by holding its last event on for `h`, splits into the
      earlier events held through `b` and `b`'s own events held for `h`. */
  lemma StepLayout(b: Beat, t: real, share: real, evs: seq<Event>, h: real)
    ensures ExtendLast(BeatStep(b, t, share, evs), h)
            == ExtendLast(evs, HeldThrough(b, h, share)) + ExtendLast(OwnEvents(b, t, share), h)
  {
    match b
    case ChordBeat(c) =>
      ExtendLastAppend(evs, [Event(t, share, c, false)], h);
      ExtendLastZero(evs);
    case Continuation =>
      ExtendLastTwice(evs, share, h);
    case Tuplet(cs) =>
      if cs == [] {
        assert evs + [] == evs;
      } else {
        ExtendLastAppend(evs, TupletEvents(cs, t, share), h);
        ExtendLastZero(evs);
      }
  }

  /** Concatenating events is associative. */
  lemma AppendAssoc(a: seq<Event>, b: seq<Event>, c: seq<Event>)
    ensures a + b + c == a + (b + c)
  {
  }

  /** Playing the first beat and laying out the rest is laying out all of them, with the
      earlier events held through the first beat as well. */
  lemma LayoutCons(bs: seq<Beat>, t: real, share: real, evs: seq<Event>)
    requires bs != []
    ensures ExtendLast(BeatStep(bs[0], t, share, evs), HeldTime(bs[1..], share)) + Layout(bs[1..], t + share, share)
            == ExtendLast(evs, HeldTime(bs, share)) + Layout(bs, t, share)
  {
    var h := HeldTime(bs[1..], share);
    var later := Layout(bs[1..], t + share, share);
    var held := ExtendLast(evs, HeldTime(bs, share));
    var own := ExtendLast(OwnEvents(bs[0], t, share), h);
    calc {
      ExtendLast(BeatStep(bs[0], t, share, evs), h) + later;
      { StepLayout(bs[0], t, share, evs, h);
        assert HeldTime(bs, share) == HeldThrough(bs[0], h, share); }
      held + own + later;
      { AppendAssoc(held, own, later); }
      held + (own + later);
      { assert Layout(bs, t, share) == own + later; }
      held + Layout(bs, t, share);
    }
  }

  /** Walking the beats agrees with the reference layout: what is still to come holds the
      latest event so far on through its leading continuations, then lays itself out. */
  lemma {:induction false} BeatsLayout(bs: seq<Beat>, t: real, share: real, evs: seq<Event>)
    ensures BeatsEvents(bs, t, share, evs) == ExtendLast(evs, HeldTime(bs, share)) + Layout(bs, t, share)
    decreases |bs|
  {
    if bs == [] {
      ExtendLastZero(evs);
      assert evs + [] == evs;
    } else {
      var step := BeatStep(bs[0], t, share, evs);
      var later := ExtendLast(step, HeldTime(bs[1..], share)) + Layout(bs[1..], t + share, share);
      assert BeatsEvents(bs, t, share, evs) == later by {
        assert BeatsEvents(bs, t, share, evs) == BeatsEvents(bs[1..], t + share, share, step);
        BeatsLayout(bs[1..], t + share, share, step);
      }
      LayoutCons(bs, t, share, evs);
    }
  }

  /** A measure's events are its reference layout. */
  lemma MeasureLayout(beats: seq<Beat>, t: real, bpm: real)
    requires beats != []
    ensures MeasureEvents(beats, t, bpm) == Layout(beats, t, bpm / |beats| as real)
  {
    BeatsLayout(beats, t, bpm / |beats| as real, []);
  }

  /** Where slot `i` of a measure starts, each slot lasting `share` beats from `t`. */
  function SlotStart(t: real, share: real, i: nat): real {
    t + i as real * share
  }

  /** Slot `i` of the beats after the first is slot `i + 1` of the whole measure. */
  lemma SlotShift(t: real, share: real, i: nat)
    ensures SlotStart(t + share, share, i) == SlotStart(t, share, i + 1)
  {
    MulSucc(i, share);
  }

  /** `evs` holds the events `own` at positions `k` up to `k + n`. */
  predicate HoldsAt(evs: seq<Event>, k: nat, n: nat, own: seq<Event>) {
    k + n <= |evs| && evs[k .. k + n] == own
  }

  /** Events held by `b` are held by `a + b`, `|a|` positions later. */
  lemma HoldsAfter(a: seq<Event>, b: seq<Event>, k: nat, n: nat, own: seq<Event>)
    requires HoldsAt(b, k, n, own)
    ensures HoldsAt(a + b, |a| + k, n, own)
  {
    assert (a + b)[|a| + k .. |a| + k + n] == b[k .. k + n];
  }

  /** The events beat `i` of `bs` contributes to the reference layout. */
  function SlotEvents(bs: seq<Beat>, t: real, share: real, i: nat): seq<Event>
    requires i < |bs|
  {
    ExtendLast(OwnEvents(bs[i], SlotStart(t, share, i), share), HeldTime(bs[i + 1..], share))
  }

  /** The first beat's events open the layout. */
  lemma LayoutFirstSlot(bs: seq<Beat>, t: real, share: real)
    requires bs != []
    ensures HoldsAt(Layout(bs, t, share), EventCount(bs[..0]), BeatEventCount(bs[0]), SlotEvents(bs, t, share, 0))
  {
    var first := ExtendLast(OwnEvents(bs[0], t, share), HeldTime(bs[1..], share));
    assert Layout(bs, t, share) == first + Layout(bs[1..], t + share, share);
    assert bs[..0] == [];
    assert SlotStart(t, share, 0) == t;
    assert (first + Layout(bs[1..], t + share, share))[0 .. |first|] == first;
  }

  /** Slot `i` of the beats after the first lies in the layout right after the first
      beat's events. */
  lemma LayoutLaterSlot(bs: seq<Beat>, t: real, share: real, i: nat)
    requires 0 < i < |bs|
    requires HoldsAt(Layout(bs[1..], t + share, share), EventCount(bs[1..][..i - 1]), BeatEventCount(bs[1..][i - 1]),
                     SlotEvents(bs[1..], t + share, share, i - 1))
    ensures HoldsAt(Layout(bs, t, share), EventCount(bs[..i]), BeatEventCount(bs[i]), SlotEvents(bs, t, share, i))
  {
    var tail := bs[1..];
    var first := ExtendLast(OwnEvents(bs[0], t, share), HeldTime(tail, share));
    assert Layout(bs, t, share) == first + Layout(tail, t + share, share);
    assert EventCount(bs[..i]) == |first| + EventCount(tail[..i - 1]) by {
      assert bs[..i][1..] == tail[..i - 1];
    }
    assert SlotEvents(tail, t + share, share, i - 1) == SlotEvents(bs, t, share, i) by {
      assert tail[i - 1] == bs[i] && tail[i - 1 + 1..] == bs[i + 1..];
      SlotShift(t, share, i - 1);
    }
    HoldsAfter(first, Layout(tail, t + share, share), EventCount(tail[..i - 1]), BeatEventCount(bs[i]),
               SlotEvents(bs, t, share, i));
  }

  /** In the reference layout, beat `i`'s events come after those of the beats before it,
      start at slot `i`, and the last of them is held through the continuations after it. */
  lemma {:induction false} LayoutSlot(bs: seq<Beat>, t: real, share: real, i: nat)
    requires i < |bs|
    ensures HoldsAt(Layout(bs, t, share), EventCount(bs[..i]), BeatEventCount(bs[i]), SlotEvents(bs, t, share, i))
    decreases i
  {
    if i == 0 {
      LayoutFirstSlot(bs, t, share);
    } else {
      LayoutSlot(bs[1..], t + share, share, i - 1);
      LayoutLaterSlot(bs, t, share, i);
    }
  }

  /** Beat `i` of a measure plays its own events from the start of slot `i`, right after
      the events of the beats before it, and its last event is held on by the
      continuations that follow it. */
  lemma MeasureSlot(beats: seq<Beat>, t: real, bpm: real, i: nat)
    requires i < |beats|
    ensures var share := bpm / |beats| as real;
      var k := EventCount(beats[..i]);
      k + BeatEventCount(beats[i]) <= |MeasureEvents(beats, t, bpm)|
      && MeasureEvents(beats, t, bpm)[k .. k + BeatEventCount(beats[i])]
         == ExtendLast(OwnEvents(beats[i], SlotStart(t, share, i), share), HeldTime(beats[i + 1..], share))
  {
    MeasureLayout(beats, t, bpm);
    LayoutSlot(beats, t, bpm / |beats| as real, i);
    assert MeasureEvents(beats, t, bpm) == Layout(beats, t, bpm / |beats| as real);
  }

  /** A chord beat's event: it starts at its slot, lasts its share plus the continuations
      after it, and is not a tuplet member. */
  lemma ChordEventAt(beats: seq<Beat>, t: real, bpm: real, i: nat)
    requires i < |beats| && beats[i].ChordBeat?
    ensures var share := bpm / |beats| as real;
      var k := EventCount(beats[..i]);
      k < |MeasureEvents(beats, t, bpm)|
      && MeasureEvents(beats, t, bpm)[k]
         == Event(SlotStart(t, share, i), share + HeldTime(beats[i + 1..], share), beats[i].chord, false)
  {
    var k := EventCount(beats[..i]);
    MeasureSlot(beats, t, bpm, i);
    assert MeasureEvents(beats, t, bpm)[k] == MeasureEvents(beats, t, bpm)[k .. k + 1][0];
  }

  /** A tuplet beat's events: its chords split the slot equally, in order, and the last is
      held on by the continuations after the tuplet. */
  lemma TupletEventsAt(beats: seq<Beat>, t: real, bpm: real, i: nat)
    requires i < |beats| && beats[i].Tuplet? && beats[i].chords != []
    ensures var share := bpm / |beats| as real;
      var cs := beats[i].chords;
      var k := EventCount(beats[..i]);
      k + |cs| <= |MeasureEvents(beats, t, bpm)|
      && MeasureEvents(beats, t, bpm)[k .. k + |cs|]
         == ExtendLast(TupletRun(cs, SlotStart(t, share, i), share / |cs| as real), HeldTime(beats[i + 1..], share))
  {
    MeasureSlot(beats, t, bpm, i);
  }

  /** Continuations up to the next chord or non-empty tuplet (or the end of the measure)
      hold the event before them on for a share each. */
  lemma {:induction false} HeldByContinuations(bs: seq<Beat>, j: nat, share: real)
    requires j <= |bs|
    requires forall m :: 0 <= m < j ==> bs[m] == Continuation
    requires j < |bs| ==> bs[j].ChordBeat? || (bs[j].Tuplet? && bs[j].chords != [])
    ensures HeldTime(bs, share) == j as real * share
    decreases j
  {
    if j > 0 {
      assert bs[0] == Continuation;
      HeldByContinuations(bs[1..], j - 1, share);
      MulSucc(j - 1, share);
    }
  }

  /** `| C . . G |` in four: C sounds for three beats, then G for one. */
  lemma DottedMeasure(c: Chord, g: Chord)
    ensures MeasureEvents([ChordBeat(c), Continuation, Continuation, ChordBeat(g)], 0.0, 4.0)
         == [Event(0.0, 3.0, c, false), Event(3.0, 1.0, g, false)]
  {
    var bs := [ChordBeat(c), Continuation, Continuation, ChordBeat(g)];
    var e1 := [Event(0.0, 1.0, c, false)];
    var e2 := [Event(0.0, 2.0, c, false)];
    var e3 := [Event(0.0, 3.0, c, false)];
    assert 4.0 / |bs| as real == 1.0;
    assert BeatStep(bs[0], 0.0, 1.0, []) == e1;
    assert BeatStep(bs[1], 1.0, 1.0, e1) == e2;
    assert BeatStep(bs[2], 2.0, 1.0, e2) == e3;
    assert bs[1..][1..][1..] == [ChordBeat(g)];
    calc {
      MeasureEvents(bs, 0.0, 4.0);
      BeatsEvents(bs, 0.0, 1.0, []);
      BeatsEvents(bs[1..], 1.0, 1.0, e1);
      BeatsEvents(bs[1..][1..], 2.0, 1.0, e2);
      BeatsEvents([ChordBeat(g)], 3.0, 1.0, e3);
      BeatsEvents([], 4.0, 1.0, e3 + [Event(3.0, 1.0, g, false)]);
    }
  }

  /** A bar emits nothing exactly when it is a `%` or a measure without chords. */
  lemma SilentBar(b: Bar, t: real, bpm: real)
    ensures BarEvents(b, t, bpm) == [] <==> b.RepeatMeasure? || EventCount(b.beats) == 0
  {
  }

  /** A silent bar at the head of a line moves the line's clock on by one measure. */
  lemma SilentBarAdvances(b: Bar, rest: seq<LineItem>, t: real, bpm: real)
    requires b.RepeatMeasure? || EventCount(b.beats) == 0
    ensures LineEvents([BarItem(b)] + rest, t, bpm) == LineEvents(rest, t + bpm, bpm)
  {
    assert ([BarItem(b)] + rest)[1..] == rest;
    assert |BarEvents(b, t, bpm)| == 0;
  }

  /** `| C G Am |` in three: three one-beat events from beats 0, 1 and 2. */
  lemma ThreeChordsInThree(c: Chord, g: Chord, a: Chord)
    ensures MeasureEvents([ChordBeat(c), ChordBeat(g), ChordBeat(a)], 0.0, 3.0)
         == [Event(0.0, 1.0, c, false), Event(1.0, 1.0, g, false), Event(2.0, 1.0, a, false)]
  {
    var bs := [ChordBeat(c), ChordBeat(g), ChordBeat(a)];
    var e1 := [Event(0.0, 1.0, c, false)];
    var e2 := e1 + [Event(1.0, 1.0, g, false)];
    var e3 := e2 + [Event(2.0, 1.0, a, false)];
    assert 3.0 / |bs| as real == 1.0;
    assert BeatStep(bs[0], 0.0, 1.0, []) == e1;
    assert BeatStep(bs[1], 1.0, 1.0, e1) == e2;
    assert BeatStep(bs[2], 2.0, 1.0, e2) == e3;
    assert bs[1..][1..] == [ChordBeat(a)];
    calc {
      MeasureEvents(bs, 0.0, 3.0);
      BeatsEvents(bs, 0.0, 1.0, []);
      BeatsEvents(bs[1..], 1.0, 1.0, e1);
      BeatsEvents(bs[1..][1..], 2.0, 1.0, e2);
      BeatsEvents([], 3.0, 1.0, e3);
    }
  }

  /** `| (C G) . |` in four: the tuplet splits its two beats, and the continuation
      lengthens the tuplet's last chord, G, by two beats. */
  lemma TupletThenContinuation(c: Chord, g: Chord)
    ensures MeasureEvents([Tuplet([c, g]), Continuation], 0.0, 4.0)
         == [Event(0.0, 1.0, c, true), Event(1.0, 3.0, g, true)]
  {
    var bs := [Tuplet([c, g]), Continuation];
    var tup := [Event(0.0, 1.0, c, true), Event(1.0, 1.0, g, true)];
    assert 4.0 / |bs| as real == 2.0;
    assert 2.0 / |[c, g]| as real == 1.0;
    assert TupletRun([c, g][1..], 1.0, 1.0) == [Event(1.0, 1.0, g, true)] + TupletRun([], 2.0, 1.0);
    assert TupletEvents([c, g], 0.0, 2.0) == tup;
    assert BeatStep(bs[0], 0.0, 2.0, []) == tup;
    assert BeatStep(bs[1], 2.0, 2.0, tup) == [Event(0.0, 1.0, c, true), Event(1.0, 3.0, g, true)];
    assert bs[1..] == [Continuation];
    calc {
      MeasureEvents(bs, 0.0, 4.0);
      BeatsEvents(bs, 0.0, 2.0, []);
      BeatsEvents(bs[1..], 2.0, 2.0, tup);
      BeatsEvents([], 4.0, 2.0, [Event(0.0, 1.0, c, true), Event(1.0, 3.0, g, true)]);
    }
  }

  /** `| C | % |` yields one event: the `%` plays nothing. */
  lemma RepeatBarSilent(c: Chord)
    ensures LineEvents([BarItem(Measure([ChordBeat(c)], 1)), BarItem(RepeatMeasure(1))], 0.0, 4.0)
         == [Event(0.0, 4.0, c, false)]
  {
    var items := [BarItem(Measure([ChordBeat(c)], 1)), BarItem(RepeatMeasure(1))];
    var e := [Event(0.0, 4.0, c, false)];
    assert 4.0 / 1 as real == 4.0;
    assert BeatsEvents([ChordBeat(c)], 0.0, 4.0, []) == BeatsEvents([], 4.0, 4.0, e);
    assert BarEvents(items[0].bar, 0.0, 4.0) == e;
    assert items[1..] == [BarItem(RepeatMeasure(1))];
    assert items[1..][1..] == [];
    assert LineEvents(items[1..], 4.0, 4.0) == [] + LineEvents([], 8.0, 4.0);
  }

  // ---------------------------------------------------------------------------
  // Events never overlap
  // ---------------------------------------------------------------------------

  /** Events with positive durations, none starting before `t`, each starting no earlier
      than its predecessor ends. */
  predicate Ordered(evs: seq<Event>, t: real) {
    (forall i :: 0 <= i < |evs| ==> evs[i].duration > 0.0)
    && (evs != [] ==> t <= evs[0].start)
    && (forall i :: 0 < i < |evs| ==> End(evs[i - 1]) <= evs[i].start)
  }

  /** Ordered events followed by ordered events that start after the first ones end. */
  lemma OrderedAppend(a: seq<Event>, b: seq<Event>, t: real, u: real)
    requires Ordered(a, t) && Ordered(b, u)
    requires a == [] ==> t <= u
    requires a != [] ==> End(a[|a| - 1]) <= u
    ensures Ordered(a + b, t)
  {
    var c := a + b;
    forall i | 0 < i < |c|
      ensures End(c[i - 1]) <= c[i].start
    {
      if i > |a| {
        assert c[i - 1] == b[i - 1 - |a|] && c[i] == b[i - |a|];
      }
    }
  }

  /** In ordered events every event ends no later than any later one starts. */
  lemma {:induction false} OrderedBefore(evs: seq<Event>, t: real, i: nat, j: nat)
    requires Ordered(evs, t) && i < j < |evs|
    ensures End(evs[i]) <= evs[j].start
    decreases j - i
  {
    if j > i + 1 {
      OrderedBefore(evs, t, i, j - 1);
      assert End(evs[j - 1]) <= evs[j].start;
    }
  }

  /** Ordered events from `t` end after `t`. */
  lemma OrderedEnd(evs: seq<Event>, t: real)
    requires Ordered(evs, t) && evs != []
    ensures t < End(evs[|evs| - 1])
  {
    if |evs| > 1 {
      OrderedBefore(evs, t, 0, |evs| - 1);
    }
  }

  /** Ordered events from `t` that are all over by clock `c`, with `t <= c`. */
  predicate Timed(evs: seq<Event>, t: real, c: real) {
    Ordered(evs, t) && t <= c && (evs != [] ==> End(evs[|evs| - 1]) <= c)
  }

  /** Events emitted from `t` that are timed up to the clock they reach. */
  predicate TimedPlay(p: Played, t: real) {
    Timed(p.events, t, p.clock)
  }

  /** Timed stretches played one after the other make one timed stretch. */
  lemma TimedAppend(a: seq<Event>, b: seq<Event>, t: real, u: real, c: real)
    requires Timed(a, t, u) && Timed(b, u, c)
    ensures Timed(a + b, t, c)
  {
    OrderedAppend(a, b, t, u);
    if b == [] {
      assert a + b == a;
    } else {
      assert (a + b)[|a + b| - 1] == b[|b| - 1];
    }
  }

  /** A chord sounds from the clock for one share. */
  lemma ChordStepOrdered(c: Chord, t: real, share: real, evs: seq<Event>, t0: real)
    requires share > 0.0 && Timed(evs, t0, t)
    ensures Timed(BeatStep(ChordBeat(c), t, share, evs), t0, t + share)
  {
    TimedAppend(evs, [Event(t, share, c, false)], t0, t, t + share);
  }

  /** A continuation lengthens the latest event up to the new clock. */
  lemma ContinuationStepOrdered(t: real, share: real, evs: seq<Event>, t0: real)
    requires share > 0.0 && Timed(evs, t0, t)
    ensures Timed(BeatStep(Continuation, t, share, evs), t0, t + share)
  {
    var r := ExtendLast(evs, share);
    if evs != [] {
      forall i | 0 < i < |r|
        ensures End(r[i - 1]) <= r[i].start
      {
        assert End(evs[i - 1]) <= evs[i].start;
      }
    }
  }

  /** A tuplet's events fill its share from the clock on. */
  lemma TupletStepOrdered(cs: seq<Chord>, t: real, share: real, evs: seq<Event>, t0: real)
    requires share > 0.0 && Timed(evs, t0, t)
    ensures Timed(BeatStep(Tuplet(cs), t, share, evs), t0, t + share)
  {
    var tup := TupletEvents(cs, t, share);
    if cs == [] {
      assert evs + tup == evs;
    } else {
      TupletSplitsShare(cs, t, share);
      assert share / |cs| as real > 0.0;
      assert Timed(tup, t, t + share);
      TimedAppend(evs, tup, t0, t, t + share);
    }
  }

  /** The rest of a measure keeps its events ordered and over by the clock. */
  lemma {:induction false} BeatsOrdered(bs: seq<Beat>, t: real, share: real, evs: seq<Event>, t0: real)
    requires share > 0.0 && Timed(evs, t0, t)
    ensures Ordered(BeatsEvents(bs, t, share, evs), t0)
    decreases |bs|
  {
    if bs != [] {
      match bs[0] {
        case ChordBeat(c) => ChordStepOrdered(c, t, share, evs, t0);
        case Continuation => ContinuationStepOrdered(t, share, evs, t0);
        case Tuplet(cs) => TupletStepOrdered(cs, t, share, evs, t0);
      }
      BeatsOrdered(bs[1..], t + share, share, BeatStep(bs[0], t, share, evs), t0);
    }
  }

  /** With positive beats per measure a measure's events are ordered from its start. */
  lemma MeasureOrdered(beats: seq<Beat>, t: real, bpm: real)
    requires bpm > 0.0
    ensures Ordered(MeasureEvents(beats, t, bpm), t)
  {
    if beats != [] {
      BeatsOrdered(beats, t, bpm / |beats| as real, [], t);
    }
  }

  /** A bar's events are over by the clock after it. */
  lemma BarTimed(b: Bar, t: real, bpm: real)
    requires bpm > 0.0
    ensures Timed(BarEvents(b, t, bpm), t, After(t, BarEvents(b, t, bpm), bpm))
  {
    var e := BarEvents(b, t, bpm);
    if b.Measure? {
      MeasureOrdered(b.beats, t, bpm);
    }
    if e != [] {
      OrderedEnd(e, t);
    }
  }

  /** Bars played in turn give ordered events, over by the clock they reach. */
  lemma {:induction false} BarsOrdered(ms: seq<Bar>, t: real, bpm: real)
    requires bpm > 0.0
    ensures TimedPlay(BarsEvents(ms, t, bpm), t)
    decreases |ms|
  {
    if ms != [] {
      var e := BarEvents(ms[0], t, bpm);
      var u := After(t, e, bpm);
      var rest := BarsEvents(ms[1..], u, bpm);
      BarTimed(ms[0], t, bpm);
      BarsOrdered(ms[1..], u, bpm);
      assert TimedPlay(rest, u);
      TimedAppend(e, rest.events, t, u, rest.clock);
      assert BarsEvents(ms, t, bpm) == Played(e + rest.events, rest.clock);
    }
  }

  /** A timed stretch followed by one from the clock it reached is timed. */
  lemma PlayedThen(first: Played, rest: Played, t: real)
    requires TimedPlay(first, t) && TimedPlay(rest, first.clock)
    ensures TimedPlay(Played(first.events + rest.events, rest.clock), t)
  {
    TimedAppend(first.events, rest.events, t, first.clock, rest.clock);
  }

  /** Every pass of a repeat section follows the one before. */
  lemma {:induction false} SectionOrdered(ms: seq<Bar>, k: nat, t: real, bpm: real)
    requires bpm > 0.0
    ensures TimedPlay(SectionEvents(ms, k, t, bpm), t)
    decreases k
  {
    if k > 0 {
      var pass := BarsEvents(ms, t, bpm);
      var rest := SectionEvents(ms, k - 1, pass.clock, bpm);
      BarsOrdered(ms, t, bpm);
      SectionOrdered(ms, k - 1, pass.clock, bpm);
      PlayedThen(pass, rest, t);
      assert SectionEvents(ms, k, t, bpm) == Played(pass.events + rest.events, rest.clock);
    }
  }

  /** An item's events are over by the clock the line moves to after it. */
  lemma ItemTimed(it: LineItem, t: real, bpm: real)
    requires bpm > 0.0
    ensures Timed(ItemEvents(it, t, bpm), t, After(t, ItemEvents(it, t, bpm), bpm))
  {
    var e := ItemEvents(it, t, bpm);
    match it {
      case BarItem(b) => BarTimed(b, t, bpm);
      case RepeatSection(ms, k) =>
        SectionOrdered(ms, k, t, bpm);
        if e != [] {
          OrderedEnd(e, t);
        }
    }
  }

  /** The items of a measure line give ordered events. */
  lemma {:induction false} LineOrdered(items: seq<LineItem>, t: real, bpm: real)
    requires bpm > 0.0
    ensures Ordered(LineEvents(items, t, bpm), t)
    decreases |items|
  {
    if items != [] {
      var e := ItemEvents(items[0], t, bpm);
      var u := After(t, e, bpm);
      ItemTimed(items[0], t, bpm);
      LineOrdered(items[1..], u, bpm);
      OrderedAppend(e, LineEvents(items[1..], u, bpm), t, u);
    }
  }

  /** A line's events are over by the clock the song moves to after it. */
  lemma LineTimed(items: seq<LineItem>, t: real, bpm: real)
    requires bpm > 0.0
    ensures Timed(LineEvents(items, t, bpm), t, LineAfter(t, LineEvents(items, t, bpm)))
  {
    var e := LineEvents(items, t, bpm);
    LineOrdered(items, t, bpm);
    if e != [] {
      OrderedEnd(e, t);
    }
  }

  /** The lines of a song give ordered events. */
  lemma {:induction false} SongOrdered(body: seq<Node>, t: real, bpm: real)
    requires bpm > 0.0
    ensures Ordered(SongEvents(body, t, bpm), t)
    decreases |body|
  {
    if body != [] {
      if body[0].Annotation? {
        SongOrdered(body[1..], t, bpm);
      } else {
        var e := LineEvents(body[0].items, t, bpm);
        var u := LineAfter(t, e);
        LineTimed(body[0].items, t, bpm);
        SongOrdered(body[1..], u, bpm);
        OrderedAppend(e, SongEvents(body[1..], u, bpm), t, u);
      }
    }
  }

  /** The signature a chart is played in, if both the caller's and the chart's are valid. */
  function UsedSignature(song: Song, signature: string): Result<TimeSignature, RhythmError> {
    match ParseTimeSignature(signature)
    case Err(e) => Err(e)
    case Ok(ts) => SongSignature(song.body, ts)
  }

  /** Whenever a signature is in use, whatever its numerator, the durations succeed and are
      the song's events at that signature's measure length; when none is (the caller's text
      or the chart's first `time:` annotation is malformed), they fail with that error. */
  lemma ChartEvents(song: Song, signature: string)
    ensures UsedSignature(song, signature).Ok? ==>
              CalculateDurations(song, signature)
              == Ok(SongEvents(song.body, 0.0, BeatsPerMeasure(UsedSignature(song, signature).value)))
    ensures UsedSignature(song, signature).Err? ==>
              CalculateDurations(song, signature) == Err(UsedSignature(song, signature).error)
  {
  }

  /** The computed durations are those of the signature in use, and with a positive
      numerator every event lasts a positive time, starts at or after beat 0, and starts
      no earlier than the one before it ends; so event starts strictly increase. */
  lemma ChartTimeline(song: Song, signature: string)
    requires UsedSignature(song, signature).Ok?
    requires UsedSignature(song, signature).value.numerator > 0
    ensures CalculateDurations(song, signature).Ok?
    ensures CalculateDurations(song, signature).value
              == SongEvents(song.body, 0.0, BeatsPerMeasure(UsedSignature(song, signature).value))
    ensures var evs := CalculateDurations(song, signature).value;
      (forall i :: 0 <= i < |evs| ==> evs[i].duration > 0.0 && 0.0 <= evs[i].start)
      && (forall i, j :: 0 <= i < j < |evs| ==> End(evs[i]) <= evs[j].start && evs[i].start < evs[j].start)
  {
    var bpm := BeatsPerMeasure(UsedSignature(song, signature).value);
    var evs := SongEvents(song.body, 0.0, bpm);
    SongOrdered(song.body, 0.0, bpm);
    forall i, j | 0 <= i < j < |evs|
      ensures End(evs[i]) <= evs[j].start && evs[i].start < evs[j].start
    {
      OrderedBefore(evs, 0.0, i, j);
    }
    forall i | 0 <= i < |evs|
      ensures 0.0 <= evs[i].start
    {
      if i > 0 {
        OrderedBefore(evs, 0.0, 0, i);
      }
    }
  }

  // ---------------------------------------------------------------------------
  // Repeat sections unroll
  // ---------------------------------------------------------------------------

  /** The events moved `s` beats later. */
  function Shift(evs: seq<Event>, s: real): (r: seq<Event>)
    ensures |r| == |evs|
    decreases |evs|
  {
    if evs == [] then [] else [evs[0].(start := evs[0].start + s)] + Shift(evs[1..], s)
  }

  /** Each shifted event is the original one, `s` beats later. */
  lemma {:induction false} ShiftAt(evs: seq<Event>, s: real)
    ensures forall i :: 0 <= i < |evs| ==> Shift(evs, s)[i] == evs[i].(start := evs[i].start + s)
    decreases |evs|
  {
    if evs != [] {
      ShiftAt(evs[1..], s);
    }
  }

  /** Shifting distributes over concatenation. */
  lemma ShiftAppend(a: seq<Event>, b: seq<Event>, s: real)
    ensures Shift(a + b, s) == Shift(a, s) + Shift(b, s)
  {
    ShiftAt(a + b, s);
    ShiftAt(a, s);
    ShiftAt(b, s);
    assert forall i :: 0 <= i < |a + b| ==> Shift(a + b, s)[i] == (Shift(a, s) + Shift(b, s))[i];
  }

  /** A tuplet run started later is the same run shifted. */
  lemma {:induction false} TupletRunShift(cs: seq<Chord>, t: real, d: real, s: real)
    ensures TupletRun(cs, t + s, d) == Shift(TupletRun(cs, t, d), s)
    decreases |cs|
  {
    if cs != [] {
      var e := Event(t, d, cs[0], true);
      var rest := TupletRun(cs[1..], t + d, d);
      TupletRunShift(cs[1..], t + d, d, s);
      assert TupletRun(cs, t + s, d) == [e.(start := t + s)] + TupletRun(cs[1..], t + s + d, d);
      assert t + s + d == (t + d) + s;
      assert ([e] + rest)[1..] == rest;
      assert Shift([e] + rest, s) == [e.(start := t + s)] + Shift(rest, s);
    }
  }

  /** Lengthening the last event commutes with shifting. */
  lemma ExtendLastShift(evs: seq<Event>, d: real, s: real)
    ensures ExtendLast(Shift(evs, s), d) == Shift(ExtendLast(evs, d), s)
  {
    ShiftAt(evs, s);
    ShiftAt(ExtendLast(evs, d), s);
    var l := ExtendLast(Shift(evs, s), d);
    var r := Shift(ExtendLast(evs, d), s);
    assert forall i :: 0 <= i < |l| ==> l[i] == r[i];
  }

  /** One beat played later, after shifted events, gives the shifted result. */
  lemma BeatStepShift(b: Beat, t: real, share: real, evs: seq<Event>, s: real)
    ensures BeatStep(b, t + s, share, Shift(evs, s)) == Shift(BeatStep(b, t, share, evs), s)
  {
    match b {
      case ChordBeat(c) =>
        ShiftAppend(evs, [Event(t, share, c, false)], s);
      case Continuation =>
        ExtendLastShift(evs, share, s);
      case Tuplet(cs) =>
        ShiftAppend(evs, TupletEvents(cs, t, share), s);
        if cs != [] {
          TupletRunShift(cs, t, share / |cs| as real, s);
        }
    }
  }

  /** The rest of a measure played later gives shifted events. */
  lemma {:induction false} BeatsShift(bs: seq<Beat>, t: real, share: real, evs: seq<Event>, s: real)
    ensures BeatsEvents(bs, t + s, share, Shift(evs, s)) == Shift(BeatsEvents(bs, t, share, evs), s)
    decreases |bs|
  {
    if bs != [] {
      var next := BeatStep(bs[0], t, share, evs);
      BeatStepShift(bs[0], t, share, evs, s);
      BeatsShift(bs[1..], t + share, share, next, s);
      var shifted := Shift(evs, s);
      assert BeatsEvents(bs, t + s, share, shifted)
          == BeatsEvents(bs[1..], t + s + share, share, BeatStep(bs[0], t + s, share, shifted));
      assert t + s + share == (t + share) + s;
    }
  }

  /** A bar played `s` beats later emits the same events `s` beats later. */
  lemma BarShift(b: Bar, t: real, bpm: real, s: real)
    ensures BarEvents(b, t + s, bpm) == Shift(BarEvents(b, t, bpm), s)
  {
    if b.Measure? && b.beats != [] {
      BeatsShift(b.beats, t, bpm / |b.beats| as real, [], s);
      assert Shift([], s) == [];
    }
  }

  /** The clock after shifted events is shifted too. */
  lemma AfterShift(t: real, evs: seq<Event>, bpm: real, s: real)
    ensures After(t + s, Shift(evs, s), bpm) == After(t, evs, bpm) + s
  {
  }

  /** Bars played `s` beats later emit the same events `s` beats later and end `s` later. */
  lemma {:induction false} BarsShift(ms: seq<Bar>, t: real, bpm: real, s: real)
    ensures BarsEvents(ms, t + s, bpm)
         == Played(Shift(BarsEvents(ms, t, bpm).events, s), BarsEvents(ms, t, bpm).clock + s)
    decreases |ms|
  {
    if ms != [] {
      var e := BarEvents(ms[0], t, bpm);
      var u := After(t, e, bpm);
      var rest := BarsEvents(ms[1..], u, bpm);
      BarShift(ms[0], t, bpm, s);
      AfterShift(t, e, bpm, s);
      BarsShift(ms[1..], u, bpm, s);
      ShiftAppend(e, rest.events, s);
      assert BarsEvents(ms, t + s, bpm)
          == Played(Shift(e, s) + BarsEvents(ms[1..], u + s, bpm).events, BarsEvents(ms[1..], u + s, bpm).clock);
    }
  }

  /** `k` passes of the events `pass`, each `len` beats long, the first from `t`. */
  function Passes(pass: seq<Event>, len: real, k: nat, t: real): (r: seq<Event>)
    decreases k
  {
    if k == 0 then [] else Shift(pass, t) + Passes(pass, len, k - 1, t + len)
  }

  /** `k` passes hold `k` times the events of one. */
  lemma {:induction false} PassesLength(pass: seq<Event>, len: real, k: nat, t: real)
    ensures |Passes(pass, len, k, t)| == k * |pass|
    decreases k
  {
    if k > 0 {
      PassesLength(pass, len, k - 1, t + len);
    }
  }

  /** A repeat section played `k` times from `t` is `k` copies of its first pass played
      from beat 0, each copy starting where the one before ended; the clock ends `k`
      pass lengths after `t`. */
  lemma {:induction false} SectionUnrolls(ms: seq<Bar>, k: nat, t: real, bpm: real)
    ensures var one := BarsEvents(ms, 0.0, bpm);
      SectionEvents(ms, k, t, bpm) == Played(Passes(one.events, one.clock, k, t), t + k as real * one.clock)
    decreases k
  {
    var one := BarsEvents(ms, 0.0, bpm);
    var len := one.clock;
    if k > 0 {
      var pass := BarsEvents(ms, t, bpm);
      BarsShift(ms, 0.0, bpm, t);
      assert pass == Played(Shift(one.events, t), len + t);
      var rest := SectionEvents(ms, k - 1, pass.clock, bpm);
      SectionUnrolls(ms, k - 1, t + len, bpm);
      assert rest == Played(Passes(one.events, len, k - 1, t + len), t + len + (k - 1) as real * len);
      assert t + len + (k - 1) as real * len == t + k as real * len by {
        MulSucc(k - 1, len);
      }
      calc {
        SectionEvents(ms, k, t, bpm);
        Played(pass.events + rest.events, rest.clock);
        Played(Shift(one.events, t) + Passes(one.events, len, k - 1, t + len), t + k as real * len);
        Played(Passes(one.events, len, k, t), t + k as real * len);
      }
    }
  }

  /** A repeat section played `k` times emits `k` times the events of one pass. */
  lemma SectionEventCount(ms: seq<Bar>, k: nat, t: real, bpm: real)
    ensures |SectionEvents(ms, k, t, bpm).events| == k * |BarsEvents(ms, t, bpm).events|
  {
    var one := BarsEvents(ms, 0.0, bpm);
    SectionUnrolls(ms, k, t, bpm);
    PassesLength(one.events, one.clock, k, t);
    BarsShift(ms, 0.0, bpm, t);
    assert BarsEvents(ms, 0.0 + t, bpm) == BarsEvents(ms, t, bpm);
  }

  /** `|: C :| x2` in four: C starts at beat 0 and again at beat 4. */
  lemma TwoPassSection(c: Chord)
    ensures SectionEvents([Measure([ChordBeat(c)], 1)], 2, 0.0, 4.0).events
         == [Event(0.0, 4.0, c, false), Event(4.0, 4.0, c, false)]
  {
    var ms := [Measure([ChordBeat(c)], 1)];
    var e := [Event(0.0, 4.0, c, false)];
    assert 4.0 / 1 as real == 4.0;
    assert BeatsEvents([ChordBeat(c)], 0.0, 4.0, []) == BeatsEvents([], 4.0, 4.0, e);
    assert BarEvents(ms[0], 0.0, 4.0) == e;
    assert ms[1..] == [];
    assert BarsEvents(ms, 0.0, 4.0) == Played(e, 4.0);
    SectionUnrolls(ms, 2, 0.0, 4.0);
    assert Shift(e, 0.0) == e + Shift([], 0.0);
    assert Shift(e, 4.0) == [Event(4.0, 4.0, c, false)] + Shift([], 4.0);
  }
}
