/**
 * The syntax tree the noten parser builds, and the chord decomposer that
 * splits a chord symbol into root, quality and bass.
 *
 * The tree keeps only what noten's nodes carry: their `type` tags
 * become constructors, and every list becomes a `seq`.
 */
module Ast {
  import opened Common
  import opened Lexer

  /** A chord: root note (`C`, `F#`, `Bb`, or `N.C.`), quality text, and optional bass after `/`. */
  datatype Chord = Chord(root: string, quality: string, bass: Option<string>)

  /** The chord noten builds for the "no chord" symbol. */
  const NoChordValue := Chord("N.C.", "", None)

  /** One beat slot of a measure. */
  datatype Beat =
    | ChordBeat(chord: Chord)
    | Continuation
    | Tuplet(chords: seq<Chord>)

  /** A bar of a measure line or of a repeat section. `repeatCount` is the count an
      `xN` after the bar attaches to it; noten's node starts it at 1. */
  datatype Bar =
    | Measure(beats: seq<Beat>, repeatCount: nat)
    | RepeatMeasure(count: nat)

  /** One item of a measure line: a bar, or a `|: ... :|` section played `repeatCount` times. */
  datatype LineItem =
    | BarItem(bar: Bar)
    | RepeatSection(measures: seq<Bar>, repeatCount: nat)

  /** A top-level entry of a chart. */
  datatype Node =
    | Annotation(content: string)
    | MeasureLine(items: seq<LineItem>)

  /** A whole chart. */
  datatype Song = Song(body: seq<Node>)

  // ---------------------------------------------------------------------------
  // Chord decomposition
  // ---------------------------------------------------------------------------

  /** The decomposer's only failure: the text before any `/` does not start with a root. */
  datatype ChordError = InvalidChord(text: string)

  /** The text before the first `/` of `s` (all of `s` when there is none). */
  function MainPart(s: string): string {
    if s == [] || s[0] == '/' then [] else [s[0]] + MainPart(s[1..])
  }

  /** The text after the first `/` of `s`, if there is one. */
  function BassPart(s: string): Option<string> {
    if s == [] then None else if s[0] == '/' then Some(s[1..]) else BassPart(s[1..])
  }

  /** Splitting at the first `/`: the main part has no `/`, and main part, `/` and bass
      put back together give the text; without a `/` the main part is the whole text. */
  lemma {:induction false} SplitAtFirstSlash(s: string)
    ensures '/' !in MainPart(s)
    ensures BassPart(s).None? <==> '/' !in s
    ensures BassPart(s).None? ==> MainPart(s) == s
    ensures BassPart(s).Some? ==> s == MainPart(s) + "/" + BassPart(s).value
  {
    if s != [] && s[0] != '/' {
      SplitAtFirstSlash(s[1..]);
      assert s == [s[0]] + s[1..];
      if BassPart(s).Some? {
        assert [s[0]] + (MainPart(s[1..]) + "/" + BassPart(s).value) == [s[0]] + MainPart(s[1..]) + "/" + BassPart(s).value;
      }
    } else if s != [] {
      assert s == [] + "/" + s[1..];
    }
  }

  /** Length of the root at the front of `main`: a letter `A`..`G`, then `#` or `b` if present. */
  function RootLength(main: string): (n: nat)
    ensures n <= |main| && n <= 2
  {
    if main == [] || !IsNoteLetter(main[0]) then 0
    else if |main| >= 2 && (main[1] == '#' || main[1] == 'b') then 2
    else 1
  }

  /** Splits a chord symbol: `N.C.` is the no-chord; otherwise the text is cut at its first
      `/` into the main part and the bass, and the main part must start with a root, the
      rest of it being the quality. */
  function DecomposeChord(s: string): Result<Chord, ChordError> {
    if s == "N.C." then Ok(NoChordValue)
    else
      var main := MainPart(s);
      var n := RootLength(main);
      if n == 0 then Err(InvalidChord(main))
      else Ok(Chord(main[..n], main[n..], BassPart(s)))
  }

  /** What decomposition promises: it fails exactly when the symbol is not `N.C.` and does
      not start with a letter `A`..`G`; otherwise writing the chord back gives the symbol,
      the root is as long as it can be, no `/` precedes the bass, and there is a bass
      exactly when the symbol has a `/`. */
  lemma DecomposeChordSpec(s: string)
    ensures s == "N.C." ==> DecomposeChord(s) == Ok(NoChordValue)
    ensures DecomposeChord(s).Err? <==> s != "N.C." && (s == [] || !IsNoteLetter(s[0]))
    ensures var r := DecomposeChord(s);
            r.Ok? && s != "N.C." ==>
              SymbolOf(r.value) == s && IsRoot(r.value.root) && '/' !in r.value.root + r.value.quality
              && (r.value.bass.None? <==> '/' !in s)
              && (|r.value.root| == 1 ==> !StartsWithAccidental(r.value.quality))
  {
    SplitAtFirstSlash(s);
    var main := MainPart(s);
    if s != [] && s[0] != '/' {
      assert main[0] == s[0];
    }
    if s != [] && s[0] == '/' {
      assert main == [];
    }
    if s != "N.C." && RootLength(main) > 0 {
      var n := RootLength(main);
      assert main[..n] + main[n..] == main;
    }
  }

  /** A root a decomposed chord can have: a letter `A`..`G`, optionally followed by `#` or `b`. */
  predicate IsRoot(root: string) {
    (|root| == 1 || (|root| == 2 && (root[1] == '#' || root[1] == 'b'))) && IsNoteLetter(root[0])
  }

  /** True iff `q` begins with an accidental, which a one-letter root would have absorbed. */
  predicate StartsWithAccidental(q: string) {
    |q| > 0 && (q[0] == '#' || q[0] == 'b')
  }

  /** The symbol a chord is written as: root, quality, then `/` and the bass if there is one. */
  function SymbolOf(c: Chord): string {
    c.root + c.quality + match c.bass case Some(b) => "/" + b case None => ""
  }

  /** The chords the decomposer can produce: the no-chord, or a root, a quality with no `/`
      that a one-letter root could not have absorbed, and any bass. */
  predicate WellFormedChord(c: Chord) {
    c == NoChordValue ||
    (IsRoot(c.root) && '/' !in c.quality && (|c.root| == 1 ==> !StartsWithAccidental(c.quality)))
  }

  /** Writing a well-formed chord and decomposing the symbol gives the chord back. */
  lemma DecomposeSymbolOf(c: Chord)
    requires WellFormedChord(c)
    ensures DecomposeChord(SymbolOf(c)) == Ok(c)
  {
    var s := SymbolOf(c);
    if c != NoChordValue {
      var main := c.root + c.quality;
      assert s[0] == c.root[0];
      assert s != "N.C." by {
        assert IsNoteLetter(s[0]);
      }
      assert '/' !in main by {
        forall j | 0 <= j < |main| ensures main[j] != '/' {
          if j >= |c.root| {
            assert main[j] == c.quality[j - |c.root|];
          }
        }
      }
      MainOfSlashFree(main, match c.bass case Some(b) => "/" + b case None => "");
      match c.bass {
        case None =>
          assert s == main + [];
        case Some(b) =>
          assert s == main + ("/" + b);
      }
      assert RootLength(main) == |c.root|;
      assert main[..|c.root|] == c.root;
      assert main[|c.root|..] == c.quality;
    }
  }

  /** Text without `/` followed by a tail that is empty or starts with `/` splits right there. */
  lemma {:induction false} MainOfSlashFree(main: string, tail: string)
    requires '/' !in main
    requires tail == [] || tail[0] == '/'
    ensures MainPart(main + tail) == main
    ensures BassPart(main + tail) == if tail == [] then None else Some(tail[1..])
  {
    if main != [] {
      assert (main + tail)[1..] == main[1..] + tail;
      assert main[0] != '/' by {
        assert main[0] in main;
      }
      MainOfSlashFree(main[1..], tail);
      assert main == [main[0]] + main[1..];
    } else {
      assert main + tail == tail;
    }
  }

  /** Every successful decomposition is a well-formed chord. */
  lemma DecomposedChordWellFormed(s: string)
    requires DecomposeChord(s).Ok?
    ensures WellFormedChord(DecomposeChord(s).value)
  {
    DecomposeChordSpec(s);
    var c := DecomposeChord(s).value;
    if s != "N.C." {
      assert '/' !in c.quality by {
        forall j | 0 <= j < |c.quality| ensures c.quality[j] != '/' {
          assert c.quality[j] == (c.root + c.quality)[|c.root| + j];
        }
      }
    }
  }
}
