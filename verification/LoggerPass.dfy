/** The pass over lines of any kind, given how a line is read and stripped. */
module LoggerPass {
  import opened LineEdits
  import opened LoggerScan
  import opened LoggerRewrite
  import opened LoggerSettling

  /** How the script sees a line: its classification, its text without surrounding space, and the empty line. */
  datatype Reader<!T> = Reader(read: T -> Info, strip: T -> T, empty: T)

  /** Surrounding space does not change how a line is read, stripping once is enough, and the empty line is blank. */
  ghost predicate Sound<T(!new)>(r: Reader<T>) {
    && (forall line: T :: r.read(r.strip(line)) == r.read(line) && r.strip(r.strip(line)) == r.strip(line))
    && r.read(r.empty) == EMPTY
  }

  function Structured<T>(r: Reader<T>, lines: seq<T>): Structure { Analyse(Map(r.read, lines)) }

  predicate Fixes<T>(r: Reader<T>, lines: seq<T>) { NeedsFix(Structured(r, lines)) }

  /** The file without its misplaced definitions. */
  function Stripped<T>(r: Reader<T>, lines: seq<T>): seq<T> {
    Without(lines, AsSet(Misplaced(Structured(r, lines))), 0)
  }

  lemma StrippedIsRemoved<T>(r: Reader<T>, lines: seq<T>)
    ensures Map(r.read, Stripped(r, lines)) == Removed(Map(r.read, lines))
  {
    MapWithout(r.read, lines, AsSet(Misplaced(Structured(r, lines))), 0);
  }

  /** The first misplaced definition, without its indentation. */
  function MovedLine<T>(r: Reader<T>, lines: seq<T>): T
    requires Fixes(r, lines)
  {
    FirstMisplaced(Map(r.read, lines));
    r.strip(lines[Misplaced(Structured(r, lines))[0]])
  }

  /** Behind the blank lines below the last import and the last docstring. */
  function InsertPosition<T>(r: Reader<T>, lines: seq<T>): (ip: nat)
    ensures CorrectPosition(Structured(r, lines)) <= ip <= |Stripped(r, lines)|
  {
    StrippedIsRemoved(r, lines);
    InsertAt(Map(r.read, lines))
  }

  /** The file after one run. */
  function Fixed<T>(r: Reader<T>, lines: seq<T>): seq<T> {
    if !Fixes(r, lines) then lines
    else if Structured(r, lines).properLogger then Stripped(r, lines)
    else Inserted(Stripped(r, lines), InsertPosition(r, lines), MovedLine(r, lines), r.empty)
  }

  /** The pieces of `Fixed` as the script computes them. */
  lemma FixedInSteps<T>(r: Reader<T>, lines: seq<T>)
    requires Fixes(r, lines)
    ensures var f, cp := Structured(r, lines), CorrectPosition(Structured(r, lines));
      var left := Without(lines, AsSet(Misplaced(f)), 0);
      && cp <= |left| && Misplaced(f)[0] < |lines|
      && var ip := cp + Blanks(Map(r.read, left[cp..]));
         && ip <= |left|
         && Fixed(r, lines) == if f.properLogger then left else Inserted(left, ip, r.strip(lines[Misplaced(f)[0]]), r.empty)
  {
    hide ScanFrom, Without, Late, Blanks, Inserted;
    var cp := CorrectPosition(Structured(r, lines));
    FirstMisplaced(Map(r.read, lines));
    StrippedIsRemoved(r, lines);
    RemovedKeepsHead(Map(r.read, lines), cp);
    assert Map(r.read, Stripped(r, lines)[cp..]) == Map(r.read, Stripped(r, lines))[cp..];
  }

  lemma FixedIsRun<T(!new)>(r: Reader<T>, lines: seq<T>)
    requires Sound(r)
    ensures Map(r.read, Fixed(r, lines)) == Run(Map(r.read, lines))
  {
    StrippedIsRemoved(r, lines);
    if Fixes(r, lines) && !Structured(r, lines).properLogger {
      FirstMisplaced(Map(r.read, lines));
      var first := lines[Misplaced(Structured(r, lines))[0]];
      assert r.read(r.strip(first)) == r.read(first);
      MapInserted(r.read, Stripped(r, lines), InsertPosition(r, lines), MovedLine(r, lines), r.empty);
    }
  }

  /**
   A second run changes nothing and reports no fix, unless the first found no definition near
   the imports and either twenty-one or more blank lines follow the imports, or a definition
   stands nineteen or twenty lines below them.
   */
  lemma SecondRunIff<T(!new)>(r: Reader<T>, lines: seq<T>)
    requires Sound(r) && Fixes(r, lines)
    ensures var f, cp := Structured(r, lines), CorrectPosition(Structured(r, lines));
      Fixes(r, Fixed(r, lines)) <==>
        !f.properLogger
        && (BlankGap(Map(r.read, lines)) || cp + 19 in f.loggers || cp + 20 in f.loggers)
    ensures !Fixes(r, Fixed(r, lines)) ==> Fixed(r, Fixed(r, lines)) == Fixed(r, lines)
  {
    hide ScanFrom, Without;
    FixedIsRun(r, lines);
    SecondRunAgainIff(Map(r.read, lines));
  }

  /** Where the file is bare below the imports, the definition goes to its end and stays there. */
  lemma BareEnd<T(!new)>(r: Reader<T>, lines: seq<T>)
    requires Sound(r) && Fixes(r, lines) && !Structured(r, lines).properLogger && Bare(Map(r.read, lines))
    ensures Fixed(r, lines) == Stripped(r, lines) + [MovedLine(r, lines)]
    ensures Fixes(r, Fixed(r, lines)) && !Structured(r, Fixed(r, lines)).properLogger
    ensures Misplaced(Structured(r, Fixed(r, lines))) == [|Stripped(r, lines)|]
    ensures Bare(Map(r.read, Fixed(r, lines)))
  {
    hide ScanFrom, Without, Late, Blanks, TailLeft, Rewritten, Analyse, Inserted;
    var file := Map(r.read, lines);
    FixedIsRun(r, lines);
    StrippedIsRemoved(r, lines);
    RemovedIsHeadAndTail(file);
    InsertedLast(Stripped(r, lines), MovedLine(r, lines), r.empty);
    var line := BareAnalysis(file);
    BareStays(file);
  }

  /** A second run on such a file reports a fix and leaves the text as it is. */
  lemma BareTextStays<T(!new)>(r: Reader<T>, lines: seq<T>)
    requires Sound(r) && Fixes(r, lines) && !Structured(r, lines).properLogger && Bare(Map(r.read, lines))
    ensures Fixes(r, Fixed(r, lines)) && Fixed(r, Fixed(r, lines)) == Fixed(r, lines)
  {
    hide ScanFrom, Blanks, TailLeft, Rewritten, Analyse, Inserted, Structured, Bare, Without, Sound;
    var out, kept, moved := Fixed(r, lines), Stripped(r, lines), MovedLine(r, lines);
    BareEnd(r, lines);
    MovedIsStripped(r, lines);
    assert AsSet(Misplaced(Structured(r, out))) == {|kept|};
    assert out == kept + [moved] + [] && kept + [] == kept;
    DropOne(kept, moved, [], 0);
    assert Stripped(r, out) == kept;
    BareEnd(r, out);
    assert out[|kept|] == moved;
  }

  lemma MovedIsStripped<T(!new)>(r: Reader<T>, lines: seq<T>)
    requires Sound(r) && Fixes(r, lines)
    ensures r.strip(MovedLine(r, lines)) == MovedLine(r, lines)
  {
    FirstMisplaced(Map(r.read, lines));
  }

  /**
   The text is the same after the second run exactly when that run reports no fix, or when
   without the misplaced definitions only blank lines stand below the imports and docstrings.
   */
  lemma SecondRunSameTextIff<T(!new)>(r: Reader<T>, lines: seq<T>)
    requires Sound(r) && Fixes(r, lines)
    ensures Fixed(r, Fixed(r, lines)) == Fixed(r, lines) <==>
      !Fixes(r, Fixed(r, lines)) || (!Structured(r, lines).properLogger && Bare(Map(r.read, lines)))
  {
    hide ScanFrom, Without, Rewritten, Analyse, Inserted, Bare, Sound, Stripped, InsertPosition, MovedLine;
    FixedIsRun(r, lines);
    FixedIsRun(r, Fixed(r, lines));
    SecondRunSameIff(Map(r.read, lines));
    if !Structured(r, lines).properLogger && Bare(Map(r.read, lines)) { BareTextStays(r, lines); }
  }

  function FixedTimes<T>(r: Reader<T>, lines: seq<T>, n: nat): seq<T> {
    if n == 0 then lines else Fixed(r, FixedTimes(r, lines, n - 1))
  }

  lemma {:induction false} FixedTimesIsRuns<T(!new)>(r: Reader<T>, lines: seq<T>, n: nat)
    requires Sound(r)
    ensures Map(r.read, FixedTimes(r, lines, n)) == Runs(Map(r.read, lines), n)
  {
    if n > 0 {
      FixedTimesIsRuns(r, lines, n - 1);
      FixedIsRun(r, FixedTimes(r, lines, n - 1));
    }
  }

  /** With too many blank lines, and anything after them, every later run makes the file one line longer. */
  lemma BlankGapGrows<T(!new)>(r: Reader<T>, lines: seq<T>, n: nat)
    requires Sound(r) && Drifts(Map(r.read, lines))
    ensures Fixes(r, FixedTimes(r, lines, n))
    ensures |FixedTimes(r, lines, n + 2)| == |FixedTimes(r, lines, n + 1)| + 1
  {
    FixedTimesIsRuns(r, lines, n);
    FixedTimesIsRuns(r, lines, n + 1);
    FixedTimesIsRuns(r, lines, n + 2);
    NeverSettles(Map(r.read, lines), n);
  }

  ghost predicate NeverFinished<T>(r: Reader<T>, lines: seq<T>) { forall n: nat :: Fixes(r, FixedTimes(r, lines, n)) }

  lemma NeverFinishedIsNeverStops<T(!new)>(r: Reader<T>, lines: seq<T>)
    requires Sound(r)
    ensures NeverFinished(r, lines) <==> NeverStops(Map(r.read, lines))
  {
    hide Analyse, Fixed, NeedsFix, Runs, Sound;
    forall n: nat ensures Fixes(r, FixedTimes(r, lines, n)) <==> NeedsFix(Analyse(Runs(Map(r.read, lines), n))) {
      FixedTimesIsRuns(r, lines, n);
    }
  }

  /**
   Which files are never finished, every run reporting a fix: those without a proper definition
   in which more than twenty blank lines stand at the insertion point, or in which the insertion
   is more than ten lines below the last import and each run of the first cycle, which is
   (22 - blank lines) / 2 runs long, finds a definition to push out of the tolerance.
   */
  lemma NeverFinishedIff<T(!new)>(r: Reader<T>, lines: seq<T>)
    requires Sound(r) && Fixes(r, lines)
    ensures NeverFinished(r, lines) <==>
      var file, f := Map(r.read, lines), Structured(r, lines);
      && !f.properLogger
      && (|| Gap(file) > TOLERANCE
          || (f.lastImport + 10 < CorrectPosition(f) + Gap(file) && CyclePushes(file)))
  {
    hide NeverFinished, NeverStops, Analyse, Gap, CyclePushes, Sound, NeedsFix;
    NeverFinishedIsNeverStops(r, lines);
    NeverStopsIff(Map(r.read, lines));
  }

  /** A run that reports no fix is followed by such runs only, and the text stays. */
  lemma {:induction false} FinishedForGood<T>(r: Reader<T>, lines: seq<T>, n: nat, more: nat)
    requires !Fixes(r, FixedTimes(r, lines, n))
    ensures FixedTimes(r, lines, n + more) == FixedTimes(r, lines, n)
  {
    hide Fixes;
    if more > 0 { FinishedForGood(r, lines, n, more - 1); }
  }

  /** A file that is ever finished is finished after eleven runs at the latest, whatever it contains. */
  lemma ElevenRunsFinish<T(!new)>(r: Reader<T>, lines: seq<T>)
    requires Sound(r)
    ensures NeverFinished(r, lines) <==> Fixes(r, FixedTimes(r, lines, 11))
    ensures !NeverFinished(r, lines) ==> forall n: nat | n >= 11 :: FixedTimes(r, lines, n) == FixedTimes(r, lines, 11)
  {
    hide NeverFinished, NeverStops, Analyse, Sound, NeedsFix, Runs, Fixed;
    NeverFinishedIsNeverStops(r, lines);
    ElevenRunsDecide(Map(r.read, lines));
    FixedTimesIsRuns(r, lines, 11);
    if !NeverFinished(r, lines) {
      forall n: nat | n >= 11 ensures FixedTimes(r, lines, n) == FixedTimes(r, lines, 11) {
        FinishedForGood(r, lines, 11, n - 11);
      }
    }
  }

  /**
   Nothing else in the file changes: taking the inserted definition and its blank line out of
   the result leaves the input without its misplaced definitions, in order.
   */
  lemma FixConserves<T>(r: Reader<T>, lines: seq<T>)
    requires Fixes(r, lines) && !Structured(r, lines).properLogger
    ensures var out, ip := Fixed(r, lines), InsertPosition(r, lines);
      var added := if ip < |Stripped(r, lines)| then 2 else 1;
      && |out| == |Stripped(r, lines)| + added
      && out[..ip] + out[ip + added..] == Without(lines, AsSet(Misplaced(Structured(r, lines))), 0)
      && out[ip] == MovedLine(r, lines) && (added == 2 ==> out[ip + 1] == r.empty)
  {
    InsertedConserves(Stripped(r, lines), InsertPosition(r, lines), MovedLine(r, lines), r.empty);
  }

  /** Every removed line is a definition more than twenty lines below the imports, so popping it moves nothing above. */
  lemma RemovedAreLate<T>(r: Reader<T>, lines: seq<T>, p: nat)
    requires p in Misplaced(Structured(r, lines))
    ensures CorrectPosition(Structured(r, lines)) + 20 < p < |lines| && r.read(lines[p]).kind.Definition?
  {
    MisplacedInRange(Map(r.read, lines));
  }

  // ---- files that a second run rewrites again ----

  /** Lines that are their own classification. */
  const PLAIN: Reader<Info> := Reader(line => line, line => line, EMPTY)

  const IMPORT := Info(Import(true), false, false)
  const DEFINITION := Info(Definition, false, false)
  const STATEMENT := Info(Other, false, false)

  function Empty(n: nat): seq<Info> { seq(n, _ => EMPTY) }

  lemma PlainFile(t: seq<Info>)
    requires Quiet(t)
    ensures Sound(PLAIN) && Map(PLAIN.read, [IMPORT] + t) == [IMPORT] + t
    ensures Analyse([IMPORT] + t) == Structure(0, 1, Defs(t, 1), true, 0, Near(Defs(t, 1), 11))
  {
    hide Defs, Near, Quiet;
    assert ([IMPORT] + t)[1..] == t;
    ScanQuiet(Step(START, 0, IMPORT), 1, t);
  }

  lemma OneDef(at: nat)
    ensures Defs([DEFINITION], at) == [at] && Quiet([DEFINITION])
  {
    assert [DEFINITION][1..] == [];
  }

  lemma TwoDefs(at: nat)
    ensures Defs([DEFINITION, DEFINITION], at) == [at, at + 1] && Quiet([DEFINITION, DEFINITION])
  {
    OneDef(at + 1);
    assert [DEFINITION, DEFINITION][1..] == [DEFINITION];
    assert [at] + [at + 1] == [at, at + 1];
  }

  /** An import, twenty-one blank lines and a definition: both runs report a fix. */
  lemma GapFixedTwice()
    ensures var lines := [IMPORT] + (Empty(21) + [DEFINITION]);
      Sound(PLAIN) && Fixes(PLAIN, lines) && BlankGap(lines) && Fixes(PLAIN, Fixed(PLAIN, lines))
  {
    hide ScanFrom, Fixed;
    var t := Empty(21) + [DEFINITION];
    var lines := [IMPORT] + t;
    OneDef(22);
    BlanksInFront(Empty(21), [DEFINITION], 1);
    PlainFile(t);
    LateNonEmpty([22], 1);
    forall i: nat | 1 <= i <= 21 ensures BlankAt(lines, i) { assert lines[i] == t[i - 1]; }
    SecondRunIff(PLAIN, lines);
  }

  /** A definition twenty lines below the import and another right behind it: both runs report a fix. */
  lemma EdgeFixedTwice()
    ensures var lines := [IMPORT] + ([STATEMENT] + (Empty(19) + [DEFINITION, DEFINITION]));
      Sound(PLAIN) && Fixes(PLAIN, lines) && !BlankGap(lines) && Fixes(PLAIN, Fixed(PLAIN, lines))
  {
    hide ScanFrom, Fixed;
    var rest := Empty(19) + [DEFINITION, DEFINITION];
    var t := [STATEMENT] + rest;
    var lines := [IMPORT] + t;
    TwoDefs(21);
    BlanksInFront(Empty(19), [DEFINITION, DEFINITION], 2);
    assert t[1..] == rest;
    assert Quiet(t) && Defs(t, 1) == [21, 22];
    PlainFile(t);
    LateNonEmpty([21, 22], 1);
    assert [21, 22][1] == 22;
    assert lines[1] == STATEMENT && !BlankAt(lines, 1);
    assert [21, 22][0] == 21;
    SecondRunIff(PLAIN, lines);
  }

  lemma EdgeGap(lines: seq<Info>)
    requires lines == [IMPORT] + (Empty(20) + [DEFINITION, DEFINITION])
    requires CorrectPosition(Analyse(lines)) == 1 && Misplaced(Analyse(lines)) == [22]
    ensures Gap(lines) == 20
  {
    hide Analyse, Misplaced, Without, CorrectPosition, Blanks;
    var kept := Empty(20) + [DEFINITION];
    assert TailOf(lines) == kept + [DEFINITION] + [];
    assert AsSet(Misplaced(Analyse(lines))) == {22};
    DropOne(kept, DEFINITION, [], 1);
    assert kept + [] == kept;
    BlanksAre(kept, 20);
  }

  /** Twenty blank lines are enough: with a definition right behind them the pass is never finished. */
  lemma EdgeNeverFinished()
    ensures var lines := [IMPORT] + (Empty(20) + [DEFINITION, DEFINITION]);
      Sound(PLAIN) && Fixes(PLAIN, lines) && !BlankGap(lines) && NeverFinished(PLAIN, lines)
  {
    hide ScanFrom, NeverFinished, Without, TailLeft;
    var t := Empty(20) + [DEFINITION, DEFINITION];
    var lines := [IMPORT] + t;
    TwoDefs(21);
    BlanksInFront(Empty(20), [DEFINITION, DEFINITION], 1);
    PlainFile(t);
    assert [21, 22][1..] == [22] && [22][1..] == [];
    assert Late([21, 22], 1) == [22];
    EdgeGap(lines);
    assert lines[21] == DEFINITION && !BlankAt(lines, 21);
    assert 21 in Analyse(lines).loggers by { assert [21, 22][0] == 21; }
    assert PushedOutAt(lines, 1);
    NeverFinishedIff(PLAIN, lines);
  }
}
