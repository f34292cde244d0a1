/** `fix_logger_position` on the text of a file. */
module LoggerPosition {
  import opened Wrappers
  import opened PyText
  import opened LineEdits
  import opened LoggerScan
  import opened LoggerRewrite
  import opened LoggerPass

  const DOUBLE := "\"\"\""
  const SINGLE := "'''"

  predicate Imports(text: string) {
    || StartsWith(text, "import ") || StartsWith(text, "from ")
    || (Contains(text, "import ") && !StartsWith(text, "logger"))
  }

  predicate ImportsLogging(text: string) { Contains(text, "logging_manager") || Contains(text, "get_logger") }

  function KindOf(text: string): Kind {
    if StartsWith(text, DOUBLE) then Opener(Double, Count(text, DOUBLE) >= 2)
    else if StartsWith(text, SINGLE) then Opener(Single, Count(text, SINGLE) >= 2)
    else if text == "" then Blank
    else if StartsWith(text, "#") then Comment
    else if Imports(text) then Import(ImportsLogging(text))
    else if DefinesLogger(text) then Definition
    else Other
  }

  /** What the scanner reads off a line. */
  function Read(line: string): Info {
    var text := Strip(line);
    Info(KindOf(text), Contains(text, DOUBLE), Contains(text, SINGLE))
  }

  const PYTHON: Reader<string> := Reader(Read, Strip, "")

  lemma ReadStripped(line: string)
    ensures Read(Strip(line)) == Read(line)
  {
    StripTwice(line);
  }

  lemma ReadEmptyIsBlank()
    ensures Read("") == EMPTY
  {
  }

  /** Python lines meet what the theorems about the pass ask of a reader. */
  lemma PythonIsSound()
    ensures Sound(PYTHON)
  {
    hide Strip, KindOf, Contains;
    ReadEmptyIsBlank();
    forall line: string ensures PYTHON.read(PYTHON.strip(line)) == PYTHON.read(line) { ReadStripped(line); }
    forall line: string ensures PYTHON.strip(PYTHON.strip(line)) == PYTHON.strip(line) { StripTwice(line); }
  }

  lemma BlankIsEmpty(line: string)
    ensures Read(line).kind.Blank? <==> Strip(line) == ""
  {
  }

  // ---- the script ----

  lemma ScanNext(lines: seq<string>, i: nat)
    requires i < |lines|
    ensures ScanFrom(START, 0, Map(Read, lines[..i + 1]))
      == Step(ScanFrom(START, 0, Map(Read, lines[..i])), i, Read(lines[i]))
  {
    var file := Map(Read, lines[..i + 1]);
    assert file[..i] == Map(Read, lines[..i]);
    LastStep(file, i);
  }

  /** The loop of `analyze_file_structure`, with its flags. */
  method AnalyzeFileStructure(lines: seq<string>) returns (f: LoggerScan.Structure)
    ensures f == Structured(PYTHON, lines)
  {
    f := START.found;
    var inDocstring, quotes := false, Double;
    for i := 0 to |lines|
      invariant ScanFrom(START, 0, Map(Read, lines[..i])) == Scan(f, if inDocstring then Some(quotes) else None)
    {
      ScanNext(lines, i);
      f, inDocstring, quotes := AnalyzeLine(f, inDocstring, quotes, i, lines[i]);
    }
    assert lines[..|lines|] == lines;
  }

  method AnalyzeLine(f0: LoggerScan.Structure, inDocstring0: bool, quotes0: Quotes, i: nat, line: string)
    returns (f: LoggerScan.Structure, inDocstring: bool, quotes: Quotes)
    ensures Scan(f, if inDocstring then Some(quotes) else None)
      == Step(Scan(f0, if inDocstring0 then Some(quotes0) else None), i, Read(line))
  {
    hide Strip, StartsWith, Contains, Count, Imports, ImportsLogging, DefinesLogger;
    f, inDocstring, quotes := f0, inDocstring0, quotes0;
    var text := Strip(line);
    if !inDocstring && (StartsWith(text, DOUBLE) || StartsWith(text, SINGLE)) {
      quotes := if StartsWith(text, DOUBLE) then Double else Single;
      inDocstring := true;
      if Count(text, if quotes.Double? then DOUBLE else SINGLE) >= 2 {
        inDocstring := false;
        f := f.(docstringEnd := i + 1);
      }
    } else if inDocstring && Contains(text, if quotes.Double? then DOUBLE else SINGLE) {
      inDocstring := false;
      f := f.(docstringEnd := i + 1);
    } else if !inDocstring && text != "" && !StartsWith(text, "#") {
      if Imports(text) {
        f := f.(lastImport := i + 1);
        if ImportsLogging(text) { f := f.(hasLoggingImport := true, loggingImportLine := i); }
      } else if DefinesLogger(text) {
        f := f.(loggers := f.loggers + [i]);
        if i <= f.lastImport + 10 { f := f.(properLogger := true); }
      }
    }
  }

  /** Collect the misplaced positions, in file order. */
  method CollectMisplaced(f: LoggerScan.Structure, cp: nat) returns (misplaced: seq<nat>)
    requires cp == CorrectPosition(f)
    ensures misplaced == Misplaced(f)
  {
    misplaced := [];
    for i := 0 to |f.loggers|
      invariant misplaced == Late(f.loggers[..i], cp)
    {
      LateSplit(f.loggers[..i], [f.loggers[i]], cp);
      assert f.loggers[..i + 1] == f.loggers[..i] + [f.loggers[i]];
      if f.loggers[i] > cp + 20 { misplaced := misplaced + [f.loggers[i]]; }
    }
    assert f.loggers[..|f.loggers|] == f.loggers;
  }

  /** Their statements; the source skips empty ones, but a recorded definition is never empty. */
  method CollectStatements(lines: seq<string>, positions: seq<nat>) returns (statements: seq<string>)
    requires forall i | 0 <= i < |positions| :: positions[i] < |lines|
    ensures |statements| == |positions|
    ensures forall i | 0 <= i < |positions| :: statements[i] == Strip(lines[positions[i]])
  {
    hide Strip;
    statements := [];
    for i := 0 to |positions|
      invariant |statements| == i
      invariant forall k | 0 <= k < i :: statements[k] == Strip(lines[positions[k]])
    {
      statements := statements + [Strip(lines[positions[i]])];
    }
  }

  method SkipBlankLines(lines: seq<string>, cp: nat) returns (ip: nat)
    requires cp <= |lines|
    ensures ip <= |lines| && ip == cp + Blanks(Map(PYTHON.read, lines[cp..]))
    ensures ip < |lines| ==> Strip(lines[ip]) != ""
  {
    hide Strip, Read, Blanks;
    ip := cp;
    ghost var rest := Map(PYTHON.read, lines[cp..]);
    assert forall k | 0 <= k < |rest| :: rest[k] == Read(lines[cp + k]);
    while ip < |lines| && Strip(lines[ip]) == ""
      invariant cp <= ip <= |lines|
      invariant forall k | 0 <= k < ip - cp :: rest[k].kind.Blank?
    {
      BlankIsEmpty(lines[ip]);
      ip := ip + 1;
    }
    if ip < |lines| { BlankIsEmpty(lines[ip]); }
    BlanksAre(rest, ip - cp);
  }

  /** A text file as the list of its lines. */
  class SourceFile {
    var lines: seq<string>

    constructor (lines: seq<string>)
      ensures this.lines == lines
    {
      this.lines := lines;
    }

    /** Pop the given lines, the last one first. */
    method PopBackwards(positions: seq<nat>)
      requires Ascending(positions) && forall i | 0 <= i < |positions| :: positions[i] < |lines|
      modifies this
      ensures lines == Without(old(lines), AsSet(positions), 0)
    {
      ghost var start, drop := lines, AsSet(positions);
      ghost var hi: nat := |lines|;
      FilteredFromStart(start, drop);
      var n := |positions|;
      while n > 0
        invariant 0 <= n <= |positions| && hi <= |start|
        invariant forall i | 0 <= i < n :: positions[i] < hi
        invariant forall i | n <= i < |positions| :: hi <= positions[i]
        invariant lines == FilteredFrom(start, drop, hi)
      {
        n := n - 1;
        var p := positions[n];
        assert p in positions;
        SkipGap(start, drop, p + 1, hi);
        PopOne(start, drop, p);
        lines := lines[..p] + lines[p + 1..];
        hi := p;
      }
      SkipGap(start, drop, 0, hi);
      FilteredFromStart(start, drop);
    }

    /** Put the definition at `ip`, and an empty line behind it if a line that is not blank follows. */
    method InsertStatement(ip: nat, statement: string)
      requires ip <= |lines| && (ip < |lines| ==> Strip(lines[ip]) != "")
      modifies this
      ensures lines == Inserted(old(lines), ip, statement, "")
    {
      hide Strip;
      ghost var rest := lines[ip..];
      lines := lines[..ip] + [statement] + lines[ip..];
      assert lines[ip + 1..] == rest;
      if ip + 1 < |lines| && Strip(lines[ip + 1]) != "" {
        lines := lines[..ip + 1] + [""] + lines[ip + 1..];
      }
    }

    /** The whole pass on one file; the result says whether the file was rewritten. */
    method FixLoggerPosition() returns (fixed: bool)
      modifies this
      ensures fixed == Fixes(PYTHON, old(lines))
      ensures lines == Fixed(PYTHON, old(lines))
    {
      hide Read, Strip, Structured, CorrectPosition, Misplaced, Without, Inserted, Blanks, Stripped, InsertPosition, MovedLine;
      var f := AnalyzeFileStructure(lines);
      if f.loggers == [] || !f.hasLoggingImport { return false; }
      if |f.loggers| == 1 && f.properLogger { return false; }
      var cp := CorrectPosition(f);
      var misplaced := CollectMisplaced(f, cp);
      if misplaced == [] { return false; }
      assert Fixes(PYTHON, lines);
      FixedInSteps(PYTHON, lines);
      MisplacedAscend(lines);
      var statements := CollectStatements(lines, misplaced);
      PopBackwards(misplaced);
      if !f.properLogger {
        var ip := SkipBlankLines(lines, cp);
        InsertStatement(ip, statements[0]);
      }
      return true;
    }
  }

  lemma MisplacedAscend(lines: seq<string>)
    ensures var m := Misplaced(Structured(PYTHON, lines));
      Ascending(m) && forall i | 0 <= i < |m| :: m[i] < |lines|
  {
    var m := Misplaced(Structured(PYTHON, lines));
    MisplacedInRange(Map(PYTHON.read, lines));
    forall i | 0 <= i < |m| ensures m[i] < |lines| { assert m[i] in m; }
  }
}
