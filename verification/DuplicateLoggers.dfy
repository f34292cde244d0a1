/** `fix_duplicate_loggers`: keep the first logger definition of a file, delete the later ones. */
module DuplicateLoggers {
  import opened Wrappers
  import opened PyText
  import opened LineEdits

  /** How the script sees a line: does the pattern match, and does it hold the literal text it deletes. */
  datatype Matcher<!T> = Matcher(defines: T -> bool, literal: T -> bool)

  /** The positions of the definitions, counted from `at`. */
  function Definitions<T>(m: Matcher<T>, lines: seq<T>, at: nat): seq<nat> {
    if lines == [] then []
    else if m.defines(lines[0]) then [at] + Definitions(m, lines[1..], at + 1)
    else Definitions(m, lines[1..], at + 1)
  }

  /** One pass from the top: once a definition was seen, later ones with the literal text are left out. */
  function Filtered<T>(m: Matcher<T>, lines: seq<T>, seen: bool): (kept: seq<T>)
    ensures |kept| <= |lines|
  {
    if lines == [] then []
    else if m.defines(lines[0]) && seen && m.literal(lines[0]) then Filtered(m, lines[1..], true)
    else [lines[0]] + Filtered(m, lines[1..], seen || m.defines(lines[0]))
  }

  lemma {:induction false} DefinitionsAreFound<T>(m: Matcher<T>, lines: seq<T>, at: nat)
    ensures var d := Definitions(m, lines, at);
      && Ascending(d)
      && forall p: nat :: p in d <==> at <= p < at + |lines| && m.defines(lines[p - at])
  {
    if lines != [] {
      DefinitionsAreFound(m, lines[1..], at + 1);
      var rest := Definitions(m, lines[1..], at + 1);
      forall i | 0 <= i < |rest| ensures at < rest[i] { assert rest[i] in rest; }
    }
  }

  /** Line `p` is a definition with the literal text, and some definition stands above it. */
  predicate Doomed<T>(m: Matcher<T>, lines: seq<T>, p: nat, seen: bool) {
    && p < |lines| && m.defines(lines[p]) && m.literal(lines[p])
    && (seen || exists q: nat :: q < p && m.defines(lines[q]))
  }

  lemma DoomedInRest<T>(m: Matcher<T>, lines: seq<T>, p: nat, seen: bool)
    requires lines != []
    ensures Doomed(m, lines, p + 1, seen) <==> Doomed(m, lines[1..], p, seen || m.defines(lines[0]))
  {
    if q: nat :| q < p + 1 && q < |lines| && m.defines(lines[q]) {
      if q > 0 { assert m.defines(lines[1..][q - 1]); }
    }
    if q: nat :| q < p && q < |lines| - 1 && m.defines(lines[1..][q]) { assert m.defines(lines[q + 1]); }
  }

  /** Deleting the doomed lines by index is the one-pass filter. */
  lemma {:induction false} DropIsFilter<T>(m: Matcher<T>, lines: seq<T>, drop: set<nat>, at: nat, seen: bool)
    requires forall p: nat | p >= at :: p in drop <==> Doomed(m, lines, p - at, seen)
    ensures Without(lines, drop, at) == Filtered(m, lines, seen)
    decreases |lines|
  {
    if lines != [] {
      forall p: nat | p >= at + 1
        ensures p in drop <==> Doomed(m, lines[1..], p - (at + 1), seen || m.defines(lines[0]))
      {
        DoomedInRest(m, lines, p - (at + 1), seen);
      }
      DropIsFilter(m, lines[1..], drop, at + 1, seen || m.defines(lines[0]));
    }
  }

  // ---- what the script promises ----

  /** A second run deletes nothing. */
  lemma {:induction false} FilterTwice<T>(m: Matcher<T>, lines: seq<T>, seen: bool)
    ensures Filtered(m, Filtered(m, lines, seen), seen) == Filtered(m, lines, seen)
    decreases |lines|
  {
    if lines != [] { FilterTwice(m, lines[1..], seen || m.defines(lines[0])); }
  }

  /** What is deleted: the file keeps every other line in order, its first definition first of all. */
  lemma {:induction false} FilterKeepsFirst<T>(m: Matcher<T>, lines: seq<T>, first: nat)
    requires first < |lines| && m.defines(lines[first]) && forall q | 0 <= q < first :: !m.defines(lines[q])
    ensures var out := Filtered(m, lines, false);
      out == lines[..first + 1] + Filtered(m, lines[first + 1..], true)
    decreases first
  {
    if first > 0 {
      FilterKeepsFirst(m, lines[1..], first - 1);
      assert lines[..first + 1] == [lines[0]] + lines[1..][..first];
      assert lines[1..][first..] == lines[first + 1..];
    } else {
      assert lines[..1] == [lines[0]];
    }
  }

  /** The definitions that survive after the first are those written without the literal text. */
  lemma {:induction false} SurvivorsLackText<T>(m: Matcher<T>, lines: seq<T>, at: nat)
    ensures (Definitions(m, Filtered(m, lines, true), at) == [])
      <==> (forall i | 0 <= i < |lines| :: m.defines(lines[i]) ==> m.literal(lines[i]))
    decreases |lines|
  {
    if lines != [] {
      var at' := if m.defines(lines[0]) && m.literal(lines[0]) then at else at + 1;
      SurvivorsLackText(m, lines[1..], at');
      assert forall i | 1 <= i < |lines| :: lines[i] == lines[1..][i - 1];
      assert forall i | 0 <= i < |lines[1..]| :: lines[1..][i] == lines[i + 1];
    }
  }

  /**
   The file ends with one definition, as the script announces, exactly when every definition
   after the first is written with the literal text; others match the pattern but are kept.
   */
  lemma OneLeftIff<T>(m: Matcher<T>, lines: seq<T>, first: nat)
    requires first < |lines| && m.defines(lines[first]) && forall q | 0 <= q < first :: !m.defines(lines[q])
    ensures |Definitions(m, Filtered(m, lines, false), 0)| == 1
      <==> forall i | first < i < |lines| :: m.defines(lines[i]) ==> m.literal(lines[i])
  {
    FilterKeepsFirst(m, lines, first);
    var head, rest := lines[..first + 1], Filtered(m, lines[first + 1..], true);
    DefinitionsOfConcat(m, head, rest, 0);
    OnlyLastDefines(m, head, 0);
    SurvivorsLackText(m, lines[first + 1..], first + 1);
    var tail := lines[first + 1..];
    assert forall i | first < i < |lines| :: lines[i] == tail[i - first - 1];
    if forall i | first < i < |lines| :: m.defines(lines[i]) ==> m.literal(lines[i]) {
      forall i | 0 <= i < |tail| ensures m.defines(tail[i]) ==> m.literal(tail[i]) {
        assert tail[i] == lines[first + 1 + i];
      }
    }
  }

  lemma {:induction false} DefinitionsOfConcat<T>(m: Matcher<T>, a: seq<T>, b: seq<T>, at: nat)
    ensures Definitions(m, a + b, at) == Definitions(m, a, at) + Definitions(m, b, at + |a|)
    decreases |a|
  {
    if a == [] {
      assert a + b == b;
    } else {
      assert (a + b)[1..] == a[1..] + b;
      DefinitionsOfConcat(m, a[1..], b, at + 1);
    }
  }

  lemma {:induction false} OnlyLastDefines<T>(m: Matcher<T>, lines: seq<T>, at: nat)
    requires lines != [] && m.defines(lines[|lines| - 1]) && forall q | 0 <= q < |lines| - 1 :: !m.defines(lines[q])
    ensures Definitions(m, lines, at) == [at + |lines| - 1]
    decreases |lines|
  {
    if |lines| > 1 {
      assert forall q | 0 <= q < |lines[1..]| :: lines[1..][q] == lines[q + 1];
      OnlyLastDefines(m, lines[1..], at + 1);
    } else {
      assert lines[1..] == [];
    }
  }

  // ---- the script ----

  const TEXT := "logger = get_logger("

  predicate HasText(line: string) { Contains(line, TEXT) }

  const PYTHON: Matcher<string> := Matcher(DefinesLogger, HasText)

  /** The positions the pattern matches. */
  method AnalyzeLoggerDefinitions(lines: seq<string>) returns (positions: seq<nat>)
    ensures positions == Definitions(PYTHON, lines, 0)
  {
    hide DefinesLogger, HasText;
    positions := [];
    for i := 0 to |lines|
      invariant positions == Definitions(PYTHON, lines[..i], 0)
    {
      assert lines[..i + 1] == lines[..i] + [lines[i]];
      DefinitionsOfConcat(PYTHON, lines[..i], [lines[i]], 0);
      assert [lines[i]][1..] == [];
      if DefinesLogger(lines[i]) { positions := positions + [i]; }
    }
    assert lines[..|lines|] == lines;
  }

  predicate InImportSection(text: string) {
    || StartsWith(text, "import ") || StartsWith(text, "from ")
    || StartsWith(text, "sys.path.") || StartsWith(text, "load_dotenv(")
  }

  /** The section of imports is made of the lines that begin in one of these four ways. */
  lemma InImportSectionIff(text: string)
    ensures InImportSection(text) <==>
      || (exists rest :: Begins(text, "import ", rest)) || (exists rest :: Begins(text, "from ", rest))
      || (exists rest :: Begins(text, "sys.path.", rest)) || (exists rest :: Begins(text, "load_dotenv(", rest))
  {
    hide StartsWith, Begins;
    StartsIff(text, "import ");
    StartsIff(text, "from ");
    StartsIff(text, "sys.path.");
    StartsIff(text, "load_dotenv(");
  }

  /** The quotes of the docstring that the scan is in, if any, after one more stripped line. */
  function DocstringAfter(open: Option<string>, text: string): Option<string> {
    if open.Some? then (if Contains(text, open.value) then None else open)
    else if StartsWith(text, "\"\"\"") || StartsWith(text, "'''") then (if Count(text, text[..3]) == 1 then Some(text[..3]) else None)
    else None
  }

  function DocstringAt(lines: seq<string>, i: nat): Option<string>
    requires i <= |lines|
  {
    if i == 0 then None else DocstringAfter(DocstringAt(lines, i - 1), Strip(lines[i - 1]))
  }

  datatype Role = Skipped | ImportLine | Statement

  /** What a line counts as; a docstring that opens and closes on one line counts as a statement. */
  function RoleAt(lines: seq<string>, i: nat): Role
    requires i < |lines|
  {
    var text := Strip(lines[i]);
    if DocstringAt(lines, i).Some? || DocstringAt(lines, i + 1).Some? || text == "" || StartsWith(text, "#") then Skipped
    else if InImportSection(text) then ImportLine
    else Statement
  }

  /** `end` is the line after the last import in front of line `stop`, the first statement. */
  ghost predicate EndsImports(lines: seq<string>, end: nat, stop: nat) {
    && end <= stop <= |lines|
    && (forall i | 0 <= i < stop :: RoleAt(lines, i) != Statement)
    && (stop < |lines| ==> RoleAt(lines, stop) == Statement)
    && (end > 0 ==> RoleAt(lines, end - 1) == ImportLine)
    && (forall i | end <= i < stop :: RoleAt(lines, i) != ImportLine)
  }

  lemma DocstringStep(lines: seq<string>, i: nat)
    requires i < |lines|
    ensures DocstringAt(lines, i + 1) == DocstringAfter(DocstringAt(lines, i), Strip(lines[i]))
  {
  }

  method FindImportSectionEnd(lines: seq<string>) returns (importEnd: nat)
    ensures exists stop: nat :: EndsImports(lines, importEnd, stop)
  {
    hide Strip, Count, Contains, InImportSection, StartsWith, DocstringAt;
    importEnd := 0;
    var inDocstring, quotes := false, "";
    DocstringAtStart(lines);
    for i := 0 to |lines|
      invariant importEnd <= i
      invariant DocstringAt(lines, i) == if inDocstring then Some(quotes) else None
      invariant forall j | 0 <= j < i :: RoleAt(lines, j) != Statement
      invariant importEnd > 0 ==> RoleAt(lines, importEnd - 1) == ImportLine
      invariant forall j | importEnd <= j < i :: RoleAt(lines, j) != ImportLine
    {
      DocstringStep(lines, i);
      var text := Strip(lines[i]);
      if !inDocstring {
        if StartsWith(text, "\"\"\"") || StartsWith(text, "'''") {
          StartsLong(text);
          quotes := text[..3];
          if Count(text, quotes) == 1 { inDocstring := true; }
        }
      } else if Contains(text, quotes) {
        inDocstring := false;
        continue;
      }
      if inDocstring || text == "" || StartsWith(text, "#") { continue; }
      if InImportSection(text) {
        importEnd := i + 1;
      } else {
        assert EndsImports(lines, importEnd, i);
        return;
      }
    }
    assert EndsImports(lines, importEnd, |lines|);
  }

  lemma DocstringAtStart(lines: seq<string>)
    ensures DocstringAt(lines, 0) == None
  {
  }

  lemma StartsLong(text: string)
    ensures StartsWith(text, "\"\"\"") || StartsWith(text, "'''") ==> |text| >= 3 && |text[..3]| == 3
  {
  }

  /**
   Choose the definition to keep and the lines to delete. Positions ascend, so the ones near
   the imports come first and the choice is the first definition wherever the imports end.
   */
  method ChooseDuplicates(positions: seq<nat>, importEnd: nat) returns (keep: nat, remove: seq<nat>)
    requires |positions| > 1 && Ascending(positions)
    ensures keep == positions[0] && remove == positions[1..]
  {
    var found: Option<nat> := None;
    remove := [];
    for i := 0 to |positions|
      invariant found == (if i > 0 && positions[0] <= importEnd + 5 then Some(positions[0]) else None)
      invariant remove == if found.Some? then positions[1..i] else positions[..i]
    {
      if positions[i] <= importEnd + 5 && found == None {
        assert i > 0 ==> positions[0] < positions[i];
        found := Some(positions[i]);
      } else {
        remove := remove + [positions[i]];
      }
    }
    if found == None {
      keep, remove := positions[0], positions[1..];
    } else {
      keep := found.value;
    }
  }

  class SourceFile {
    var lines: seq<string>

    constructor (lines: seq<string>)
      ensures this.lines == lines
    {
      this.lines := lines;
    }

    /** Pop the chosen lines from the back, each only if it still holds the literal text. */
    method PopDuplicates(remove: seq<nat>) returns (changes: nat)
      requires Ascending(remove) && forall i | 0 <= i < |remove| :: remove[i] < |lines|
      modifies this
      ensures lines == Without(old(lines), set p | p in remove && HasText(old(lines)[p]), 0)
      ensures changes == |old(lines)| - |lines|
    {
      hide HasText, Without;
      ghost var start := lines;
      ghost var drop := set p | p in remove && HasText(start[p]);
      ghost var hi: nat := |lines|;
      changes := 0;
      FilteredFromStart(start, drop);
      var n := |remove|;
      while n > 0
        invariant 0 <= n <= |remove| && hi <= |start| && changes + |lines| == |start|
        invariant forall i | 0 <= i < n :: remove[i] < hi
        invariant forall i | n <= i < |remove| :: hi <= remove[i]
        invariant lines == FilteredFrom(start, drop, hi)
      {
        n := n - 1;
        var p := remove[n];
        SkipGap(start, drop, p + 1, hi);
        assert p in remove && lines[p] == start[p];
        if HasText(lines[p]) {
          PopOne(start, drop, p);
          lines := lines[..p] + lines[p + 1..];
          changes := changes + 1;
        } else {
          SkipGap(start, drop, p, p + 1);
        }
        hi := p;
      }
      SkipGap(start, drop, 0, hi);
      FilteredFromStart(start, drop);
    }

    /** The whole script on one file: the number of deleted lines, and the position that was kept. */
    method FixDuplicateLoggers() returns (changes: nat, kept: Option<nat>)
      modifies this
      ensures lines == Filtered(PYTHON, old(lines), false)
      ensures changes == |old(lines)| - |lines|
      ensures kept.Some? <==> changes > 0
      ensures kept.Some? ==> Definitions(PYTHON, old(lines), 0) != [] && kept.value == Definitions(PYTHON, old(lines), 0)[0]
    {
      hide DefinesLogger, HasText, Without, Filtered, Definitions;
      var positions := AnalyzeLoggerDefinitions(lines);
      DefinitionsAreFound(PYTHON, lines, 0);
      if |positions| <= 1 {
        FewNeedNothing(lines);
        return 0, None;
      }
      var importEnd := FindImportSectionEnd(lines);
      var keep, remove := ChooseDuplicates(positions, importEnd);
      LaterAreDoomed(lines);
      changes := PopDuplicates(remove);
      kept := if changes > 0 then Some(keep) else None;
    }
  }

  lemma LaterIffDoomed<T>(m: Matcher<T>, lines: seq<T>, p: nat)
    requires Definitions(m, lines, 0) != []
    ensures p in Definitions(m, lines, 0)[1..] && p < |lines| && m.literal(lines[p]) <==> Doomed(m, lines, p, false)
  {
    hide Definitions;
    var d := Definitions(m, lines, 0);
    DefinitionsAreFound(m, lines, 0);
    assert d[0] in d && m.defines(lines[d[0]]);
    if p in d[1..] {
      var k :| 0 <= k < |d[1..]| && d[1..][k] == p;
      assert d[k + 1] == p && p in d;
      var first: nat := d[0];
      assert first < p && m.defines(lines[first]);
    }
    if Doomed(m, lines, p, false) {
      var q: nat :| q < p && m.defines(lines[q]);
      assert q in d && p in d;
      var k :| 0 <= k < |d| && d[k] == p;
      assert k > 0 && d[1..][k - 1] == p;
    }
  }

  /** The later definitions with the text are the doomed lines. */
  lemma LaterAreDoomed(lines: seq<string>)
    requires Definitions(PYTHON, lines, 0) != []
    ensures var later := Definitions(PYTHON, lines, 0)[1..];
      && Ascending(later) && (forall i | 0 <= i < |later| :: later[i] < |lines|)
      && Without(lines, set p | p in later && HasText(lines[p]), 0) == Filtered(PYTHON, lines, false)
  {
    hide DefinesLogger, HasText, Without, Filtered, Definitions, Doomed;
    var d := Definitions(PYTHON, lines, 0);
    DefinitionsAreFound(PYTHON, lines, 0);
    var later := d[1..];
    forall i | 0 <= i < |later| ensures later[i] < |lines| { assert later[i] in d; }
    var drop := set p | p in later && HasText(lines[p]);
    forall p: nat ensures p in drop <==> Doomed(PYTHON, lines, p, false) { LaterIffDoomed(PYTHON, lines, p); }
    DropIsFilter(PYTHON, lines, drop, 0, false);
  }

  lemma DoomedHasTwo<T>(m: Matcher<T>, lines: seq<T>, p: nat)
    requires Doomed(m, lines, p, false)
    ensures |Definitions(m, lines, 0)| > 1
  {
    var d := Definitions(m, lines, 0);
    DefinitionsAreFound(m, lines, 0);
    var q: nat :| q < p && m.defines(lines[q]);
    assert q in d && p in d;
  }

  lemma FewNeedNothing(lines: seq<string>)
    requires |Definitions(PYTHON, lines, 0)| <= 1
    ensures Filtered(PYTHON, lines, false) == lines
  {
    hide DefinesLogger, HasText, Without, Filtered, Definitions;
    forall p: nat ensures !Doomed(PYTHON, lines, p, false) {
      if Doomed(PYTHON, lines, p, false) { DoomedHasTwo(PYTHON, lines, p); }
    }
    DropIsFilter(PYTHON, lines, {}, 0, false);
    WithoutNothing(lines, {}, 0);
  }

  // ---- a file on which two definitions are left ----

  const DENSE := "logger=get_logger(x)"

  lemma DenseTokens()
    ensures "" + "logger" + ("" + "=" + ("" + "get_logger" + ("" + "("))) + "x)" == DENSE && AllSpace("")
  {
  }

  lemma DenseDefines()
    ensures DefinesLogger(DENSE)
  {
    hide DefinesLogger, AllSpace;
    DenseTokens();
    SpacedDefinition("", "", "", "", "x)");
  }

  lemma DenseLacksText()
    ensures !HasText(DENSE)
  {
    assert |DENSE| == |TEXT| && DENSE[6] != TEXT[6];
    assert DENSE[0..] == DENSE;
  }

  lemma LastIsKept<T>(m: Matcher<T>, a: T, b: T)
    requires m.defines(a) && m.defines(b) && !m.literal(b)
    ensures Filtered(m, [a, b], false) == [a, b] && Definitions(m, [a, b], 0) == [0, 1]
  {
    var lines := [a, b];
    assert lines[1..] == [b] && [b][1..] == [];
    assert Filtered(m, [b], true) == [b] + Filtered(m, [], true);
    assert Definitions(m, [b], 1) == [1] + Definitions(m, [], 2);
  }

  /** Definitions without the spaces are not deleted: both are left, in every run. */
  lemma TwoLeft()
    ensures Filtered(PYTHON, [DENSE, DENSE], false) == [DENSE, DENSE]
    ensures Definitions(PYTHON, [DENSE, DENSE], 0) == [0, 1]
  {
    hide DefinesLogger, HasText;
    DenseDefines();
    DenseLacksText();
    LastIsKept(PYTHON, DENSE, DENSE);
  }

  // ---- a file on which an indented definition is deleted ----

  lemma SecondGoes<T>(m: Matcher<T>, a: T, b: T)
    requires m.defines(a) && m.defines(b) && m.literal(b)
    ensures Filtered(m, [a, b], false) == [a]
  {
    assert [a, b][1..] == [b] && [b][1..] == [];
    assert Filtered(m, [b], true) == Filtered(m, [], true);
  }

  lemma TextStands(gap: string, rest: string)
    ensures HasText(gap + (TEXT + rest))
  {
    assert (gap + (TEXT + rest))[|gap|..] == TEXT + rest;
  }

  /** A second definition with the text, at any indentation and with any arguments, is deleted. */
  lemma IndentedGoes(first: string, second: string, gap: string)
    requires AllSpace(gap)
    ensures var a, b := "logger = get_logger(" + first, gap + ("logger = get_logger(" + second);
      Filtered(PYTHON, [a, b], false) == [a]
  {
    hide DefinesLogger, HasText, AllSpace;
    NoSpace();
    UsualDefinition("", first);
    assert "" + (USUAL + first) == USUAL + first;
    UsualDefinition(gap, second);
    TextStands(gap, second);
    SecondGoes(PYTHON, USUAL + first, gap + (USUAL + second));
  }
}
