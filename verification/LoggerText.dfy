/** What the pass over logger definitions does to the Python text of a file. */
module LoggerText {
  import opened PyText
  import opened LineEdits
  import opened LoggerScan
  import opened LoggerRewrite
  import opened LoggerPass
  import opened LoggerPosition

  predicate Idle(l: Info) { l.kind.Blank? || l.kind.Comment? || l.kind.Other? }

  predicate AllIdle(t: seq<Info>) { forall i | 0 <= i < |t| :: Idle(t[i]) }

  /** Idle lines in front add nothing but distance. */
  lemma {:induction false} IdleInFront(idle: seq<Info>, t: seq<Info>, at: nat)
    requires AllIdle(idle)
    ensures Quiet(idle + t) == Quiet(t) && Defs(idle + t, at) == Defs(t, at + |idle|)
    decreases |idle|
  {
    if idle == [] {
      assert idle + t == t;
    } else {
      assert (idle + t)[1..] == idle[1..] + t;
      IdleInFront(idle[1..], t, at + 1);
    }
  }

  lemma OneDefinition(def: Info, at: nat)
    requires def.kind.Definition?
    ensures Quiet([def]) && Defs([def], at) == [at]
  {
    assert [def][1..] == [];
  }

  /** A docstring of one line, an import of the logging functions, idle lines and a definition. */
  predicate Shaped<T>(r: Reader<T>, doc: T, imp: T, code: seq<T>, def: T) {
    && r.read(doc).kind.Opener? && r.read(doc).kind.oneLine
    && r.read(imp).kind == Import(true) && r.read(def).kind.Definition?
    && AllIdle(Map(r.read, code)) && code != [] && !r.read(code[0]).kind.Blank?
  }

  function FileOf<T>(doc: T, imp: T, code: seq<T>, def: T): seq<T> { [doc, imp] + code + [def] }

  lemma ScanTwo(doc: Info, imp: Info)
    requires doc.kind.Opener? && doc.kind.oneLine && imp.kind == Import(true)
    ensures var s := ScanFrom(START, 0, [doc, imp]);
      s.open.None? && s.found == Structure(1, 2, [], true, 1, false)
  {
    assert [doc, imp][1..] == [imp];
    ScanOne(Step(START, 0, doc), 1, imp);
  }

  lemma ShapedAnalysis<T>(r: Reader<T>, doc: T, imp: T, code: seq<T>, def: T)
    requires Shaped(r, doc, imp, code, def)
    ensures Structured(r, FileOf(doc, imp, code, def)) == Structure(1, 2, [2 + |code|], true, 1, |code| <= 10)
  {
    hide ScanFrom, AllIdle, Quiet, Defs, Near;
    var head, idle, last := [r.read(doc), r.read(imp)], Map(r.read, code), r.read(def);
    assert Map(r.read, FileOf(doc, imp, code, def)) == head + (idle + [last]);
    ScanTwo(r.read(doc), r.read(imp));
    IdleInFront(idle, [last], 2);
    OneDefinition(last, 2 + |code|);
    ScanSplit(START, 0, head, idle + [last]);
    ScanQuiet(ScanFrom(START, 0, head), 2, idle + [last]);
    NearOne(2 + |code|, 12);
    assert [] + [2 + |code|] == [2 + |code|];
  }

  lemma NearOne(p: nat, bound: nat)
    ensures Near([p], bound) <==> p <= bound
  {
    assert [p][0] == p;
  }

  lemma LateOne(p: nat, cp: nat)
    ensures Late([p], cp) == if p > cp + TOLERANCE then [p] else []
  {
    assert [p][1..] == [];
  }

  /**
   Such a file is rewritten exactly when more than twenty lines lie between the imports and the
   definition, and then the definition moves, stripped, to right below the imports.
   */
  lemma DefinitionMovesUp<T>(r: Reader<T>, doc: T, imp: T, code: seq<T>, def: T)
    requires Shaped(r, doc, imp, code, def)
    ensures var lines := FileOf(doc, imp, code, def);
      && (Fixes(r, lines) <==> |code| > 20)
      && (|code| > 20 ==> Fixed(r, lines) == [doc, imp, r.strip(def), r.empty] + code)
  {
    hide ScanFrom, Late, Without, Blanks, Structured, Shaped;
    var lines := FileOf(doc, imp, code, def);
    ShapedAnalysis(r, doc, imp, code, def);
    LateOne(2 + |code|, 2);
    if |code| > 20 {
      MovedUp(r, doc, imp, code, def);
    }
  }

  lemma MovedUp<T>(r: Reader<T>, doc: T, imp: T, code: seq<T>, def: T)
    requires Shaped(r, doc, imp, code, def) && |code| > 20
    requires Structured(r, FileOf(doc, imp, code, def)) == Structure(1, 2, [2 + |code|], true, 1, false)
    ensures Fixed(r, FileOf(doc, imp, code, def)) == [doc, imp, r.strip(def), r.empty] + code
  {
    hide ScanFrom, Late, Without, Blanks, Structured, AllIdle, Fixed;
    var lines := FileOf(doc, imp, code, def);
    LateOne(2 + |code|, 2);
    FixedInSteps(r, lines);
    var head := [doc, imp] + code;
    assert AsSet([2 + |code|]) == {2 + |code|};
    assert head + [def] + [] == lines && head + [] == head;
    DropOne(head, def, [], 0);
    assert head[2..] == code && head[..2] == [doc, imp];
    BlanksAre(Map(r.read, code), 0);
    assert lines[2 + |code|] == def;
    assert [doc, imp] + ([r.strip(def), r.empty] + code) == [doc, imp, r.strip(def), r.empty] + code;
  }

  // ---- how single lines are read ----

  /** A docstring that opens on a line closes on it exactly when its quotes stand there once more, behind the first ones. */
  lemma OpenerIff(text: string)
    ensures (exists rest :: Begins(text, "\"\"\"", rest)) ==>
      KindOf(text) == Opener(Double, exists j: nat :: j >= 3 && StandsAt(text, "\"\"\"", j))
    ensures (exists rest :: Begins(text, "'''", rest)) ==>
      KindOf(text) == Opener(Single, exists j: nat :: j >= 3 && StandsAt(text, "'''", j))
  {
    hide Count, StandsAt, StartsWith, Begins;
    StartsIff(text, DOUBLE);
    StartsIff(text, SINGLE);
    if StartsWith(text, DOUBLE) { OnceMoreIff(text, DOUBLE); }
    if StartsWith(text, SINGLE) {
      OnceMoreIff(text, SINGLE);
      OtherQuotes(text);
    }
  }

  lemma OtherQuotes(text: string)
    requires StartsWith(text, SINGLE)
    ensures !StartsWith(text, DOUBLE)
  {
    assert DOUBLE[0] == '"' && SINGLE[0] == '\'';
  }

  lemma OnceMoreIff(text: string, quotes: string)
    requires |quotes| == 3 && StartsWith(text, quotes)
    ensures Count(text, quotes) >= 2 <==> exists j: nat :: j >= 3 && StandsAt(text, quotes, j)
  {
    hide Count, StandsAt, StartsWith;
    CountsTwoIff(text, quotes);
    if i: nat, j: nat :| StandsTwice(text, quotes, i, j) { assert j >= 3; }
    if j: nat :| j >= 3 && StandsAt(text, quotes, j) {
      InFront(text, quotes);
      assert StandsTwice(text, quotes, 0, j);
    }
  }

  lemma InFront(text: string, quotes: string)
    requires StartsWith(text, quotes)
    ensures StandsAt(text, quotes, 0)
  {
    StandsInFront(text, quotes);
  }

  /** The first character of a text is neither a quote nor a number sign. */
  predicate Plain(text: string) { text != "" && text[0] != '"' && text[0] != '\'' && text[0] != '#' }

  lemma PlainIsNoOpener(text: string)
    requires Plain(text)
    ensures !StartsWith(text, DOUBLE) && !StartsWith(text, SINGLE) && !StartsWith(text, "#")
  {
    assert DOUBLE[0] == '"' && SINGLE[0] == '\'' && "#"[0] == '#';
  }

  ghost predicate ImportText(text: string) {
    || (exists rest :: Begins(text, "import ", rest)) || (exists rest :: Begins(text, "from ", rest))
    || ((exists a, b :: Holds(text, "import ", a, b)) && !exists rest :: Begins(text, "logger", rest))
  }

  ghost predicate LoggingText(text: string) {
    (exists a, b :: Holds(text, "logging_manager", a, b)) || (exists a, b :: Holds(text, "get_logger", a, b))
  }

  lemma ImportsIff(text: string)
    ensures Imports(text) <==> ImportText(text)
    ensures ImportsLogging(text) <==> LoggingText(text)
  {
    hide StartsWith, Contains, Begins, Holds;
    StartsIff(text, "import ");
    StartsIff(text, "from ");
    StartsIff(text, "logger");
    ContainsIff(text, "import ");
    ContainsIff(text, "logging_manager");
    ContainsIff(text, "get_logger");
  }

  /**
   How a line of code is read: an import if it begins with one of the two words or holds the
   first of them without beginning with `logger`, else a definition if it is the four tokens.
   */
  lemma CodeReadAs(text: string)
    requires Plain(text)
    ensures KindOf(text) ==
      if ImportText(text) then Import(LoggingText(text))
      else if exists gaps, rest :: Matched(text, ["logger", "=", "get_logger", "("], gaps, rest) then Definition
      else Other
  {
    hide StartsWith, Imports, ImportsLogging, DefinesLogger, ImportText, LoggingText, Matched;
    PlainIsNoOpener(text);
    ImportsIff(text);
    DefinesLoggerIff(text);
  }

  /** A stripped definition is read as one, whatever its arguments. */
  lemma UsualIsDefinition(rest: string)
    ensures KindOf("logger = get_logger(" + rest) == Definition
  {
    hide StartsWith, Contains, DefinesLogger;
    var text := USUAL + rest;
    NoSpace();
    UsualDefinition("", rest);
    assert "" + text == text;
    UsualFirst(rest);
    PlainIsNoOpener(text);
  }

  lemma UsualFirst(rest: string)
    ensures var text := USUAL + rest;
      Plain(text) && StartsWith(text, "logger") && !StartsWith(text, "import ") && !StartsWith(text, "from ")
  {
    var text := USUAL + rest;
    assert "logger" <= USUAL;
    assert text[0] == 'l' && "import "[0] == 'i' && "from "[0] == 'f';
  }

  /** Space in front of a text that ends without it. */
  lemma StripIndented(gap: string, text: string)
    requires AllSpace(gap) && text != "" && !IsSpace(text[0]) && !IsSpace(text[|text| - 1])
    ensures Strip(gap + text) == text
  {
    SpaceGoes(gap, text);
  }

  lemma CallIsTrimmed(args: string)
    ensures var text := USUAL + (args + ")"); !IsSpace(text[0]) && !IsSpace(text[|text| - 1])
  {
  }

  lemma DefinitionRead(gap: string, args: string)
    requires AllSpace(gap)
    ensures Strip(gap + ("logger = get_logger(" + (args + ")"))) == "logger = get_logger(" + (args + ")")
    ensures Read(gap + ("logger = get_logger(" + (args + ")"))).kind == Definition
  {
    hide AllSpace, Strip, KindOf, Contains;
    CallIsTrimmed(args);
    StripIndented(gap, USUAL + (args + ")"));
    UsualIsDefinition(args + ")");
  }

  /** A docstring of one line, whatever it says. */
  lemma DocstringRead(says: string)
    ensures Read("\"\"\"" + (says + "\"\"\"")).kind == Opener(Double, true)
  {
    hide KindOf, Contains, Strip, StandsAt;
    var text := DOUBLE + (says + DOUBLE);
    QuotesAtEnds(says);
    Trimmed(text);
    assert Begins(text, DOUBLE, says + DOUBLE);
    OpenerIff(text);
  }

  lemma QuotesAtEnds(says: string)
    ensures var text := DOUBLE + (says + DOUBLE);
      && text != "" && !IsSpace(text[0]) && !IsSpace(text[|text| - 1])
      && 3 + |says| >= 3 && StandsAt(text, DOUBLE, 3 + |says|)
  {
    var text := DOUBLE + (says + DOUBLE);
    assert |DOUBLE| == 3 && DOUBLE[2] == '"';
    assert text[3 + |says|..] == DOUBLE;
  }

  /** An import of the logging functions, whatever stands around their name. */
  lemma LoggingImportRead(module_: string, names: string)
    requires names != "" && !IsSpace(names[|names| - 1])
    ensures Read("from " + (module_ + "logging_manager" + names)).kind == Import(true)
  {
    hide Contains, Strip, LoggingText, Holds, Begins;
    var after := module_ + "logging_manager" + names;
    var text := "from " + after;
    assert text[0] == 'f' && text[|text| - 1] == names[|names| - 1];
    Trimmed(text);
    HoldsBehind("from ", module_, "logging_manager", names);
    assert LoggingText(text) by { hide *; LoggingByManager(text, "from " + module_, names); }
    assert Begins(text, "from ", after) by { BeginsOf("from ", after); }
    hide KindOf;
    CodeReadAs(text);
  }

  lemma BeginsOf(part: string, rest: string)
    ensures Begins(part + rest, part, rest)
  {
  }

  lemma HoldsBehind(first: string, a: string, part: string, b: string)
    ensures Holds(first + (a + part + b), part, first + a, b)
  {
    assert first + (a + part + b) == first + a + part + b;
  }

  lemma LoggingByManager(text: string, a: string, b: string)
    requires Holds(text, "logging_manager", a, b)
    ensures LoggingText(text)
  {
  }

  /**
   A Python file of a one-line docstring, an import from the logging module, more than twenty
   lines of code and a definition in a function body: the definition moves below the import.
   */
  lemma PythonDefinitionMovesUp(says: string, module_: string, names: string, code: seq<string>, gap: string, args: string)
    requires names != "" && !IsSpace(names[|names| - 1]) && AllSpace(gap)
    requires AllIdle(Map(Read, code)) && |code| > 20 && Strip(code[0]) != ""
    ensures var doc, imp := "\"\"\"" + (says + "\"\"\""), "from " + (module_ + "logging_manager" + names);
      var def := "logger = get_logger(" + (args + ")");
      var lines := FileOf(doc, imp, code, gap + def);
      && Fixes(PYTHON, lines)
      && Fixed(PYTHON, lines) == [doc, imp, def, ""] + code
  {
    hide Read, Strip, AllSpace, AllIdle, Fixes, Fixed;
    var doc, imp := "\"\"\"" + (says + "\"\"\""), "from " + (module_ + "logging_manager" + names);
    var def := USUAL + (args + ")");
    DocstringRead(says);
    LoggingImportRead(module_, names);
    DefinitionRead(gap, args);
    BlankIsEmpty(code[0]);
    hide *;
    DefinitionMovesUp(PYTHON, doc, imp, code, gap + def);
  }

  /** A text that is too short for an import or a definition is other code. */
  lemma ShortIsCode(text: string)
    requires Plain(text) && |text| < 5
    ensures KindOf(text) == Other
  {
    PlainIsNoOpener(text);
    LiteralLengths();
    LogsNothing(text);
  }

  lemma LiteralLengths()
    ensures |"import "| == 7 && |"from "| == 5
  {
  }

  lemma LogsNothing(text: string)
    requires |text| < 5
    ensures !DefinesLogger(text)
  {
    assert LOGGER_TOKENS[0] == "logger" && |LOGGER_TOKENS[0]| == 6;
  }

  lemma PassIsCode()
    ensures Strip("pass") == "pass" && Idle(Read("pass"))
  {
    hide KindOf, Contains, Strip;
    assert Plain("pass");
    Trimmed("pass");
    ShortIsCode("pass");
  }

  /** Twenty-five lines of code are too many between the import and the definition. */
  lemma TwentyFiveLines()
    ensures var code: seq<string> := seq(25, _ => "pass");
      var doc, imp := "\"\"\"" + ("Doc." + "\"\"\""), "from " + ("tradingagents.utils." + "logging_manager" + " import get_logger");
      var def := "logger = get_logger(" + ("\"x\"" + ")");
      Fixed(PYTHON, FileOf(doc, imp, code, "    " + def)) == [doc, imp, def, ""] + code
  {
    hide Read, Strip, Fixed, Fixes;
    var code: seq<string> := seq(25, _ => "pass");
    PassIsCode();
    NamesEnd();
    assert AllIdle(Map(Read, code));
    hide *;
    assert code[0] == "pass";
    PythonDefinitionMovesUp("Doc.", "tradingagents.utils.", " import get_logger", code, "    ", "\"x\"");
  }

  lemma NamesEnd()
    ensures var names := " import get_logger"; names != "" && !IsSpace(names[|names| - 1])
    ensures AllSpace("    ")
  {
  }
}
