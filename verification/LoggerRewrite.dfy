/** When moving the logger definition settles in one run: the pass over what the scanner reads off each line. */
module LoggerRewrite {
  import opened Wrappers
  import opened LineEdits
  import opened LoggerScan

  function AsSet(s: seq<nat>): set<nat> { set i | i in s }

  function Removed(file: seq<Info>): seq<Info> { Without(file, AsSet(Misplaced(Analyse(file))), 0) }

  /** The number of blank lines at the start. */
  function Blanks(file: seq<Info>): (n: nat)
    ensures n <= |file| && forall i | 0 <= i < n :: file[i].kind.Blank?
    ensures n < |file| ==> !file[n].kind.Blank?
  {
    if file != [] && file[0].kind.Blank? then 1 + Blanks(file[1..]) else 0
  }

  lemma {:induction false} BlanksAre(file: seq<Info>, n: nat)
    requires n <= |file| && forall i | 0 <= i < n :: file[i].kind.Blank?
    requires n < |file| ==> !file[n].kind.Blank?
    ensures Blanks(file) == n
  {
    if n > 0 { BlanksAre(file[1..], n - 1); }
  }

  /** `line` in front of `rest`, with an `empty` line between them unless nothing follows. */
  function InFront<T>(line: T, rest: seq<T>, empty: T): seq<T> {
    if rest == [] then [line] else [line, empty] + rest
  }

  function Inserted<T>(file: seq<T>, at: nat, line: T, empty: T): seq<T>
    requires at <= |file|
  {
    file[..at] + InFront(line, file[at..], empty)
  }

  /** Taking the line and its empty line out again gives the file back. */
  lemma InsertedConserves<T>(file: seq<T>, at: nat, line: T, empty: T)
    requires at <= |file|
    ensures var out, added := Inserted(file, at, line, empty), if at < |file| then 2 else 1;
      && |out| == |file| + added && out[..at] + out[at + added..] == file
      && out[at] == line && (added == 2 ==> out[at + 1] == empty)
  {
    var out, added := Inserted(file, at, line, empty), if at < |file| then 2 else 1;
    assert out[..at] == file[..at] && out[at + added..] == file[at..];
  }

  lemma MapInserted<T, U>(f: T -> U, file: seq<T>, at: nat, line: T, empty: T)
    requires at <= |file|
    ensures Map(f, Inserted(file, at, line, empty)) == Inserted(Map(f, file), at, f(line), f(empty))
  {
  }

  const EMPTY := Info(Blank, false, false)

  lemma RemovedKeepsHead(file: seq<Info>, n: nat)
    requires n <= |file| && n <= CorrectPosition(Analyse(file)) + TOLERANCE + 1
    ensures n <= |Removed(file)| && Removed(file)[..n] == file[..n]
  {
    var drop := AsSet(Misplaced(Analyse(file)));
    MisplacedInRange(file);
    FilteredFromStart(file, drop);
    SkipGap(file, drop, 0, n);
  }

  function InsertAt(file: seq<Info>): (ip: nat)
    ensures ip <= |Removed(file)|
  {
    var cp := CorrectPosition(Analyse(file));
    MisplacedInRange(file);
    RemovedKeepsHead(file, cp);
    cp + Blanks(Removed(file)[cp..])
  }

  function Rewritten(file: seq<Info>): seq<Info>
    requires NeedsFix(Analyse(file))
  {
    var f := Analyse(file);
    MisplacedInRange(file);
    assert Misplaced(f)[0] in Misplaced(f);
    if f.properLogger then Removed(file)
    else Inserted(Removed(file), InsertAt(file), file[Misplaced(f)[0]], EMPTY)
  }

  // ---- below the last import and the last docstring only definitions are recorded ----

  predicate Quiet(t: seq<Info>) {
    t == [] ||
    match t[0].kind
    case Opener(quotes, oneLine) => !oneLine && forall i | 1 <= i < |t| :: !Closes(t[i], quotes)
    case Import(_) => false
    case _ => Quiet(t[1..])
  }

  /** The definitions of a quiet stretch of lines that starts at line number `at`. */
  function Defs(t: seq<Info>, at: nat): seq<nat> {
    if t == [] || t[0].kind.Opener? then []
    else if t[0].kind.Definition? then [at] + Defs(t[1..], at + 1)
    else Defs(t[1..], at + 1)
  }

  predicate Near(positions: seq<nat>, bound: nat) { exists i | 0 <= i < |positions| :: positions[i] <= bound }

  lemma NearCons(p: nat, rest: seq<nat>, bound: nat)
    ensures Near([p] + rest, bound) <==> p <= bound || Near(rest, bound)
  {
    assert ([p] + rest)[0] == p;
    assert forall i | 0 <= i < |rest| :: ([p] + rest)[i + 1] == rest[i];
  }

  lemma {:induction false} ScanInside(s: Scan, at: nat, t: seq<Info>, quotes: Quotes)
    requires s.open == Some(quotes)
    ensures (forall i | 0 <= i < |t| :: !Closes(t[i], quotes)) ==> ScanFrom(s, at, t) == s
    ensures ScanFrom(s, at, t).found.docstringEnd <= at && s.found.docstringEnd <= at ==>
              forall i | 0 <= i < |t| :: !Closes(t[i], quotes)
    decreases |t|
  {
    if t != [] {
      if Closes(t[0], quotes) {
        ScanRises(Step(s, at, t[0]), at + 1, t[1..]);
      } else {
        ScanInside(s, at + 1, t[1..], quotes);
        if ScanFrom(s, at, t).found.docstringEnd <= at && s.found.docstringEnd <= at {
          forall i | 0 <= i < |t| ensures !Closes(t[i], quotes) {
            if i > 0 { assert !Closes(t[1..][i - 1], quotes); }
          }
        } else if forall i | 0 <= i < |t| :: !Closes(t[i], quotes) {
          assert forall i | 0 <= i < |t[1..]| :: t[1..][i] == t[i + 1];
        }
      }
    }
  }

  /** A later docstring end or import only ever raises the recorded one past the current line. */
  lemma {:induction false} ScanRises(s: Scan, at: nat, t: seq<Info>)
    ensures var f := ScanFrom(s, at, t).found;
      && (f.docstringEnd == s.found.docstringEnd || f.docstringEnd > at)
      && (f.lastImport == s.found.lastImport || f.lastImport > at)
    ensures Before(s.found, at) ==> var f := ScanFrom(s, at, t).found;
      s.found.docstringEnd <= f.docstringEnd && s.found.lastImport <= f.lastImport
    decreases |t|
  {
    if t != [] {
      ScanRises(Step(s, at, t[0]), at + 1, t[1..]);
    }
  }

  lemma {:induction false} ScanQuiet(s: Scan, at: nat, t: seq<Info>)
    requires s.open == None && Quiet(t)
    ensures ScanFrom(s, at, t).found ==
      s.found.(loggers := s.found.loggers + Defs(t, at),
               properLogger := s.found.properLogger || Near(Defs(t, at), s.found.lastImport + 10))
    decreases |t|
  {
    if t != [] {
      var next := Step(s, at, t[0]);
      if t[0].kind.Opener? {
        ScanInside(next, at + 1, t[1..], t[0].kind.quotes);
      } else {
        ScanQuiet(next, at + 1, t[1..]);
        var rest := Defs(t[1..], at + 1);
        assert s.found.loggers + [at] + rest == s.found.loggers + ([at] + rest);
        if t[0].kind.Definition? { NearCons(at, rest, s.found.lastImport + 10); }
      }
    }
  }

  lemma {:induction false} QuietWhenNothingFound(s: Scan, at: nat, t: seq<Info>)
    requires s.open == None && Before(s.found, at)
    requires CorrectPosition(ScanFrom(s, at, t).found) <= at
    ensures Quiet(t)
    decreases |t|
  {
    if t != [] {
      var next := Step(s, at, t[0]);
      ScanRises(next, at + 1, t[1..]);
      match t[0].kind
      case Opener(quotes, oneLine) =>
        if !oneLine {
          ScanInside(next, at + 1, t[1..], quotes);
          assert forall i | 1 <= i < |t| :: t[i] == t[1..][i - 1];
        }
      case Import(_) =>
      case _ => QuietWhenNothingFound(next, at + 1, t[1..]);
    }
  }

  // ---- the state of the scanner at the insertion point ----

  /** The scanner in front of line `cp`, where `cp` is the correct position of the whole file. */
  function HeadScan(file: seq<Info>): Scan {
    MisplacedInRange(file);
    ScanFrom(START, 0, file[..CorrectPosition(Analyse(file))])
  }

  function TailOf(file: seq<Info>): seq<Info> {
    MisplacedInRange(file);
    file[CorrectPosition(Analyse(file))..]
  }

  /** A step that records its own line leaves the scanner outside any docstring. */
  lemma StepCloses(s: Scan, i: nat, l: Info)
    requires Before(s.found, i) && CorrectPosition(Step(s, i, l).found) == i + 1
    ensures Step(s, i, l).open == None
  {
  }

  lemma ScanOne(s: Scan, at: nat, l: Info)
    ensures ScanFrom(s, at, [l]) == Step(s, at, l)
  {
    assert [l][1..] == [];
  }

  lemma LastStep(head: seq<Info>, n: nat)
    requires |head| == n + 1
    ensures ScanFrom(START, 0, head) == Step(ScanFrom(START, 0, head[..n]), n, head[n])
  {
    assert head == head[..n] + [head[n]];
    ScanSplit(START, 0, head[..n], [head[n]]);
    ScanOne(ScanFrom(START, 0, head[..n]), n, head[n]);
  }

  lemma ClosedAfter(head: seq<Info>)
    requires head == [] || CorrectPosition(ScanFrom(START, 0, head).found) == |head|
    ensures ScanFrom(START, 0, head).open == None
  {
    if head != [] {
      var n := |head| - 1;
      LastStep(head, n);
      ScanStaysBefore(START, 0, head[..n]);
      StepCloses(ScanFrom(START, 0, head[..n]), n, head[n]);
    }
  }

  lemma HeadIsClosed(file: seq<Info>)
    ensures var s, f, cp := HeadScan(file), Analyse(file), CorrectPosition(Analyse(file));
      s.open == None && Before(s.found, cp) && ScanFrom(s, cp, TailOf(file)).found == f
      && s.found.docstringEnd == f.docstringEnd && s.found.lastImport == f.lastImport
  {
    var cp := CorrectPosition(Analyse(file));
    MisplacedInRange(file);
    assert file == file[..cp] + TailOf(file);
    ScanSplit(START, 0, file[..cp], TailOf(file));
    ScanStaysBefore(START, 0, file[..cp]);
    ScanRises(HeadScan(file), cp, TailOf(file));
    ClosedAfter(file[..cp]);
  }

  /** Below the correct position the scanner finds definitions only. */
  lemma TailIsQuiet(file: seq<Info>)
    ensures var s, f, cp := HeadScan(file), Analyse(file), CorrectPosition(Analyse(file));
      Quiet(TailOf(file))
      && f == s.found.(loggers := s.found.loggers + Defs(TailOf(file), cp),
                       properLogger := s.found.properLogger || Near(Defs(TailOf(file), cp), f.lastImport + 10))
  {
    var cp := CorrectPosition(Analyse(file));
    HeadIsClosed(file);
    QuietWhenNothingFound(HeadScan(file), cp, TailOf(file));
    ScanQuiet(HeadScan(file), cp, TailOf(file));
  }

  // ---- removing and inserting in a quiet stretch ----

  /** The positions that are not late. */
  function Kept(positions: seq<nat>, cp: nat): seq<nat> {
    if positions == [] then []
    else if positions[0] <= cp + TOLERANCE then [positions[0]] + Kept(positions[1..], cp)
    else Kept(positions[1..], cp)
  }

  lemma {:induction false} DefsFrom(t: seq<Info>, at: nat)
    ensures Ascending(Defs(t, at))
    ensures forall i | 0 <= i < |Defs(t, at)| :: at <= Defs(t, at)[i] < at + |t| && t[Defs(t, at)[i] - at].kind.Definition?
  {
    if t != [] && !t[0].kind.Opener? {
      DefsFrom(t[1..], at + 1);
      var rest := Defs(t[1..], at + 1);
      assert forall i | 0 <= i < |rest| :: t[rest[i] - at] == t[1..][rest[i] - (at + 1)];
    }
  }

  /** Late definitions go, the others stay where they are, and the stretch stays quiet. */
  lemma {:induction false} RemoveLate(t: seq<Info>, at: nat, cp: nat, drop: set<nat>, to: nat)
    requires Quiet(t) && (to == at || at > cp + TOLERANCE)
    requires forall p | p >= at :: p in drop <==> p in Defs(t, at) && p > cp + TOLERANCE
    ensures Quiet(Without(t, drop, at)) && Defs(Without(t, drop, at), to) == Kept(Defs(t, at), cp)
    decreases |t|
  {
    DefsFrom(t, at);
    if t != [] {
      if t[0].kind.Opener? {
        assert Defs(t, at) == [];
        WithoutNothing(t, drop, at);
      } else {
        DefsFrom(t[1..], at + 1);
        RemoveLate(t[1..], at + 1, cp, drop, if at in drop then to else to + 1);
      }
    }
  }

  function Shift(positions: seq<nat>, d: nat): seq<nat> {
    seq(|positions|, i requires 0 <= i < |positions| => positions[i] + d)
  }

  lemma {:induction false} DefsShift(t: seq<Info>, at: nat, d: nat)
    ensures Defs(t, at + d) == Shift(Defs(t, at), d)
    decreases |t|
  {
    if t != [] { DefsShift(t[1..], at + 1, d); }
  }

  /** Blank lines in front add nothing but distance. */
  lemma {:induction false} BlanksInFront(blanks: seq<Info>, t: seq<Info>, at: nat)
    requires forall i | 0 <= i < |blanks| :: blanks[i].kind.Blank?
    ensures Quiet(blanks + t) == Quiet(t) && Defs(blanks + t, at) == Defs(t, at + |blanks|)
    decreases |blanks|
  {
    if blanks == [] {
      assert blanks + t == t;
    } else {
      assert (blanks + t)[1..] == blanks[1..] + t;
      BlanksInFront(blanks[1..], t, at + 1);
    }
  }

  /** How far an insertion moves what follows it. */
  function Push(rest: seq<Info>): nat { if rest == [] then 1 else 2 }

  /** A definition in front, with its blank line, shifts the others down by one or two. */
  lemma DefinitionInFront(line: Info, t: seq<Info>, at: nat)
    requires line.kind.Definition?
    ensures var u := InFront(line, t, EMPTY);
      Quiet(u) == Quiet(t) && Defs(u, at) == [at] + Shift(Defs(t, at), Push(t))
  {
    var u := InFront(line, t, EMPTY);
    if t != [] {
      assert u[1..] == [EMPTY] + t;
      BlanksInFront([EMPTY], t, at + 1);
      DefsShift(t, at, 2);
    }
  }

  lemma InsertAfterBlanks(blanks: seq<Info>, rest: seq<Info>, line: Info, at: nat)
    requires forall i | 0 <= i < |blanks| :: blanks[i].kind.Blank?
    requires Quiet(blanks + rest) && line.kind.Definition?
    ensures var u := blanks + InFront(line, rest, EMPTY);
      Quiet(u) && Defs(u, at) == [at + |blanks|] + Shift(Defs(blanks + rest, at), Push(rest))
  {
    BlanksInFront(blanks, rest, at);
    DefinitionInFront(line, rest, at + |blanks|);
    BlanksInFront(blanks, InFront(line, rest, EMPTY), at);
  }

  lemma InsertInQuiet(t: seq<Info>, line: Info, at: nat)
    requires Quiet(t) && line.kind.Definition?
    ensures var b := Blanks(t);
      var u := Inserted(t, b, line, EMPTY);
      Quiet(u) && Defs(u, at) == [at + b] + Shift(Defs(t, at), Push(t[b..]))
  {
    var b := Blanks(t);
    assert t == t[..b] + t[b..];
    InsertAfterBlanks(t[..b], t[b..], line, at);
  }

  // ---- the second run ----

  /** The scanner on the same head with another quiet tail. */
  lemma AnalyseOther(file: seq<Info>, tail: seq<Info>)
    requires Quiet(tail)
    ensures var s, f, cp := HeadScan(file), Analyse(file), CorrectPosition(Analyse(file));
      cp <= |file| && Analyse(file[..cp] + tail) ==
        s.found.(loggers := s.found.loggers + Defs(tail, cp),
                 properLogger := s.found.properLogger || Near(Defs(tail, cp), f.lastImport + 10))
  {
    var cp := CorrectPosition(Analyse(file));
    HeadIsClosed(file);
    MisplacedInRange(file);
    ScanSplit(START, 0, file[..cp], tail);
    ScanQuiet(HeadScan(file), cp, tail);
  }

  lemma {:induction false} NoneLate(positions: seq<nat>, cp: nat)
    requires forall i | 0 <= i < |positions| :: positions[i] < cp
    ensures Late(positions, cp) == []
  {
    if positions != [] { NoneLate(positions[1..], cp); }
  }

  lemma {:induction false} KeptIsFilter(positions: seq<nat>, cp: nat)
    ensures forall p :: p in Kept(positions, cp) <==> p in positions && p <= cp + TOLERANCE
    ensures Late(Kept(positions, cp), cp) == []
  {
    if positions != [] { KeptIsFilter(positions[1..], cp); }
  }

  /** The misplaced definitions are the late ones of the tail. */
  lemma MisplacedIsTail(file: seq<Info>)
    ensures var cp := CorrectPosition(Analyse(file));
      && Misplaced(Analyse(file)) == Late(Defs(TailOf(file), cp), cp)
      && forall p :: p in AsSet(Misplaced(Analyse(file))) <==> p in Defs(TailOf(file), cp) && p > cp + TOLERANCE
  {
    var cp := CorrectPosition(Analyse(file));
    TailIsQuiet(file);
    HeadIsClosed(file);
    LateSplit(HeadScan(file).found.loggers, Defs(TailOf(file), cp), cp);
    NoneLate(HeadScan(file).found.loggers, cp);
    DefsFrom(TailOf(file), cp);
    LateIsFilter(Defs(TailOf(file), cp), cp);
  }

  function TailLeft(file: seq<Info>): seq<Info> {
    Without(TailOf(file), AsSet(Misplaced(Analyse(file))), CorrectPosition(Analyse(file)))
  }

  lemma RemovedIsHeadAndTail(file: seq<Info>)
    ensures var cp := CorrectPosition(Analyse(file));
      cp <= |file| && Removed(file) == file[..cp] + TailLeft(file) && Removed(file)[cp..] == TailLeft(file)
    ensures InsertAt(file) == CorrectPosition(Analyse(file)) + Blanks(TailLeft(file))
  {
    var cp, drop := CorrectPosition(Analyse(file)), AsSet(Misplaced(Analyse(file)));
    MisplacedInRange(file);
    FilteredFromStart(file, drop);
    SkipGap(file, drop, 0, cp);
  }

  /** Removing them leaves the head, and a quiet tail with the other definitions. */
  lemma RemovedTail(file: seq<Info>)
    ensures var cp := CorrectPosition(Analyse(file));
      Quiet(TailLeft(file)) && Defs(TailLeft(file), cp) == Kept(Defs(TailOf(file), cp), cp)
  {
    var cp, drop := CorrectPosition(Analyse(file)), AsSet(Misplaced(Analyse(file)));
    MisplacedIsTail(file);
    TailIsQuiet(file);
    RemoveLate(TailOf(file), cp, cp, drop, cp);
  }

  /** With a definition already near the imports the pass only removes, and a second run finds nothing. */
  lemma RemovalSettles(file: seq<Info>)
    requires NeedsFix(Analyse(file)) && Analyse(file).properLogger
    ensures !NeedsFix(Analyse(Rewritten(file)))
  {
    var cp := CorrectPosition(Analyse(file));
    RemovedIsHeadAndTail(file);
    RemovedTail(file);
    HeadIsClosed(file);
    AnalyseOther(file, TailLeft(file));
    LateSplit(HeadScan(file).found.loggers, Defs(TailLeft(file), cp), cp);
    NoneLate(HeadScan(file).found.loggers, cp);
    KeptIsFilter(Defs(TailOf(file), cp), cp);
  }

  lemma FirstMisplaced(file: seq<Info>)
    requires NeedsFix(Analyse(file))
    ensures var f := Analyse(file);
      CorrectPosition(f) + TOLERANCE < Misplaced(f)[0] < |file| && file[Misplaced(f)[0]].kind.Definition?
  {
    MisplacedInRange(file);
    assert Misplaced(Analyse(file))[0] in Misplaced(Analyse(file));
  }

  lemma InsertBehindHead<T>(head: seq<T>, tail: seq<T>, b: nat, line: T, empty: T)
    requires b <= |tail|
    ensures Inserted(head + tail, |head| + b, line, empty) == head + Inserted(tail, b, line, empty)
  {
    assert (head + tail)[..|head| + b] == head + tail[..b];
    assert (head + tail)[|head| + b..] == tail[b..];
  }

  /** An insertion leaves the head, and the definition behind the blank lines of the tail. */
  lemma RewrittenIsInsertion(file: seq<Info>) returns (line: Info)
    requires NeedsFix(Analyse(file)) && !Analyse(file).properLogger
    ensures var cp := CorrectPosition(Analyse(file));
      && line.kind.Definition? && cp <= |file|
      && Rewritten(file) == file[..cp] + Inserted(TailLeft(file), Blanks(TailLeft(file)), line, EMPTY)
      && Misplaced(Analyse(file))[0] < |file| && line == file[Misplaced(Analyse(file))[0]]
  {
    hide ScanFrom, Without, Late, Defs, Quiet, Kept, Blanks, InsertAt, Inserted, TailLeft, Removed;
    var f, cp := Analyse(file), CorrectPosition(Analyse(file));
    RemovedIsHeadAndTail(file);
    FirstMisplaced(file);
    line := file[Misplaced(f)[0]];
    InsertBehindHead(file[..cp], TailLeft(file), Blanks(TailLeft(file)), line, EMPTY);
  }

  lemma RewrittenTail(file: seq<Info>) returns (tail: seq<Info>)
    requires NeedsFix(Analyse(file)) && !Analyse(file).properLogger
    ensures var cp, b := CorrectPosition(Analyse(file)), Blanks(TailLeft(file));
      && cp <= |file| && Rewritten(file) == file[..cp] + tail && Quiet(tail)
      && Defs(tail, cp) == [cp + b] + Shift(Kept(Defs(TailOf(file), cp), cp), Push(TailLeft(file)[b..]))
  {
    hide ScanFrom, Without, Late, Defs, Quiet, Kept, Blanks, Inserted, TailLeft, Rewritten;
    var line := RewrittenIsInsertion(file);
    RemovedTail(file);
    InsertInQuiet(TailLeft(file), line, CorrectPosition(Analyse(file)));
    tail := Inserted(TailLeft(file), Blanks(TailLeft(file)), line, EMPTY);
  }

  /** What the second run sees after an insertion: the head as before, and the moved definitions. */
  lemma InsertedAnalysis(file: seq<Info>) returns (moved: seq<nat>)
    requires NeedsFix(Analyse(file)) && !Analyse(file).properLogger
    ensures var f, g, cp, b := Analyse(file), Analyse(Rewritten(file)), CorrectPosition(Analyse(file)), Blanks(TailLeft(file));
      && moved == [cp + b] + Shift(Kept(Defs(TailOf(file), cp), cp), Push(TailLeft(file)[b..]))
      && CorrectPosition(g) == cp && g.hasLoggingImport && g.lastImport == f.lastImport
      && g.loggers == HeadScan(file).found.loggers + moved
      && g.properLogger == Near(moved, f.lastImport + 10)
      && Misplaced(g) == Late(moved, cp)
  {
    hide ScanFrom, Without, Late, Defs, Quiet, Kept, Blanks, TailLeft, Rewritten;
    var f, cp := Analyse(file), CorrectPosition(Analyse(file));
    var tail := RewrittenTail(file);
    moved := Defs(tail, cp);
    HeadIsClosed(file);
    TailIsQuiet(file);
    AnalyseOther(file, tail);
    LateSplit(HeadScan(file).found.loggers, moved, cp);
    NoneLate(HeadScan(file).found.loggers, cp);
  }

  lemma {:induction false} LateNonEmpty(positions: seq<nat>, cp: nat)
    ensures Late(positions, cp) != [] <==> exists i :: 0 <= i < |positions| && positions[i] > cp + TOLERANCE
  {
    if positions != [] {
      LateNonEmpty(positions[1..], cp);
      assert forall i | 1 <= i < |positions| :: positions[i] == positions[1..][i - 1];
      if Late(positions[1..], cp) != [] {
        var j :| 0 <= j < |positions[1..]| && positions[1..][j] > cp + TOLERANCE;
        assert positions[j + 1] > cp + TOLERANCE;
      }
    }
  }

  lemma MovedLate(kept: seq<nat>, cp: nat, b: nat, d: nat)
    ensures Late([cp + b] + Shift(kept, d), cp) != [] <==>
      b > TOLERANCE || exists i :: 0 <= i < |kept| && kept[i] + d > cp + TOLERANCE
  {
    var moved := [cp + b] + Shift(kept, d);
    LateNonEmpty(moved, cp);
    assert moved[0] == cp + b && forall i | 0 <= i < |kept| :: moved[i + 1] == kept[i] + d;
    if Late(moved, cp) != [] && b <= TOLERANCE {
      var i :| 0 <= i < |moved| && moved[i] > cp + TOLERANCE;
      assert moved[i] == kept[i - 1] + d;
    }
  }

  /** A lone definition that is late is not a proper one, so the other guards do not matter. */
  lemma LateDecides(g: Structure, head: seq<nat>, moved: seq<nat>, lastImport: nat)
    requires g.loggers == head + moved && moved != [] && g.hasLoggingImport && lastImport <= CorrectPosition(g)
    requires Misplaced(g) == Late(moved, CorrectPosition(g)) && g.properLogger == Near(moved, lastImport + 10)
    ensures NeedsFix(g) <==> Late(moved, CorrectPosition(g)) != []
  {
    LateNonEmpty(moved, CorrectPosition(g));
  }

  /** The second run rewrites again exactly when a moved definition is late. */
  lemma AgainIfLate(file: seq<Info>)
    requires NeedsFix(Analyse(file)) && !Analyse(file).properLogger
    ensures var cp, b := CorrectPosition(Analyse(file)), Blanks(TailLeft(file));
      var kept := Kept(Defs(TailOf(file), cp), cp);
      NeedsFix(Analyse(Rewritten(file))) <==>
        b > TOLERANCE
        || exists i :: 0 <= i < |kept| && kept[i] + Push(TailLeft(file)[b..]) > cp + TOLERANCE
  {
    hide ScanFrom, Without, Late, Defs, Quiet, Kept, Blanks, TailLeft, Rewritten;
    var f, g, cp, b := Analyse(file), Analyse(Rewritten(file)), CorrectPosition(Analyse(file)), Blanks(TailLeft(file));
    var moved := InsertedAnalysis(file);
    LateDecides(g, HeadScan(file).found.loggers, moved, f.lastImport);
    MovedLate(Kept(Defs(TailOf(file), cp), cp), cp, b, Push(TailLeft(file)[b..]));
  }

  predicate BlankAt(file: seq<Info>, i: nat) { i < |file| && file[i].kind.Blank? }

  /** The line at the correct position and the lines up to the tolerance below it are all blank. */
  predicate BlankGap(file: seq<Info>) {
    var cp := CorrectPosition(Analyse(file));
    forall i: nat | cp <= i <= cp + TOLERANCE :: BlankAt(file, i)
  }

  lemma GapIsBlanks(file: seq<Info>)
    requires NeedsFix(Analyse(file))
    ensures BlankGap(file) <==> Blanks(TailLeft(file)) > TOLERANCE
    ensures var cp := CorrectPosition(Analyse(file)); |file| > cp + TOLERANCE && |TailLeft(file)| > TOLERANCE
  {
    var f, cp := Analyse(file), CorrectPosition(Analyse(file));
    FirstMisplaced(file);
    RemovedIsHeadAndTail(file);
    RemovedKeepsHead(file, cp + TOLERANCE + 1);
    forall i: nat | i <= TOLERANCE ensures TailLeft(file)[i] == file[cp + i] {
      assert Removed(file)[..cp + TOLERANCE + 1][cp + i] == file[cp + i];
    }
    if BlankGap(file) {
      forall i: nat | i <= TOLERANCE ensures TailLeft(file)[i].kind.Blank? { assert BlankAt(file, cp + i); }
    }
    if Blanks(TailLeft(file)) > TOLERANCE {
      forall i: nat | cp <= i <= cp + TOLERANCE ensures BlankAt(file, i) {
        assert TailLeft(file)[i - cp].kind.Blank?;
      }
    }
  }

  /** The definitions kept in the tail are the recorded ones between the correct position and the tolerance. */
  lemma KeptInTail(file: seq<Info>, p: nat)
    ensures var f, cp := Analyse(file), CorrectPosition(Analyse(file));
      p in Kept(Defs(TailOf(file), cp), cp) <==> p in f.loggers && cp <= p <= cp + TOLERANCE
  {
    var cp := CorrectPosition(Analyse(file));
    TailIsQuiet(file);
    HeadIsClosed(file);
    DefsFrom(TailOf(file), cp);
    KeptIsFilter(Defs(TailOf(file), cp), cp);
  }

  /** A definition kept in the tail is not blank, so something follows the blank lines. */
  lemma KeptStopsBlanks(file: seq<Info>)
    ensures var cp := CorrectPosition(Analyse(file));
      Kept(Defs(TailOf(file), cp), cp) != [] ==> Blanks(TailLeft(file)) < |TailLeft(file)|
  {
    var cp := CorrectPosition(Analyse(file));
    RemovedTail(file);
    DefsFrom(TailLeft(file), cp);
    if Defs(TailLeft(file), cp) != [] {
      assert TailLeft(file)[Defs(TailLeft(file), cp)[0] - cp].kind.Definition?;
    }
  }

  lemma PushedOut(kept: seq<nat>, cp: nat)
    requires forall i | 0 <= i < |kept| :: kept[i] <= cp + TOLERANCE
    ensures (exists i :: 0 <= i < |kept| && kept[i] + 2 > cp + TOLERANCE)
      <==> cp + TOLERANCE - 1 in kept || cp + TOLERANCE in kept
  {
  }

  lemma AgainAfterInsertion(file: seq<Info>)
    requires NeedsFix(Analyse(file)) && !Analyse(file).properLogger
    ensures var f, cp := Analyse(file), CorrectPosition(Analyse(file));
      NeedsFix(Analyse(Rewritten(file))) <==>
        BlankGap(file) || cp + TOLERANCE - 1 in f.loggers || cp + TOLERANCE in f.loggers
  {
    var cp := CorrectPosition(Analyse(file));
    var kept := Kept(Defs(TailOf(file), cp), cp);
    AgainIfLate(file);
    GapIsBlanks(file);
    KeptStopsBlanks(file);
    KeptInTail(file, cp + TOLERANCE - 1);
    KeptInTail(file, cp + TOLERANCE);
    KeptIsFilter(Defs(TailOf(file), cp), cp);
    forall i | 0 <= i < |kept| ensures kept[i] <= cp + TOLERANCE { assert kept[i] in kept; }
    PushedOut(kept, cp);
  }

  /**
   Running the pass twice rewrites twice exactly when nothing near the imports counted as a
   proper definition and either more blank lines than the tolerance follow the imports, or a
   definition stands in the last two lines of the tolerance, where the insertion pushes it out.
   */
  lemma SecondRunAgainIff(file: seq<Info>)
    requires NeedsFix(Analyse(file))
    ensures var f, cp := Analyse(file), CorrectPosition(Analyse(file));
      NeedsFix(Analyse(Rewritten(file))) <==>
        !f.properLogger
        && (BlankGap(file) || cp + TOLERANCE - 1 in f.loggers || cp + TOLERANCE in f.loggers)
  {
    if Analyse(file).properLogger { RemovalSettles(file); } else { AgainAfterInsertion(file); }
  }

  // ---- a file the pass never settles ----

  function Run(file: seq<Info>): seq<Info> { if NeedsFix(Analyse(file)) then Rewritten(file) else file }

  function Runs(file: seq<Info>, n: nat): seq<Info> {
    if n == 0 then file else Run(Runs(file, n - 1))
  }

  /** More blank lines below the imports than the tolerance, then something else, and no proper definition. */
  predicate Drifts(file: seq<Info>) {
    && NeedsFix(Analyse(file)) && !Analyse(file).properLogger && BlankGap(file)
    && Blanks(TailLeft(file)) < |TailLeft(file)|
  }

  lemma InsertedTwo<T>(t: seq<T>, b: nat, line: T, empty: T)
    requires b < |t|
    ensures Inserted(t, b, line, empty) == t[..b] + [line] + ([empty] + t[b..])
  {
    assert [line, empty] + t[b..] == [line] + ([empty] + t[b..]);
  }

  lemma DriftInserts(file: seq<Info>) returns (line: Info)
    requires Drifts(file)
    ensures var cp, b, t := CorrectPosition(Analyse(file)), Blanks(TailLeft(file)), TailLeft(file);
      cp <= |file| && Rewritten(file) == file[..cp] + (t[..b] + [line] + ([EMPTY] + t[b..]))
  {
    line := RewrittenIsInsertion(file);
    InsertedTwo(TailLeft(file), Blanks(TailLeft(file)), line, EMPTY);
  }

  lemma {:induction false} AllLateKeepsNone(positions: seq<nat>, cp: nat)
    requires forall i | 0 <= i < |positions| :: positions[i] > cp + TOLERANCE
    ensures Kept(positions, cp) == []
  {
    if positions != [] { AllLateKeepsNone(positions[1..], cp); }
  }

  /** Nothing but blank lines stands within the tolerance, so no definition is kept there. */
  lemma GapKeepsNothing(file: seq<Info>)
    requires NeedsFix(Analyse(file)) && BlankGap(file)
    ensures var cp := CorrectPosition(Analyse(file)); Kept(Defs(TailOf(file), cp), cp) == []
  {
    var cp, t, n := CorrectPosition(Analyse(file)), TailOf(file), TOLERANCE + 1;
    GapIsBlanks(file);
    assert t == t[..n] + t[n..];
    forall i: nat | i < n ensures t[i].kind.Blank? { assert BlankAt(file, cp + i); }
    BlanksInFront(t[..n], t[n..], cp);
    DefsFrom(t[n..], cp + n);
    AllLateKeepsNone(Defs(t, cp), cp);
  }

  lemma DriftAnalysis(file: seq<Info>)
    requires Drifts(file)
    ensures var g, cp, b := Analyse(Rewritten(file)), CorrectPosition(Analyse(file)), Blanks(TailLeft(file));
      && NeedsFix(g) && !g.properLogger && CorrectPosition(g) == cp
      && Misplaced(g) == [cp + b] && b > TOLERANCE
  {
    hide ScanFrom, Without, Defs, Quiet, Kept, Blanks, TailLeft, Rewritten;
    var f, g, cp, b := Analyse(file), Analyse(Rewritten(file)), CorrectPosition(Analyse(file)), Blanks(TailLeft(file));
    GapIsBlanks(file);
    GapKeepsNothing(file);
    var moved := InsertedAnalysis(file);
    assert moved == [cp + b];
    LateDecides(g, HeadScan(file).found.loggers, moved, f.lastImport);
  }

  lemma DropOne<T>(before: seq<T>, line: T, after: seq<T>, at: nat)
    ensures Without(before + [line] + after, {at + |before|}, at) == before + after
  {
    WithoutNothing(before, {at + |before|}, at);
    WithoutNothing(after, {at + |before|}, at + |before| + 1);
    WithoutConcat(before, [line] + after, {at + |before|}, at);
    assert before + [line] + after == before + ([line] + after);
    assert ([line] + after)[1..] == after;
  }

  lemma {:induction false} BlanksOf(blanks: seq<Info>, rest: seq<Info>)
    requires forall i | 0 <= i < |blanks| :: blanks[i].kind.Blank?
    requires rest != [] && !rest[0].kind.Blank?
    ensures Blanks(blanks + rest) == |blanks|
  {
    if blanks == [] {
      assert blanks + rest == rest;
    } else {
      assert (blanks + rest)[1..] == blanks[1..] + rest;
      BlanksOf(blanks[1..], rest);
    }
  }

  lemma TailOfRewritten(file: seq<Info>) returns (line: Info)
    requires Drifts(file)
    ensures var b, t := Blanks(TailLeft(file)), TailLeft(file);
      && TailOf(Rewritten(file)) == t[..b] + [line] + ([EMPTY] + t[b..])
      && |Rewritten(file)| == CorrectPosition(Analyse(file)) + |t| + 2
  {
    hide ScanFrom, Without, Late, Defs, Quiet, Kept, Blanks, TailLeft, Rewritten;
    line := DriftInserts(file);
    DriftAnalysis(file);
  }

  /** What is left of the tail after the second removal: one more blank line than before. */
  lemma DriftTail(file: seq<Info>)
    requires Drifts(file)
    ensures var b, t := Blanks(TailLeft(file)), TailLeft(file);
      TailLeft(Rewritten(file)) == t[..b] + ([EMPTY] + t[b..])
  {
    hide ScanFrom, Without, Late, Defs, Quiet, Kept, Blanks, Rewritten;
    var cp, b, t := CorrectPosition(Analyse(file)), Blanks(TailLeft(file)), TailLeft(file);
    var line := TailOfRewritten(file);
    DriftAnalysis(file);
    assert AsSet(Misplaced(Analyse(Rewritten(file)))) == {cp + b};
    DropOne(t[..b], line, [EMPTY] + t[b..], cp);
  }

  lemma OneMoreBlank(t: seq<Info>)
    requires Blanks(t) < |t|
    ensures Blanks(t[..Blanks(t)] + ([EMPTY] + t[Blanks(t)..])) == Blanks(t) + 1
  {
    var b := Blanks(t);
    assert t[..b] + ([EMPTY] + t[b..]) == (t[..b] + [EMPTY]) + t[b..];
    BlanksOf(t[..b] + [EMPTY], t[b..]);
  }

  /** A rewritten drifting file drifts again, one blank line further. */
  lemma DriftGoesOn(file: seq<Info>)
    requires Drifts(file)
    ensures Drifts(Rewritten(file)) && |Rewritten(Rewritten(file))| == |Rewritten(file)| + 1
  {
    hide ScanFrom, Without, Late, Defs, Quiet, Kept, TailLeft, Rewritten;
    DriftAnalysis(file);
    DriftTail(file);
    OneMoreBlank(TailLeft(file));
    GapIsBlanks(Rewritten(file));
    var _ := TailOfRewritten(file);
    var _ := TailOfRewritten(Rewritten(file));
  }

  lemma DriftsRun(file: seq<Info>)
    requires Drifts(file)
    ensures NeedsFix(Analyse(file)) && Run(file) == Rewritten(file)
  {
  }

  lemma {:induction false} DriftsForEver(file: seq<Info>, n: nat)
    requires Drifts(file)
    ensures Drifts(Runs(file, n))
    decreases n
  {
    hide Drifts, Run, Rewritten, NeedsFix, Analyse;
    if n > 0 {
      DriftsForEver(file, n - 1);
      DriftsRun(Runs(file, n - 1));
      DriftGoesOn(Runs(file, n - 1));
    }
  }

  /** Every run on such a file reports a fix, and every run after the first makes it one line longer. */
  lemma NeverSettles(file: seq<Info>, n: nat)
    requires Drifts(file)
    ensures NeedsFix(Analyse(Runs(file, n)))
    ensures |Runs(file, n + 2)| == |Runs(file, n + 1)| + 1
  {
    hide Drifts, Run, Rewritten, NeedsFix, Analyse;
    DriftsForEver(file, n);
    DriftsForEver(file, n + 1);
    DriftsRun(Runs(file, n));
    DriftsRun(Runs(file, n + 1));
    DriftGoesOn(Runs(file, n));
  }
}
