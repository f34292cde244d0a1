/** The line scanner of `fix_logger_position`, over what it reads off each line. */
module LoggerScan {
  import opened LineEdits
  import opened Wrappers

  datatype Quotes = Double | Single

  /** How the scanner classifies a line it meets outside a docstring. */
  datatype Kind =
    | Opener(quotes: Quotes, oneLine: bool)
    | Blank
    | Comment
    | Import(logging: bool)
    | Definition
    | Other

  datatype Info = Info(kind: Kind, double: bool, single: bool)

  predicate Closes(l: Info, quotes: Quotes) { if quotes.Double? then l.double else l.single }

  datatype Structure = Structure(
    docstringEnd: nat,
    lastImport: nat,
    loggers: seq<nat>,
    hasLoggingImport: bool,
    loggingImportLine: int,
    properLogger: bool)

  /** The scanner between two lines: what it found, and the quotes of the docstring it is in. */
  datatype Scan = Scan(found: Structure, open: Option<Quotes>)

  const START := Scan(Structure(0, 0, [], false, -1, false), None)

  /** One turn of the loop of `analyze_file_structure`, on line number `i`. */
  function Step(s: Scan, i: nat, l: Info): Scan {
    match s.open
    case Some(quotes) => if Closes(l, quotes) then Scan(s.found.(docstringEnd := i + 1), None) else s
    case None =>
      match l.kind
      case Opener(quotes, oneLine) =>
        if oneLine then Scan(s.found.(docstringEnd := i + 1), None) else s.(open := Some(quotes))
      case Import(logging) =>
        var found := s.found.(lastImport := i + 1);
        s.(found := if logging then found.(hasLoggingImport := true, loggingImportLine := i) else found)
      case Definition =>
        s.(found := s.found.(loggers := s.found.loggers + [i],
                             properLogger := s.found.properLogger || i <= s.found.lastImport + 10))
      case _ => s
  }

  function ScanFrom(s: Scan, at: nat, file: seq<Info>): Scan
    decreases |file|
  {
    if file == [] then s else ScanFrom(Step(s, at, file[0]), at + 1, file[1..])
  }

  function Analyse(file: seq<Info>): Structure { ScanFrom(START, 0, file).found }

  function CorrectPosition(f: Structure): nat {
    if f.docstringEnd >= f.lastImport then f.docstringEnd else f.lastImport
  }

  const TOLERANCE := 20

  /** The positions more than the tolerance below `cp`. */
  function Late(positions: seq<nat>, cp: nat): seq<nat> {
    if positions == [] then []
    else if positions[0] > cp + TOLERANCE then [positions[0]] + Late(positions[1..], cp)
    else Late(positions[1..], cp)
  }

  function Misplaced(f: Structure): seq<nat> { Late(f.loggers, CorrectPosition(f)) }

  /** The guards in front of the rewriting. */
  predicate NeedsFix(f: Structure) {
    && f.loggers != [] && f.hasLoggingImport
    && !(|f.loggers| == 1 && f.properLogger)
    && Misplaced(f) != []
  }

  /** Everything found so far lies before line `at`. */
  predicate Before(f: Structure, at: nat) {
    && f.docstringEnd <= at && f.lastImport <= at
    && Ascending(f.loggers) && forall k | 0 <= k < |f.loggers| :: f.loggers[k] < at
  }

  lemma {:induction false} ScanStaysBefore(s: Scan, at: nat, file: seq<Info>)
    requires Before(s.found, at)
    ensures Before(ScanFrom(s, at, file).found, at + |file|)
    ensures s.found.docstringEnd <= ScanFrom(s, at, file).found.docstringEnd
    ensures s.found.lastImport <= ScanFrom(s, at, file).found.lastImport
    decreases |file|
  {
    if file != [] { ScanStaysBefore(Step(s, at, file[0]), at + 1, file[1..]); }
  }

  /** Every recorded position holds a definition. */
  lemma {:induction false} ScanRecordsDefinitions(s: Scan, at: nat, file: seq<Info>, p: nat)
    requires p in ScanFrom(s, at, file).found.loggers && p !in s.found.loggers
    ensures at <= p < at + |file| && file[p - at].kind.Definition?
    decreases |file|
  {
    if file != [] {
      var next := Step(s, at, file[0]);
      if p !in next.found.loggers { ScanRecordsDefinitions(next, at + 1, file[1..], p); }
    }
  }

  lemma {:induction false} ScanSplit(s: Scan, at: nat, a: seq<Info>, b: seq<Info>)
    ensures ScanFrom(s, at, a + b) == ScanFrom(ScanFrom(s, at, a), at + |a|, b)
    decreases |a|
  {
    if a == [] {
      assert a + b == b;
    } else {
      assert (a + b)[1..] == a[1..] + b;
      ScanSplit(Step(s, at, a[0]), at + 1, a[1..], b);
    }
  }

  lemma {:induction false} LateMembers(positions: seq<nat>, cp: nat, p: nat)
    ensures p in Late(positions, cp) <==> p in positions && p > cp + TOLERANCE
  {
    if positions != [] {
      LateMembers(positions[1..], cp, p);
      assert p in positions <==> p == positions[0] || p in positions[1..];
    }
  }

  lemma {:induction false} LateAscends(positions: seq<nat>, cp: nat)
    requires Ascending(positions)
    ensures Ascending(Late(positions, cp))
  {
    if positions != [] {
      var rest := Late(positions[1..], cp);
      LateAscends(positions[1..], cp);
      forall k | 0 <= k < |rest| ensures positions[0] < rest[k] {
        LateMembers(positions[1..], cp, rest[k]);
        var j :| 0 <= j < |positions[1..]| && positions[1..][j] == rest[k];
        assert positions[0] < positions[j + 1];
      }
    }
  }

  lemma LateIsFilter(positions: seq<nat>, cp: nat)
    requires Ascending(positions)
    ensures Ascending(Late(positions, cp)) && forall p :: p in Late(positions, cp) <==> p in positions && p > cp + TOLERANCE
  {
    hide Late;
    LateAscends(positions, cp);
    forall p: nat ensures p in Late(positions, cp) <==> p in positions && p > cp + TOLERANCE { LateMembers(positions, cp, p); }
  }

  lemma {:induction false} LateSplit(a: seq<nat>, b: seq<nat>, cp: nat)
    ensures Late(a + b, cp) == Late(a, cp) + Late(b, cp)
  {
    if a == [] {
      assert a + b == b;
    } else {
      assert (a + b)[1..] == a[1..] + b;
      LateSplit(a[1..], b, cp);
    }
  }

  /** The lines the pass removes are definitions, in file order, strictly more than the tolerance below `cp`. */
  lemma MisplacedInRange(file: seq<Info>)
    ensures var f := Analyse(file);
      && CorrectPosition(f) <= |file| && Ascending(Misplaced(f))
      && forall p | p in Misplaced(f) ::
           p in f.loggers && CorrectPosition(f) + TOLERANCE < p < |file| && file[p].kind.Definition?
  {
    var f := Analyse(file);
    ScanStaysBefore(START, 0, file);
    LateIsFilter(f.loggers, CorrectPosition(f));
    forall p | p in Misplaced(f) ensures p < |file| && file[p].kind.Definition? {
      ScanRecordsDefinitions(START, 0, file, p);
    }
  }
}
