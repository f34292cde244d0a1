/** For which files repeated runs of the position pass come to an end, and when the second run changes nothing. */
module LoggerSettling {
  import opened LineEdits
  import opened LoggerScan
  import opened LoggerRewrite

  /** The blank lines at the insertion point. */
  function Gap(file: seq<Info>): nat { Blanks(TailLeft(file)) }

  /** The definitions recorded below the correct position. */
  function Below(file: seq<Info>): seq<nat> { Defs(TailOf(file), CorrectPosition(Analyse(file))) }

  /** Without its misplaced definitions nothing but blank lines stands below the correct position. */
  predicate Bare(file: seq<Info>) { Gap(file) == |TailLeft(file)| }

  lemma LateNotFirst(file: seq<Info>)
    requires NeedsFix(Analyse(file))
    ensures Late(Below(file), CorrectPosition(Analyse(file))) != []
  {
    hide ScanFrom, Without, Late, Defs;
    MisplacedIsTail(file);
  }

  // ---- nothing but blank lines below ----

  lemma BareGap(file: seq<Info>)
    requires NeedsFix(Analyse(file)) && Bare(file)
    ensures Gap(file) > TOLERANCE && Kept(Below(file), CorrectPosition(Analyse(file))) == []
  {
    hide ScanFrom, Without, Late, Defs, Kept, Blanks, TailLeft;
    GapIsBlanks(file);
    KeptStopsBlanks(file);
  }

  /** The second run takes the definition away from the end and puts it there again. */
  lemma BareAnalysis(file: seq<Info>) returns (line: Info)
    requires NeedsFix(Analyse(file)) && !Analyse(file).properLogger && Bare(file)
    ensures
      var g, cp, t := Analyse(Rewritten(file)), CorrectPosition(Analyse(file)), TailLeft(file);
      && cp <= |file| && Rewritten(file) == file[..cp] + t + [line]
      && NeedsFix(g) && !g.properLogger && CorrectPosition(g) == cp && Misplaced(g) == [cp + |t|]
  {
    hide ScanFrom, Without, Defs, Quiet, Kept, Blanks, TailLeft, Rewritten;
    var f, g, cp, t := Analyse(file), Analyse(Rewritten(file)), CorrectPosition(Analyse(file)), TailLeft(file);
    BareGap(file);
    line := RewrittenIsInsertion(file);
    assert t[..|t|] == t && t[|t|..] == [];
    assert Inserted(t, |t|, line, EMPTY) == t + [line];
    assert file[..cp] + (t + [line]) == file[..cp] + t + [line];
    var moved := InsertedAnalysis(file);
    assert moved == [cp + |t|];
    LateDecides(g, HeadScan(file).found.loggers, moved, f.lastImport);
  }

  lemma InsertedLast<T>(t: seq<T>, line: T, empty: T)
    ensures Inserted(t, |t|, line, empty) == t + [line]
  {
    assert t[..|t|] == t && t[|t|..] == [];
  }

  lemma BareTail(file: seq<Info>)
    requires NeedsFix(Analyse(file)) && !Analyse(file).properLogger && Bare(file)
    ensures TailLeft(Rewritten(file)) == TailLeft(file) && Bare(Rewritten(file))
  {
    hide ScanFrom, Late, Defs, Quiet, Kept, Blanks, Without, Rewritten;
    var cp, t, h := CorrectPosition(Analyse(file)), TailLeft(file), Rewritten(file);
    var line := BareAnalysis(file);
    assert TailOf(h) == t + [line] + [];
    assert AsSet(Misplaced(Analyse(h))) == {cp + |t|};
    DropOne(t, line, [], cp);
    assert t + [] == t;
  }

  lemma BareStays(file: seq<Info>)
    requires NeedsFix(Analyse(file)) && !Analyse(file).properLogger && Bare(file)
    ensures NeedsFix(Analyse(Rewritten(file))) && Rewritten(Rewritten(file)) == Rewritten(file)
    ensures TailLeft(Rewritten(file)) == TailLeft(file) && Bare(Rewritten(file))
  {
    hide ScanFrom, Late, Defs, Quiet, Kept, Blanks, Without, TailLeft, Rewritten;
    var cp, t, h := CorrectPosition(Analyse(file)), TailLeft(file), Rewritten(file);
    var line := BareAnalysis(file);
    BareTail(file);
    var again := RewrittenIsInsertion(h);
    InsertedLast(t, again, EMPTY);
    assert h[..cp] == file[..cp] && h[cp + |t|] == line;
    assert file[..cp] + (t + [line]) == file[..cp] + t + [line];
  }

  // ---- when the second run leaves the lines as they are ----

  lemma {:induction false} WithoutSome<T>(lines: seq<T>, drop: set<nat>, at: nat, p: nat)
    requires at <= p < at + |lines| && p in drop
    ensures |Without(lines, drop, at)| < |lines|
  {
    if p != at { WithoutSome(lines[1..], drop, at + 1, p); }
  }

  lemma RemovedIsShorter(file: seq<Info>)
    requires NeedsFix(Analyse(file))
    ensures |Removed(file)| < |file|
  {
    hide ScanFrom, Without;
    var m := Misplaced(Analyse(file));
    FirstMisplaced(file);
    assert m[0] in m;
    WithoutSome(file, AsSet(m), 0, m[0]);
  }

  lemma {:induction false} KeptAndLate(positions: seq<nat>, cp: nat)
    ensures |Kept(positions, cp)| + |Late(positions, cp)| == |positions|
  {
    if positions != [] { KeptAndLate(positions[1..], cp); }
  }

  /** The number of recorded definitions before and after an insertion. */
  lemma LoggersCounted(file: seq<Info>)
    requires NeedsFix(Analyse(file)) && !Analyse(file).properLogger
    ensures |Analyse(Rewritten(file)).loggers| + |Misplaced(Analyse(file))| == |Analyse(file).loggers| + 1
  {
    hide ScanFrom, Without, Late, Defs, Quiet, Kept, Blanks, TailLeft, Rewritten;
    TailIsQuiet(file);
    MisplacedIsTail(file);
    KeptAndLate(Below(file), CorrectPosition(Analyse(file)));
    var moved := InsertedAnalysis(file);
  }

  lemma OneRemoved(file: seq<Info>)
    requires NeedsFix(Analyse(file)) && |Misplaced(Analyse(file))| == 1
    ensures |Removed(file)| == |file| - 1
  {
    hide ScanFrom;
    var p := Misplaced(Analyse(file))[0];
    FirstMisplaced(file);
    assert AsSet(Misplaced(Analyse(file))) == {p};
    assert file == file[..p] + [file[p]] + file[p + 1..];
    DropOne(file[..p], file[p], file[p + 1..], 0);
  }

  lemma StaysMeansBare(file: seq<Info>)
    requires NeedsFix(Analyse(file)) && Rewritten(file) == file
    ensures !Analyse(file).properLogger && Bare(file)
  {
    hide ScanFrom, Without, Late, Defs, Quiet, Kept, Blanks, TailLeft;
    RemovedIsShorter(file);
    LoggersCounted(file);
    OneRemoved(file);
    RemovedIsHeadAndTail(file);
    FirstMisplaced(file);
    InsertedConserves(Removed(file), InsertAt(file), file[Misplaced(Analyse(file))[0]], EMPTY);
  }

  lemma BareBefore(file: seq<Info>)
    requires NeedsFix(Analyse(file)) && !Analyse(file).properLogger
    requires NeedsFix(Analyse(Rewritten(file))) && Bare(Rewritten(file))
    ensures Bare(file)
  {
    hide ScanFrom, Without, Late, Defs, Quiet, Kept, Blanks, TailLeft, Rewritten;
    var h := Rewritten(file);
    var cp, b := CorrectPosition(Analyse(file)), Gap(file);
    BareGap(h);
    var moved := InsertedAnalysis(file);
    var tail := RewrittenTail(file);
    KeptIsFilter(Below(h), cp);
    assert TailOf(h) == tail;
    assert cp + b in Below(h);
    assert b > TOLERANCE;
    GapIsBlanks(file);
    if !Bare(file) {
      DriftTail(file);
      OneMoreBlank(TailLeft(file));
    }
  }

  /**
   The second run leaves the lines as they are exactly when it reports no fix, or when without
   the misplaced definitions only blank lines stand below the imports and docstrings.
   */
  lemma SecondRunSameIff(file: seq<Info>)
    requires NeedsFix(Analyse(file))
    ensures Run(Rewritten(file)) == Rewritten(file) <==>
      !NeedsFix(Analyse(Rewritten(file))) || (!Analyse(file).properLogger && Bare(file))
  {
    hide ScanFrom, Without, Late, Defs, Quiet, Kept, Blanks, TailLeft, Rewritten, Bare;
    var h := Rewritten(file);
    if NeedsFix(Analyse(h)) {
      if Analyse(file).properLogger { RemovalSettles(file); }
      if !Analyse(file).properLogger && Bare(file) { BareStays(file); }
      if Rewritten(h) == h {
        StaysMeansBare(h);
        BareBefore(file);
      }
    }
  }

  // ---- the insertion point stays, and definitions move down two lines a run ----

  /** The definitions below the correct position `cp` after `n` runs that all insert behind `b` blank lines. */
  function Pushed(first: seq<nat>, cp: nat, b: nat, n: nat): seq<nat> {
    if n == 0 then first else [cp + b] + Shift(Kept(Pushed(first, cp, b, n - 1), cp), 2)
  }

  lemma ShiftMembers(s: seq<nat>, d: nat, y: nat)
    ensures y in Shift(s, d) <==> y >= d && y - d in s
  {
    if y >= d && y - d in s {
      var i :| 0 <= i < |s| && s[i] == y - d;
      assert Shift(s, d)[i] == y;
    }
  }

  /** A definition inserted by one of the runs, or one that was there before the first. */
  predicate Inserts(cp: nat, b: nat, n: nat, y: nat) { exists j: nat :: j < n && y == cp + b + 2 * j && (j == 0 || y <= cp + 22) }

  predicate Survives(kept: seq<nat>, cp: nat, n: nat, y: nat) { y >= 2 * n && y - 2 * n in kept && y <= cp + 22 }

  lemma {:induction false} PushedMembers(first: seq<nat>, cp: nat, b: nat, n: nat, y: nat)
    requires n > 0
    ensures y in Pushed(first, cp, b, n) <==> Inserts(cp, b, n, y) || Survives(Kept(first, cp), cp, n, y)
    decreases n
  {
    hide Kept, Shift;
    var before := Pushed(first, cp, b, n - 1);
    KeptIsFilter(before, cp);
    KeptIsFilter(first, cp);
    ShiftMembers(Kept(before, cp), 2, y);
    assert y in Pushed(first, cp, b, n) <==> y == cp + b || y in Shift(Kept(before, cp), 2);
    if y == cp + b { assert 0 < n && y == cp + b + 2 * 0; }
    if n == 1 {
      assert Pushed(first, cp, b, 0) == first;
    } else if y >= 2 {
      PushedMembers(first, cp, b, n - 1, y - 2);
      if y <= cp + 22 { InsertsStep(cp, b, n, y); }
    }
  }

  lemma InsertsStep(cp: nat, b: nat, n: nat, y: nat)
    requires n > 1 && 2 <= y <= cp + 22
    ensures Inserts(cp, b, n, y) <==> y == cp + b || Inserts(cp, b, n - 1, y - 2)
  {
    if y == cp + b { assert 0 < n && y == cp + b + 2 * 0; }
    if j: nat :| j < n && y == cp + b + 2 * j && (j == 0 || y <= cp + 22) {
      if j > 0 { assert j - 1 < n - 1 && y - 2 == cp + b + 2 * (j - 1); }
    }
    if j: nat :| j < n - 1 && y - 2 == cp + b + 2 * j && (j == 0 || y - 2 <= cp + 22) {
      assert j + 1 < n && y == cp + b + 2 * (j + 1);
    }
  }

  /** A definition stands where `n` runs push it just out of the tolerance. */
  predicate Hit(kept: seq<nat>, cp: nat, n: nat) { exists p | p in kept :: p + 2 * n == cp + 21 || p + 2 * n == cp + 22 }

  /** After that many runs the definition inserted first is pushed out as well. */
  function Cycle(b: nat): nat
    requires b <= TOLERANCE
  {
    (22 - b) / 2
  }

  /** After `n` runs some definition is late exactly when one of the old ones is just pushed out, or the first inserted one was. */
  lemma PushedLateIff(first: seq<nat>, cp: nat, b: nat, n: nat)
    requires n > 0 && b <= TOLERANCE
    ensures Late(Pushed(first, cp, b, n), cp) != [] <==> Hit(Kept(first, cp), cp, n) || n > Cycle(b)
  {
    hide Late, Pushed, Kept;
    var now, kept := Pushed(first, cp, b, n), Kept(first, cp);
    LateNonEmpty(now, cp);
    KeptIsFilter(first, cp);
    if i :| 0 <= i < |now| && now[i] > cp + TOLERANCE {
      var y := now[i];
      PushedMembers(first, cp, b, n, y);
      if Survives(kept, cp, n, y) { assert y - 2 * n in kept; }
      if j: nat :| j < n && y == cp + b + 2 * j && (j == 0 || y <= cp + 22) { assert j == Cycle(b); }
    }
    if Hit(kept, cp, n) {
      var p :| p in kept && (p + 2 * n == cp + 21 || p + 2 * n == cp + 22);
      LateMember(first, cp, b, n, p + 2 * n);
    }
    if n > Cycle(b) {
      var j := Cycle(b);
      assert j < n && cp + b + 2 * j <= cp + 22;
      assert Inserts(cp, b, n, cp + b + 2 * j);
      LateMember(first, cp, b, n, cp + b + 2 * j);
    }
  }

  lemma LateMember(first: seq<nat>, cp: nat, b: nat, n: nat, y: nat)
    requires n > 0 && y > cp + TOLERANCE && (Inserts(cp, b, n, y) || Survives(Kept(first, cp), cp, n, y))
    ensures exists i :: 0 <= i < |Pushed(first, cp, b, n)| && Pushed(first, cp, b, n)[i] > cp + TOLERANCE
  {
    hide Pushed, Kept, Inserts, Survives;
    PushedMembers(first, cp, b, n, y);
    var i :| 0 <= i < |Pushed(first, cp, b, n)| && Pushed(first, cp, b, n)[i] == y;
  }

  // ---- runs of the pass ----

  /** What every run keeps while the insertion point stays within the tolerance and away from the imports. */
  predicate Follows(file: seq<Info>, cp: nat, lastImport: nat, b: nat, below: seq<nat>) {
    var f := Analyse(file);
    && CorrectPosition(f) == cp && f.lastImport == lastImport && f.hasLoggingImport && !f.properLogger
    && Gap(file) == b && Below(file) == below
    && (NeedsFix(f) <==> Late(below, cp) != [])
  }

  lemma {:induction false} NotNear(positions: seq<nat>, cp: nat, first: nat, bound: nat)
    requires !Near(positions, bound) && bound < first
    ensures !Near([first] + Shift(Kept(positions, cp), 2), bound)
  {
    hide Kept;
    var kept := Kept(positions, cp);
    KeptIsFilter(positions, cp);
    NearCons(first, Shift(kept, 2), bound);
    forall i | 0 <= i < |kept| ensures Shift(kept, 2)[i] > bound {
      assert kept[i] in kept;
      var j :| 0 <= j < |positions| && positions[j] == kept[i];
    }
  }

  lemma BelowNotNear(file: seq<Info>)
    requires !Analyse(file).properLogger
    ensures !Near(Below(file), Analyse(file).lastImport + 10)
  {
    hide ScanFrom, Defs, Quiet, Near;
    TailIsQuiet(file);
  }

  /** Within the tolerance the next insertion is behind the same blank lines. */
  lemma GapStays(file: seq<Info>)
    requires NeedsFix(Analyse(file)) && !Analyse(file).properLogger && Gap(file) <= TOLERANCE
    ensures Gap(Rewritten(file)) == Gap(file)
  {
    hide ScanFrom, Without, Late, Defs, Quiet, Kept, Blanks, TailLeft, Rewritten, Removed;
    var cp, b, t, h := CorrectPosition(Analyse(file)), Gap(file), TailLeft(file), Rewritten(file);
    GapIsBlanks(file);
    var line := RewrittenIsInsertion(file);
    var moved := InsertedAnalysis(file);
    RemovedIsHeadAndTail(h);
    RemovedKeepsHead(h, cp + b + 1);
    var left := TailLeft(h);
    forall i: nat | i <= b ensures i < |left| && left[i] == if i < b then t[i] else line {
      assert Removed(h)[..cp + b + 1][cp + i] == h[cp + i];
    }
    BlanksAre(left, b);
  }

  lemma OneRun(file: seq<Info>, cp: nat, lastImport: nat, b: nat, below: seq<nat>)
    requires Follows(file, cp, lastImport, b, below) && NeedsFix(Analyse(file)) && b <= TOLERANCE && lastImport + 10 < cp + b
    ensures Follows(Rewritten(file), cp, lastImport, b, [cp + b] + Shift(Kept(below, cp), 2))
  {
    hide ScanFrom, Without, Late, Defs, Quiet, Kept, Blanks, TailLeft, Rewritten, Near;
    GapIsBlanks(file);
    GapStays(file);
    var moved := InsertedAnalysis(file);
    var tail := RewrittenTail(file);
    assert TailOf(Rewritten(file)) == tail && Below(Rewritten(file)) == moved;
    BelowNotNear(file);
    NotNear(below, cp, cp + b, lastImport + 10);
    LateDecides(Analyse(Rewritten(file)), HeadScan(file).found.loggers, moved, lastImport);
  }

  lemma FollowsAtFirst(file: seq<Info>)
    requires NeedsFix(Analyse(file)) && !Analyse(file).properLogger
    ensures Follows(file, CorrectPosition(Analyse(file)), Analyse(file).lastImport, Gap(file), Below(file))
  {
    LateNotFirst(file);
  }

  predicate Pushes(file: seq<Info>) {
    var f := Analyse(file);
    NeedsFix(f) && !f.properLogger && Gap(file) <= TOLERANCE && f.lastImport + 10 < CorrectPosition(f) + Gap(file)
  }

  lemma {:induction false} RunsFollow(file: seq<Info>, n: nat)
    requires Pushes(file) && forall m: nat | m < n :: NeedsFix(Analyse(Runs(file, m)))
    ensures
      var cp, b := CorrectPosition(Analyse(file)), Gap(file);
      Follows(Runs(file, n), cp, Analyse(file).lastImport, b, Pushed(Below(file), cp, b, n))
    decreases n
  {
    hide Follows, Analyse, Rewritten, Gap, Below, Shift, Kept, NeedsFix;
    var cp, b := CorrectPosition(Analyse(file)), Gap(file);
    if n == 0 {
      FollowsAtFirst(file);
    } else {
      RunsFollow(file, n - 1);
      assert NeedsFix(Analyse(Runs(file, n - 1)));
      OneRun(Runs(file, n - 1), cp, Analyse(file).lastImport, b, Pushed(Below(file), cp, b, n - 1));
    }
  }

  /** A recorded definition below the correct position that `n` runs push just out of the tolerance. */
  predicate PushedOutAt(file: seq<Info>, n: nat) {
    var f := Analyse(file);
    exists p | p in f.loggers :: p >= CorrectPosition(f) && (p + 2 * n == CorrectPosition(f) + 21 || p + 2 * n == CorrectPosition(f) + 22)
  }

  lemma HitIff(file: seq<Info>, n: nat)
    requires n > 0
    ensures var cp := CorrectPosition(Analyse(file)); Hit(Kept(Below(file), cp), cp, n) <==> PushedOutAt(file, n)
  {
    hide Analyse, Kept, Below;
    var cp := CorrectPosition(Analyse(file));
    forall p: nat ensures p in Kept(Below(file), cp) <==> p in Analyse(file).loggers && cp <= p <= cp + TOLERANCE { KeptBelow(file, p); }
  }

  lemma KeptBelow(file: seq<Info>, p: nat)
    ensures var cp := CorrectPosition(Analyse(file));
      p in Kept(Below(file), cp) <==> p in Analyse(file).loggers && cp <= p <= cp + TOLERANCE
  {
    hide Analyse, Kept, Defs;
    KeptInTail(file, p);
  }

  lemma NextRunIff(file: seq<Info>, n: nat)
    requires n > 0 && Pushes(file) && forall m: nat | m < n :: NeedsFix(Analyse(Runs(file, m)))
    ensures NeedsFix(Analyse(Runs(file, n))) <==> PushedOutAt(file, n) || n > Cycle(Gap(file))
  {
    var cp, b := CorrectPosition(Analyse(file)), Gap(file);
    RunsFollow(file, n);
    hide Analyse, Rewritten, Below, Shift, Kept, NeedsFix, Late, Pushed, Hit, PushedOutAt, Gap, Runs;
    PushedLateIff(Below(file), cp, b, n);
    HitIff(file, n);
  }

  lemma {:induction false} PushesOn(file: seq<Info>, n: nat)
    requires Pushes(file) && forall m: nat | 1 <= m <= Cycle(Gap(file)) :: PushedOutAt(file, m)
    ensures forall m: nat | m <= n :: NeedsFix(Analyse(Runs(file, m)))
    decreases n
  {
    hide Analyse, Rewritten, NeedsFix, PushedOutAt, Gap, Cycle;
    if n == 0 {
      PushesNeeds(file);
    } else {
      PushesOn(file, n - 1);
      NextRunIff(file, n);
      assert n <= Cycle(Gap(file)) ==> PushedOutAt(file, n);
    }
  }

  lemma PushesNeeds(file: seq<Info>)
    requires Pushes(file)
    ensures NeedsFix(Analyse(Runs(file, 0)))
  {
  }

  /** Every run of the first cycle finds a definition to push out. */
  ghost predicate CyclePushes(file: seq<Info>)
    requires Gap(file) <= TOLERANCE
  {
    forall n: nat | 1 <= n <= Cycle(Gap(file)) :: PushedOutAt(file, n)
  }

  ghost predicate NeverStops(file: seq<Info>) { forall n: nat :: NeedsFix(Analyse(Runs(file, n))) }

  lemma CycleGoesOn(file: seq<Info>)
    requires Pushes(file) && CyclePushes(file)
    ensures NeverStops(file)
  {
    hide Analyse, Rewritten, NeedsFix, PushedOutAt, Gap, Cycle, Runs;
    forall n: nat ensures NeedsFix(Analyse(Runs(file, n))) { PushesOn(file, n); }
  }

  lemma NeverStopsCycles(file: seq<Info>)
    requires Pushes(file) && NeverStops(file)
    ensures CyclePushes(file)
  {
    hide Analyse, Rewritten, NeedsFix, PushedOutAt, Gap, Cycle, Runs;
    forall n: nat | 1 <= n <= Cycle(Gap(file)) ensures PushedOutAt(file, n) { NextRunIff(file, n); }
  }

  // ---- the other files ----

  lemma {:induction false} BareForEver(file: seq<Info>, n: nat)
    requires NeedsFix(Analyse(file)) && !Analyse(file).properLogger && Bare(file)
    ensures NeedsFix(Analyse(Runs(file, n))) && Runs(file, n + 1) == Rewritten(file)
    decreases n
  {
    hide Rewritten, Bare;
    BareStays(file);
    if n > 0 { BareForEver(file, n - 1); }
  }

  /** With the insertion next to the imports the second run only removes, and the third finds nothing. */
  lemma StopsNearImports(file: seq<Info>)
    requires NeedsFix(Analyse(file)) && !Analyse(file).properLogger
    requires CorrectPosition(Analyse(file)) + Gap(file) <= Analyse(file).lastImport + 10
    ensures !NeedsFix(Analyse(Runs(file, 2)))
  {
    hide ScanFrom, Without, Late, Defs, Quiet, Kept, Blanks, TailLeft, Rewritten;
    var h := Rewritten(file);
    var moved := InsertedAnalysis(file);
    assert moved[0] <= Analyse(file).lastImport + 10;
    TwoRuns(file);
    if NeedsFix(Analyse(h)) { RemovalSettles(h); }
  }

  lemma TwoRuns(file: seq<Info>)
    ensures Runs(file, 1) == Run(file) && Runs(file, 2) == Run(Run(file))
  {
    hide Run;
    assert Runs(file, 0) == file;
  }

  lemma GapTooLarge(file: seq<Info>, n: nat)
    requires NeedsFix(Analyse(file)) && !Analyse(file).properLogger && Gap(file) > TOLERANCE
    ensures NeedsFix(Analyse(Runs(file, n)))
  {
    GapIsBlanks(file);
    hide Analyse, Rewritten, NeedsFix, Runs, TailLeft, Blanks;
    if Bare(file) { BareForEver(file, n); } else { NeverSettles(file, n); }
  }

  /**
   Every run reports a fix, for ever, exactly when no definition counts as a proper one and either
   more blank lines than the tolerance stand at the insertion point, or the insertion is more
   than ten lines below the last import and each run of the first cycle finds a definition to push out.
   */
  lemma NeverStopsIff(file: seq<Info>)
    requires NeedsFix(Analyse(file))
    ensures NeverStops(file) <==>
      var f := Analyse(file);
      && !f.properLogger
      && (|| Gap(file) > TOLERANCE
          || (f.lastImport + 10 < CorrectPosition(f) + Gap(file) && CyclePushes(file)))
  {
    hide Analyse, Rewritten, NeedsFix, PushedOutAt, Gap, Cycle, Runs, CorrectPosition, CyclePushes;
    TwoRuns(file);
    if Analyse(file).properLogger {
      RemovalSettles(file);
      assert !NeedsFix(Analyse(Runs(file, 1)));
    } else if Gap(file) > TOLERANCE {
      forall n: nat ensures NeedsFix(Analyse(Runs(file, n))) { GapTooLarge(file, n); }
    } else if Analyse(file).lastImport + 10 < CorrectPosition(Analyse(file)) + Gap(file) {
      if CyclePushes(file) { CycleGoesOn(file); }
      if NeverStops(file) { NeverStopsCycles(file); }
    } else {
      StopsNearImports(file);
      assert !NeedsFix(Analyse(Runs(file, 2)));
    }
  }

  // ---- how soon the runs of the other files stop ----

  /** The number of runs after which a file that is ever finished is finished. */
  function LastRun(file: seq<Info>): nat {
    var f := Analyse(file);
    if f.properLogger then 1
    else if Gap(file) > TOLERANCE || CorrectPosition(f) + Gap(file) <= f.lastImport + 10 then 2
    else Cycle(Gap(file))
  }

  lemma {:induction false} StoppedStays(file: seq<Info>, n: nat, m: nat)
    requires n <= m && !NeedsFix(Analyse(Runs(file, n)))
    ensures Runs(file, m) == Runs(file, n)
    decreases m
  {
    hide Analyse, NeedsFix, Rewritten;
    if n < m { StoppedStays(file, n, m - 1); }
  }

  lemma CycleStops(file: seq<Info>)
    requires Pushes(file) && !CyclePushes(file)
    ensures !NeedsFix(Analyse(Runs(file, Cycle(Gap(file)))))
  {
    hide Analyse, Rewritten, NeedsFix, PushedOutAt, Gap, Cycle, Runs;
    var last := Cycle(Gap(file));
    var n: nat :| 1 <= n <= last && !PushedOutAt(file, n);
    if m: nat :| m < n && !NeedsFix(Analyse(Runs(file, m))) {
      StoppedStays(file, m, last);
    } else {
      NextRunIff(file, n);
      StoppedStays(file, n, last);
    }
  }

  /** A file that is ever finished is finished after that many runs, at most eleven. */
  lemma StopsByLastRun(file: seq<Info>)
    requires NeedsFix(Analyse(file)) && !NeverStops(file)
    ensures LastRun(file) <= 11 && !NeedsFix(Analyse(Runs(file, LastRun(file))))
  {
    NeverStopsIff(file);
    LastRunSmall(file);
    hide Analyse, Rewritten, NeedsFix, PushedOutAt, Gap, Cycle, Runs, CorrectPosition, CyclePushes, NeverStops;
    if Analyse(file).properLogger {
      RemovalSettles(file);
      TwoRuns(file);
    } else if Analyse(file).lastImport + 10 < CorrectPosition(Analyse(file)) + Gap(file) {
      CycleStops(file);
    } else {
      StopsNearImports(file);
    }
  }

  lemma LastRunSmall(file: seq<Info>)
    ensures LastRun(file) <= 11
  {
    hide Analyse, Gap, CorrectPosition;
  }

  /** So eleven runs decide whether a file is ever finished. */
  lemma ElevenRunsDecide(file: seq<Info>)
    ensures NeverStops(file) <==> NeedsFix(Analyse(Runs(file, 11)))
  {
    hide Analyse, Rewritten, NeedsFix, LastRun;
    if !NeedsFix(Analyse(Runs(file, 0))) {
      StoppedStays(file, 0, 11);
    } else if !NeverStops(file) {
      StopsByLastRun(file);
      StoppedStays(file, LastRun(file), 11);
    }
  }
}
