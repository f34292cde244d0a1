/** Whole streams of chunks: when the status board never steps back, and what a repeated state does to the display. */
module StreamTheorems {
  import opened Wrappers
  import opened DisplayBuffer
  import opened StreamReducer
  import opened ChunkHandler

  function Rank(s: Status): nat {
    match s
    case Pending => 0
    case InProgress => 1
    case Completed => 2
  }

  /** The status of one agent at the end of a stream. */
  function RunStatus(a: Agent, initial: Status, chunks: seq<Chunk>, selected: set<Agent>): Status {
    if chunks == [] then initial
    else ChunkStatus(a, RunStatus(a, initial, chunks[..|chunks| - 1], selected), chunks[|chunks| - 1], selected)
  }

  /** A section, all messages and all tool calls at the end of a stream. */
  function RunSection(s: Section, initial: Option<string>, chunks: seq<Chunk>): Option<string> {
    if chunks == [] then initial
    else ChunkSection(s, chunks[|chunks| - 1], RunSection(s, initial, chunks[..|chunks| - 1]))
  }

  function RunMessages(chunks: seq<Chunk>): seq<Message> {
    if chunks == [] then [] else RunMessages(chunks[..|chunks| - 1]) + ChunkMessages(chunks[|chunks| - 1])
  }

  function RunCalls(chunks: seq<Chunk>): seq<Message> {
    if chunks == [] then [] else RunCalls(chunks[..|chunks| - 1]) + ChunkCalls(chunks[|chunks| - 1])
  }

  ghost predicate StatusesRun(before: Statuses, chunks: seq<Chunk>, selected: set<Agent>, after: Statuses) {
    after.Keys == before.Keys && forall a | a in before :: after[a] == RunStatus(a, before[a], chunks, selected)
  }

  ghost predicate SectionsRun(before: Sections, chunks: seq<Chunk>, after: Sections) {
    after.Keys == before.Keys && forall s | s in before :: after[s] == RunSection(s, before[s], chunks)
  }

  /** One more chunk, for everything the loop keeps. */
  lemma RunSnoc(chunks: seq<Chunk>, c: Chunk, selected: set<Agent>)
    ensures forall before, now, after ::
      StatusesRun(before, chunks, selected, now) && StatusesFollow(now, c, selected, after) ==>
        StatusesRun(before, chunks + [c], selected, after)
    ensures forall before, now, after ::
      SectionsRun(before, chunks, now) && SectionsFollow(now, c, after) ==> SectionsRun(before, chunks + [c], after)
    ensures RunMessages(chunks + [c]) == RunMessages(chunks) + ChunkMessages(c)
    ensures RunCalls(chunks + [c]) == RunCalls(chunks) + ChunkCalls(c)
  {
    hide ChunkStatus, ChunkSection, ChunkMessages, ChunkCalls;
    assert (chunks + [c])[..|chunks|] == chunks;
  }

  lemma RunOfNothing(statuses: Statuses, sections: Sections, selected: set<Agent>)
    ensures StatusesRun(statuses, [], selected, statuses) && SectionsRun(sections, [], sections)
    ensures RunMessages([]) == [] && RunCalls([]) == []
  {
  }

  /** The loop over the stream leaves agents, sections, messages and tool calls where the tables, chunk after chunk, say. */
  method HandleStream(buffer: MessageBuffer, chunks: seq<Chunk>, selected: set<Agent>)
    requires buffer.Valid()
    modifies buffer
    ensures buffer.Valid()
    ensures StatusesRun(old(buffer.agentStatus), chunks, selected, buffer.agentStatus)
    ensures SectionsRun(old(buffer.reportSections), chunks, buffer.reportSections)
    ensures buffer.allMessages == old(buffer.allMessages) + RunMessages(chunks)
    ensures buffer.allToolCalls == old(buffer.allToolCalls) + RunCalls(chunks)
  {
    hide buffer.Valid, StatusesRun, SectionsRun, RunMessages, RunCalls, StatusesFollow, SectionsFollow;
    hide ChunkUpdates, ChunkMessages, ChunkCalls;
    RunOfNothing(buffer.agentStatus, buffer.reportSections, selected);
    for n := 0 to |chunks|
      invariant buffer.Valid()
      invariant StatusesRun(old(buffer.agentStatus), chunks[..n], selected, buffer.agentStatus)
      invariant SectionsRun(old(buffer.reportSections), chunks[..n], buffer.reportSections)
      invariant buffer.allMessages == old(buffer.allMessages) + RunMessages(chunks[..n])
      invariant buffer.allToolCalls == old(buffer.allToolCalls) + RunCalls(chunks[..n])
    {
      RunSnoc(chunks[..n], chunks[n], selected);
      assert chunks[..n + 1] == chunks[..n] + [chunks[n]];
      HandleChunk(buffer, chunks[n], selected);
    }
    assert chunks[..|chunks|] == chunks;
  }

  // ---- steps back ----

  function StatusAt(a: Agent, initial: Status, chunks: seq<Chunk>, n: nat, selected: set<Agent>): Status
    requires n <= |chunks|
  {
    RunStatus(a, initial, chunks[..n], selected)
  }

  /** The rank at the end of each chunk is no lower than at the end of the one before. */
  ghost predicate NeverDrops(a: Agent, initial: Status, chunks: seq<Chunk>, selected: set<Agent>) {
    forall n | 0 <= n < |chunks| ::
      Rank(StatusAt(a, initial, chunks, n, selected)) <= Rank(StatusAt(a, initial, chunks, n + 1, selected))
  }

  /** Chunk `n` of the stream has messages and completes the agent. */
  predicate FinishesAt(a: Agent, chunks: seq<Chunk>, n: nat)
    requires n < |chunks|
  {
    chunks[n].last.Some? && Finishes(a, chunks[n])
  }

  /** Chunk `n` has messages and puts the agent to work without completing it. */
  predicate ReopensAt(a: Agent, chunks: seq<Chunk>, n: nat, selected: set<Agent>)
    requires n < |chunks|
  {
    chunks[n].last.Some? && Starts(a, chunks[n], selected) && !Finishes(a, chunks[n])
  }

  lemma StatusStep(a: Agent, initial: Status, chunks: seq<Chunk>, n: nat, selected: set<Agent>)
    requires n < |chunks|
    ensures StatusAt(a, initial, chunks, n + 1, selected) ==
      if FinishesAt(a, chunks, n) then Completed
      else if ReopensAt(a, chunks, n, selected) then InProgress
      else StatusAt(a, initial, chunks, n, selected)
  {
    hide Finishes, Starts;
    assert chunks[..n + 1][..n] == chunks[..n];
  }

  /** An agent not completed at the start is completed only by a chunk that finishes it. */
  lemma {:induction false} CompletedWasFinished(a: Agent, initial: Status, chunks: seq<Chunk>, n: nat, selected: set<Agent>)
      returns (i: nat)
    requires n <= |chunks| && initial != Completed && StatusAt(a, initial, chunks, n, selected) == Completed
    ensures i < n && FinishesAt(a, chunks, i)
  {
    hide Finishes, Starts;
    StatusStep(a, initial, chunks, n - 1, selected);
    if FinishesAt(a, chunks, n - 1) {
      i := n - 1;
    } else {
      i := CompletedWasFinished(a, initial, chunks, n - 1, selected);
    }
  }

  /** Once finished, an agent stays completed until a chunk reopens it. */
  lemma {:induction false} StaysFinished(a: Agent, initial: Status, chunks: seq<Chunk>, i: nat, n: nat, selected: set<Agent>)
    requires i < n <= |chunks| && FinishesAt(a, chunks, i)
    requires forall j | i < j < n :: !ReopensAt(a, chunks, j, selected)
    ensures StatusAt(a, initial, chunks, n, selected) == Completed
    decreases n
  {
    hide Finishes, Starts;
    StatusStep(a, initial, chunks, n - 1, selected);
    if i < n - 1 {
      assert !ReopensAt(a, chunks, n - 1, selected);
      StaysFinished(a, initial, chunks, i, n - 1, selected);
    }
  }

  /** The agent is never reopened after a chunk that finished it. */
  ghost predicate NoReopening(a: Agent, chunks: seq<Chunk>, selected: set<Agent>) {
    forall i, j | 0 <= i < j < |chunks| && FinishesAt(a, chunks, i) :: !ReopensAt(a, chunks, j, selected)
  }

  /** The board never steps back exactly for the streams in which no finished agent is reopened. */
  lemma NeverDropsIff(a: Agent, initial: Status, chunks: seq<Chunk>, selected: set<Agent>)
    requires initial != Completed
    ensures NeverDrops(a, initial, chunks, selected) <==> NoReopening(a, chunks, selected)
  {
    hide Finishes, Starts, StatusAt;
    if NoReopening(a, chunks, selected) {
      forall n | 0 <= n < |chunks|
        ensures Rank(StatusAt(a, initial, chunks, n, selected)) <= Rank(StatusAt(a, initial, chunks, n + 1, selected))
      {
        NoDropAt(a, initial, chunks, n, selected);
      }
    }
    if !NoReopening(a, chunks, selected) {
      var i, j :| 0 <= i < j < |chunks| && FinishesAt(a, chunks, i) && ReopensAt(a, chunks, j, selected);
      var k := FirstDrop(a, initial, chunks, i, j, selected);
      assert Rank(StatusAt(a, initial, chunks, k, selected)) > Rank(StatusAt(a, initial, chunks, k + 1, selected));
    }
  }

  lemma NoDropAt(a: Agent, initial: Status, chunks: seq<Chunk>, n: nat, selected: set<Agent>)
    requires n < |chunks| && initial != Completed && NoReopening(a, chunks, selected)
    ensures Rank(StatusAt(a, initial, chunks, n, selected)) <= Rank(StatusAt(a, initial, chunks, n + 1, selected))
  {
    hide Finishes, Starts, StatusAt;
    StatusStep(a, initial, chunks, n, selected);
    if StatusAt(a, initial, chunks, n, selected) == Completed {
      var i := CompletedWasFinished(a, initial, chunks, n, selected);
      assert !ReopensAt(a, chunks, n, selected);
    }
  }

  lemma {:induction false} FirstDrop(a: Agent, initial: Status, chunks: seq<Chunk>, i: nat, j: nat, selected: set<Agent>) returns (k: nat)
    requires i < j < |chunks| && FinishesAt(a, chunks, i) && ReopensAt(a, chunks, j, selected)
    ensures k < |chunks|
    ensures StatusAt(a, initial, chunks, k, selected) == Completed && StatusAt(a, initial, chunks, k + 1, selected) == InProgress
    decreases j
  {
    hide Finishes, Starts, StatusAt;
    if m :| i < m < j && ReopensAt(a, chunks, m, selected) {
      k := FirstDrop(a, initial, chunks, i, m, selected);
    } else {
      StaysFinished(a, initial, chunks, i, j, selected);
      StatusStep(a, initial, chunks, j, selected);
      FinishesExcludes(a, chunks, j, selected);
      k := j;
    }
  }

  lemma FinishesExcludes(a: Agent, chunks: seq<Chunk>, n: nat, selected: set<Agent>)
    requires n < |chunks|
    ensures ReopensAt(a, chunks, n, selected) ==> !FinishesAt(a, chunks, n)
  {
    hide Finishes, Starts;
  }

  /** The fields whose text completes an agent, once present, stay present. */
  ghost predicate FieldsPersist(chunks: seq<Chunk>) {
    forall i, j | 0 <= i < j < |chunks| :: Carries(chunks[i], chunks[j])
  }

  predicate Carries(c: Chunk, d: Chunk) {
    && (c.sentiment != "" ==> d.sentiment != "")
    && (c.news != "" ==> d.news != "")
    && (c.fundamentals != "" ==> d.fundamentals != "")
    && (c.judge != "" ==> d.judge != "")
    && (c.verdict != "" ==> d.verdict != "")
  }

  /** With persistent fields no agent of the board ever steps back from one chunk end to the next. */
  lemma PersistentNeverDrops(a: Agent, initial: Status, chunks: seq<Chunk>, selected: set<Agent>)
    requires initial != Completed && FieldsPersist(chunks)
    ensures NeverDrops(a, initial, chunks, selected)
  {
    hide NeverDrops;
    forall i, j | 0 <= i < j < |chunks| && FinishesAt(a, chunks, i) ensures !ReopensAt(a, chunks, j, selected) {
      assert Carries(chunks[i], chunks[j]);
      CarriedFinish(a, chunks[i], chunks[j], selected);
    }
    NeverDropsIff(a, initial, chunks, selected);
  }

  lemma CarriedFinish(a: Agent, c: Chunk, d: Chunk, selected: set<Agent>)
    requires Carries(c, d) && Finishes(a, c)
    ensures !(Starts(a, d, selected) && !Finishes(a, d))
  {
  }

  /** With persistent fields, an agent finished by some chunk is completed at the end of the stream. */
  lemma FinishedStaysCompleted(a: Agent, initial: Status, chunks: seq<Chunk>, i: nat, selected: set<Agent>)
    requires i < |chunks| && FinishesAt(a, chunks, i) && FieldsPersist(chunks)
    ensures RunStatus(a, initial, chunks, selected) == Completed
  {
    forall j | i < j < |chunks| ensures !ReopensAt(a, chunks, j, selected) {
      assert Carries(chunks[i], chunks[j]);
      CarriedFinish(a, chunks[i], chunks[j], selected);
    }
    StaysFinished(a, initial, chunks, i, |chunks|, selected);
    assert chunks[..|chunks|] == chunks;
  }

  const SILENT: Chunk := Chunk(Some(LastMessage("Reasoning", "", [])), "", "", "", "", "", "", "", "", "", "", "", "")

  /** Without persistence it does: a market report alone reopens the social analyst whose report has gone. */
  lemma ReportGoneReopens(report: string)
    requires report != ""
    ensures !NeverDrops(SocialAnalyst, Pending, [SILENT.(sentiment := report), SILENT.(market := report)], {SocialAnalyst})
  {
    var chunks := [SILENT.(sentiment := report), SILENT.(market := report)];
    assert FinishesAt(SocialAnalyst, chunks, 0) && ReopensAt(SocialAnalyst, chunks, 1, {SocialAnalyst});
    NeverDropsIff(SocialAnalyst, Pending, chunks, {SocialAnalyst});
  }

  // ---- steps back inside a chunk ----

  /** Some update of the chunk puts the agent to work, whether or not a later one completes it. */
  predicate StartedInside(a: Agent, c: Chunk, selected: set<Agent>) {
    || Starts(a, c, selected)
    || (Researcher(a) && c.judge != "")
    || (a.PortfolioManager? && c.verdict != "")
  }

  lemma StartedInsideIff(a: Agent, c: Chunk, selected: set<Agent>)
    requires c.last.Some? && Known(a)
    ensures (a, InProgress) in ChunkUpdates(c, selected) <==> StartedInside(a, c, selected)
    ensures (a, Pending) !in ChunkUpdates(c, selected)
  {
    hide Starts, StartedInside, Known;
    hide AnalystUpdates, ResearchUpdates, RiskUpdates, TraderUpdates;
    UpdatesOfAnalysts(a, c, selected);
    UpdatesOfResearch(a, c);
    UpdatesOfRisk(a, c);
    StartedBy(a, c, selected);
  }

  lemma StartedBy(a: Agent, c: Chunk, selected: set<Agent>)
    requires Known(a)
    ensures StartedInside(a, c, selected) <==>
      || (a.SocialAnalyst? && c.market != "" && a in selected)
      || (a.NewsAnalyst? && c.sentiment != "" && a in selected)
      || (a.FundamentalsAnalyst? && c.news != "" && a in selected)
      || (Researcher(a) && (c.fundamentals != "" || c.bull != "" || c.bear != "" || c.judge != ""))
      || (a.RiskyAnalyst? && (c.judge != "" || c.trader != "" || c.risky != ""))
      || (a.SafeAnalyst? && c.safe != "")
      || (a.NeutralAnalyst? && c.neutral != "")
      || (a.PortfolioManager? && c.verdict != "")
  {
  }

  lemma UpdatesOfAnalysts(a: Agent, c: Chunk, selected: set<Agent>)
    ensures (a, InProgress) in AnalystUpdates(c, selected) <==>
      || (a.SocialAnalyst? && c.market != "" && a in selected)
      || (a.NewsAnalyst? && c.sentiment != "" && a in selected)
      || (a.FundamentalsAnalyst? && c.news != "" && a in selected)
      || (Researcher(a) && c.fundamentals != "")
    ensures (a, Pending) !in AnalystUpdates(c, selected)
  {
    hide Report, Next, Team;
    InReport(a, c.market, MarketAnalyst, Next(selected, SocialAnalyst));
    InReport(a, c.sentiment, SocialAnalyst, Next(selected, NewsAnalyst));
    InReport(a, c.news, NewsAnalyst, Next(selected, FundamentalsAnalyst));
    InReport(a, c.fundamentals, FundamentalsAnalyst, Team(InProgress));
    InNext(a, selected, SocialAnalyst);
    InNext(a, selected, NewsAnalyst);
    InNext(a, selected, FundamentalsAnalyst);
    InTeam(a, InProgress);
  }

  lemma InReport(a: Agent, text: string, own: Agent, next: Updates)
    ensures (a, InProgress) in Report(text, own, next) <==> text != "" && (a, InProgress) in next
    ensures (a, Pending) in Report(text, own, next) <==> text != "" && (a, Pending) in next
  {
  }

  lemma InNext(a: Agent, selected: set<Agent>, next: Agent)
    ensures (a, InProgress) in Next(selected, next) <==> a == next && next in selected
    ensures (a, Pending) !in Next(selected, next)
  {
    assert next in selected ==> Next(selected, next)[0] == (next, InProgress);
  }

  lemma InTeam(a: Agent, status: Status)
    ensures forall s :: (a, s) in Team(status) <==> s == status && Researcher(a)
  {
    var t := Team(status);
    assert t[0] == (BullResearcher, status) && t[1] == (BearResearcher, status) && t[2] == (ResearchManager, status)
      && t[3] == (Trader, status);
  }

  lemma UpdatesOfResearch(a: Agent, c: Chunk)
    ensures (a, InProgress) in ResearchUpdates(c) + TraderUpdates(c) <==>
      || (Researcher(a) && (c.bull != "" || c.bear != "" || c.judge != ""))
      || (a.RiskyAnalyst? && (c.judge != "" || c.trader != ""))
    ensures (a, Pending) !in ResearchUpdates(c) + TraderUpdates(c)
  {
    hide Team;
    InTeam(a, InProgress);
    InTeam(a, Completed);
    var risky := [(RiskyAnalyst, InProgress)];
    assert risky[0] == (RiskyAnalyst, InProgress);
  }

  lemma UpdatesOfRisk(a: Agent, c: Chunk)
    ensures (a, InProgress) in RiskUpdates(c) <==>
      || (a.RiskyAnalyst? && c.risky != "")
      || (a.SafeAnalyst? && c.safe != "")
      || (a.NeutralAnalyst? && c.neutral != "")
      || (a.PortfolioManager? && c.verdict != "")
    ensures (a, Pending) !in RiskUpdates(c)
  {
    hide VerdictUpdates;
    InVerdict(a);
    InNext(a, {RiskyAnalyst}, RiskyAnalyst);
    InNext(a, {SafeAnalyst}, SafeAnalyst);
    InNext(a, {NeutralAnalyst}, NeutralAnalyst);
  }

  lemma InVerdict(a: Agent)
    ensures (a, InProgress) in VerdictUpdates() <==> a.PortfolioManager?
    ensures (a, Pending) !in VerdictUpdates()
  {
    assert VerdictUpdates()[0] == (PortfolioManager, InProgress);
  }

  /** A completed agent steps back inside a chunk exactly when some update puts it to work again. */
  lemma DropsInsideIff(a: Agent, c: Chunk, selected: set<Agent>)
    requires c.last.Some? && Known(a)
    ensures (exists n | 0 <= n <= |ChunkUpdates(c, selected)| :: Fold(ChunkUpdates(c, selected)[..n], a, Completed) != Completed)
      <==> StartedInside(a, c, selected)
  {
    hide ChunkUpdates, StartedInside;
    var log := ChunkUpdates(c, selected);
    StartedInsideIff(a, c, selected);
    if (a, InProgress) in log {
      var k :| 0 <= k < |log| && log[k] == (a, InProgress);
      assert log[..k + 1] == log[..k] + [log[k]];
      FoldConcat(log[..k], [log[k]], a, Completed);
      FoldOne(log[k], a, Fold(log[..k], a, Completed));
      assert Fold(log[..k + 1], a, Completed) != Completed;
    } else {
      forall n | 0 <= n <= |log| ensures Fold(log[..n], a, Completed) == Completed {
        OnlyCompletions(log[..n], a);
      }
    }
  }

  lemma {:induction false} OnlyCompletions(log: Updates, a: Agent)
    requires forall s | (a, s) in log :: s == Completed
    ensures Fold(log, a, Completed) == Completed
  {
    if log != [] {
      assert log[0] in log;
      OnlyCompletions(log[1..], a);
    }
  }

  // ---- a state streamed again ----

  /** The same state streamed twice leaves all statuses, and all sections but the plan, as after once. */
  lemma RepeatChangesOnlyThePlan(c: Chunk, selected: set<Agent>, a: Agent, before: Status, s: Section, text: Option<string>)
    ensures ChunkStatus(a, ChunkStatus(a, before, c, selected), c, selected) == ChunkStatus(a, before, c, selected)
    ensures s != InvestmentPlan ==> ChunkSection(s, c, ChunkSection(s, c, text)) == ChunkSection(s, c, text)
  {
    hide Finishes, Starts, PlanAfter, LastLine;
  }

  /** The plan is rebuilt only from a bull's line; without one, whatever the bear or the manager said is added again. */
  lemma RepeatKeepsPlanIff(c: Chunk, before: Option<string>)
    ensures PlanAfter(c, PlanAfter(c, before)) == PlanAfter(c, before)
      <==> LastLine(c.bull) != "" || (LastLine(c.bear) == "" && c.judge == "")
    ensures LastLine(c.bull) == "" && (LastLine(c.bear) != "" || c.judge != "") ==>
      |Text(PlanAfter(c, PlanAfter(c, before)))| > |Text(PlanAfter(c, before))|
  {
    hide LastLine, BullText, BearText, JudgeText;
    if LastLine(c.bull) == "" {
      var once := PlanAfter(c, before);
      BearLonger(once, LastLine(c.bear));
      JudgeLonger(BearPlan(c.bear, once), c.judge);
    }
  }

  lemma BearLonger(plan: Option<string>, line: string)
    ensures |BearText(plan, line)| > |Text(plan)|
  {
  }

  lemma JudgeLonger(plan: Option<string>, decision: string)
    ensures |JudgeText(plan, decision)| > |Text(plan)|
  {
  }

  /** A plan started by anyone but the bull begins with the printed form of the missing section. */
  lemma PlanStartsWithNoneIff(c: Chunk)
    requires PlanAfter(c, None).Some?
    ensures "None" <= PlanAfter(c, None).value <==> LastLine(c.bull) == ""
  {
    hide LastLine;
    var bull := BullPlan(c.bull, None);
    var bear := BearPlan(c.bear, bull);
    assert Text(bull) <= Text(bear) && Text(bear) <= Text(PlanAfter(c, None));
    if LastLine(c.bull) == "" {
      assert Text(bull) == "None";
    } else {
      assert Text(bull)[0] == '#';
    }
  }

  /** A manager's decision alone, streamed twice: the plan begins with the word and grows. */
  lemma DecisionAddedTwice(decision: string)
    requires decision != ""
    ensures
      var c := SILENT.(judge := decision);
      var once := PlanAfter(c, None);
      once.Some? && "None" <= once.value && PlanAfter(c, once) != once
  {
    hide JudgeText;
    var c := SILENT.(judge := decision);
    NoTextNoLine(c.bull);
    RepeatKeepsPlanIff(c, None);
    PlanStartsWithNoneIff(c);
  }
}
