/** The chunk loop itself: it drives the display buffer update by update, and is proved against the tables of `StreamReducer`. */
module ChunkHandler {
  import opened Wrappers
  import opened DisplayBuffer
  import opened StreamReducer

  /** `text.split("\n")[-1]` */
  function LastLine(text: string): string {
    if text == "" || text[|text| - 1] == '\n' then ""
    else LastLine(text[..|text| - 1]) + [text[|text| - 1]]
  }

  /** It is the part of the text after its last line break. */
  lemma {:induction false} LastLineFollowsBreak(text: string) returns (k: nat)
    ensures k <= |text| && LastLine(text) == text[k..]
    ensures k > 0 ==> text[k - 1] == '\n'
    ensures forall i | k <= i < |text| :: text[i] != '\n'
  {
    var n := |text|;
    if n == 0 || text[n - 1] == '\n' {
      k := n;
    } else {
      var before := text[..n - 1];
      k := LastLineFollowsBreak(before);
      assert text[k..] == before[k..] + [text[n - 1]];
    }
  }

  lemma NoTextNoLine(text: string)
    ensures text == "" ==> LastLine(text) == ""
  {
  }

  // ---- what a chunk leaves in each section ----

  function Reported(text: string, before: Option<string>): Option<string> { if text != "" then Some(text) else before }

  /** The bull's latest line starts the plan afresh; the bear's and the manager's are added to what is there. */
  function PlanAfter(c: Chunk, before: Option<string>): Option<string> {
    JudgePlan(c.judge, BearPlan(c.bear, BullPlan(c.bull, before)))
  }

  function BullPlan(bull: string, before: Option<string>): Option<string> {
    if LastLine(bull) != "" then Some(BullText(LastLine(bull))) else before
  }

  function BearPlan(bear: string, before: Option<string>): Option<string> {
    if LastLine(bear) != "" then Some(BearText(before, LastLine(bear))) else before
  }

  function JudgePlan(judge: string, before: Option<string>): Option<string> {
    if judge != "" then Some(JudgeText(before, judge)) else before
  }

  function BullText(line: string): string { "### Bull Researcher Analysis\n" + line }

  function BearText(plan: Option<string>, line: string): string { Text(plan) + "\n\n### Bear Researcher Analysis\n" + line }

  function JudgeText(plan: Option<string>, decision: string): string {
    Text(plan) + "\n\n### Research Manager Decision\n" + decision
  }

  /** The risk team overwrites its section, so its last speaker in the chunk wins. */
  function DecisionAfter(c: Chunk, before: Option<string>): Option<string> {
    if c.verdict != "" then Some("### Portfolio Manager Decision\n" + c.verdict)
    else if c.neutral != "" then Some("### Neutral Analyst Analysis\n" + c.neutral)
    else if c.safe != "" then Some("### Safe Analyst Analysis\n" + c.safe)
    else if c.risky != "" then Some("### Risky Analyst Analysis\n" + c.risky)
    else before
  }

  function SectionAfter(s: Section, c: Chunk, before: Option<string>): Option<string> {
    match s
    case MarketReport => Reported(c.market, before)
    case SentimentReport => Reported(c.sentiment, before)
    case NewsReport => Reported(c.news, before)
    case FundamentalsReport => Reported(c.fundamentals, before)
    case InvestmentPlan => PlanAfter(c, before)
    case TraderPlan => Reported(c.trader, before)
    case FinalDecision => DecisionAfter(c, before)
    case OtherSection(_) => before
  }

  // ---- the messages of a chunk ----

  function Said(prefix: string, text: string): seq<Message> {
    if text != "" then [Message("Reasoning", prefix + text)] else []
  }

  /** A debater's latest line goes out as it is. */
  function Quoted(text: string): seq<Message> { if LastLine(text) != "" then [Message("Reasoning", LastLine(text))] else [] }

  function DebateMessages(c: Chunk): seq<Message> {
    Quoted(c.bull) + Quoted(c.bear) + Said("Research Manager: ", c.judge)
  }

  function RiskMessages(c: Chunk): seq<Message> {
    Said("Risky Analyst: ", c.risky) + Said("Safe Analyst: ", c.safe) + Said("Neutral Analyst: ", c.neutral)
    + Said("Portfolio Manager: ", c.verdict)
  }

  function ChunkMessages(c: Chunk): seq<Message> {
    if c.last == None then []
    else [Message(c.last.value.kind, c.last.value.content)] + DebateMessages(c) + RiskMessages(c)
  }

  lemma Regroup<T>(base: seq<T>, a: seq<T>, b: seq<T>, c: seq<T>)
    ensures base + a + b + c == base + (a + b + c)
  {
  }

  // ---- the handler, team by team ----

  method UpdateTeam(buffer: MessageBuffer, status: Status)
    requires buffer.Valid()
    modifies buffer`agentStatus, buffer`currentAgent, buffer`statusLog
    ensures buffer.Valid() && buffer.statusLog == old(buffer.statusLog) + Team(status)
  {
    hide *;
    var team := [BullResearcher, BearResearcher, ResearchManager, Trader];
    for i := 0 to |team|
      invariant buffer.Valid()
      invariant buffer.statusLog == old(buffer.statusLog) + seq(i, k requires 0 <= k < |team| => (team[k], status))
    {
      buffer.UpdateAgentStatus(team[i], status);
    }
    TeamOf(team, status);
  }

  lemma TeamOf(team: seq<Agent>, status: Status)
    requires team == [BullResearcher, BearResearcher, ResearchManager, Trader]
    ensures seq(|team|, k requires 0 <= k < |team| => (team[k], status)) == Team(status)
  {
  }

  method StartNext(buffer: MessageBuffer, selected: set<Agent>, next: Agent)
    requires buffer.Valid()
    modifies buffer`agentStatus, buffer`currentAgent, buffer`statusLog
    ensures buffer.Valid() && buffer.statusLog == old(buffer.statusLog) + Next(selected, next)
  {
    if next in selected { buffer.UpdateAgentStatus(next, InProgress); }
  }

  /** The part that the four analyst reports share: file it, complete its author, start the next analyst. */
  method FileReport(buffer: MessageBuffer, section: Section, text: string, own: Agent, selected: set<Agent>, next: Agent)
    requires buffer.Valid() && OfAnalyst(section)
    modifies buffer
    ensures buffer.Valid() && buffer.statusLog == old(buffer.statusLog) + Report(text, own, Next(selected, next))
    ensures buffer.reportSections == Filed(old(buffer.reportSections), section, text)
    ensures buffer.allMessages == old(buffer.allMessages) && buffer.allToolCalls == old(buffer.allToolCalls)
  {
    hide buffer.Valid;
    if text != "" {
      SectionKnown(buffer, section);
      buffer.UpdateReportSection(section, Some(text));
      buffer.UpdateAgentStatus(own, Completed);
      StartNext(buffer, selected, next);
    }
  }

  lemma SectionKnown(buffer: MessageBuffer, section: Section)
    requires buffer.Valid()
    ensures section in buffer.reportSections <==> !section.OtherSection?
  {
  }

  function Filed(r: Sections, section: Section, text: string): Sections {
    if text != "" then r[section := Some(text)] else r
  }

  function AnalystSections(r: Sections, c: Chunk): Sections {
    Filed(Filed(Filed(Filed(r, MarketReport, c.market), SentimentReport, c.sentiment), NewsReport, c.news),
      FundamentalsReport, c.fundamentals)
  }

  method AnalystTeam(buffer: MessageBuffer, c: Chunk, selected: set<Agent>)
    requires buffer.Valid()
    modifies buffer
    ensures buffer.Valid() && buffer.statusLog == old(buffer.statusLog) + AnalystUpdates(c, selected)
    ensures buffer.reportSections == AnalystSections(old(buffer.reportSections), c)
    ensures buffer.allMessages == old(buffer.allMessages) && buffer.allToolCalls == old(buffer.allToolCalls)
  {
    hide buffer.Valid, Filed, Next, Team, Report;
    FileReport(buffer, MarketReport, c.market, MarketAnalyst, selected, SocialAnalyst);
    FileReport(buffer, SentimentReport, c.sentiment, SocialAnalyst, selected, NewsAnalyst);
    FileReport(buffer, NewsReport, c.news, NewsAnalyst, selected, FundamentalsAnalyst);
    FileFundamentals(buffer, c.fundamentals);
  }

  /** The last analyst report starts the whole research team instead of one analyst. */
  method FileFundamentals(buffer: MessageBuffer, text: string)
    requires buffer.Valid()
    modifies buffer
    ensures buffer.Valid()
    ensures buffer.statusLog == old(buffer.statusLog) + Report(text, FundamentalsAnalyst, Team(InProgress))
    ensures buffer.reportSections == Filed(old(buffer.reportSections), FundamentalsReport, text)
    ensures buffer.allMessages == old(buffer.allMessages) && buffer.allToolCalls == old(buffer.allToolCalls)
  {
    hide buffer.Valid, Team;
    if text != "" {
      SectionKnown(buffer, FundamentalsReport);
      buffer.UpdateReportSection(FundamentalsReport, Some(text));
      buffer.UpdateAgentStatus(FundamentalsAnalyst, Completed);
      UpdateTeam(buffer, InProgress);
    }
  }

  method ResearchTeam(buffer: MessageBuffer, c: Chunk)
    requires buffer.Valid()
    modifies buffer
    ensures buffer.Valid() && buffer.statusLog == old(buffer.statusLog) + ResearchUpdates(c)
    ensures InvestmentPlan in old(buffer.reportSections)
    ensures buffer.reportSections ==
      old(buffer.reportSections)[InvestmentPlan := PlanAfter(c, old(buffer.reportSections)[InvestmentPlan])]
    ensures buffer.allMessages == old(buffer.allMessages) + DebateMessages(c)
    ensures buffer.allToolCalls == old(buffer.allToolCalls)
  {
    hide buffer.Valid, Team, BullPlan, BearPlan, JudgePlan, Quoted, Said;
    BullTurn(buffer, c.bull);
    BearTurn(buffer, c.bear);
    JudgeTurn(buffer, c.judge);
    Regroup(old(buffer.statusLog), if c.bull != "" then Team(InProgress) else [],
      if c.bear != "" then Team(InProgress) else [],
      if c.judge != "" then Team(InProgress) + (Team(Completed) + [(RiskyAnalyst, InProgress)]) else []);
    Regroup(old(buffer.allMessages), Quoted(c.bull), Quoted(c.bear), Said("Research Manager: ", c.judge));
  }

  method BullTurn(buffer: MessageBuffer, bull: string)
    requires buffer.Valid()
    modifies buffer
    ensures buffer.Valid() && buffer.statusLog == old(buffer.statusLog) + (if bull != "" then Team(InProgress) else [])
    ensures InvestmentPlan in old(buffer.reportSections)
    ensures buffer.reportSections ==
      old(buffer.reportSections)[InvestmentPlan := BullPlan(bull, old(buffer.reportSections)[InvestmentPlan])]
    ensures buffer.allMessages == old(buffer.allMessages) + Quoted(bull)
    ensures buffer.allToolCalls == old(buffer.allToolCalls)
  {
    hide buffer.Valid, Team, LastLine, BullText;
    SectionKnown(buffer, InvestmentPlan);
    NoTextNoLine(bull);
    if bull != "" {
      UpdateTeam(buffer, InProgress);
      var latest := LastLine(bull);
      if latest != "" {
        buffer.AddMessage("Reasoning", latest);
        buffer.UpdateReportSection(InvestmentPlan, Some(BullText(latest)));
      }
    }
  }

  method BearTurn(buffer: MessageBuffer, bear: string)
    requires buffer.Valid()
    modifies buffer
    ensures buffer.Valid() && buffer.statusLog == old(buffer.statusLog) + (if bear != "" then Team(InProgress) else [])
    ensures InvestmentPlan in old(buffer.reportSections)
    ensures buffer.reportSections ==
      old(buffer.reportSections)[InvestmentPlan := BearPlan(bear, old(buffer.reportSections)[InvestmentPlan])]
    ensures buffer.allMessages == old(buffer.allMessages) + Quoted(bear)
    ensures buffer.allToolCalls == old(buffer.allToolCalls)
  {
    hide buffer.Valid, Team, LastLine, BearText;
    SectionKnown(buffer, InvestmentPlan);
    NoTextNoLine(bear);
    if bear != "" {
      UpdateTeam(buffer, InProgress);
      var latest := LastLine(bear);
      if latest != "" {
        buffer.AddMessage("Reasoning", latest);
        buffer.UpdateReportSection(InvestmentPlan,
          Some(BearText(buffer.reportSections[InvestmentPlan], latest)));
      }
    }
  }

  method JudgeTurn(buffer: MessageBuffer, judge: string)
    requires buffer.Valid()
    modifies buffer
    ensures buffer.Valid()
    ensures buffer.statusLog == old(buffer.statusLog) +
      (if judge != "" then Team(InProgress) + (Team(Completed) + [(RiskyAnalyst, InProgress)]) else [])
    ensures InvestmentPlan in old(buffer.reportSections)
    ensures buffer.reportSections ==
      old(buffer.reportSections)[InvestmentPlan := JudgePlan(judge, old(buffer.reportSections)[InvestmentPlan])]
    ensures buffer.allMessages == old(buffer.allMessages) + Said("Research Manager: ", judge)
    ensures buffer.allToolCalls == old(buffer.allToolCalls)
  {
    hide buffer.Valid, Team, JudgeText;
    SectionKnown(buffer, InvestmentPlan);
    if judge != "" {
      UpdateTeam(buffer, InProgress);
      buffer.AddMessage("Reasoning", "Research Manager: " + judge);
      buffer.UpdateReportSection(InvestmentPlan,
        Some(JudgeText(buffer.reportSections[InvestmentPlan], judge)));
      UpdateTeam(buffer, Completed);
      buffer.UpdateAgentStatus(RiskyAnalyst, InProgress);
    }
  }

  method TradingTeam(buffer: MessageBuffer, c: Chunk)
    requires buffer.Valid()
    modifies buffer
    ensures buffer.Valid() && buffer.statusLog == old(buffer.statusLog) + TraderUpdates(c)
    ensures buffer.reportSections == Filed(old(buffer.reportSections), TraderPlan, c.trader)
    ensures buffer.allMessages == old(buffer.allMessages) && buffer.allToolCalls == old(buffer.allToolCalls)
  {
    hide buffer.Valid;
    if c.trader != "" {
      SectionKnown(buffer, TraderPlan);
      buffer.UpdateReportSection(TraderPlan, Some(c.trader));
      buffer.UpdateAgentStatus(RiskyAnalyst, InProgress);
    }
  }

  /** One risk analyst speaks: in progress, a message, and the decision section overwritten. */
  method RiskTurn(buffer: MessageBuffer, agent: Agent, text: string, prefix: string, heading: string)
    requires buffer.Valid()
    modifies buffer
    ensures buffer.Valid() && buffer.statusLog == old(buffer.statusLog) + (if text != "" then [(agent, InProgress)] else [])
    ensures FinalDecision in old(buffer.reportSections)
    ensures buffer.reportSections == old(buffer.reportSections)[FinalDecision :=
      Spoken(heading, text, old(buffer.reportSections)[FinalDecision])]
    ensures buffer.allMessages == old(buffer.allMessages) + Said(prefix, text)
    ensures buffer.allToolCalls == old(buffer.allToolCalls)
  {
    hide buffer.Valid;
    SectionKnown(buffer, FinalDecision);
    if text != "" {
      buffer.UpdateAgentStatus(agent, InProgress);
      buffer.AddMessage("Reasoning", prefix + text);
      buffer.UpdateReportSection(FinalDecision, Some(heading + text));
    }
  }

  /** The manager's verdict ends the risk debate and completes the whole team. */
  method VerdictTurn(buffer: MessageBuffer, verdict: string)
    requires buffer.Valid()
    modifies buffer
    ensures buffer.Valid() && buffer.statusLog == old(buffer.statusLog) + (if verdict != "" then VerdictUpdates() else [])
    ensures FinalDecision in old(buffer.reportSections)
    ensures buffer.reportSections == old(buffer.reportSections)[FinalDecision :=
      Spoken("### Portfolio Manager Decision\n", verdict, old(buffer.reportSections)[FinalDecision])]
    ensures buffer.allMessages == old(buffer.allMessages) + Said("Portfolio Manager: ", verdict)
    ensures buffer.allToolCalls == old(buffer.allToolCalls)
  {
    hide buffer.Valid;
    RiskTurn(buffer, PortfolioManager, verdict, "Portfolio Manager: ", "### Portfolio Manager Decision\n");
    if verdict != "" {
      buffer.UpdateAgentStatus(RiskyAnalyst, Completed);
      buffer.UpdateAgentStatus(SafeAnalyst, Completed);
      buffer.UpdateAgentStatus(NeutralAnalyst, Completed);
      buffer.UpdateAgentStatus(PortfolioManager, Completed);
    }
  }

  method RiskTeam(buffer: MessageBuffer, c: Chunk)
    requires buffer.Valid()
    modifies buffer
    ensures buffer.Valid() && buffer.statusLog == old(buffer.statusLog) + RiskUpdates(c)
    ensures FinalDecision in old(buffer.reportSections)
    ensures buffer.reportSections ==
      old(buffer.reportSections)[FinalDecision := DecisionAfter(c, old(buffer.reportSections)[FinalDecision])]
    ensures buffer.allMessages == old(buffer.allMessages) + RiskMessages(c)
    ensures buffer.allToolCalls == old(buffer.allToolCalls)
  {
    hide buffer.Valid, Said, VerdictUpdates, Spoken;
    RiskTurn(buffer, RiskyAnalyst, c.risky, "Risky Analyst: ", "### Risky Analyst Analysis\n");
    RiskTurn(buffer, SafeAnalyst, c.safe, "Safe Analyst: ", "### Safe Analyst Analysis\n");
    RiskTurn(buffer, NeutralAnalyst, c.neutral, "Neutral Analyst: ", "### Neutral Analyst Analysis\n");
    VerdictTurn(buffer, c.verdict);
    RegroupFour(old(buffer.statusLog), if c.risky != "" then [(RiskyAnalyst, InProgress)] else [],
      if c.safe != "" then [(SafeAnalyst, InProgress)] else [],
      if c.neutral != "" then [(NeutralAnalyst, InProgress)] else [], if c.verdict != "" then VerdictUpdates() else []);
    RegroupFour(old(buffer.allMessages), Said("Risky Analyst: ", c.risky), Said("Safe Analyst: ", c.safe),
      Said("Neutral Analyst: ", c.neutral), Said("Portfolio Manager: ", c.verdict));
    LastSpeaker(c, old(buffer.reportSections)[FinalDecision]);
  }

  lemma RegroupFour<T>(base: seq<T>, a: seq<T>, b: seq<T>, c: seq<T>, d: seq<T>)
    ensures base + a + b + c + d == base + (a + b + c + d)
  {
  }

  function Spoken(heading: string, text: string, before: Option<string>): Option<string> {
    if text != "" then Some(heading + text) else before
  }

  /** Four turns that overwrite one section leave what the last speaker said. */
  lemma LastSpeaker(c: Chunk, before: Option<string>)
    ensures DecisionAfter(c, before) ==
      Spoken("### Portfolio Manager Decision\n", c.verdict, Spoken("### Neutral Analyst Analysis\n", c.neutral,
        Spoken("### Safe Analyst Analysis\n", c.safe, Spoken("### Risky Analyst Analysis\n", c.risky, before))))
  {
  }

  // ---- one chunk, and the stream of them ----

  function ChunkCalls(c: Chunk): seq<Message> { if c.last == None then [] else c.last.value.calls }

  /** A chunk without messages changes nothing. */
  function ChunkStatus(a: Agent, before: Status, c: Chunk, selected: set<Agent>): Status {
    if c.last == None then before else StatusAfter(a, before, c, selected)
  }

  function ChunkSection(s: Section, c: Chunk, before: Option<string>): Option<string> {
    if c.last == None then before else SectionAfter(s, c, before)
  }

  ghost predicate SectionsFollow(before: Sections, c: Chunk, after: Sections) {
    && after.Keys == before.Keys
    && forall s | s in before :: after[s] == ChunkSection(s, c, before[s])
  }

  ghost predicate StatusesFollow(before: Statuses, c: Chunk, selected: set<Agent>, after: Statuses) {
    && after.Keys == before.Keys
    && forall a | a in before :: after[a] == ChunkStatus(a, before[a], c, selected)
  }

  lemma ChunkStatuses(log: Updates, c: Chunk, selected: set<Agent>)
    requires forall a :: a in IDLE <==> Known(a)
    ensures StatusesFollow(Replay(IDLE, log), c, selected, Replay(IDLE, log + ChunkUpdates(c, selected)))
  {
    hide ChunkUpdates, StatusAfter, IDLE;
    var before, updates := Replay(IDLE, log), ChunkUpdates(c, selected);
    ReplayConcat(IDLE, log, updates);
    ReplayKeys(IDLE, log);
    ReplayKeys(before, updates);
    forall a | a in before ensures Replay(before, updates)[a] == ChunkStatus(a, before[a], c, selected) {
      ReplayIsFold(before, updates, a);
      if c.last == None { NoUpdates(c, selected); } else { UpdatesGiveStatus(c, selected, a, before[a]); }
    }
  }

  lemma NoUpdates(c: Chunk, selected: set<Agent>)
    ensures c.last == None ==> ChunkUpdates(c, selected) == []
  {
  }

  lemma ChunkSections(r: Sections, c: Chunk)
    requires Complete(r) && c.last.Some?
    ensures
      var r1 := AnalystSections(r, c);
      InvestmentPlan in r1 &&
      var r2 := r1[InvestmentPlan := PlanAfter(c, r1[InvestmentPlan])];
      var r3 := Filed(r2, TraderPlan, c.trader);
      FinalDecision in r3 && SectionsFollow(r, c, r3[FinalDecision := DecisionAfter(c, r3[FinalDecision])])
  {
    hide PlanAfter, DecisionAfter, Filed, Reported;
    var m := Filed(r, MarketReport, c.market);
    var n := Filed(m, SentimentReport, c.sentiment);
    var o := Filed(n, NewsReport, c.news);
    var r1 := AnalystSections(r, c);
    FiledIsReported(r, MarketReport, c.market);
    FiledIsReported(m, SentimentReport, c.sentiment);
    FiledIsReported(n, NewsReport, c.news);
    FiledIsReported(o, FundamentalsReport, c.fundamentals);
    var r2 := r1[InvestmentPlan := PlanAfter(c, r1[InvestmentPlan])];
    FiledIsReported(r2, TraderPlan, c.trader);
    var r3 := Filed(r2, TraderPlan, c.trader);
    forall s | s in r ensures r3[FinalDecision := DecisionAfter(c, r3[FinalDecision])][s] == ChunkSection(s, c, r[s]) {
    }
  }

  lemma FiledIsReported(r: Sections, section: Section, text: string)
    requires section in r
    ensures Filed(r, section, text) == r[section := Reported(text, r[section])]
  {
  }

  method AddToolCalls(buffer: MessageBuffer, calls: seq<Message>)
    requires buffer.Valid()
    modifies buffer`toolCalls, buffer`allToolCalls
    ensures buffer.Valid() && buffer.allToolCalls == old(buffer.allToolCalls) + calls
  {
    hide buffer.Valid;
    for i := 0 to |calls|
      invariant buffer.Valid() && buffer.allToolCalls == old(buffer.allToolCalls) + calls[..i]
    {
      buffer.AddToolCall(calls[i].kind, calls[i].content);
    }
  }

  /** The body of the chunk loop. */
  method HandleChunk(buffer: MessageBuffer, c: Chunk, selected: set<Agent>)
    requires buffer.Valid()
    modifies buffer
    ensures buffer.Valid()
    ensures StatusesFollow(old(buffer.agentStatus), c, selected, buffer.agentStatus)
    ensures SectionsFollow(old(buffer.reportSections), c, buffer.reportSections)
    ensures buffer.statusLog == old(buffer.statusLog) + ChunkUpdates(c, selected)
    ensures buffer.allMessages == old(buffer.allMessages) + ChunkMessages(c)
    ensures buffer.allToolCalls == old(buffer.allToolCalls) + ChunkCalls(c)
  {
    hide buffer.Valid, AnalystUpdates, ResearchUpdates, TraderUpdates, RiskUpdates, AnalystSections, Filed, PlanAfter;
    hide DecisionAfter, DebateMessages, RiskMessages, StatusesFollow, SectionsFollow;
    BufferFacts(buffer);
    SameSections(buffer.reportSections, c);
    if c.last.Some? {
      ChunkSections(buffer.reportSections, c);
      buffer.AddMessage(c.last.value.kind, c.last.value.content);
      AddToolCalls(buffer, c.last.value.calls);
      AnalystTeam(buffer, c, selected);
      ResearchTeam(buffer, c);
      TradingTeam(buffer, c);
      RiskTeam(buffer, c);
      Regroup(old(buffer.allMessages), [Message(c.last.value.kind, c.last.value.content)], DebateMessages(c), RiskMessages(c));
      RegroupFour(old(buffer.statusLog), AnalystUpdates(c, selected), ResearchUpdates(c), TraderUpdates(c), RiskUpdates(c));
    }
    assert buffer.statusLog == old(buffer.statusLog) + ChunkUpdates(c, selected);
    BufferFacts(buffer);
    ChunkStatuses(old(buffer.statusLog), c, selected);
  }

  lemma BufferFacts(buffer: MessageBuffer)
    requires buffer.Valid()
    ensures buffer.agentStatus == Replay(IDLE, buffer.statusLog) && Complete(buffer.reportSections)
    ensures forall a :: a in IDLE <==> Known(a)
  {
    ReplayKeys(IDLE, buffer.statusLog);
  }

  lemma SameSections(r: Sections, c: Chunk)
    ensures c.last == None ==> SectionsFollow(r, c, r)
  {
  }
}
