/** The buffer behind the command-line display: bounded message lists, agent statuses, report sections and their rendering. */
module DisplayBuffer {
  import opened Wrappers

  /** The agents of the display; any other name is ignored by the buffer. */
  datatype Agent =
    | MarketAnalyst | SocialAnalyst | NewsAnalyst | FundamentalsAnalyst
    | BullResearcher | BearResearcher | ResearchManager | Trader
    | RiskyAnalyst | NeutralAnalyst | SafeAnalyst | PortfolioManager
    | OtherAgent(name: string)

  datatype Status = Pending | InProgress | Completed

  datatype Section =
    | MarketReport | SentimentReport | NewsReport | FundamentalsReport
    | InvestmentPlan | TraderPlan | FinalDecision
    | OtherSection(name: string)

  /** The sections in the order of the dictionary. */
  const SECTIONS: seq<Section> := [
    MarketReport, SentimentReport, NewsReport, FundamentalsReport, InvestmentPlan, TraderPlan, FinalDecision]

  predicate Known(a: Agent) { !a.OtherAgent? }

  type Statuses = map<Agent, Status>
  type Sections = map<Section, Option<string>>

  const IDLE: Statuses := map[
    MarketAnalyst := Pending, SocialAnalyst := Pending, NewsAnalyst := Pending, FundamentalsAnalyst := Pending,
    BullResearcher := Pending, BearResearcher := Pending, ResearchManager := Pending, Trader := Pending,
    RiskyAnalyst := Pending, NeutralAnalyst := Pending, SafeAnalyst := Pending, PortfolioManager := Pending]

  const UNSET: Sections := map[
    MarketReport := None, SentimentReport := None, NewsReport := None, FundamentalsReport := None,
    InvestmentPlan := None, TraderPlan := None, FinalDecision := None]

  datatype Message = Message(kind: string, content: string)

  // ---- bounded deques ----

  /** `append` on a deque with a maximum length. */
  function DequePush<T>(d: seq<T>, x: T, max: nat): seq<T> {
    var grown := d + [x];
    if |grown| > max then grown[|grown| - max..] else grown
  }

  function Last<T>(history: seq<T>, n: nat): seq<T> {
    if |history| <= n then history else history[|history| - n..]
  }

  /** A deque that holds the last entries of a history still does after one more entry. */
  lemma PushKeepsLast<T>(history: seq<T>, x: T, max: nat)
    ensures DequePush(Last(history, max), x, max) == Last(history + [x], max)
  {
  }

  // ---- rendering ----

  /** `None` and the empty string both count as no text. */
  predicate HasText(content: Option<string>) { content.Some? && content.value != "" }

  function Text(content: Option<string>): string { if content.Some? then content.value else "None" }

  function Title(s: Section): string {
    match s
    case MarketReport => "Market Analysis"
    case SentimentReport => "Social Sentiment"
    case NewsReport => "News Analysis"
    case FundamentalsReport => "Fundamentals Analysis"
    case InvestmentPlan => "Research Team Decision"
    case TraderPlan => "Trading Team Plan"
    case FinalDecision => "Portfolio Management Decision"
    case OtherSection(name) => name
  }

  ghost predicate Complete(r: Sections) { forall s :: s in r <==> !s.OtherSection? }

  function Heading(s: Section, r: Sections): string
    requires s in r
  {
    "### " + Title(s) + "\n" + Text(r[s])
  }

  /** The last section, in the order of the dictionary, that is set among the first `n`. */
  function Latest(r: Sections, n: nat): Option<Section>
    requires n <= |SECTIONS| && forall i | 0 <= i < n :: SECTIONS[i] in r
  {
    if n == 0 then None
    else if r[SECTIONS[n - 1]].Some? then Some(SECTIONS[n - 1])
    else Latest(r, n - 1)
  }

  predicate AnyAnalyst(r: Sections)
    requires MarketReport in r && SentimentReport in r && NewsReport in r && FundamentalsReport in r
  {
    HasText(r[MarketReport]) || HasText(r[SentimentReport]) || HasText(r[NewsReport]) || HasText(r[FundamentalsReport])
  }

  function Analysis(s: Section, r: Sections): seq<string>
    requires s in r
  {
    if HasText(r[s]) then [Heading(s, r)] else []
  }

  function TeamPart(title: string, s: Section, r: Sections): seq<string>
    requires s in r
  {
    if HasText(r[s]) then [title, Text(r[s])] else []
  }

  function AnalystParts(r: Sections): seq<string>
    requires Complete(r)
  {
    (if AnyAnalyst(r) then ["## Analyst Team Reports"] else [])
    + Analysis(MarketReport, r) + Analysis(SentimentReport, r) + Analysis(NewsReport, r)
    + Analysis(FundamentalsReport, r)
  }

  function Parts(r: Sections): seq<string>
    requires Complete(r)
  {
    AnalystParts(r)
    + TeamPart("## Research Team Decision", InvestmentPlan, r)
    + TeamPart("## Trading Team Plan", TraderPlan, r)
    + TeamPart("## Portfolio Management Decision", FinalDecision, r)
  }

  function Join(parts: seq<string>): string {
    if parts == [] then ""
    else if |parts| == 1 then parts[0]
    else parts[0] + "\n\n" + Join(parts[1..])
  }

  /** The complete report as a function of the sections alone. */
  function Render(r: Sections): Option<string>
    requires Complete(r)
  {
    if Parts(r) == [] then None else Some(Join(Parts(r)))
  }

  predicate OfAnalyst(s: Section) { s.MarketReport? || s.SentimentReport? || s.NewsReport? || s.FundamentalsReport? }

  /** Every section with text is in the complete report, an analyst's under its title. */
  lemma RenderShows(r: Sections, s: Section)
    requires Complete(r) && s in r && HasText(r[s])
    ensures Render(r).Some? && (if OfAnalyst(s) then Heading(s, r) else Text(r[s])) in Parts(r)
  {
    hide Heading, Text, Join, HasText;
    match s {
      case MarketReport => assert Heading(s, r) in Analysis(s, r);
      case SentimentReport => assert Heading(s, r) in Analysis(s, r);
      case NewsReport => assert Heading(s, r) in Analysis(s, r);
      case FundamentalsReport => assert Heading(s, r) in Analysis(s, r);
      case InvestmentPlan => assert Text(r[s]) in TeamPart("## Research Team Decision", s, r);
      case TraderPlan => assert Text(r[s]) in TeamPart("## Trading Team Plan", s, r);
      case FinalDecision => assert Text(r[s]) in TeamPart("## Portfolio Management Decision", s, r);
    }
  }

  /** There is a complete report exactly when some section has text. */
  lemma RenderNoneIff(r: Sections)
    requires Complete(r)
    ensures Render(r) == None <==> forall s | s in r :: !HasText(r[s])
  {
    hide Heading, Text, Join, HasText;
  }

  /** The statuses after a log of updates, in order. */
  function Replay(statuses: Statuses, log: seq<(Agent, Status)>): Statuses {
    if log == [] then statuses
    else
      var before := Replay(statuses, log[..|log| - 1]);
      var (agent, status) := log[|log| - 1];
      if agent in before then before[agent := status] else before
  }

  lemma {:induction false} ReplayConcat(statuses: Statuses, a: seq<(Agent, Status)>, b: seq<(Agent, Status)>)
    ensures Replay(statuses, a + b) == Replay(Replay(statuses, a), b)
    decreases |b|
  {
    if b == [] {
      assert a + b == a;
    } else {
      assert (a + b)[..|a + b| - 1] == a + b[..|b| - 1];
      ReplayConcat(statuses, a, b[..|b| - 1]);
    }
  }

  lemma {:induction false} ReplayKeys(statuses: Statuses, log: seq<(Agent, Status)>)
    ensures Replay(statuses, log).Keys == statuses.Keys
  {
    if log != [] { ReplayKeys(statuses, log[..|log| - 1]); }
  }

  /** The agent of the last update that the buffer did not ignore. */
  function LastKnown(log: seq<(Agent, Status)>): Option<Agent> {
    if log == [] then None
    else if Known(log[|log| - 1].0) then Some(log[|log| - 1].0)
    else LastKnown(log[..|log| - 1])
  }

  class MessageBuffer {
    const maxLength: nat
    var messages: seq<Message>
    var toolCalls: seq<Message>
    var currentReport: Option<string>
    var finalReport: Option<string>
    var agentStatus: Statuses
    var currentAgent: Option<Agent>
    var reportSections: Sections
    // everything ever added, and every status update since the buffer was made
    ghost var allMessages: seq<Message>
    ghost var allToolCalls: seq<Message>
    ghost var statusLog: seq<(Agent, Status)>

    /**
     The deques hold the last entries of their histories, the key sets are fixed, the complete
     report renders the current sections, and the panel shows the latest section when it has text.
     */
    ghost predicate Valid()
      reads this
    {
      && messages == Last(allMessages, maxLength)
      && toolCalls == Last(allToolCalls, maxLength)
      && (forall a :: a in agentStatus <==> Known(a))
      && agentStatus == Replay(IDLE, statusLog)
      && currentAgent == LastKnown(statusLog)
      && Complete(reportSections)
      && finalReport == Render(reportSections)
      && PanelOk(reportSections, currentReport)
    }

    constructor (max: nat)
      ensures Valid() && maxLength == max && allMessages == [] && allToolCalls == []
      ensures agentStatus == IDLE && reportSections == UNSET
    {
      maxLength := max;
      messages, toolCalls := [], [];
      currentReport, finalReport := None, None;
      agentStatus := IDLE;
      currentAgent := None;
      reportSections := UNSET;
      allMessages, allToolCalls, statusLog := [], [], [];
      new;
      NothingYet(max);
      EmptySections();
      hide Render, Last, Replay, LastKnown, PanelOk;
    }

    method AddMessage(kind: string, content: string)
      requires Valid()
      modifies this`messages, this`allMessages
      ensures Valid() && allMessages == old(allMessages) + [Message(kind, content)]
    {
      PushKeepsLast(allMessages, Message(kind, content), maxLength);
      messages := DequePush(messages, Message(kind, content), maxLength);
      allMessages := allMessages + [Message(kind, content)];
    }

    method AddToolCall(name: string, args: string)
      requires Valid()
      modifies this`toolCalls, this`allToolCalls
      ensures Valid() && allToolCalls == old(allToolCalls) + [Message(name, args)]
    {
      PushKeepsLast(allToolCalls, Message(name, args), maxLength);
      toolCalls := DequePush(toolCalls, Message(name, args), maxLength);
      allToolCalls := allToolCalls + [Message(name, args)];
    }

    method UpdateAgentStatus(agent: Agent, status: Status)
      requires Valid()
      modifies this`agentStatus, this`currentAgent, this`statusLog
      ensures Valid() && statusLog == old(statusLog) + [(agent, status)]
      ensures agentStatus == if Known(agent) then old(agentStatus)[agent := status] else old(agentStatus)
    {
      hide Render, Last;
      if agent in agentStatus {
        agentStatus := agentStatus[agent := status];
        currentAgent := Some(agent);
      }
      statusLog := statusLog + [(agent, status)];
      assert statusLog[..|statusLog| - 1] == old(statusLog);
    }

    method UpdateReportSection(section: Section, content: Option<string>)
      requires Valid()
      modifies this`reportSections, this`currentReport, this`finalReport
      ensures Valid()
      ensures reportSections == if section in old(reportSections) then old(reportSections)[section := content] else old(reportSections)
      ensures currentReport == if section in old(reportSections) then Panel(reportSections, old(currentReport)) else old(currentReport)
    {
      hide Render, Last, Latest;
      if section in reportSections {
        reportSections := reportSections[section := content];
        UpdateCurrentReport();
      }
    }

    method UpdateCurrentReport()
      requires Complete(reportSections)
      modifies this`currentReport, this`finalReport
      ensures finalReport == Render(reportSections) && currentReport == Panel(reportSections, old(currentReport))
    {
      hide Render;
      var latest: Option<Section> := None;
      for i := 0 to |SECTIONS|
        invariant latest == Latest(reportSections, i)
      {
        if reportSections[SECTIONS[i]].Some? { latest := Some(SECTIONS[i]); }
      }
      LatestIsSet(reportSections, |SECTIONS|);
      if latest.Some? && HasText(reportSections[latest.value]) {
        currentReport := Some(Heading(latest.value, reportSections));
      }
      UpdateFinalReport();
    }

    /** Collect the parts section by section and join them. */
    method UpdateFinalReport()
      requires Complete(reportSections)
      modifies this`finalReport
      ensures finalReport == Render(reportSections)
    {
      hide Heading, Text, Join;
      hide AnalystParts, HasText;
      var r := reportSections;
      var parts := CollectAnalystParts(r);
      if HasText(r[InvestmentPlan]) { parts := parts + ["## Research Team Decision", Text(r[InvestmentPlan])]; }
      if HasText(r[TraderPlan]) { parts := parts + ["## Trading Team Plan", Text(r[TraderPlan])]; }
      if HasText(r[FinalDecision]) { parts := parts + ["## Portfolio Management Decision", Text(r[FinalDecision])]; }
      assert parts == Parts(r);
      finalReport := if parts == [] then None else Some(Join(parts));
    }

    static method CollectAnalystParts(r: Sections) returns (parts: seq<string>)
      requires Complete(r)
      ensures parts == AnalystParts(r)
    {
      hide Heading, Text;
      parts := [];
      if AnyAnalyst(r) {
        parts := parts + ["## Analyst Team Reports"];
        if HasText(r[MarketReport]) { parts := parts + [Heading(MarketReport, r)]; }
        if HasText(r[SentimentReport]) { parts := parts + [Heading(SentimentReport, r)]; }
        if HasText(r[NewsReport]) { parts := parts + [Heading(NewsReport, r)]; }
        if HasText(r[FundamentalsReport]) { parts := parts + [Heading(FundamentalsReport, r)]; }
      }
    }

    method ResetStatuses(agents: seq<Agent>)
      requires Valid() && forall a :: a in agents <==> Known(a)
      modifies this`agentStatus, this`currentAgent, this`statusLog
      ensures Valid() && forall a | Known(a) :: agentStatus[a] == Pending
    {
      hide Render, Last, Replay, Latest, PanelOk;
      for i := 0 to |agents|
        invariant Valid()
        invariant forall k | 0 <= k < i :: agents[k] in agentStatus && agentStatus[agents[k]] == Pending
      {
        assert agents[i] in agents;
        UpdateAgentStatus(agents[i], Pending);
      }
      forall a | Known(a) ensures agentStatus[a] == Pending {
        var k :| 0 <= k < |agents| && agents[k] == a;
      }
    }

    /** The reset before an analysis: all agents pending, all sections and both reports empty. */
    method Reset(agents: seq<Agent>)
      requires Valid() && forall a :: a in agents <==> Known(a)
      modifies this`agentStatus, this`currentAgent, this`statusLog,
        this`reportSections, this`currentReport, this`finalReport
      ensures Valid()
      ensures forall a | Known(a) :: agentStatus[a] == Pending
      ensures reportSections == UNSET && currentReport == None && finalReport == None
    {
      hide Render, Last, Replay, Latest, PanelOk;
      ResetStatuses(agents);
      ClearSections();
      currentReport, finalReport := None, None;
      EmptySections();
    }

    method ClearSections()
      requires Complete(reportSections)
      modifies this`reportSections
      ensures reportSections == UNSET
    {
      for i := 0 to |SECTIONS|
        invariant Complete(reportSections)
        invariant forall k | 0 <= k < i :: reportSections[SECTIONS[k]] == None
      {
        reportSections := reportSections[SECTIONS[i] := None];
      }
      AllUnset(reportSections);
    }
  }

  lemma NothingYet(max: nat)
    ensures Last<Message>([], max) == [] && Replay(IDLE, []) == IDLE && LastKnown([]) == None
    ensures forall a :: a in IDLE <==> Known(a)
  {
  }

  lemma AllUnset(r: Sections)
    requires Complete(r) && forall k | 0 <= k < |SECTIONS| :: r[SECTIONS[k]] == None
    ensures r == UNSET
  {
    assert SECTIONS[0] == MarketReport && SECTIONS[1] == SentimentReport && SECTIONS[2] == NewsReport
      && SECTIONS[3] == FundamentalsReport && SECTIONS[4] == InvestmentPlan && SECTIONS[5] == TraderPlan
      && SECTIONS[6] == FinalDecision;
    assert r[SECTIONS[0]] == None && r[SECTIONS[1]] == None && r[SECTIONS[2]] == None && r[SECTIONS[3]] == None
      && r[SECTIONS[4]] == None && r[SECTIONS[5]] == None && r[SECTIONS[6]] == None;
  }

  /** The panel shows the latest section if that section has text, and otherwise what it showed before. */
  function Panel(r: Sections, before: Option<string>): Option<string>
    requires Complete(r)
  {
    LatestIsSet(r, |SECTIONS|);
    var latest := Latest(r, |SECTIONS|);
    if latest.Some? && HasText(r[latest.value]) then Some(Heading(latest.value, r)) else before
  }

  ghost predicate PanelOk(r: Sections, panel: Option<string>)
    requires Complete(r)
  {
    panel == Panel(r, panel)
  }

  lemma {:induction false} LatestIsSet(r: Sections, n: nat)
    requires n <= |SECTIONS| && Complete(r)
    ensures Latest(r, n).Some? ==>
      var s := Latest(r, n).value; s in r && r[s].Some?
  {
    if n > 0 { LatestIsSet(r, n - 1); }
  }

  lemma {:induction false} LatestNone(r: Sections, n: nat)
    requires n <= |SECTIONS| && Complete(r) && forall s | s in r :: r[s] == None
    ensures Latest(r, n) == None
  {
    if n > 0 { LatestNone(r, n - 1); }
  }

  lemma EmptySections()
    ensures Complete(UNSET) && Render(UNSET) == None && PanelOk(UNSET, None)
  {
    RenderNoneIff(UNSET);
    LatestNone(UNSET, |SECTIONS|);
  }

  lemma HeadingInitial(s: Section, r: Sections)
    requires s in r && !s.OtherSection?
    ensures |Title(s)| > 0 && |Heading(s, r)| > 4 && Heading(s, r)[4] == Title(s)[0]
  {
    hide Text;
  }

  lemma HeadingsDiffer(s: Section, t: Section, r: Sections)
    requires s in r && t in r && !s.OtherSection? && !t.OtherSection? && s != t
    ensures Heading(s, r) != Heading(t, r)
  {
    HeadingInitial(s, r);
    HeadingInitial(t, r);
    hide Heading;
    assert Title(s)[0] != Title(t)[0];
  }

  /** Some section is set and the last such one has text, so an update writes the panel. */
  predicate WritesPanel(r: Sections)
    requires Complete(r)
  {
    LatestIsSet(r, |SECTIONS|);
    Latest(r, |SECTIONS|).Some? && HasText(r[Latest(r, |SECTIONS|).value])
  }

  /**
   The panel is meant to show the most recently updated section. After an update it shows that
   section exactly when it has text and no section later in the dictionary is set,
   or when it showed the very same text before and nothing is written.
   */
  lemma PanelShowsUpdateIff(r: Sections, i: nat, content: Option<string>, before: Option<string>)
    requires Complete(r) && i < |SECTIONS|
    ensures
      var after := r[SECTIONS[i] := content];
      var shown := Some(Heading(SECTIONS[i], after));
      Complete(after) &&
      (Panel(after, before) == shown <==>
        || (HasText(content) && forall j | i < j < |SECTIONS| :: after[SECTIONS[j]] == None)
        || (before == shown && !WritesPanel(after)))
  {
    hide Heading, Title, Latest;
    var after := r[SECTIONS[i] := content];
    if content.Some? { LatestFrom(after, i, |SECTIONS|); }
    LatestIsSet(after, |SECTIONS|);
    var latest := Latest(after, |SECTIONS|);
    if latest.Some? && latest.value != SECTIONS[i] { HeadingsDiffer(latest.value, SECTIONS[i], after); }
  }

  /** The market report updated after the final decision: the panel still shows the decision. */
  lemma LaterSectionStays(market: string, decision: string)
    requires market != "" && decision != ""
    ensures
      var first := UNSET[FinalDecision := Some(decision)];
      var second := first[MarketReport := Some(market)];
      Complete(first) && Complete(second) &&
      Panel(second, Panel(first, None)) == Some(Heading(FinalDecision, second)) != Some(Heading(MarketReport, second))
  {
    hide Heading, Title;
    var second := UNSET[FinalDecision := Some(decision)][MarketReport := Some(market)];
    assert SECTIONS[6] == FinalDecision && second[SECTIONS[6]].Some?;
    assert Latest(second, 7) == Some(FinalDecision);
    HeadingsDiffer(FinalDecision, MarketReport, second);
  }

  /** An update with empty text keeps whatever the panel showed. */
  lemma EmptyTextKeepsPanel(panel: Option<string>)
    ensures var after := UNSET[FinalDecision := Some("")]; Complete(after) && Panel(after, panel) == panel
  {
    var after := UNSET[FinalDecision := Some("")];
    assert SECTIONS[6] == FinalDecision && after[SECTIONS[6]].Some?;
    assert Latest(after, 7) == Some(FinalDecision);
  }

  lemma {:induction false} LatestFrom(r: Sections, i: nat, n: nat)
    requires Complete(r) && i < n <= |SECTIONS| && r[SECTIONS[i]].Some?
    ensures Latest(r, n).Some?
    ensures Latest(r, n) == Some(SECTIONS[i]) <==> forall j | i < j < n :: r[SECTIONS[j]] == None
    decreases n
  {
    if n - 1 > i { LatestFrom(r, i, n - 1); }
  }
}
