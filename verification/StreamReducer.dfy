/** The chunk loop of `run_analysis`: what one chunk of the agent stream does to the display buffer. */
module StreamReducer {
  import opened Wrappers
  import opened DisplayBuffer

  /** The last message of a chunk with the tool calls it carries. */
  datatype LastMessage = LastMessage(kind: string, content: string, calls: seq<Message>)

  /**
   One chunk. A missing key, `None` and the empty string all fail the truth test of the source
   and are the empty string here; `last` is missing when the chunk has no messages.
   */
  datatype Chunk = Chunk(
    last: Option<LastMessage>,
    market: string, sentiment: string, news: string, fundamentals: string,
    bull: string, bear: string, judge: string,
    trader: string,
    risky: string, safe: string, neutral: string, verdict: string)

  type Updates = seq<(Agent, Status)>

  predicate Researcher(a: Agent) {
    a.BullResearcher? || a.BearResearcher? || a.ResearchManager? || a.Trader?
  }

  /** `update_research_team_status` */
  function Team(status: Status): Updates {
    [(BullResearcher, status), (BearResearcher, status), (ResearchManager, status), (Trader, status)]
  }

  function Next(selected: set<Agent>, a: Agent): Updates { if a in selected then [(a, InProgress)] else [] }

  // ---- the status updates of one chunk, in the order of the source ----

  /** A report completes its own agent and passes on to the next. */
  function Report(text: string, own: Agent, next: Updates): Updates {
    if text != "" then [(own, Completed)] + next else []
  }

  function AnalystUpdates(c: Chunk, selected: set<Agent>): Updates {
    Report(c.market, MarketAnalyst, Next(selected, SocialAnalyst))
    + Report(c.sentiment, SocialAnalyst, Next(selected, NewsAnalyst))
    + Report(c.news, NewsAnalyst, Next(selected, FundamentalsAnalyst))
    + Report(c.fundamentals, FundamentalsAnalyst, Team(InProgress))
  }

  function ResearchUpdates(c: Chunk): Updates {
    (if c.bull != "" then Team(InProgress) else [])
    + (if c.bear != "" then Team(InProgress) else [])
    + (if c.judge != "" then Team(InProgress) + (Team(Completed) + [(RiskyAnalyst, InProgress)]) else [])
  }

  function TraderUpdates(c: Chunk): Updates { if c.trader != "" then [(RiskyAnalyst, InProgress)] else [] }

  function VerdictUpdates(): Updates {
    [(PortfolioManager, InProgress), (RiskyAnalyst, Completed), (SafeAnalyst, Completed), (NeutralAnalyst, Completed),
     (PortfolioManager, Completed)]
  }

  function RiskUpdates(c: Chunk): Updates {
    (if c.risky != "" then [(RiskyAnalyst, InProgress)] else [])
    + (if c.safe != "" then [(SafeAnalyst, InProgress)] else [])
    + (if c.neutral != "" then [(NeutralAnalyst, InProgress)] else [])
    + (if c.verdict != "" then VerdictUpdates() else [])
  }

  function ChunkUpdates(c: Chunk, selected: set<Agent>): Updates {
    if c.last == None then []
    else AnalystUpdates(c, selected) + ResearchUpdates(c) + TraderUpdates(c) + RiskUpdates(c)
  }

  // ---- the statuses after a chunk, agent by agent ----

  /** What a chunk with messages leaves an agent with: its own report completes it, its predecessor's starts it. */
  function StatusAfter(a: Agent, before: Status, c: Chunk, selected: set<Agent>): Status {
    if Finishes(a, c) then Completed else if Starts(a, c, selected) then InProgress else before
  }

  predicate Finishes(a: Agent, c: Chunk) {
    match a
    case MarketAnalyst => c.market != ""
    case SocialAnalyst => c.sentiment != ""
    case NewsAnalyst => c.news != ""
    case FundamentalsAnalyst => c.fundamentals != ""
    case BullResearcher => c.judge != ""
    case BearResearcher => c.judge != ""
    case ResearchManager => c.judge != ""
    case Trader => c.judge != ""
    case OtherAgent(_) => false
    case _ => c.verdict != ""
  }

  predicate Starts(a: Agent, c: Chunk, selected: set<Agent>) {
    match a
    case SocialAnalyst => c.market != "" && a in selected
    case NewsAnalyst => c.sentiment != "" && a in selected
    case FundamentalsAnalyst => c.news != "" && a in selected
    case BullResearcher => c.fundamentals != "" || c.bull != "" || c.bear != ""
    case BearResearcher => c.fundamentals != "" || c.bull != "" || c.bear != ""
    case ResearchManager => c.fundamentals != "" || c.bull != "" || c.bear != ""
    case Trader => c.fundamentals != "" || c.bull != "" || c.bear != ""
    case RiskyAnalyst => c.judge != "" || c.trader != "" || c.risky != ""
    case SafeAnalyst => c.safe != ""
    case NeutralAnalyst => c.neutral != ""
    case _ => false
  }

  /** The status of one agent after a log of updates. */
  function Fold(log: Updates, a: Agent, before: Status): Status {
    if log == [] then before else Fold(log[1..], a, if log[0].0 == a then log[0].1 else before)
  }

  lemma {:induction false} FoldConcat(x: Updates, y: Updates, a: Agent, before: Status)
    ensures Fold(x + y, a, before) == Fold(y, a, Fold(x, a, before))
    decreases |x|
  {
    if x == [] {
      assert x + y == y;
    } else {
      assert (x + y)[1..] == x[1..] + y;
      FoldConcat(x[1..], y, a, if x[0].0 == a then x[0].1 else before);
    }
  }

  lemma {:induction false} ReplayIsFold(statuses: Statuses, log: Updates, a: Agent)
    requires a in statuses
    ensures a in Replay(statuses, log) && Replay(statuses, log)[a] == Fold(log, a, statuses[a])
    decreases |log|
  {
    if log != [] {
      var n := |log| - 1;
      ReplayIsFold(statuses, log[..n], a);
      assert log == log[..n] + [log[n]];
      FoldConcat(log[..n], [log[n]], a, statuses[a]);
      assert [log[n]][1..] == [];
    }
  }

  lemma FoldOne(u: (Agent, Status), a: Agent, before: Status)
    ensures Fold([u], a, before) == if u.0 == a then u.1 else before
  {
    assert [u][1..] == [];
  }

  lemma FoldNone(a: Agent, before: Status)
    ensures Fold([], a, before) == before
  {
  }

  lemma FoldStep(log: Updates, a: Agent, before: Status)
    requires log != []
    ensures Fold(log, a, before) == Fold(log[1..], a, if log[0].0 == a then log[0].1 else before)
  {
  }

  lemma FoldTeam(status: Status, a: Agent, before: Status)
    ensures Fold(Team(status), a, before) == if Researcher(a) then status else before
  {
    hide Fold;
    var t := Team(status);
    var b1 := if t[0].0 == a then status else before;
    var b2 := if t[1].0 == a then status else b1;
    var b3 := if t[2].0 == a then status else b2;
    assert t[1..][1..] == t[2..] && t[2..][1..] == t[3..] && t[3..][1..] == [];
    FoldStep(t, a, before);
    FoldStep(t[1..], a, b1);
    FoldStep(t[2..], a, b2);
    FoldStep(t[3..], a, b3);
    FoldNone(a, if t[3].0 == a then status else b3);
  }

  lemma FoldNext(selected: set<Agent>, next: Agent, a: Agent, before: Status)
    ensures Fold(Next(selected, next), a, before) == if next in selected && a == next then InProgress else before
  {
    FoldOne((next, InProgress), a, before);
    FoldNone(a, before);
  }

  lemma FoldReport(text: string, own: Agent, next: Updates, a: Agent, before: Status)
    ensures Fold(Report(text, own, next), a, before) ==
      if text == "" then before else Fold(next, a, if a == own then Completed else before)
  {
    FoldConcat([(own, Completed)], next, a, before);
    FoldOne((own, Completed), a, before);
    FoldNone(a, before);
  }

  lemma FoldAnalysts(c: Chunk, selected: set<Agent>, a: Agent, before: Status)
    ensures Fold(AnalystUpdates(c, selected), a, before) ==
      if a.MarketAnalyst? || a.SocialAnalyst? || a.NewsAnalyst? || a.FundamentalsAnalyst?
      then StatusAfter(a, before, c, selected)
      else if Researcher(a) && c.fundamentals != "" then InProgress else before
  {
    hide Fold, Report, Next, Team;
    var m, s := Report(c.market, MarketAnalyst, Next(selected, SocialAnalyst)),
      Report(c.sentiment, SocialAnalyst, Next(selected, NewsAnalyst));
    var n, f := Report(c.news, NewsAnalyst, Next(selected, FundamentalsAnalyst)),
      Report(c.fundamentals, FundamentalsAnalyst, Team(InProgress));
    FoldConcat(m + s + n, f, a, before);
    FoldConcat(m + s, n, a, before);
    FoldConcat(m, s, a, before);
    FoldReport(c.market, MarketAnalyst, Next(selected, SocialAnalyst), a, before);
    FoldNext(selected, SocialAnalyst, a, if a == MarketAnalyst then Completed else before);
    var b1 := Fold(m, a, before);
    FoldReport(c.sentiment, SocialAnalyst, Next(selected, NewsAnalyst), a, b1);
    FoldNext(selected, NewsAnalyst, a, if a == SocialAnalyst then Completed else b1);
    var b2 := Fold(s, a, b1);
    FoldReport(c.news, NewsAnalyst, Next(selected, FundamentalsAnalyst), a, b2);
    FoldNext(selected, FundamentalsAnalyst, a, if a == NewsAnalyst then Completed else b2);
    var b3 := Fold(n, a, b2);
    FoldReport(c.fundamentals, FundamentalsAnalyst, Team(InProgress), a, b3);
    FoldTeam(InProgress, a, if a == FundamentalsAnalyst then Completed else b3);
  }

  lemma FoldResearch(c: Chunk, a: Agent, before: Status)
    ensures Fold(ResearchUpdates(c), a, before) ==
      if Researcher(a) then (if c.judge != "" then Completed else if c.bull != "" || c.bear != "" then InProgress else before)
      else if a.RiskyAnalyst? && c.judge != "" then InProgress else before
  {
    hide Fold, Team;
    var x, y := if c.bull != "" then Team(InProgress) else [], if c.bear != "" then Team(InProgress) else [];
    var last := Team(Completed) + [(RiskyAnalyst, InProgress)];
    var z := if c.judge != "" then Team(InProgress) + last else [];
    FoldConcat(x + y, z, a, before);
    FoldConcat(x, y, a, before);
    FoldTeam(InProgress, a, before);
    FoldNone(a, before);
    var b1 := Fold(x, a, before);
    FoldTeam(InProgress, a, b1);
    FoldNone(a, b1);
    var b2 := Fold(y, a, b1);
    FoldNone(a, b2);
    FoldConcat(Team(InProgress), last, a, b2);
    FoldTeam(InProgress, a, b2);
    var b3 := Fold(Team(InProgress), a, b2);
    FoldConcat(Team(Completed), [(RiskyAnalyst, InProgress)], a, b3);
    FoldTeam(Completed, a, b3);
    FoldOne((RiskyAnalyst, InProgress), a, Fold(Team(Completed), a, b3));
  }

  lemma FoldVerdict(a: Agent, before: Status)
    ensures Fold(VerdictUpdates(), a, before) ==
      if a.PortfolioManager? || a.RiskyAnalyst? || a.SafeAnalyst? || a.NeutralAnalyst? then Completed else before
  {
    hide Fold;
    var v := VerdictUpdates();
    var b1 := if v[0].0 == a then v[0].1 else before;
    var b2 := if v[1].0 == a then v[1].1 else b1;
    var b3 := if v[2].0 == a then v[2].1 else b2;
    var b4 := if v[3].0 == a then v[3].1 else b3;
    assert v[1..][1..] == v[2..] && v[2..][1..] == v[3..] && v[3..][1..] == v[4..] && v[4..][1..] == [];
    FoldStep(v, a, before);
    FoldStep(v[1..], a, b1);
    FoldStep(v[2..], a, b2);
    FoldStep(v[3..], a, b3);
    FoldStep(v[4..], a, b4);
    FoldNone(a, if v[4].0 == a then v[4].1 else b4);
  }

  /** A single update that is made only if a condition holds. */
  lemma FoldMaybe(condition: bool, u: (Agent, Status), a: Agent, before: Status)
    ensures Fold(if condition then [u] else [], a, before) == if condition && u.0 == a then u.1 else before
  {
    FoldOne(u, a, before);
    FoldNone(a, before);
  }

  lemma FoldRisk(c: Chunk, a: Agent, before: Status)
    ensures Fold(RiskUpdates(c), a, before) ==
      if (a.PortfolioManager? || a.RiskyAnalyst? || a.SafeAnalyst? || a.NeutralAnalyst?) && c.verdict != "" then Completed
      else if (a.RiskyAnalyst? && c.risky != "") || (a.SafeAnalyst? && c.safe != "") || (a.NeutralAnalyst? && c.neutral != "")
      then InProgress else before
  {
    hide Fold, VerdictUpdates;
    var r, s := if c.risky != "" then [(RiskyAnalyst, InProgress)] else [],
      if c.safe != "" then [(SafeAnalyst, InProgress)] else [];
    var n, v := if c.neutral != "" then [(NeutralAnalyst, InProgress)] else [], if c.verdict != "" then VerdictUpdates() else [];
    FoldFour(r, s, n, v, a, before);
    FoldMaybe(c.risky != "", (RiskyAnalyst, InProgress), a, before);
    var b1 := Fold(r, a, before);
    FoldMaybe(c.safe != "", (SafeAnalyst, InProgress), a, b1);
    var b2 := Fold(s, a, b1);
    FoldMaybe(c.neutral != "", (NeutralAnalyst, InProgress), a, b2);
    FoldVerdict(a, Fold(n, a, b2));
    FoldNone(a, Fold(n, a, b2));
  }

  lemma FoldFour(x: Updates, y: Updates, z: Updates, w: Updates, a: Agent, before: Status)
    ensures Fold(x + y + z + w, a, before) == Fold(w, a, Fold(z, a, Fold(y, a, Fold(x, a, before))))
  {
    hide Fold;
    FoldConcat(x + y + z, w, a, before);
    FoldConcat(x + y, z, a, before);
    FoldConcat(x, y, a, before);
  }

  /** Replaying the updates of a chunk leaves every agent as the table says. */
  lemma UpdatesGiveStatus(c: Chunk, selected: set<Agent>, a: Agent, before: Status)
    requires c.last.Some? && Known(a)
    ensures Fold(ChunkUpdates(c, selected), a, before) == StatusAfter(a, before, c, selected)
  {
    hide Fold, AnalystUpdates, ResearchUpdates, RiskUpdates;
    var x, y, z, w := AnalystUpdates(c, selected), ResearchUpdates(c), TraderUpdates(c), RiskUpdates(c);
    FoldConcat(x + y + z, w, a, before);
    FoldConcat(x + y, z, a, before);
    FoldConcat(x, y, a, before);
    FoldAnalysts(c, selected, a, before);
    FoldResearch(c, a, Fold(x, a, before));
    FoldOne((RiskyAnalyst, InProgress), a, Fold(y, a, Fold(x, a, before)));
    FoldRisk(c, a, Fold(z, a, Fold(y, a, Fold(x, a, before))));
    FoldNone(a, Fold(y, a, Fold(x, a, before)));
  }
}
