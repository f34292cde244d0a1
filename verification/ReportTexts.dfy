/** The texts that the display shows, letter by letter: headings, their order, and the investment plan of a chunk. */
module ReportTexts {
  import opened Wrappers
  import opened DisplayBuffer
  import opened StreamReducer
  import opened ChunkHandler
  import PyText

  // ---- the complete report ----

  /** Parts are joined by one empty line. */
  lemma {:induction false} JoinConcat(a: seq<string>, b: seq<string>)
    requires a != [] && b != []
    ensures Join(a + b) == Join(a) + "\n\n" + Join(b)
    decreases |a|
  {
    if |a| == 1 {
      assert (a + b)[1..] == b;
    } else {
      assert (a + b)[1..] == a[1..] + b;
      JoinConcat(a[1..], b);
      Regroup3(a[0], "\n\n", Join(a[1..]), "\n\n", Join(b));
    }
  }

  lemma Regroup3<T>(a: seq<T>, gap: seq<T>, b: seq<T>, gap': seq<T>, c: seq<T>)
    ensures a + gap + (b + gap' + c) == (a + gap + b) + gap' + c
  {
  }

  lemma JoinOne(part: string)
    ensures Join([part]) == part
  {
  }

  predicate Written(content: Option<string>) { content != None && content != Some("") }

  /** The parts of the complete report, from the texts of the seven sections. */
  lemma ReportParts(r: Sections)
    requires Complete(r)
    ensures
      var m, s, n, f := r[MarketReport], r[SentimentReport], r[NewsReport], r[FundamentalsReport];
      var p, t, d := r[InvestmentPlan], r[TraderPlan], r[FinalDecision];
      Parts(r) ==
        (if Written(m) || Written(s) || Written(n) || Written(f) then ["## Analyst Team Reports"] else [])
        + (if Written(m) then ["### " + "Market Analysis" + "\n" + m.value] else [])
        + (if Written(s) then ["### " + "Social Sentiment" + "\n" + s.value] else [])
        + (if Written(n) then ["### " + "News Analysis" + "\n" + n.value] else [])
        + (if Written(f) then ["### " + "Fundamentals Analysis" + "\n" + f.value] else [])
        + (if Written(p) then ["## Research Team Decision", p.value] else [])
        + (if Written(t) then ["## Trading Team Plan", t.value] else [])
        + (if Written(d) then ["## Portfolio Management Decision", d.value] else [])
  {
  }

  /** The section the panel shows: the last one in this order that is set. */
  lemma DictionaryOrder(r: Sections)
    requires Complete(r)
    ensures |SECTIONS| == 7
    ensures Latest(r, 7) ==
      if r[FinalDecision] != None then Some(FinalDecision)
      else if r[TraderPlan] != None then Some(TraderPlan)
      else if r[InvestmentPlan] != None then Some(InvestmentPlan)
      else if r[FundamentalsReport] != None then Some(FundamentalsReport)
      else if r[NewsReport] != None then Some(NewsReport)
      else if r[SentimentReport] != None then Some(SentimentReport)
      else if r[MarketReport] != None then Some(MarketReport)
      else None
  {
    hide Latest;
    LatestStep(r, 7);
    LatestStep(r, 6);
    LatestStep(r, 5);
    LatestStep(r, 4);
    LatestStep(r, 3);
    LatestStep(r, 2);
    LatestStep(r, 1);
    LatestStart(r);
    assert SECTIONS[0] == MarketReport && SECTIONS[1] == SentimentReport && SECTIONS[2] == NewsReport
      && SECTIONS[3] == FundamentalsReport && SECTIONS[4] == InvestmentPlan && SECTIONS[5] == TraderPlan
      && SECTIONS[6] == FinalDecision;
  }

  lemma LatestStep(r: Sections, n: nat)
    requires Complete(r) && 1 <= n <= |SECTIONS|
    ensures Latest(r, n) == if r[SECTIONS[n - 1]].Some? then Some(SECTIONS[n - 1]) else Latest(r, n - 1)
  {
  }

  lemma LatestStart(r: Sections)
    requires Complete(r)
    ensures Latest(r, 0) == None
  {
  }

  /** What the panel prints for a section that it shows. */
  lemma PanelReads(r: Sections, s: Section)
    requires Complete(r) && s in r && Written(r[s])
    ensures Heading(s, r) ==
      "### " + (match s
        case MarketReport => "Market Analysis"
        case SentimentReport => "Social Sentiment"
        case NewsReport => "News Analysis"
        case FundamentalsReport => "Fundamentals Analysis"
        case InvestmentPlan => "Research Team Decision"
        case TraderPlan => "Trading Team Plan"
        case _ => "Portfolio Management Decision") + "\n" + r[s].value
  {
  }

  // ---- the investment plan of a chunk ----

  /** What a speaker adds to the plan: a heading and the text, or nothing. */
  function Adds(heading: string, text: string): string { if text == "" then "" else heading + text }

  /**
   The plan after a chunk: the bull's last line under its heading, or else the text from before,
   then the bear's last line and the manager's decision, each under its heading.
   */
  lemma PlanReads(c: Chunk, before: Option<string>)
    ensures
      var bull, bear := LastLine(c.bull), LastLine(c.bear);
      PlanAfter(c, before) ==
        if bull == "" && bear == "" && c.judge == "" then before
        else Some((if bull != "" then "### Bull Researcher Analysis\n" + bull
                   else if before == None then "None" else before.value)
                  + Adds("\n\n### Bear Researcher Analysis\n", bear)
                  + Adds("\n\n### Research Manager Decision\n", c.judge))
  {
    hide LastLine;
    var bull, bear := LastLine(c.bull), LastLine(c.bear);
    var first := Text(BullPlan(c.bull, before));
    assert first == if bull != "" then "### Bull Researcher Analysis\n" + bull else if before == None then "None" else before.value;
    NothingAdded(first);
    NothingAdded(first + Adds("\n\n### Bear Researcher Analysis\n", bear));
    AddedAtEnd(first, "\n\n### Bear Researcher Analysis\n", bear);
    AddedAtEnd(first + Adds("\n\n### Bear Researcher Analysis\n", bear), "\n\n### Research Manager Decision\n", c.judge);
  }

  lemma NothingAdded(plan: string)
    ensures plan + "" == plan
  {
  }

  lemma AddedAtEnd(plan: string, heading: string, text: string)
    ensures text != "" ==> plan + Adds(heading, text) == plan + heading + text
    ensures text == "" ==> plan + Adds(heading, text) == plan
  {
  }

  lemma EndsWithLast<T>(front: seq<T>, last: seq<T>)
    ensures |front + last| >= |last| && (front + last)[|front + last| - |last|..] == last
  {
  }

  lemma StartsWithFirst<T>(first: seq<T>, more: seq<T>, rest: seq<T>)
    ensures first <= first + more + rest
  {
  }

  /** The manager's decision, under its heading, ends the plan. */
  lemma PlanEndsWithDecision(c: Chunk, before: Option<string>)
    requires c.judge != ""
    ensures PlanAfter(c, before).Some? && PyText.EndsWith(PlanAfter(c, before).value, "\n\n### Research Manager Decision\n" + c.judge)
  {
    hide LastLine, PlanAfter;
    PlanReads(c, before);
    hide PlanAfter;
    var last := "\n\n### Research Manager Decision\n" + c.judge;
    assert Adds("\n\n### Research Manager Decision\n", c.judge) == last;
    var bear := Adds("\n\n### Bear Researcher Analysis\n", LastLine(c.bear));
    EndsWithLast("### Bull Researcher Analysis\n" + LastLine(c.bull) + bear, last);
    EndsWithLast((if before == None then "None" else before.value) + bear, last);
  }

  /** Without a bull's line everything from before stays in front. */
  lemma PlanKeepsBefore(c: Chunk, before: Option<string>)
    requires LastLine(c.bull) == "" && before.Some?
    ensures PlanAfter(c, before).Some? && before.value <= PlanAfter(c, before).value
  {
    hide LastLine, PlanAfter, Adds;
    PlanReads(c, before);
    StartsWithFirst(before.value, Adds("\n\n### Bear Researcher Analysis\n", LastLine(c.bear)),
      Adds("\n\n### Research Manager Decision\n", c.judge));
  }
}
