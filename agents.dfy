/**
 * The 24-agent panel: two layers of twelve agents, a log of inter-agent
 * communications (newest first, 20 kept), a chatter feed (newest first, 10
 * kept), four system metrics kept inside fixed bands, and the buttons that
 * select an agent, nudge the metrics and file a system report.
 */
module Agents {
  import opened Wrappers
  import Text
  import RollingLog
  import Dashboard

  const CommunicationCap: nat := 20
  const ChatterCap: nat := 10
  const SystemReportReward: int := 25

  datatype AgentStatus = Active | Idle | Analyzing | Executing

  /** An agent card (its role, purpose, activity, insights and personality texts are not modelled). */
  datatype Agent = Agent(id: string, name: string, status: AgentStatus, layer: nat, icon: string)

  /** Layer 1: the coding agents. */
  const Layer1Agents: seq<Agent> := [
    Agent("codemate", "CodeMate", Analyzing, 1, "\U{1F91D}"),
    Agent("intelliprompt", "IntelliPrompt", Active, 1, "\U{1F9E0}"),
    Agent("profiler", "Profiler", Executing, 1, "\U{26A1}"),
    Agent("testtitan", "Test Titan", Active, 1, "\U{1F6E1}\U{FE0F}"),
    Agent("lintwhisperer", "Lint Whisperer", Idle, 1, "\U{2728}"),
    Agent("docuwriter", "DocuWriter", Analyzing, 1, "\U{1F4DA}"),
    Agent("refactorer", "Refactorer", Active, 1, "\U{1F504}"),
    Agent("bugseer", "BugSeer", Executing, 1, "\U{1F50D}"),
    Agent("patternguru", "Pattern Guru", Analyzing, 1, "\U{1F3D7}\U{FE0F}"),
    Agent("syntaxspirit", "Syntax Spirit", Idle, 1, "\U{1F47B}"),
    Agent("flowanalyzer", "Flow Analyzer", Active, 1, "\U{1F30A}"),
    Agent("codehistorian", "Code Historian", Analyzing, 1, "\U{1F4DC}")
  ]

  /** Layer 2: the utility agents. */
  const Layer2Agents: seq<Agent> := [
    Agent("taskwrangler", "Task Wrangler", Executing, 2, "\U{1F920}"),
    Agent("snippetsage", "Snippet Sage", Active, 2, "\U{1F4CB}"),
    Agent("gitguardian", "Git Guardian", Analyzing, 2, "\U{2694}\U{FE0F}"),
    Agent("buildbot", "BuildBot", Active, 2, "\U{1F916}"),
    Agent("flowmaster", "FlowMaster", Executing, 2, "\U{1F3AD}"),
    Agent("dependencyoracle", "Dependency Oracle", Analyzing, 2, "\U{1F52E}"),
    Agent("enviromentor", "EnviroMentor", Idle, 2, "\U{1F331}"),
    Agent("docucurator", "DocuCurator", Active, 2, "\U{1F4D6}"),
    Agent("debugcompanion", "Debug Companion", Executing, 2, "\U{1F415}"),
    Agent("releasesentinel", "Release Sentinel", Analyzing, 2, "\U{1F680}"),
    Agent("qualityauditor", "Quality Auditor", Active, 2, "\U{1F3AF}"),
    Agent("aioverseer", "AI Overseer", Analyzing, 2, "\U{1F441}\U{FE0F}")
  ]

  /** `allAgents.filter(a => a.status !== 'idle').length` */
  function CountActive(agents: seq<Agent>): (n: nat)
    ensures n <= |agents|
  {
    if agents == [] then 0
    else CountActive(agents[..|agents| - 1]) + (if agents[|agents| - 1].status != Idle then 1 else 0)
  }

  /** The active count of a concatenation is the sum of the counts. */
  lemma {:induction false} CountActiveAppend(s: seq<Agent>, t: seq<Agent>)
    ensures CountActive(s + t) == CountActive(s) + CountActive(t)
    decreases |t|
  {
    if t != [] {
      var t' := t[..|t| - 1];
      assert (s + t)[..|s + t| - 1] == s + t';
      assert (s + t)[|s + t| - 1] == t[|t| - 1];
      CountActiveAppend(s, t');
    } else {
      assert s + t == s;
    }
  }

  /** The count is exactly the number of positions holding a non-idle agent. */
  lemma {:induction false} CountActiveIsCardinality(s: seq<Agent>)
    ensures CountActive(s) == |set i | 0 <= i < |s| && s[i].status != Idle|
  {
    if s != [] {
      var p := s[..|s| - 1];
      CountActiveIsCardinality(p);
      var A := set i | 0 <= i < |p| && p[i].status != Idle;
      var B := set i | 0 <= i < |s| && s[i].status != Idle;
      if s[|s| - 1].status != Idle {
        assert B == A + {|s| - 1};
      } else {
        assert B == A;
      }
    }
  }

  /** Lint Whisperer and Syntax Spirit are the idle coders. */
  lemma Layer1ActiveCount()
    ensures CountActive(Layer1Agents) == 10
  {
    var L := Layer1Agents;
    assert L[..1][..0] == L[..0];
    assert CountActive(L[..1]) == 1;
    assert L[..2][..1] == L[..1];
    assert CountActive(L[..2]) == 2;
    assert L[..3][..2] == L[..2];
    assert CountActive(L[..3]) == 3;
    assert L[..4][..3] == L[..3];
    assert CountActive(L[..4]) == 4;
    assert L[..5][..4] == L[..4];
    assert CountActive(L[..5]) == 4;
    assert L[..6][..5] == L[..5];
    assert CountActive(L[..6]) == 5;
    assert L[..7][..6] == L[..6];
    assert CountActive(L[..7]) == 6;
    assert L[..8][..7] == L[..7];
    assert CountActive(L[..8]) == 7;
    assert L[..9][..8] == L[..8];
    assert CountActive(L[..9]) == 8;
    assert L[..10][..9] == L[..9];
    assert CountActive(L[..10]) == 8;
    assert L[..11][..10] == L[..10];
    assert CountActive(L[..11]) == 9;
    assert L[..12][..11] == L[..11];
    assert CountActive(L[..12]) == 10;
    assert L[..12] == L;
  }

  /** EnviroMentor is the one idle utility agent. */
  lemma Layer2ActiveCount()
    ensures CountActive(Layer2Agents) == 11
  {
    var L := Layer2Agents;
    assert L[..1][..0] == L[..0];
    assert CountActive(L[..1]) == 1;
    assert L[..2][..1] == L[..1];
    assert CountActive(L[..2]) == 2;
    assert L[..3][..2] == L[..2];
    assert CountActive(L[..3]) == 3;
    assert L[..4][..3] == L[..3];
    assert CountActive(L[..4]) == 4;
    assert L[..5][..4] == L[..4];
    assert CountActive(L[..5]) == 5;
    assert L[..6][..5] == L[..5];
    assert CountActive(L[..6]) == 6;
    assert L[..7][..6] == L[..6];
    assert CountActive(L[..7]) == 6;
    assert L[..8][..7] == L[..7];
    assert CountActive(L[..8]) == 7;
    assert L[..9][..8] == L[..8];
    assert CountActive(L[..9]) == 8;
    assert L[..10][..9] == L[..9];
    assert CountActive(L[..10]) == 9;
    assert L[..11][..10] == L[..10];
    assert CountActive(L[..11]) == 10;
    assert L[..12][..11] == L[..11];
    assert CountActive(L[..12]) == 11;
    assert L[..12] == L;
  }

  /** With the panel's tables, 21 of the 24 agents are active: two idle coders and one idle utility agent. */
  lemma ActiveAgentsOfTables()
    ensures |Layer1Agents| == 12 && |Layer2Agents| == 12
    ensures CountActive(Layer1Agents) == 10 && CountActive(Layer2Agents) == 11
    ensures CountActive(Layer1Agents + Layer2Agents) == 21
  {
    Layer1ActiveCount();
    Layer2ActiveCount();
    CountActiveAppend(Layer1Agents, Layer2Agents);
  }

  /** Every agent of a layer's table carries that layer's number. */
  lemma LayersOfTables()
    ensures forall i :: 0 <= i < |Layer1Agents| ==> Layer1Agents[i].layer == 1
    ensures forall i :: 0 <= i < |Layer2Agents| ==> Layer2Agents[i].layer == 2
  {
  }

  datatype CommunicationType = Suggestion | Alert | Collaboration | Insight

  const CommunicationTypes: seq<CommunicationType> := [Suggestion, Alert, Collaboration, Insight]

  /** One entry of the communication log (its timestamp is not modelled). */
  datatype Communication = Communication(from: string, to: string, message: string, kind: CommunicationType)

  const NameSeparator := ": "
  const OptimizationText := "Detected optimization opportunity in your analysis"
  const SharingText := "Sharing insight with "
  const FindingsText := " about recent findings"
  const CollaboratingText := "Collaborating on workflow improvement"
  const AnomalyText := "Alert: Anomaly detected in shared workspace"
  const CoordinationText := "Suggesting coordination on current task"

  /** The five message templates of a communication from `fromName` to `toName`. */
  function CommunicationMessage(k: nat, fromName: string, toName: string): (m: string)
    requires k < 5
    ensures Text.StartsWith(m, fromName + NameSeparator)
    ensures |m| > |fromName + NameSeparator|
  {
    var prefix := fromName + NameSeparator;
    var body :=
      if k == 0 then OptimizationText
      else if k == 1 then SharingText + toName + FindingsText
      else if k == 2 then CollaboratingText
      else if k == 3 then AnomalyText
      else CoordinationText;
    assert (prefix + body)[..|prefix|] == prefix;
    prefix + body
  }

  /** A chatter line: the sender's icon, a space, the message (its time prefix is not modelled). */
  function ChatterLine(icon: string, message: string): string {
    icon + " " + message
  }

  /** A chatter line about a communication names its sender right after the icon. */
  lemma ChatterLineNamesSender(icon: string, k: nat, fromName: string, toName: string)
    requires k < 5
    ensures Text.StartsWith(ChatterLine(icon, CommunicationMessage(k, fromName, toName)), icon + " " + fromName + NameSeparator)
  {
    ChatterLineKeepsPrefix(icon, CommunicationMessage(k, fromName, toName), fromName + NameSeparator);
  }

  lemma ChatterLineKeepsPrefix(icon: string, message: string, p: string)
    requires Text.StartsWith(message, p)
    ensures Text.StartsWith(ChatterLine(icon, message), icon + " " + p)
  {
    assert message == p + message[|p|..];
    assert ChatterLine(icon, message) == (icon + " " + p) + message[|p|..];
  }

  /** `Math.max(lo, Math.min(hi, x))` */
  function Clamp(lo: real, hi: real, x: real): (r: real)
    requires lo <= hi
    ensures lo <= r <= hi
    ensures lo <= x <= hi ==> r == x
    ensures x < lo ==> r == lo
    ensures x > hi ==> r == hi
  {
    if x > hi then hi else if x < lo then lo else x
  }

  /** The four system metrics. */
  datatype Metrics = Metrics(codeQuality: real, workflowEfficiency: real, agentSynergy: real, totalInsights: int)

  const InitialMetrics := Metrics(87.0, 92.0, 94.0, 156)

  /** The bands the periodic update keeps each metric in. */
  predicate InBands(m: Metrics) {
    && 85.0 <= m.codeQuality <= 95.0
    && 88.0 <= m.workflowEfficiency <= 98.0
    && 90.0 <= m.agentSynergy <= 98.0
  }

  /**
   * The metrics interval: each metric drifts by its drawn step and is
   * clamped to its band; the insight total grows by the drawn gain.
   */
  function DriftMetrics(m: Metrics, dq: real, dw: real, ds: real, gain: nat): (r: Metrics)
    ensures InBands(r)
    ensures r.totalInsights == m.totalInsights + gain >= m.totalInsights
    ensures InBands(m) && 85.0 <= m.codeQuality + dq <= 95.0 ==> r.codeQuality == m.codeQuality + dq
    ensures 88.0 <= m.workflowEfficiency + dw <= 98.0 ==> r.workflowEfficiency == m.workflowEfficiency + dw
    ensures 90.0 <= m.agentSynergy + ds <= 98.0 ==> r.agentSynergy == m.agentSynergy + ds
  {
    Metrics(
      Clamp(85.0, 95.0, m.codeQuality + dq),
      Clamp(88.0, 98.0, m.workflowEfficiency + dw),
      Clamp(90.0, 98.0, m.agentSynergy + ds),
      m.totalInsights + gain)
  }

  /** "Sync All Agents": synergy up by 2, never past 98, nothing else touched. */
  function SyncAll(m: Metrics): (r: Metrics)
    ensures r.agentSynergy == (if m.agentSynergy + 2.0 <= 98.0 then m.agentSynergy + 2.0 else 98.0)
    ensures r.agentSynergy >= m.agentSynergy || m.agentSynergy > 98.0
    ensures r.codeQuality == m.codeQuality && r.workflowEfficiency == m.workflowEfficiency
    ensures r.totalInsights == m.totalInsights
    ensures InBands(m) ==> InBands(r)
  {
    m.(agentSynergy := if m.agentSynergy + 2.0 < 98.0 then m.agentSynergy + 2.0 else 98.0)
  }

  /** "Optimize Workflows": efficiency up by 1, never past 98, nothing else touched. */
  function OptimizeWorkflows(m: Metrics): (r: Metrics)
    ensures r.workflowEfficiency == (if m.workflowEfficiency + 1.0 <= 98.0 then m.workflowEfficiency + 1.0 else 98.0)
    ensures r.workflowEfficiency >= m.workflowEfficiency || m.workflowEfficiency > 98.0
    ensures r.codeQuality == m.codeQuality && r.agentSynergy == m.agentSynergy
    ensures r.totalInsights == m.totalInsights
    ensures InBands(m) ==> InBands(r)
  {
    m.(workflowEfficiency := if m.workflowEfficiency + 1.0 < 98.0 then m.workflowEfficiency + 1.0 else 98.0)
  }

  /** Pressing either button often enough pins its metric at 98 and keeps it there. */
  lemma {:induction false} RepeatedSyncReachesCeiling(m: Metrics, n: nat)
    requires InBands(m) && n >= 4
    ensures SyncTimes(m, n).agentSynergy == 98.0
  {
    if n == 4 {
      SyncTimesSteps(m, 4);
    } else {
      RepeatedSyncReachesCeiling(m, n - 1);
      SyncTimesStaysInBands(m, n - 1);
    }
  }

  /** `n` presses of "Sync All Agents". */
  function SyncTimes(m: Metrics, n: nat): Metrics {
    if n == 0 then m else SyncAll(SyncTimes(m, n - 1))
  }

  lemma {:induction false} SyncTimesStaysInBands(m: Metrics, n: nat)
    requires InBands(m)
    ensures InBands(SyncTimes(m, n))
  {
    if n > 0 {
      SyncTimesStaysInBands(m, n - 1);
    }
  }

  /** Each press below the ceiling adds 2; so from the band's floor of 90, four presses reach 98. */
  lemma {:induction false} SyncTimesSteps(m: Metrics, n: nat)
    requires InBands(m)
    ensures SyncTimes(m, n).agentSynergy == (if m.agentSynergy + 2.0 * n as real <= 98.0 then m.agentSynergy + 2.0 * n as real else 98.0)
  {
    if n > 0 {
      SyncTimesSteps(m, n - 1);
      SyncTimesStaysInBands(m, n - 1);
    }
  }

  /** `setSelectedAgent(selectedAgent === id ? '' : id)`: a second click on the same card deselects it. */
  function Toggle(selected: string, id: string): (r: string)
    ensures selected == id ==> r == ""
    ensures selected != id ==> r == id
  {
    if selected == id then "" else id
  }

  /** Clicking the same card twice from no selection, or from that card, comes back to where it started. */
  lemma ToggleTwice(selected: string, id: string)
    requires selected == "" || selected == id
    ensures Toggle(Toggle(selected, id), id) == selected
  {
  }

  const SystemAgentName := "System"
  const ReportActivity := "Generated comprehensive system report"
  const ReportSummary := "System performing optimally. All neural pathways active."

  /** The report the "Generate Report" button files for the given agents and metrics. */
  function SystemReportOf(agents: seq<Agent>, m: Metrics): (r: Dashboard.Report)
    ensures r.agent == SystemAgentName && r.reward == SystemReportReward
    ensures r.details.Some?
    ensures r.details.value.activeAgents == CountActive(agents) <= r.details.value.totalAgents == |agents|
    ensures r.details.value.codeQuality == m.codeQuality && r.details.value.workflowEfficiency == m.workflowEfficiency
    ensures r.details.value.agentSynergy == m.agentSynergy && r.details.value.totalInsights == m.totalInsights
  {
    Dashboard.Report(SystemAgentName, ReportActivity, SystemReportReward,
      Some(Dashboard.SystemReport(m.codeQuality, m.workflowEfficiency, m.agentSynergy, m.totalInsights,
        CountActive(agents), |agents|, ReportSummary)))
  }

  class AgentFramework {
    const page: Dashboard.HomePage
    const layer1: seq<Agent>
    const layer2: seq<Agent>
    var activeLayer: nat
    var selectedAgent: string
    var communications: seq<Communication>
    var agentChatter: seq<string>
    var metrics: Metrics

    /**
     * Both logs respect their caps, nobody in the log talks to itself, the
     * metrics stay in their bands, and the ledger is not negative.
     */
    ghost predicate Valid()
      reads this, page
    {
      && |communications| <= CommunicationCap
      && |agentChatter| <= ChatterCap
      && (forall i :: 0 <= i < |communications| ==> communications[i].from != communications[i].to)
      && InBands(metrics)
      && (activeLayer == 1 || activeLayer == 2)
      && layer1 == Layer1Agents && layer2 == Layer2Agents
      && page.Valid()
    }

    /** `allAgents`: the layer-1 agents, then the layer-2 ones. */
    function AllAgents(): seq<Agent> {
      layer1 + layer2
    }

    /** The cards on screen: the active layer's agents. */
    function CurrentAgents(): (r: seq<Agent>)
      reads this, page
      requires Valid()
      ensures |r| == 12
      ensures forall i :: 0 <= i < |r| ==> r[i].layer == activeLayer
      ensures forall a :: a in AllAgents() && a.layer == activeLayer ==> a in r
    {
      LayersOfTables();
      if activeLayer == 1 then layer1 else layer2
    }

    constructor (page: Dashboard.HomePage)
      requires page.Valid()
      ensures this.page == page && Valid()
      ensures layer1 == Layer1Agents && layer2 == Layer2Agents
      ensures activeLayer == 1 && selectedAgent == ""
      ensures communications == [] && agentChatter == []
      ensures metrics == InitialMetrics
    {
      this.page := page;
      layer1 := Layer1Agents;
      layer2 := Layer2Agents;
      activeLayer := 1;
      selectedAgent := "";
      communications := [];
      agentChatter := [];
      metrics := InitialMetrics;
    }

    /**
     * The communication interval, with the sender and recipient drawn from
     * all agents, the message template, the type and the report reward in
     * [2, 6]. When both draws are the same agent nothing happens; otherwise
     * the communication and its chatter line go in front of their logs and
     * the sender files a report.
     */
    method CommunicationTick(fromPick: nat, toPick: nat, messagePick: nat, typePick: nat, reward: int)
      requires Valid()
      requires fromPick < |AllAgents()| && toPick < |AllAgents()|
      requires messagePick < 5 && typePick < |CommunicationTypes| && 2 <= reward <= 6
      modifies this`communications, this`agentChatter, page`agentReports
      ensures Valid()
      ensures var from := AllAgents()[fromPick]; var to := AllAgents()[toPick];
        from.id == to.id ==>
          && communications == old(communications) && agentChatter == old(agentChatter)
          && page.agentReports == old(page.agentReports)
      ensures var from := AllAgents()[fromPick]; var to := AllAgents()[toPick];
        var message := CommunicationMessage(messagePick, from.name, to.name);
        from.id != to.id ==>
          && communications == RollingLog.PushFront(
               Communication(from.id, to.id, message, CommunicationTypes[typePick]), old(communications), CommunicationCap)
          && agentChatter == RollingLog.PushFront(ChatterLine(from.icon, message), old(agentChatter), ChatterCap)
          && page.agentReports == RollingLog.PushFront(
               Dashboard.Report(from.name, message, reward, None), old(page.agentReports), Dashboard.ReportCap)
    {
      var agents := AllAgents();
      var from := agents[fromPick];
      var to := agents[toPick];
      if from.id != to.id {
        var message := CommunicationMessage(messagePick, from.name, to.name);
        var comm := Communication(from.id, to.id, message, CommunicationTypes[typePick]);
        communications := [comm] + communications[..RollingLog.Min(|communications|, CommunicationCap - 1)];
        agentChatter := [ChatterLine(from.icon, message)] + agentChatter[..RollingLog.Min(|agentChatter|, ChatterCap - 1)];
        page.HandleAgentReport(Dashboard.Report(from.name, message, reward, None));
      }
    }

    /** The metrics interval: see `DriftMetrics`; `Math.random()` steps in [-1, 1) for two metrics and [-0.5, 0.5) for synergy. */
    method MetricsTick(dq: real, dw: real, ds: real, gain: nat)
      requires Valid()
      requires -1.0 <= dq < 1.0 && -1.0 <= dw < 1.0 && -0.5 <= ds < 0.5 && gain < 3
      modifies this`metrics
      ensures Valid()
      ensures metrics == DriftMetrics(old(metrics), dq, dw, ds, gain)
      ensures metrics.totalInsights >= old(metrics.totalInsights)
    {
      metrics := DriftMetrics(metrics, dq, dw, ds, gain);
    }

    /** Clicking an agent card toggles its selection. */
    method SelectAgent(id: string)
      modifies this`selectedAgent
      ensures selectedAgent == Toggle(old(selectedAgent), id)
      ensures selectedAgent == "" || selectedAgent == id
    {
      selectedAgent := if selectedAgent == id then "" else id;
    }

    /** The layer buttons. */
    method SetLayer(layer: nat)
      requires Valid() && (layer == 1 || layer == 2)
      modifies this`activeLayer
      ensures Valid() && activeLayer == layer
    {
      activeLayer := layer;
    }

    /** "Sync All Agents". */
    method SyncAllAgents()
      requires Valid()
      modifies this`metrics
      ensures Valid()
      ensures metrics == SyncAll(old(metrics))
    {
      metrics := metrics.(agentSynergy := if metrics.agentSynergy + 2.0 < 98.0 then metrics.agentSynergy + 2.0 else 98.0);
    }

    /** "Optimize Workflows". */
    method OptimizeWorkflowsButton()
      requires Valid()
      modifies this`metrics
      ensures Valid()
      ensures metrics == OptimizeWorkflows(old(metrics))
    {
      metrics := metrics.(workflowEfficiency := if metrics.workflowEfficiency + 1.0 < 98.0 then metrics.workflowEfficiency + 1.0 else 98.0);
    }

    /** "Generate Report": a report over all agents and the current metrics, with reward 25, in front of the report list. */
    method GenerateReport()
      requires Valid()
      modifies page`agentReports
      ensures Valid()
      ensures page.agentReports == RollingLog.PushFront(SystemReportOf(AllAgents(), metrics), old(page.agentReports), Dashboard.ReportCap)
    {
      page.HandleAgentReport(SystemReportOf(AllAgents(), metrics));
    }
  }

  /** With the panel's tables the report counts 21 active agents out of 24. */
  lemma GeneratedReportCounts(m: Metrics)
    ensures SystemReportOf(Layer1Agents + Layer2Agents, m).details.value.activeAgents == 21
    ensures SystemReportOf(Layer1Agents + Layer2Agents, m).details.value.totalAgents == 24
  {
    ActiveAgentsOfTables();
  }
}
