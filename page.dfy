/**
 * The top-level page: the Dev-Coin ledger, the rolling list of agent
 * reports, the active mode and the boot flag. The panels receive the
 * ledger and the report list through `onDevCoinUpdate` and
 * `onAgentReport`; here those are the methods `HandleDevCoinUpdate` and
 * `HandleAgentReport` of the one `HomePage` object every panel holds.
 */
module Dashboard {
  import opened Wrappers
  import RollingLog

  const InitialDevCoins: int := 100
  const ReportCap: nat := 10

  /** The summary attached to a "Generate Report" entry. */
  datatype SystemReport = SystemReport(
    codeQuality: real,
    workflowEfficiency: real,
    agentSynergy: real,
    totalInsights: int,
    activeAgents: nat,
    totalAgents: nat,
    summary: string)

  /** One entry of the report list (its timestamp is not modelled). */
  datatype Report = Report(agent: string, activity: string, reward: int, details: Option<SystemReport>)

  /** The four panels the mode switcher chooses between. */
  datatype Panel = MotherboardPanel | ShrinePanel | DevToolsPanel | AgentsPanel

  /** The mode string under which a panel is rendered. */
  function ModeOf(p: Panel): string {
    match p
    case MotherboardPanel => "motherboard"
    case ShrinePanel => "shrine"
    case DevToolsPanel => "devtools"
    case AgentsPanel => "agents"
  }

  const AllPanels: set<Panel> := {MotherboardPanel, ShrinePanel, DevToolsPanel, AgentsPanel}

  /**
   * The panels on screen: none before boot (the boot screen is shown
   * instead), afterwards each panel whose mode equals the active mode.
   */
  function RenderedPanels(booted: bool, mode: string): set<Panel> {
    if !booted then {} else set p | p in AllPanels && ModeOf(p) == mode
  }

  /** For any mode string at most one panel is on screen, and exactly one for the four known modes. */
  lemma AtMostOnePanel(booted: bool, mode: string)
    ensures |RenderedPanels(booted, mode)| <= 1
    ensures booted && mode in {"motherboard", "shrine", "devtools", "agents"} ==> |RenderedPanels(booted, mode)| == 1
  {
    var r := RenderedPanels(booted, mode);
    if booted {
      if mode == "motherboard" {
        assert r == {MotherboardPanel};
      } else if mode == "shrine" {
        assert r == {ShrinePanel};
      } else if mode == "devtools" {
        assert r == {DevToolsPanel};
      } else if mode == "agents" {
        assert r == {AgentsPanel};
      } else {
        assert r == {};
      }
    }
  }

  class HomePage {
    var isBooted: bool
    var activeMode: string
    var devCoins: int
    var agentReports: seq<Report>

    /** The ledger never goes negative and the report list respects its cap. */
    ghost predicate Valid()
      reads this
    {
      devCoins >= 0 && |agentReports| <= ReportCap
    }

    constructor ()
      ensures !isBooted && activeMode == "motherboard"
      ensures devCoins == InitialDevCoins && agentReports == []
      ensures Valid()
    {
      isBooted := false;
      activeMode := "motherboard";
      devCoins := InitialDevCoins;
      agentReports := [];
    }

    /** The boot timer: the flag goes to true; no operation sets it back. */
    method Boot()
      modifies this`isBooted
      ensures isBooted
    {
      isBooted := true;
    }

    method HandleModeSwitch(mode: string)
      modifies this`activeMode
      ensures activeMode == mode
    {
      activeMode := mode;
    }

    /** `onDevCoinUpdate(amount)`: the signed change of the ledger, nothing else. */
    method HandleDevCoinUpdate(amount: int)
      modifies this`devCoins
      ensures devCoins == old(devCoins) + amount
    {
      devCoins := devCoins + amount;
    }

    /** `onAgentReport(report)`: the report goes in front, the list keeps its ten newest entries. */
    method HandleAgentReport(report: Report)
      modifies this`agentReports
      ensures agentReports == RollingLog.PushFront(report, old(agentReports), ReportCap)
      ensures old(|agentReports|) <= ReportCap ==> |agentReports| <= ReportCap
    {
      agentReports := [report] + agentReports[..RollingLog.Min(|agentReports|, ReportCap - 1)];
    }

    /** The panels on screen in the current state. */
    function Rendered(): (r: set<Panel>)
      reads this
      ensures |r| <= 1
    {
      AtMostOnePanel(isBooted, activeMode);
      RenderedPanels(isBooted, activeMode)
    }
  }
}
