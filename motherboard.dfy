/**
 * The Motherboard panel: a table of board components, a terminal whose
 * buffer keeps the 50 newest lines (newest last), an AI chat, and the
 * AI-coprocessor load gauge. Commands are dispatched on their trimmed,
 * lower-cased text.
 */
module Motherboard {
  import opened Wrappers
  import Text
  import RollingLog
  import Dashboard

  const TerminalCap: nat := 50
  const ComponentClickReward: int := 2
  const AIReplyReward: int := 5

  datatype Status = Online | Offline | Processing

  /** `status.toUpperCase()` */
  function StatusLabel(s: Status): string {
    match s
    case Online => "ONLINE"
    case Offline => "OFFLINE"
    case Processing => "PROCESSING"
  }

  /** A board component (its type, layout box and description are presentation only). */
  datatype Component = Component(id: string, name: string, status: Status, temperature: nat, usage: nat)

  const ComponentTable: seq<Component> := [
    Component("cpu", "Neural Processing Unit", Processing, 45, 23),
    Component("ai-core", "AI Coprocessor v2.0", Online, 38, 15),
    Component("ram-1", "Memory Bank 1", Online, 32, 42),
    Component("ram-2", "Memory Bank 2", Online, 34, 38),
    Component("gpu", "AI Graphics Accelerator", Processing, 72, 67),
    Component("storage", "Storage Controller", Online, 41, 28),
    Component("network", "Network Interface", Online, 29, 12)
  ]

  /** The terminal line `components` prints for one component. */
  function ComponentLine(c: Component): string {
    c.name + ": " + StatusLabel(c.status) + " (" + Text.NatStr(c.usage) + "% load, "
    + Text.NatStr(c.temperature) + "°C)"
  }

  /** One line per component, in order. */
  function ComponentLines(cs: seq<Component>): (lines: seq<string>)
    ensures |lines| == |cs|
    ensures forall i :: 0 <= i < |cs| ==> lines[i] == ComponentLine(cs[i])
  {
    seq(|cs|, i requires 0 <= i < |cs| => ComponentLine(cs[i]))
  }

  const Banner: string := "\U{1F680} Motherboard OS Terminal v1.0"
  const InitialTerminal: seq<string> := [
    Banner,
    "\U{1F916} 24-Agent Framework: ONLINE",
    "\U{26A1} Neural pathways connected..."
  ]
  const HelpLine: string := "Available commands: status, components, ai-status, clear, shrine, agents, mine"
  const AIStatusLine: string := "AI Coprocessor: ONLINE | Load: 15% | 24-Agent Framework: ACTIVE"
  const ShrineLine: string := "\U{1F6D5} Shrine System integration ready - Use mode switcher above"
  const AgentsLine: string := "\U{1F916} 24-Agent Framework active - Analyzing code patterns in background"

  function StatusLine(uptime: nat): string {
    "System Status: OPERATIONAL | AI: ONLINE | Agents: 24/24 | Uptime: " + Text.NatStr(uptime) + "min"
  }

  function MinedLine(mined: nat): string {
    "⛏️ Mining complete! Earned " + Text.NatStr(mined) + " Dev Coins"
  }

  function NotFoundLine(cmd: string): string {
    "Command not found: " + cmd + ". Type 'help' for available commands."
  }

  function EchoLine(command: string): string {
    "$ " + command
  }

  /** `command.toLowerCase().trim()`: the form commands are dispatched on. */
  function Normalize(command: string): string {
    Text.Trim(Text.ToLower(command))
  }

  /** The terminal's command table; anything else is unknown and keeps its text. */
  datatype Command = Help | Status | Components | AIStatus | Clear | ShrineInfo | AgentsInfo | Mine | Unknown(text: string)

  /** The dispatcher's tests, in the order it makes them. */
  const CommandTable: seq<(string, Command)> := [
    ("help", Help), ("status", Status), ("components", Components), ("ai-status", AIStatus),
    ("clear", Clear), ("shrine", ShrineInfo), ("agents", AgentsInfo), ("mine", Mine)
  ]

  /** The command of the first entry named `cmd`, or `Unknown(cmd)` when no entry is. */
  function Lookup(cmd: string, table: seq<(string, Command)>): Command {
    if table == [] then Unknown(cmd)
    else if table[0].0 == cmd then table[0].1
    else Lookup(cmd, table[1..])
  }

  /** A lookup finds the first entry with the name, and is unknown exactly when no entry has it. */
  lemma {:induction false} LookupFirstMatch(cmd: string, table: seq<(string, Command)>)
    ensures (forall i :: 0 <= i < |table| ==> table[i].0 != cmd) ==> Lookup(cmd, table) == Unknown(cmd)
    ensures forall i :: 0 <= i < |table| && table[i].0 == cmd && (forall j :: 0 <= j < i ==> table[j].0 != cmd) ==>
      Lookup(cmd, table) == table[i].1
  {
    if table != [] {
      LookupFirstMatch(cmd, table[1..]);
      forall i | 0 <= i < |table| && table[i].0 == cmd && (forall j :: 0 <= j < i ==> table[j].0 != cmd)
        ensures Lookup(cmd, table) == table[i].1
      {
        if i > 0 {
          assert table[0].0 != cmd;
          assert forall j :: 0 <= j < i - 1 ==> table[1..][j].0 != cmd by {
            forall j | 0 <= j < i - 1 ensures table[1..][j].0 != cmd {
              assert table[1..][j] == table[j + 1];
            }
          }
          assert table[1..][i - 1] == table[i];
        }
      }
      if forall i :: 0 <= i < |table| ==> table[i].0 != cmd {
        assert table[0].0 != cmd;
        assert forall i :: 0 <= i < |table[1..]| ==> table[1..][i].0 != cmd by {
          forall i | 0 <= i < |table[1..]| ensures table[1..][i].0 != cmd {
            assert table[1..][i] == table[i + 1];
          }
        }
      }
    }
  }

  /** The branch of the dispatcher a normalised command takes. */
  function Parse(cmd: string): Command {
    Lookup(cmd, CommandTable)
  }

  /** Any text that names no command is unknown as itself. */
  lemma ParseUnknown(cmd: string)
    requires cmd !in {"help", "status", "components", "ai-status", "clear", "shrine", "agents", "mine"}
    ensures Parse(cmd) == Unknown(cmd)
  {
    LookupFirstMatch(cmd, CommandTable);
  }

  /** Each command name runs its own branch. */
  lemma ParseKnown()
    ensures Parse("help") == Help && Parse("status") == Status && Parse("components") == Components
    ensures Parse("ai-status") == AIStatus && Parse("clear") == Clear && Parse("shrine") == ShrineInfo
    ensures Parse("agents") == AgentsInfo && Parse("mine") == Mine
  {
  }

  /**
   * The lines a command prints after its echo on a board with components
   * `board` (`clear` prints none: it resets the buffer instead). `uptime`
   * and `mined` are the random draws of `status` and `mine`.
   */
  function Reply(c: Command, uptime: nat, mined: nat, board: seq<Component>): seq<string> {
    match c
    case Help => [HelpLine]
    case Status => [StatusLine(uptime)]
    case Components => ComponentLines(board)
    case AIStatus => [AIStatusLine]
    case Clear => []
    case ShrineInfo => [ShrineLine]
    case AgentsInfo => [AgentsLine]
    case Mine => [MinedLine(mined)]
    case Unknown(cmd) => [NotFoundLine(cmd)]
  }

  /** Coins a command pays: `mine` its draw, every other command nothing. */
  function Payout(c: Command, mined: nat): int {
    if c == Mine then mined else 0
  }

  /** The terminal buffer `t` after the dispatcher runs `c`: reset to the banner by `clear`, otherwise `Reply` appended and the 50 newest lines kept. */
  function AfterCommand(c: Command, t: seq<string>, uptime: nat, mined: nat, board: seq<Component>): seq<string> {
    if c == Clear then [Banner] else RollingLog.KeepLast(t + Reply(c, uptime, mined, board), TerminalCap)
  }

  /**
   * Echoing a command and then running it leaves the 50 newest of the old
   * lines, the echo and the reply (or the banner alone, for `clear`); the
   * buffer never exceeds its cap.
   */
  lemma EchoThenRun(c: Command, t: seq<string>, echo: string, uptime: nat, mined: nat, board: seq<Component>)
    ensures c == Clear ==> AfterCommand(c, RollingLog.PushBack(t, echo, TerminalCap), uptime, mined, board) == [Banner]
    ensures c != Clear ==>
      AfterCommand(c, RollingLog.PushBack(t, echo, TerminalCap), uptime, mined, board)
      == RollingLog.KeepLast(t + [echo] + Reply(c, uptime, mined, board), TerminalCap)
    ensures |AfterCommand(c, t, uptime, mined, board)| <= TerminalCap
  {
    RollingLog.KeepLastAbsorbs(t + [echo], Reply(c, uptime, mined, board), TerminalCap);
  }

  /** Every command but `components` and `clear` prints one line, `components` one per component, `clear` none. */
  lemma ReplySizes(c: Command, uptime: nat, mined: nat, board: seq<Component>)
    ensures c == Components ==> |Reply(c, uptime, mined, board)| == |board|
    ensures c == Clear ==> Reply(c, uptime, mined, board) == []
    ensures c != Components && c != Clear ==> |Reply(c, uptime, mined, board)| == 1
  {
  }

  /** A command whose normalised text names no command prints only the not-found line with that text, and pays nothing. */
  lemma UnknownCommand(command: string, uptime: nat, mined: nat, board: seq<Component>)
    requires Normalize(command) !in {"help", "status", "components", "ai-status", "clear", "shrine", "agents", "mine"}
    ensures Reply(Parse(Normalize(command)), uptime, mined, board) == [NotFoundLine(Normalize(command))]
    ensures Payout(Parse(Normalize(command)), mined) == 0
  {
    ParseUnknown(Normalize(command));
  }

  /** `components` prints the table in its own order. */
  lemma ComponentsInTableOrder(uptime: nat, mined: nat)
    ensures |ComponentTable| == 7
    ensures forall i :: 0 <= i < |ComponentTable| ==>
      Reply(Components, uptime, mined, ComponentTable)[i] == ComponentLine(ComponentTable[i])
  {
  }

  /** Case does not change which command runs: lower-casing first normalises to the same text. */
  lemma NormalizeIgnoresCase(command: string)
    ensures Normalize(Text.ToLower(command)) == Normalize(command)
  {
    Text.ToLowerIdempotent(command);
  }

  /** Blanks around a command do not change which command runs. */
  lemma NormalizeIgnoresBlanks(w: string, command: string, w2: string)
    requires Text.IsBlank(w) && Text.IsBlank(w2)
    ensures Normalize(w + command + w2) == Normalize(command)
  {
    Text.ToLowerAppend(w + command, w2);
    Text.ToLowerAppend(w, command);
    Text.BlankHasNoCase(w);
    Text.BlankHasNoCase(w2);
    Text.TrimIgnoresSurroundingBlanks(w, Text.ToLower(command), w2);
  }

  datatype Role = User | Assistant
  datatype ChatEntry = ChatEntry(role: Role, message: string)

  const Greeting: ChatEntry :=
    ChatEntry(Assistant, "Neural pathways connected. AI coprocessor online and ready for interfacing.")
  const AIResponses: seq<string> := [
    "Neural pathways processing your request. Analysis complete.",
    "Quantum circuits engaged. I detect patterns in your code that could be optimized.",
    "AI coprocessor running diagnostics. System performance is optimal.",
    "Processing through 24-agent framework. Multiple insights generated.",
    "Neural network activated. Your development workflow shows 87% efficiency.",
    "Analyzing codebase... Found 3 potential improvements. Shall I elaborate?"
  ]
  const AgentNames: seq<string> := ["CodeMate", "IntelliPrompt", "BugSeer", "TestTitan", "Profiler"]
  const AgentActivities: seq<string> := [
    "detected performance optimization opportunity",
    "completed code analysis scan",
    "found potential bug pattern",
    "generated test suggestions",
    "optimized memory usage"
  ]

  const InitialAILoad: real := 15.0
  const MaxAILoad: real := 100.0
  const AIChatLoad: real := 20.0

  /** `Math.min(load + 20, 100)` */
  function RaisedLoad(load: real): (r: real)
    ensures r <= MaxAILoad
    ensures r == load + AIChatLoad || r == MaxAILoad
    ensures load <= MaxAILoad - AIChatLoad ==> r == load + AIChatLoad
    ensures load >= 0.0 ==> r >= 0.0
  {
    if load + AIChatLoad < MaxAILoad then load + AIChatLoad else MaxAILoad
  }

  class MotherboardOS {
    const page: Dashboard.HomePage
    const components: seq<Component>
    var selectedComponent: Option<Component>
    var terminalOutput: seq<string>
    var terminalInput: string
    var showAI: bool
    var aiChat: seq<ChatEntry>
    var aiInput: string
    var aiLoad: real

    /** The terminal respects its cap, the gauge stays within 0..100, a selection is a board component. */
    ghost predicate Valid()
      reads this, page
    {
      && |terminalOutput| <= TerminalCap
      && 0.0 <= aiLoad <= MaxAILoad
      && (selectedComponent.Some? ==> selectedComponent.value in components)
      && page.Valid()
    }

    constructor (page: Dashboard.HomePage)
      requires page.Valid()
      ensures this.page == page && components == ComponentTable && Valid()
      ensures selectedComponent == None && terminalOutput == InitialTerminal && terminalInput == ""
      ensures !showAI && aiChat == [Greeting] && aiInput == "" && aiLoad == InitialAILoad
    {
      this.page := page;
      components := ComponentTable;
      selectedComponent := None;
      terminalOutput := InitialTerminal;
      terminalInput := "";
      showAI := false;
      aiChat := [Greeting];
      aiInput := "";
      aiLoad := InitialAILoad;
    }

    /** `addTerminalMessage`: the line goes last and the 50 newest lines are kept. */
    method AddTerminalMessage(message: string)
      modifies this`terminalOutput
      ensures terminalOutput == RollingLog.KeepLast(old(terminalOutput) + [message], TerminalCap)
    {
      terminalOutput := RollingLog.KeepLast(terminalOutput + [message], TerminalCap);
    }

    /** The terminal's input field. */
    method SetTerminalInput(text: string)
      modifies this`terminalInput
      ensures terminalInput == text
    {
      terminalInput := text;
    }

    /**
     * `handleTerminalCommand`. Blank input changes nothing. Otherwise the raw
     * command is echoed, its normalised form runs, and the input is
     * cleared: `clear` leaves the banner alone in the buffer; every other
     * command leaves the 50 newest of the old lines, the echo and its
     * `Reply`; `mine` pays `mined` coins and no other command pays;
     * `ai-status` opens the AI panel.
     */
    method HandleTerminalCommand(command: string, uptime: nat, mined: nat)
      requires Valid() && uptime < 120 && 10 <= mined < 35
      modifies this`terminalOutput, this`terminalInput, this`showAI, page`devCoins
      ensures Valid()
      ensures Text.IsBlank(command) ==>
        && terminalOutput == old(terminalOutput) && terminalInput == old(terminalInput)
        && showAI == old(showAI) && page.devCoins == old(page.devCoins)
      ensures !Text.IsBlank(command) ==>
        var c := Parse(Normalize(command));
        && terminalInput == ""
        && terminalOutput == AfterCommand(c, RollingLog.PushBack(old(terminalOutput), EchoLine(command), TerminalCap),
                                          uptime, mined, components)
        && page.devCoins == old(page.devCoins) + Payout(c, mined)
        && showAI == (old(showAI) || c == AIStatus)
    {
      if Text.IsBlank(command) {
        return;
      }
      AddTerminalMessage(EchoLine(command));
      var c := Parse(Normalize(command));
      Execute(c, uptime, mined);
      terminalInput := "";
    }

    /**
     * The dispatcher of `handleTerminalCommand`, run on a parsed command:
     * `clear` resets the buffer to the banner; every other command appends
     * its `Reply` (the 50 newest lines are kept), `components` one line per
     * component in table order.
     */
    method Execute(c: Command, uptime: nat, mined: nat)
      requires Valid() && uptime < 120 && 10 <= mined < 35
      modifies this`terminalOutput, this`showAI, page`devCoins
      ensures Valid()
      ensures terminalOutput == AfterCommand(c, old(terminalOutput), uptime, mined, components)
      ensures page.devCoins == old(page.devCoins) + Payout(c, mined)
      ensures showAI == (old(showAI) || c == AIStatus)
    {
      match c {
        case Help =>
          AddTerminalMessage(HelpLine);
        case Status =>
          AddTerminalMessage(StatusLine(uptime));
        case Components =>
          PrintComponents();
        case AIStatus =>
          AddTerminalMessage(AIStatusLine);
          showAI := true;
        case Clear =>
          terminalOutput := [Banner];
        case ShrineInfo =>
          AddTerminalMessage(ShrineLine);
        case AgentsInfo =>
          AddTerminalMessage(AgentsLine);
        case Mine =>
          page.HandleDevCoinUpdate(mined);
          AddTerminalMessage(MinedLine(mined));
        case Unknown(cmd) =>
          AddTerminalMessage(NotFoundLine(cmd));
      }
    }

    /**
     * The `components` branch: one line per component, in table order, each
     * pushed like any other line; together they leave the 50 newest of the
     * old lines and the component lines.
     */
    method PrintComponents()
      requires |terminalOutput| <= TerminalCap
      modifies this`terminalOutput
      ensures terminalOutput == RollingLog.PushBackAll(old(terminalOutput), ComponentLines(components), TerminalCap)
      ensures terminalOutput == RollingLog.KeepLast(old(terminalOutput) + ComponentLines(components), TerminalCap)
    {
      ghost var start := terminalOutput;
      ghost var lines := ComponentLines(components);
      assert start + lines[..0] == start;
      var i := 0;
      while i < |components|
        invariant 0 <= i <= |components|
        invariant terminalOutput == RollingLog.KeepLast(start + lines[..i], TerminalCap)
      {
        var line := ComponentLine(components[i]);
        RollingLog.KeepLastAbsorbs(start + lines[..i], [line], TerminalCap);
        assert lines[..i + 1] == lines[..i] + [line];
        assert start + lines[..i + 1] == start + lines[..i] + [line];
        AddTerminalMessage(line);
        i := i + 1;
      }
      assert lines[..i] == lines;
      RollingLog.PushBackAllContents(start, lines, TerminalCap);
    }

    /** `handleComponentClick`: the component is selected, logged with its status, and 2 coins are paid. */
    method HandleComponentClick(c: Component)
      requires Valid() && c in components
      modifies this`selectedComponent, this`terminalOutput, page`devCoins
      ensures Valid()
      ensures selectedComponent == Some(c)
      ensures page.devCoins == old(page.devCoins) + ComponentClickReward
      ensures terminalOutput == RollingLog.PushBack(old(terminalOutput),
        "\U{1F50D} " + c.name + " selected - Status: " + StatusLabel(c.status), TerminalCap)
    {
      selectedComponent := Some(c);
      AddTerminalMessage("\U{1F50D} " + c.name + " selected - Status: " + StatusLabel(c.status));
      page.HandleDevCoinUpdate(ComponentClickReward);
    }

    /** Closing the component details. */
    method ClearSelection()
      requires Valid()
      modifies this`selectedComponent
      ensures Valid() && selectedComponent == None
    {
      selectedComponent := None;
    }

    /** The AI panel's open and close buttons. */
    method SetShowAI(visible: bool)
      requires Valid()
      modifies this`showAI
      ensures Valid() && showAI == visible
    {
      showAI := visible;
    }

    /** The AI chat's input field. */
    method SetAIInput(text: string)
      modifies this`aiInput
      ensures aiInput == text
    {
      aiInput := text;
    }

    /**
     * `handleAIChat`. Blank input changes nothing. Otherwise the message, as
     * typed, is appended as the user's, the gauge rises by 20 up to 100, the
     * input is cleared, and `replyScheduled` says the delayed reply was set.
     */
    method HandleAIChat(message: string) returns (replyScheduled: bool)
      requires Valid()
      modifies this`aiChat, this`aiLoad, this`aiInput
      ensures Valid()
      ensures Text.IsBlank(message) ==>
        !replyScheduled && aiChat == old(aiChat) && aiLoad == old(aiLoad) && aiInput == old(aiInput)
      ensures !Text.IsBlank(message) ==>
        && replyScheduled
        && aiChat == old(aiChat) + [ChatEntry(User, message)]
        && aiLoad == RaisedLoad(old(aiLoad))
        && aiInput == ""
    {
      if Text.IsBlank(message) {
        return false;
      }
      aiChat := aiChat + [ChatEntry(User, message)];
      aiLoad := if aiLoad + AIChatLoad < MaxAILoad then aiLoad + AIChatLoad else MaxAILoad;
      aiInput := "";
      replyScheduled := true;
    }

    /** The delayed reply: the `pick`-th canned answer is appended and 5 coins are paid. */
    method AIReply(pick: nat)
      requires Valid() && pick < |AIResponses|
      modifies this`aiChat, page`devCoins
      ensures Valid()
      ensures aiChat == old(aiChat) + [ChatEntry(Assistant, AIResponses[pick])]
      ensures page.devCoins == old(page.devCoins) + AIReplyReward
    {
      aiChat := aiChat + [ChatEntry(Assistant, AIResponses[pick])];
      page.HandleDevCoinUpdate(AIReplyReward);
    }

    /** The Mine button: `mined` (5..19) coins are paid and logged. */
    method QuickMine(mined: nat)
      requires Valid() && 5 <= mined < 20
      modifies this`terminalOutput, page`devCoins
      ensures Valid()
      ensures page.devCoins == old(page.devCoins) + mined
      ensures terminalOutput == RollingLog.PushBack(old(terminalOutput),
        "⛏️ Quick mine! Earned " + Text.NatStr(mined) + " Dev Coins", TerminalCap)
    {
      page.HandleDevCoinUpdate(mined);
      AddTerminalMessage("⛏️ Quick mine! Earned " + Text.NatStr(mined) + " Dev Coins");
    }

    /**
     * The agent-activity part of the once-a-second tick, when its 10% draw
     * `fires`: a report with its own reward draw goes to the page, a second
     * draw `reward` is paid and logged.
     */
    method AgentActivityTick(fires: bool, agent: nat, activity: nat, reportReward: int, reward: nat)
      requires Valid()
      requires agent < |AgentNames| && activity < |AgentActivities|
      requires 5 <= reportReward < 15 && 5 <= reward < 15
      modifies this`terminalOutput, page`devCoins, page`agentReports
      ensures Valid()
      ensures !fires ==>
        && terminalOutput == old(terminalOutput) && page.devCoins == old(page.devCoins)
        && page.agentReports == old(page.agentReports)
      ensures fires ==>
        && page.agentReports == RollingLog.PushFront(
             Dashboard.Report(AgentNames[agent], AgentActivities[activity], reportReward, None),
             old(page.agentReports), Dashboard.ReportCap)
        && page.devCoins == old(page.devCoins) + reward
        && terminalOutput == RollingLog.PushBack(old(terminalOutput),
             "\U{1F916} " + AgentNames[agent] + ": " + AgentActivities[activity]
             + " (+" + Text.NatStr(reward) + " Dev Coins)", TerminalCap)
    {
      if fires {
        page.HandleAgentReport(Dashboard.Report(AgentNames[agent], AgentActivities[activity], reportReward, None));
        page.HandleDevCoinUpdate(reward);
        AddTerminalMessage("\U{1F916} " + AgentNames[agent] + ": " + AgentActivities[activity]
          + " (+" + Text.NatStr(reward) + " Dev Coins)");
      }
    }
  }
}
