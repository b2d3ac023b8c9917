# Motherboard OS dashboard — a Dafny model

Motherboard OS is a single-page dashboard. A boot screen gives way to one of
four panels, chosen by a mode switcher:

- **Motherboard**: a component table, a command terminal and an AI chat.
- **Shrine**: spirits, rituals, a store, a clicker, a sacrifice and passive mining.
- **Dev tools**: projects and files, a code editor, a run button and a console.
- **Agent framework**: 24 agents in two layers, inter-agent chatter, metrics and reports.

The page owns two pieces of shared state:

- the Dev Coin ledger (100 coins at start), which every panel credits or debits;
- the agent report list, which keeps the 10 newest reports, newest first.

The model keeps the source's structure:

- Each stateful component is a Dafny `class` whose fields are its React state.
- Each panel holds a reference to the page (`Dashboard.HomePage`) and changes its ledger and report list in place.
- Each event handler and each timer callback is one atomic method.
- Every random draw (`Math.random`) is a parameter, constrained to the range the source draws from.

Pure helpers are functions. The lemmas listed under "Model" state what the main ones mean:

- command parsing, file-type classification, template titles, mining yield and metric clamping;
- capped logs (`RollingLog`) and JavaScript string operations (`Text`: `trim`, `toLowerCase`, `indexOf`, `replace`, `split('.').pop()`).

Modules, one per file:

- `Wrappers` (`wrappers.dfy`): `Option`.
- `Text` (`text.dfy`): the string operations above.
- `RollingLog` (`rolling_log.dfy`): logs capped newest-first (`[x, ...prev.slice(0, n-1)]`) and newest-last (`[...prev, x].slice(-n)`).
- `Dashboard` (`page.dfy`): the page.
- `Motherboard` (`motherboard.dfy`), `Shrine` (`shrine.dfy`), `DevTools` (`devtools.dfy`), `Agents` (`agents.dfy`): the four panels.

## Model

| member | source | states |
|---|---|---|
| Text.TrimStartSuffix | src/components/MotherboardOS.tsx:178 | `trimStart` drops exactly a whitespace prefix: the result is a suffix of the input, starts with a non-whitespace character (or is empty), and everything removed is whitespace |
| Text.TrimEndPrefix | src/components/MotherboardOS.tsx:178 | `trimEnd` drops exactly a whitespace suffix: the result is a prefix, ends in a non-whitespace character (or is empty), and everything removed is whitespace |
| Text.BlankTrimsAway | src/components/ShrineSystem.tsx:217 | an all-whitespace string trims to nothing |
| Text.TrimEmptyIsBlank | src/components/ShrineSystem.tsx:217 | a string that trims to nothing is all whitespace |
| Text.BlankIffTrimEmpty | src/components/MotherboardOS.tsx:178 | the guard `!s.trim()` holds exactly when every character is whitespace, in both directions |
| Text.OccursAtShift | src/components/DevToolsSuite.tsx:441 | an occurrence at j+1 in s is an occurrence at j in s without its first character |
| Text.IndexOf | src/components/DevToolsSuite.tsx:441 | the result is the first position where the pattern occurs, or none when it occurs nowhere |
| Text.NotContainsWithoutFirstChar | src/components/DevToolsSuite.tsx:441 | a pattern whose first character is absent from the text does not occur in it |
| Text.NoOccurrenceBefore | src/components/DevToolsSuite.tsx:441 | no occurrence starts in a prefix that lacks the pattern's first character |
| Text.RemoveFirst | src/components/DevToolsSuite.tsx:441 | `replace(pat, '')` leaves text without the pattern unchanged, and otherwise removes exactly as many characters as the pattern has |
| Text.RemoveFirstAt | src/components/DevToolsSuite.tsx:461 | when the first occurrence is right after `a`, `replace` removes that occurrence and keeps what is on both sides of it |
| Text.LastFieldIsLastSegment | src/components/DevToolsSuite.tsx:395 | `split(sep).pop()` is a separator-free suffix, preceded by a separator unless it is the whole string |
| Text.LastFieldAfterSeparator | src/components/DevToolsSuite.tsx:395 | the last field of `a + sep + b` is `b` when `b` has no separator |
| Text.LastFieldWithoutSeparator | src/components/DevToolsSuite.tsx:395 | a string with no separator is its own last field |
| Text.NatStr | src/components/MotherboardOS.tsx:204 | a number prints as a non-empty string of decimal digits |
| Text.NatStrRoundTrip | src/components/MotherboardOS.tsx:204 | reading the printed digits back gives the number: printing loses nothing |
| Text.ToLowerChars | src/components/MotherboardOS.tsx:182 | `toLowerCase` (on ASCII letters) keeps the length, leaves no capital A-Z, and changes no other character |
| Text.ToLowerAppend | src/components/MotherboardOS.tsx:182 | lower-casing a concatenation lower-cases each part |
| Text.ToLowerIdempotent | src/components/MotherboardOS.tsx:182 | lower-casing twice is lower-casing once |
| Text.BlankHasNoCase | src/components/MotherboardOS.tsx:182 | whitespace is unchanged by lower-casing |
| Text.TrimStartAfterBlank | src/components/MotherboardOS.tsx:182 | leading whitespace does not change what `trimStart` gives |
| Text.TrimStartBeforeBlank | src/components/MotherboardOS.tsx:182 | `trimStart` of a text followed by whitespace keeps that whitespace, unless the whole text is blank |
| Text.TrimEndBeforeBlank | src/components/MotherboardOS.tsx:182 | trailing whitespace does not change what `trimEnd` gives |
| Text.TrimIgnoresSurroundingBlanks | src/components/MotherboardOS.tsx:182 | `trim` gives the same text whatever whitespace surrounds the input |
| RollingLog.PushFront | src/app/page.tsx:37 | `[x, ...prev.slice(0, cap-1)]` has length min(n+1, cap), puts x first and shifts the old entries down by one |
| RollingLog.KeepLast | src/components/DevToolsSuite.tsx:318 | `slice(-n)` keeps the smaller of n and the length, and they are the input's last ones |
| RollingLog.PushBackContents | src/components/MotherboardOS.tsx:173-175 | `[...prev, x].slice(-cap)` ends with x, is preceded by the newest old entries, and has length min(n+1, cap) |
| RollingLog.Reversed | src/components/AgentFramework.tsx:369 | reversal keeps the length |
| RollingLog.PrefixOfTruncated | src/components/AgentFramework.tsx:369 | truncating the tail before taking a prefix that fits changes nothing |
| RollingLog.PushFrontAllContents | src/components/AgentFramework.tsx:369 | pushing several entries newest-first, one at a time, is the same as prepending them reversed and cutting at the cap |
| RollingLog.KeepLastAbsorbs | src/components/MotherboardOS.tsx:173-175 | cutting to the last n before appending more and cutting again is the same as cutting once |
| RollingLog.PushBackAllContents | src/components/MotherboardOS.tsx:188-191 | appending several lines one at a time under a cap equals appending them all and keeping the last cap |
| Dashboard.AtMostOnePanel | src/app/page.tsx:107-135 | at most one panel is rendered, and exactly one once booted on a known mode |
| Dashboard.HomePage.constructor | src/app/page.tsx:13-17 | not booted, motherboard mode, 100 coins, no reports |
| Dashboard.HomePage.Boot | src/app/page.tsx:19-26 | the boot timer sets the booted flag |
| Dashboard.HomePage.HandleModeSwitch | src/app/page.tsx:28-30 | the mode becomes the chosen one |
| Dashboard.HomePage.HandleDevCoinUpdate | src/app/page.tsx:32-34 | the ledger moves by exactly the amount, and negative amounts are debits |
| Dashboard.HomePage.HandleAgentReport | src/app/page.tsx:36-38 | the report goes first, the list keeps 10 entries at most and the older reports keep their order |
| Dashboard.HomePage.Rendered | src/app/page.tsx:40-135 | at most one panel is on screen |
| Motherboard.ComponentLines | src/components/MotherboardOS.tsx:188-191 | one line per component, in order |
| Motherboard.LookupFirstMatch | src/components/MotherboardOS.tsx:184-206 | `Parse`: the if/else chain picks the first command whose name equals the text, and gives `Unknown` when none does |
| Motherboard.ParseUnknown | src/components/MotherboardOS.tsx:205-206 | text that names no command is unknown as itself |
| Motherboard.ParseKnown | src/components/MotherboardOS.tsx:184-204 | each of the eight command names selects its own branch |
| Motherboard.EchoThenRun | src/components/MotherboardOS.tsx:180-206 | `AfterCommand`: after the echo, `clear` leaves only the banner; any other command leaves the newest 50 of old lines + echo + reply; the buffer never exceeds 50 |
| Motherboard.ReplySizes | src/components/MotherboardOS.tsx:184-206 | `components` prints one line per component, `clear` prints none, every other command prints one |
| Motherboard.UnknownCommand | src/components/MotherboardOS.tsx:205-206 | an unrecognised command prints only the not-found line naming it, and pays nothing |
| Motherboard.ComponentsInTableOrder | src/components/MotherboardOS.tsx:48-121 | `components` prints the seven board components in table order |
| Motherboard.NormalizeIgnoresCase | src/components/MotherboardOS.tsx:182 | `Normalize` (trim after lower-casing): lower-casing a command first gives the same normalised text, so case never changes which command runs |
| Motherboard.NormalizeIgnoresBlanks | src/components/MotherboardOS.tsx:182 | `Normalize`: whitespace around a command gives the same normalised text, so it never changes which command runs |
| Motherboard.RaisedLoad | src/components/MotherboardOS.tsx:218 | the gauge rises by 20 but never passes 100, and stays non-negative |
| Motherboard.MotherboardOS.constructor | src/components/MotherboardOS.tsx:27-47 | three banner lines, the AI greeting, load 15, nothing selected |
| Motherboard.MotherboardOS.AddTerminalMessage | src/components/MotherboardOS.tsx:173-175 | the line goes last and the 50 newest lines are kept |
| Motherboard.MotherboardOS.SetTerminalInput | src/components/MotherboardOS.tsx:405 | the input field holds what was typed |
| Motherboard.MotherboardOS.HandleTerminalCommand | src/components/MotherboardOS.tsx:177-210 | blank input changes nothing; otherwise echo, dispatch on the trimmed lower-cased text, pay only for `mine`, open the AI panel only for `ai-status`, clear the input |
| Motherboard.MotherboardOS.Execute | src/components/MotherboardOS.tsx:184-206 | the dispatcher's effect on buffer, ledger and AI panel for each command |
| Motherboard.MotherboardOS.PrintComponents | src/components/MotherboardOS.tsx:188-191 | the buffer becomes the old one with the component lines pushed one at a time under the 50-line cap, which equals appending them all and keeping the 50 newest |
| Motherboard.MotherboardOS.HandleComponentClick | src/components/MotherboardOS.tsx:165-171 | the component is selected and logged with its status, and 2 coins are paid |
| Motherboard.MotherboardOS.ClearSelection | src/components/MotherboardOS.tsx:352 | nothing is selected |
| Motherboard.MotherboardOS.SetShowAI | src/components/MotherboardOS.tsx:464 | the AI panel opens or closes |
| Motherboard.MotherboardOS.SetAIInput | src/components/MotherboardOS.tsx:439 | the chat input holds what was typed |
| Motherboard.MotherboardOS.HandleAIChat | src/components/MotherboardOS.tsx:212-219 | blank input changes nothing; otherwise the message is appended as the user's, the gauge rises (capped at 100), the input clears and a reply is scheduled |
| Motherboard.MotherboardOS.AIReply | src/components/MotherboardOS.tsx:220-235 | one canned answer is appended as the assistant's, and 5 coins are paid |
| Motherboard.MotherboardOS.QuickMine | src/components/MotherboardOS.tsx:470-474 | the drawn 5..19 coins are paid and logged |
| Motherboard.MotherboardOS.AgentActivityTick | src/components/MotherboardOS.tsx:133-160 | when the 10% draw fires: a report goes to the page, and the reward is paid and logged; otherwise nothing changes |
| Shrine.SacrificeMessageNamesReward | src/components/ShrineSystem.tsx:324 | the blessing the system logs is the fixed opening, then only decimal digits, which read back as the reward, then " Dev Coins!" |
| Shrine.OnlyOracleUnlocked | src/components/ShrineSystem.tsx:50-83 | of the spirits, only the Oracle starts unlocked |
| Shrine.FindSpirit | src/components/ShrineSystem.tsx:233 | `spirits.find` returns the first spirit with that id, or none when no spirit has it |
| Shrine.SpiritName | src/components/ShrineSystem.tsx:233-234 | the reply header is the spirit's name, never empty |
| Shrine.SpiritResponses | src/components/ShrineSystem.tsx:240-283 | the four known spirits have five answers each; any other id gets the one silent answer |
| Shrine.MiningYield | src/components/ShrineSystem.tsx:173 | `floor(rate/360)`: the largest whole number of coins that fits, and it is positive exactly when the rate is at least 360 |
| Shrine.MiningBoost | src/components/ShrineSystem.tsx:296-300 | the boost is 0, 10 or 25; it is positive exactly for upgrades whose id contains "mining"; it is 10 exactly for the first energy condenser and 25 exactly for every other mining upgrade |
| Shrine.StoreBoosts | src/components/ShrineSystem.tsx:85-168 | of the nine offers, in store order, exactly the two energy condensers raise the mining rate, the first by 10 and the second by 25 |
| Shrine.MiningUpgradeBoosts | src/components/ShrineSystem.tsx:143-157 | the two mining upgrades give 10 and 25 |
| Shrine.AgentBoostDoesNotMine | src/components/ShrineSystem.tsx:161 | the agent booster upgrade has no "mining" in its id and gives no boost |
| Shrine.MiningPrefix | src/components/ShrineSystem.tsx:296 | an id starting with "mining" contains it |
| Shrine.StoreItem.constructor | src/components/ShrineSystem.tsx:85-168 | an item is created locked, with its id, name, cost and category |
| Shrine.ShrineSystem.constructor | src/components/ShrineSystem.tsx:35-168 | the Oracle is active, the log holds the welcome, mining starts at 10/hour, and the store holds the nine offers of `StoreTable` in order, each locked, with its id, name, cost and category |
| Shrine.ShrineSystem.AddShrineMessage | src/components/ShrineSystem.tsx:206-214 | the message goes first and the 50 newest are kept |
| Shrine.ShrineSystem.SetRitualInput | src/components/ShrineSystem.tsx:439 | the ritual field holds what was typed |
| Shrine.ShrineSystem.PerformRitual | src/components/ShrineSystem.tsx:216-238 | blank input changes nothing; under 5 coins it logs the warning and charges nothing; otherwise it nets +5 coins, logs the ritual, clears the input and schedules the active spirit's reply |
| Shrine.ShrineSystem.SpiritReply | src/components/ShrineSystem.tsx:229-235 | one of the spirit's answers is logged under the spirit's name |
| Shrine.ShrineSystem.SelectSpirit | src/components/ShrineSystem.tsx:361 | only an unlocked spirit can be selected, so the Oracle stays active |
| Shrine.ShrineSystem.BuyStoreItem | src/components/ShrineSystem.tsx:285-307 | too few coins: only a warning; otherwise the cost is paid, the mining rate rises by the item's boost, the item unlocks, and the category's message (`PurchaseMessage`) goes first in the log: a spirit is summoned, a mining upgrade reports its boost, anything else joins the arsenal |
| Shrine.ShrineSystem.HandleClicker | src/components/ShrineSystem.tsx:309-312 | one point and one coin per click |
| Shrine.ShrineSystem.Sacrifice | src/components/ShrineSystem.tsx:314-324 | under 250 coins: only a warning; otherwise 250 are paid and the 250..749 reward is credited, so the ledger never falls |
| Shrine.ShrineSystem.MiningTick | src/components/ShrineSystem.tsx:172-178 | every tick pays the mining yield, and logs it only when it is positive |
| Shrine.ShrineSystem.AgentWhisper | src/components/ShrineSystem.tsx:181-197 | when the 15% draw fires, the activity is logged and 3..10 coins are paid; otherwise nothing changes |
| Shrine.NoMiningYieldBelowHourlyTicks | src/components/ShrineSystem.tsx:48 | the initial rate of 10/hour never pays; a tick pays at least one coin exactly when the rate is 360 or more |
| DevTools.ReplaceById | src/components/DevToolsSuite.tsx:368 | `map(p => p.id === x.id ? x : p)` keeps the length, replaces every entry with that id and keeps every other |
| DevTools.ReplaceByIdMembers | src/components/DevToolsSuite.tsx:365-368 | the result holds only the new entry and old entries, and holds the new one when its id was present |
| DevTools.ReplaceByIdIdempotent | src/components/DevToolsSuite.tsx:411 | replacing twice is the same as replacing once |
| DevTools.TypeOfExtension | src/components/DevToolsSuite.tsx:396 | css, js and md map to their own types, each in both directions; any other extension is html |
| DevTools.ClassifyByLastSegment | src/components/DevToolsSuite.tsx:395-396 | `Classify`: a name is classified by its lower-cased text after the last dot |
| DevTools.ClassifyWithoutDot | src/components/DevToolsSuite.tsx:395-396 | a name without a dot is classified by the whole name, lower-cased |
| DevTools.ClassifyUpperCaseExtension | src/components/DevToolsSuite.tsx:395 | `style.CSS` is a stylesheet |
| DevTools.ClassifySeveralDots | src/components/DevToolsSuite.tsx:395 | `archive.min.js` is JavaScript |
| DevTools.ClassifyTrailingDot | src/components/DevToolsSuite.tsx:395-396 | a name ending in a dot is html |
| DevTools.ClassifyExamplesWithoutDot | src/components/DevToolsSuite.tsx:395-396 | `README` is html, and a file named just `css` is a stylesheet |
| DevTools.TemplateTitleLength | src/components/DevToolsSuite.tsx:441-461 | `TemplateTitle`: md and html titles lose their extension's length when it occurs; otherwise (and for css/js) the name is unchanged |
| DevTools.TitleDropsExtension | src/components/DevToolsSuite.tsx:441-461 | for a dotless base, the title of `base.md` or `base.html` is the base |
| DevTools.TitleRemovesFirstOccurrence | src/components/DevToolsSuite.tsx:441 | only the first `.md` is removed: `x.md.md` titles as `x.md` |
| DevTools.RunReward | src/components/DevToolsSuite.tsx:474-495 | running pays 1..4 coins: 4 exactly for JavaScript, 2 exactly for html, 1 exactly for css and markdown |
| DevTools.NewFileShowsTitle | src/components/DevToolsSuite.tsx:395-468 | `NewFile` and `TemplateContent`: a new file carries its id, its name and the type its name classifies to, and its template names it: css and js templates hold the whole name, markdown and html templates hold its title |
| DevTools.ExtensionShape | src/components/DevToolsSuite.tsx:395 | `Extension`: the text after the name's last dot, lower-cased; no longer than the name, without dots and without capital letters |
| DevTools.ProjectFilesClassified | src/components/DevToolsSuite.tsx:45-358 | `NewProject` and `StarterProject`: every file they hold carries the type its name classifies to |
| DevTools.DevToolsSuite.constructor | src/components/DevToolsSuite.tsx:33-42 | no projects, no selection, empty editor, the welcome console lines |
| DevTools.DevToolsSuite.LoadStarterProjects | src/components/DevToolsSuite.tsx:45-314 | one starter project with three files; it and its html file are active and the editor shows the html |
| DevTools.DevToolsSuite.AddToConsole | src/components/DevToolsSuite.tsx:317-319 | the line goes last and the 20 newest are kept |
| DevTools.DevToolsSuite.ClearConsole | src/components/DevToolsSuite.tsx:687 | the console is emptied |
| DevTools.DevToolsSuite.EditCode | src/components/DevToolsSuite.tsx:649 | the editor holds what was typed |
| DevTools.DevToolsSuite.SelectProject | src/components/DevToolsSuite.tsx:548-552 | the project and its first file become active, and the editor shows that file |
| DevTools.DevToolsSuite.SelectFile | src/components/DevToolsSuite.tsx:585-588 | the file becomes active and the editor shows it |
| DevTools.DevToolsSuite.CreateNewProject | src/components/DevToolsSuite.tsx:321-358 | an empty name changes nothing; otherwise a project with one index.html is appended and activated, 10 coins are paid and it is logged |
| DevTools.DevToolsSuite.SaveFile | src/components/DevToolsSuite.tsx:360-387 | without an active file nothing changes; otherwise the editor text replaces that file in its project and in the project list, 3 coins are paid, it is logged and an insight is scheduled |
| DevTools.DevToolsSuite.SaveInsight | src/components/DevToolsSuite.tsx:376-386 | one canned insight is logged |
| DevTools.DevToolsSuite.AddNewFile | src/components/DevToolsSuite.tsx:389-418 | with no project or an empty name nothing changes; otherwise a classified file with its template is appended to the project and opened, 5 coins are paid and it is logged |
| DevTools.DevToolsSuite.AttachFile | src/components/DevToolsSuite.tsx:405-414 | the file is appended to the active project, which replaces its old copy, and it opens in the editor |
| DevTools.DevToolsSuite.RunCode | src/components/DevToolsSuite.tsx:470-509 | without an active file nothing changes; otherwise output is the canned JS line or the editor text, the run is paid by type and logged, and feedback is scheduled |
| DevTools.DevToolsSuite.RunFeedback | src/components/DevToolsSuite.tsx:497-508 | one canned agent remark is logged |
| Agents.CountActive | src/components/AgentFramework.tsx:609 | the number of non-idle agents never exceeds the number of agents |
| Agents.CountActiveAppend | src/components/AgentFramework.tsx:342 | counting over the concatenated layers is the sum of the per-layer counts |
| Agents.CountActiveIsCardinality | src/components/AgentFramework.tsx:609 | the count is the size of `filter(a => a.status !== 'idle')` |
| Agents.Layer1ActiveCount | src/components/AgentFramework.tsx:47-192 | 10 of the 12 coding agents are not idle |
| Agents.Layer2ActiveCount | src/components/AgentFramework.tsx:195-339 | 11 of the 12 utility agents are not idle |
| Agents.ActiveAgentsOfTables | src/components/AgentFramework.tsx:342 | 12 agents per layer, 21 of the 24 not idle |
| Agents.LayersOfTables | src/components/AgentFramework.tsx:47-339 | every agent of each table belongs to that table's layer |
| Agents.CommunicationMessage | src/components/AgentFramework.tsx:353-359 | every message begins with the sender's name and a colon, followed by text |
| Agents.ChatterLineNamesSender | src/components/AgentFramework.tsx:353-373 | a chatter line about a communication starts with the sender's icon, a space, the sender's name and ": " |
| Agents.Clamp | src/components/AgentFramework.tsx:388-390 | `max(lo, min(hi, x))` lies in [lo, hi], is x when x does, else the nearer bound |
| Agents.DriftMetrics | src/components/AgentFramework.tsx:385-392 | after a drift every metric is in its band, insights never fall, and a drift that stays in band is taken as is |
| Agents.SyncAll | src/components/AgentFramework.tsx:627-634 | synergy rises by 2 up to 98, the other metrics are untouched, and the bands are kept |
| Agents.OptimizeWorkflows | src/components/AgentFramework.tsx:638-645 | efficiency rises by 1 up to 98, the other metrics are untouched, and the bands are kept |
| Agents.RepeatedSyncReachesCeiling | src/components/AgentFramework.tsx:630 | from any in-band state, four syncs reach synergy 98 |
| Agents.SyncTimesStaysInBands | src/components/AgentFramework.tsx:627-634 | any number of syncs keeps the metrics in band |
| Agents.SyncTimesSteps | src/components/AgentFramework.tsx:630 | n syncs add 2n to synergy, capped at 98 |
| Agents.Toggle | src/components/AgentFramework.tsx:480 | clicking the selected agent deselects it; clicking another selects it |
| Agents.ToggleTwice | src/components/AgentFramework.tsx:480 | two clicks on the same agent, from no selection or from that agent, restore the selection |
| Agents.SystemReportOf | src/components/AgentFramework.tsx:604-620 | the System report pays 25 and carries the active and total agent counts and the current metrics |
| Agents.GeneratedReportCounts | src/components/AgentFramework.tsx:609 | the generated report counts 21 active agents of 24 |
| Agents.AgentFramework.CurrentAgents | src/components/AgentFramework.tsx:343 | the grid shows the 12 agents of the active layer: every one belongs to it, and every agent of that layer is shown |
| Agents.AgentFramework.constructor | src/components/AgentFramework.tsx:35-44 | layer 1, nothing selected, empty logs, metrics 87/92/94 with 156 insights |
| Agents.AgentFramework.CommunicationTick | src/components/AgentFramework.tsx:347-381 | an agent drawn twice changes nothing; otherwise the communication, the chatter line and a report go first in their logs (20, 10, 10) |
| Agents.AgentFramework.MetricsTick | src/components/AgentFramework.tsx:385-392 | the metrics drift within their bands and insights never fall |
| Agents.AgentFramework.SelectAgent | src/components/AgentFramework.tsx:480 | the selection toggles, so it is either nothing or the clicked agent |
| Agents.AgentFramework.SetLayer | src/components/AgentFramework.tsx:445-456 | the active layer becomes 1 or 2 |
| Agents.AgentFramework.SyncAllAgents | src/components/AgentFramework.tsx:627-634 | the metrics become `SyncAll` of the old ones |
| Agents.AgentFramework.OptimizeWorkflowsButton | src/components/AgentFramework.tsx:638-645 | the metrics become `OptimizeWorkflows` of the old ones |
| Agents.AgentFramework.GenerateReport | src/components/AgentFramework.tsx:604-620 | the System report over all 24 agents goes first in the page's report list |

## Left out

- Rendering, styling, layout, icons and the boot screen's animation: presentation only. Which panel is on screen is modelled (`Dashboard.RenderedPanels`).
- Timers (`setTimeout`, `setInterval`) and their delays: each callback is an atomic method (`Boot`, `MiningTick`, `AgentWhisper`, `SpiritReply`, `AIReply`, `SaveInsight`, `RunFeedback`, `CommunicationTick`, `MetricsTick`, `AgentActivityTick`). The model does not capture interleavings, a callback outliving its panel, or stale closures.
- `Math.random`: each draw is a parameter restricted to the drawn range (an index, a reward, a drift, whether a chance fires).
- Timestamps (`toLocaleTimeString`, `Date.now`) and the `lastModified` dates of files: clock values are not modelled. Log lines carry no time prefix, and new ids are parameters.
- `prompt()` for project and file names: the entered name is a parameter, and a cancelled prompt is the empty name.
- The starter project's three file contents: they are parameters of `LoadStarterProjects`.
- Motherboard's performance random walk (temperatures and loads) and the AI load's decay: a random walk over floating-point values. Only the chat's capped rise is modelled (`RaisedLoad`).
- The `catch` branch of `runCode`: its body cannot throw, so the branch is unreachable.
- Agents' descriptive text fields (specialty, description, capabilities): display only. Each agent has id, name, status, layer and icon.
- Visibility toggles of modals other than the AI panel (store, clicker, terminal tabs) and the timestamps shown with reports: display only.
- Text.ToLower: maps ASCII letters only, not the full Unicode case mapping of `toLowerCase`.
- Text.IsBlank: `!s.trim()` is modelled as "every character is whitespace", and `Text.BlankIffTrimEmpty` proves this equal to the trimmed string being empty.
- DevTools.ClassifyWithoutDot: a name without a dot is classified by its whole name, as `split('.').pop()` does, so a file named `css` is a stylesheet.
- JavaScript numbers are doubles. The agent metrics (`Agents.Metrics`) and the AI load (`Motherboard.RaisedLoad`) are Dafny `real` values here, exact and without rounding; coin amounts are whole numbers in the source and `int` here.
- JavaScript strings are sequences of UTF-16 code units. A `string` here is a sequence of Unicode scalar values, so lengths and positions differ for characters outside the Basic Multilingual Plane, such as the emoji icons.
