/**
 * The Shrine panel: a coin sink with rituals, a store, a clicker, a
 * "great sacrifice" and passive mining, and a log of shrine messages kept
 * newest first and capped at 50.
 */
module Shrine {
  import opened Wrappers
  import Text
  import RollingLog
  import Dashboard

  const LogCap: nat := 50
  const RitualCost: int := 5
  const RitualReward: int := 10
  const SacrificeCost: int := 250
  const InitialMiningRate: int := 10
  /** Passive mining runs every ten seconds: an hourly rate is divided by 360. */
  const TicksPerHour: int := 360

  datatype Sender = SystemSender | UserSender | SpiritSender

  /** One shrine log entry (its timestamp is not modelled). */
  datatype Message = Message(sender: Sender, header: string, text: string)

  const WelcomeMessage := Message(SystemSender, "System Initialization",
    "Welcome to the Shrine of Digital Ascension. The 24-Agent Framework watches over your coding journey.")

  const InsufficientEnergy := Message(SystemSender, "Insufficient Energy", "You need at least 5 Dev Coins to perform a ritual.")

  const InsufficientOffering := Message(SystemSender, "Insufficient Offering", "A great sacrifice requires 250 Dev Coins.")

  const SacrificeText := "You offer 250 Dev Coins to the digital gods... The shrine crackles with energy... You are blessed with "
  const CoinsSuffix := " Dev Coins!"

  /** The log entry of a great sacrifice that paid `reward` coins. */
  function SacrificeMessage(reward: nat): Message {
    Message(SystemSender, "Great Sacrifice", SacrificeText + Text.NatStr(reward) + CoinsSuffix)
  }

  /**
   * The blessing a sacrifice logs names its reward: between the fixed
   * opening and closing text stand only digits, and they read back as the
   * reward.
   */
  lemma SacrificeMessageNamesReward(reward: nat)
    ensures var t := SacrificeMessage(reward).text;
      && |SacrificeText| + |CoinsSuffix| < |t|
      && t[..|SacrificeText|] == SacrificeText && t[|t| - |CoinsSuffix|..] == CoinsSuffix
      && var digits := t[|SacrificeText|..|t| - |CoinsSuffix|];
         && (forall i :: 0 <= i < |digits| ==> '0' <= digits[i] <= '9')
         && Text.DecimalValue(digits) == reward
  {
    var d := Text.NatStr(reward);
    var t := SacrificeMessage(reward).text;
    assert t == SacrificeText + d + CoinsSuffix;
    assert t[..|SacrificeText|] == SacrificeText;
    assert t[|t| - |CoinsSuffix|..] == CoinsSuffix;
    assert t[|SacrificeText|..|t| - |CoinsSuffix|] == d;
    Text.NatStrRoundTrip(reward);
  }

  /** A spirit of the selector (its emoji and description are not modelled). */
  datatype Spirit = Spirit(id: string, name: string, unlocked: bool, cost: nat)

  /** The spirit table; the panel never changes it. */
  const SpiritTable: seq<Spirit> := [
    Spirit("oracle", "Oracle", true, 0),
    Spirit("codemaster", "CodeMaster", false, 500),
    Spirit("bugslayer", "BugSlayer", false, 750),
    Spirit("architect", "Architect", false, 1000)
  ]

  /** The only unlocked spirit of the table is the oracle. */
  lemma OnlyOracleUnlocked()
    ensures forall i :: 0 <= i < |SpiritTable| && SpiritTable[i].unlocked ==> SpiritTable[i].id == "oracle"
  {
  }

  /** `spirits.find(s => s.id === id)` */
  function FindSpirit(table: seq<Spirit>, id: string): (r: Option<Spirit>)
    ensures r.Some? ==> r.value in table && r.value.id == id
    ensures r.Some? ==> exists i :: 0 <= i < |table| && table[i] == r.value && forall j :: 0 <= j < i ==> table[j].id != id
    ensures r.None? ==> forall s :: s in table ==> s.id != id
  {
    if table == [] then None
    else if table[0].id == id then Some(table[0])
    else
      var r := FindSpirit(table[1..], id);
      if r.Some? then
        var i :| 0 <= i < |table[1..]| && table[1..][i] == r.value && forall j :: 0 <= j < i ==> table[1..][j].id != id;
        assert table[i + 1] == r.value;
        assert forall j :: 0 <= j < i + 1 ==> table[j].id != id by {
          forall j | 0 <= j < i + 1 ensures table[j].id != id {
            if j > 0 {
              assert table[j] == table[1..][j - 1];
            }
          }
        }
        r
      else r
  }

  /** `currentSpirit?.name || 'Oracle'`: the header of a spirit's reply. */
  function SpiritName(id: string): (name: string)
    ensures name != ""
    ensures forall s :: s in SpiritTable && s.id == id ==> name == s.name
  {
    match FindSpirit(SpiritTable, id)
    case Some(s) => if s.name == "" then "Oracle" else s.name
    case None => "Oracle"
  }

  const OracleResponses: seq<string> := [
    "The digital threads of destiny weave through your code. I see great potential ahead.",
    "Your development path aligns with the cosmic algorithms. Continue with wisdom.",
    "The 24-Agent Framework whispers of optimization opportunities in your future.",
    "I perceive a disturbance in the code force. Debug with patience, young developer.",
    "The neural networks have spoken: your commitment to clean code shall be rewarded."
  ]

  const CodeMasterResponses: seq<string> := [
    "Your code structure shows promise, but I sense opportunities for refactoring.",
    "The patterns you seek lie within the principles of SOLID design.",
    "I detect technical debt accumulating. Schedule time for code cleanup rituals.",
    "Your functions grow too large. Break them down, make them pure and focused.",
    "Consider the DRY principle - Don't Repeat Yourself in the sacred texts of code."
  ]

  const BugSlayerResponses: seq<string> := [
    "I smell the foul stench of memory leaks nearby. Hunt them down mercilessly.",
    "Your null pointer exceptions flee before my mighty debugging sword!",
    "The bugs hide in the shadows of untested code paths. Illuminate them with tests.",
    "I grant you the power of console.log() - use it wisely to track your prey.",
    "Stack overflow errors are but dragons to be slain with proper recursion limits."
  ]

  const ArchitectResponses: seq<string> := [
    "Your system design requires more layers of abstraction for true scalability.",
    "Consider microservices architecture for this monolithic beast you've created.",
    "The database normalization spirits approve of your schema design.",
    "Load balancing is key to handling the traffic storms that lie ahead.",
    "Design patterns are the building blocks of maintainable systems. Choose wisely."
  ]

  const SilentResponse: string := "The shrine is silent, but the code speaks volumes."

  /** The replies a spirit can give to a ritual: five for each spirit of the table, the one silent reply otherwise. */
  function SpiritResponses(spiritId: string): (r: seq<string>)
    ensures spiritId == "oracle" || spiritId == "codemaster" || spiritId == "bugslayer" || spiritId == "architect"
      ==> |r| == 5
    ensures spiritId != "oracle" && spiritId != "codemaster" && spiritId != "bugslayer" && spiritId != "architect"
      ==> r == [SilentResponse]
  {
    if spiritId == "oracle" then OracleResponses
    else if spiritId == "codemaster" then CodeMasterResponses
    else if spiritId == "bugslayer" then BugSlayerResponses
    else if spiritId == "architect" then ArchitectResponses
    else [SilentResponse]
  }

  const SpiritualActivities: seq<string> := [
    "channeled divine coding wisdom",
    "detected spiritual imbalance in codebase",
    "blessed your development workflow",
    "revealed hidden optimization secrets",
    "harmonized chaotic code patterns"
  ]

  /** Coins a passive-mining tick awards: the hourly rate over 360, rounded down. */
  function MiningYield(rate: int): (coins: int)
    ensures coins * TicksPerHour <= rate < (coins + 1) * TicksPerHour
    ensures coins > 0 <==> rate >= TicksPerHour
  {
    rate / TicksPerHour
  }

  datatype Category = Spirits | Tools | Upgrades

  const Boost1Id := "mining_boost_1"
  const Boost2Id := "mining_boost_2"
  const AgentBoostId := "agent_boost"

  /**
   * How much a purchase raises the mining rate: 10 for `mining_boost_1`,
   * 25 for any other upgrade whose id contains "mining", nothing otherwise.
   */
  function MiningBoost(id: string, category: Category): (boost: int)
    ensures boost in {0, 10, 25}
    ensures boost > 0 <==> category == Upgrades && Text.Contains(id, "mining")
    ensures boost == 10 <==> category == Upgrades && id == Boost1Id
    ensures boost == 25 <==> category == Upgrades && Text.Contains(id, "mining") && id != Boost1Id
  {
    MiningPrefix(Boost1Id);
    if category == Upgrades && Text.Contains(id, "mining") then
      (if id == Boost1Id then 10 else 25)
    else 0
  }

  /** An offer of the store (its description and icon are not modelled). */
  datatype Offer = Offer(id: string, name: string, cost: nat, category: Category)

  /** The store's offers, in the order the store lists them. */
  const StoreTable: seq<Offer> := [
    Offer("codemaster", "Summon CodeMaster", 500, Spirits),
    Offer("bugslayer", "Summon BugSlayer", 750, Spirits),
    Offer("architect", "Summon Architect", 1000, Spirits),
    Offer("code_analyzer", "Quantum Code Analyzer", 300, Tools),
    Offer("auto_formatter", "Neural Code Formatter", 200, Tools),
    Offer("test_generator", "Test Oracle Generator", 450, Tools),
    Offer(Boost1Id, "Energy Condenser I", 400, Upgrades),
    Offer(Boost2Id, "Energy Condenser II", 800, Upgrades),
    Offer(AgentBoostId, "Agent Neural Amplifier", 1200, Upgrades)
  ]

  /**
   * Of the nine offers exactly the two energy condensers raise the mining
   * rate, the first by 10 and the second by 25; spirits, tools and the agent
   * amplifier leave it alone.
   */
  lemma StoreBoosts()
    ensures |StoreTable| == 9
    ensures forall i :: 0 <= i < |StoreTable| ==>
      (MiningBoost(StoreTable[i].id, StoreTable[i].category) > 0 <==> i == 6 || i == 7)
    ensures MiningBoost(StoreTable[6].id, StoreTable[6].category) == 10
    ensures MiningBoost(StoreTable[7].id, StoreTable[7].category) == 25
  {
    UpgradesAreLast();
    MiningUpgradeBoosts();
    AgentBoostDoesNotMine();
  }

  /** Spirits and tools come first; the last three offers are the upgrades. */
  lemma UpgradesAreLast()
    ensures |StoreTable| == 9
    ensures forall i :: 0 <= i < 6 ==> StoreTable[i].category != Upgrades
    ensures StoreTable[6] == Offer(Boost1Id, "Energy Condenser I", 400, Upgrades)
    ensures StoreTable[7] == Offer(Boost2Id, "Energy Condenser II", 800, Upgrades)
    ensures StoreTable[8] == Offer(AgentBoostId, "Agent Neural Amplifier", 1200, Upgrades)
  {
  }

  /** Both energy condensers are mining upgrades: the first adds 10, the second 25. */
  lemma MiningUpgradeBoosts()
    ensures MiningBoost(Boost1Id, Upgrades) == 10
    ensures MiningBoost(Boost2Id, Upgrades) == 25
  {
    MiningPrefix(Boost1Id);
    MiningPrefix(Boost2Id);
  }

  /** The agent amplifier is an upgrade without "mining" in its id: it leaves the rate alone. */
  lemma AgentBoostDoesNotMine()
    ensures MiningBoost(AgentBoostId, Upgrades) == 0
  {
    assert AgentBoostId[0] == 'a';
    Text.NotContainsWithoutFirstChar(AgentBoostId, "mining");
  }

  /** An id that starts with "mining" contains it. */
  lemma MiningPrefix(id: string)
    requires |id| >= 6 && id[..6] == "mining"
    ensures Text.Contains(id, "mining")
  {
    assert Text.OccursAt(id, "mining", 0);
  }

  /** A store entry; buying it sets `unlocked` on the entry itself. */
  class StoreItem {
    const id: string
    const name: string
    const cost: nat
    const category: Category
    var unlocked: bool

    constructor (id: string, name: string, cost: nat, category: Category)
      ensures this.id == id && this.name == name && this.cost == cost && this.category == category
      ensures !unlocked
    {
      this.id := id;
      this.name := name;
      this.cost := cost;
      this.category := category;
      unlocked := false;
    }
  }

  /** A fresh, locked store entry for an offer. */
  method NewStoreItem(o: Offer) returns (item: StoreItem)
    ensures fresh(item) && !item.unlocked
    ensures Offer(item.id, item.name, item.cost, item.category) == o
  {
    item := new StoreItem(o.id, o.name, o.cost, o.category);
  }

  const SpiritSummoned := "Spirit Summoned"
  const UpgradeAcquired := "Upgrade Acquired"
  const ToolAcquired := "Tool Acquired"

  /**
   * The message a purchase logs: a summoned spirit, a mining upgrade with
   * the boost it brings, or any other tool or upgrade.
   */
  function PurchaseMessage(id: string, name: string, category: Category): Message {
    if category == Spirits then
      Message(SystemSender, SpiritSummoned, name + " has joined your development pantheon!")
    else if category == Upgrades && Text.Contains(id, "mining") then
      Message(SystemSender, UpgradeAcquired, "Mining rate increased by " + Text.NatStr(MiningBoost(id, category)) + " coins/hour!")
    else
      Message(SystemSender, ToolAcquired, name + " added to your development arsenal!")
  }

  class ShrineSystem {
    const page: Dashboard.HomePage
    const spirits: seq<Spirit>
    const storeItems: seq<StoreItem>
    var activeSpirit: string
    var ritualInput: string
    var shrineLog: seq<Message>
    var clickerPoints: nat
    var miningRate: int

    /**
     * The log respects its cap, the spirit table is the fixed one and the
     * oracle stays selected, upgrades only raise the mining rate, and the
     * ledger is not negative.
     */
    ghost predicate Valid()
      reads this, page
    {
      && |shrineLog| <= LogCap
      && spirits == SpiritTable
      && activeSpirit == "oracle"
      && miningRate >= InitialMiningRate
      && page.Valid()
    }

    constructor (page: Dashboard.HomePage)
      requires page.Valid()
      ensures this.page == page && Valid()
      ensures activeSpirit == "oracle" && ritualInput == ""
      ensures shrineLog == [WelcomeMessage]
      ensures clickerPoints == 0 && miningRate == InitialMiningRate
      ensures |storeItems| == |StoreTable|
      ensures forall i :: 0 <= i < |storeItems| ==> fresh(storeItems[i]) && !storeItems[i].unlocked
      ensures forall i :: 0 <= i < |storeItems| ==>
        Offer(storeItems[i].id, storeItems[i].name, storeItems[i].cost, storeItems[i].category) == StoreTable[i]
    {
      this.page := page;
      spirits := SpiritTable;
      var codemaster := NewStoreItem(StoreTable[0]);
      var bugslayer := NewStoreItem(StoreTable[1]);
      var architect := NewStoreItem(StoreTable[2]);
      var analyzer := NewStoreItem(StoreTable[3]);
      var formatter := NewStoreItem(StoreTable[4]);
      var tests := NewStoreItem(StoreTable[5]);
      var boost1 := NewStoreItem(StoreTable[6]);
      var boost2 := NewStoreItem(StoreTable[7]);
      var agentBoost := NewStoreItem(StoreTable[8]);
      storeItems := [codemaster, bugslayer, architect, analyzer, formatter, tests, boost1, boost2, agentBoost];
      activeSpirit := "oracle";
      ritualInput := "";
      shrineLog := [WelcomeMessage];
      clickerPoints := 0;
      miningRate := InitialMiningRate;
    }

    /** `addShrineMessage`: the new message in front, the 50 newest kept. */
    method AddShrineMessage(sender: Sender, header: string, text: string)
      modifies this`shrineLog
      ensures shrineLog == RollingLog.PushFront(Message(sender, header, text), old(shrineLog), LogCap)
    {
      shrineLog := [Message(sender, header, text)] + shrineLog[..RollingLog.Min(|shrineLog|, LogCap - 1)];
    }

    /** The ritual text field's `onChange`. */
    method SetRitualInput(text: string)
      modifies this`ritualInput
      ensures ritualInput == text
    {
      ritualInput := text;
    }

    /**
     * `performRitual`. A blank input does nothing; with fewer than 5 coins
     * the shrine only logs "Insufficient Energy"; otherwise the ritual costs
     * 5 and rewards 10, the ritual text is logged as the user's, the input is
     * cleared, and the spirit's reply is scheduled: `reply` names the spirit
     * the delayed callback will speak for (see `SpiritReply`).
     */
    method PerformRitual() returns (reply: Option<string>)
      requires Valid()
      modifies this`shrineLog, this`ritualInput, page`devCoins
      ensures Valid()
      ensures Text.IsBlank(old(ritualInput)) ==>
        && reply == None && shrineLog == old(shrineLog) && ritualInput == old(ritualInput)
        && page.devCoins == old(page.devCoins)
      ensures !Text.IsBlank(old(ritualInput)) && old(page.devCoins) < RitualCost ==>
        && reply == None && ritualInput == old(ritualInput) && page.devCoins == old(page.devCoins)
        && shrineLog == RollingLog.PushFront(InsufficientEnergy, old(shrineLog), LogCap)
      ensures !Text.IsBlank(old(ritualInput)) && old(page.devCoins) >= RitualCost ==>
        && reply == Some(activeSpirit) && ritualInput == ""
        && page.devCoins == old(page.devCoins) - RitualCost + RitualReward
        && shrineLog == RollingLog.PushFront(Message(UserSender, "Ritual Performed", old(ritualInput)), old(shrineLog), LogCap)
    {
      if Text.IsBlank(ritualInput) {
        return None;
      }
      if page.devCoins < RitualCost {
        AddShrineMessage(InsufficientEnergy.sender, InsufficientEnergy.header, InsufficientEnergy.text);
        return None;
      }
      page.HandleDevCoinUpdate(-RitualCost);
      page.HandleDevCoinUpdate(RitualReward);
      AddShrineMessage(UserSender, "Ritual Performed", ritualInput);
      reply := Some(activeSpirit);
      ritualInput := "";
    }

    /** The delayed reply of a ritual: the `pick`-th response of the spirit, under the spirit's name. */
    method SpiritReply(spiritId: string, pick: nat)
      requires Valid()
      requires pick < |SpiritResponses(spiritId)|
      modifies this`shrineLog
      ensures Valid()
      ensures shrineLog == RollingLog.PushFront(
        Message(SpiritSender, SpiritName(spiritId), SpiritResponses(spiritId)[pick]), old(shrineLog), LogCap)
    {
      var responses := SpiritResponses(spiritId);
      AddShrineMessage(SpiritSender, SpiritName(spiritId), responses[pick]);
    }

    /** Clicking a spirit card selects it only when it is unlocked; so the oracle stays selected. */
    method SelectSpirit(i: nat)
      requires Valid() && i < |spirits|
      modifies this`activeSpirit
      ensures activeSpirit == (if spirits[i].unlocked then spirits[i].id else old(activeSpirit))
      ensures activeSpirit == "oracle"
      ensures Valid()
    {
      OnlyOracleUnlocked();
      if spirits[i].unlocked {
        activeSpirit := spirits[i].id;
      }
    }

    /**
     * `buyStoreItem`. With fewer coins than the cost only "Insufficient
     * Coins" is logged. Otherwise the cost is paid, a mining upgrade raises
     * the rate by `MiningBoost`, the purchase is logged by category and the
     * entry is marked unlocked. The ledger never goes negative.
     */
    method BuyStoreItem(item: StoreItem)
      requires Valid()
      modifies this`shrineLog, this`miningRate, page`devCoins, item`unlocked
      ensures Valid()
      ensures old(page.devCoins) < item.cost ==>
        && page.devCoins == old(page.devCoins) && miningRate == old(miningRate) && item.unlocked == old(item.unlocked)
        && shrineLog == RollingLog.PushFront(
             Message(SystemSender, "Insufficient Coins", "You need " + Text.NatStr(item.cost) + " Dev Coins for this purchase."),
             old(shrineLog), LogCap)
      ensures old(page.devCoins) >= item.cost ==>
        && page.devCoins == old(page.devCoins) - item.cost
        && miningRate == old(miningRate) + MiningBoost(item.id, item.category)
        && item.unlocked
        && shrineLog == RollingLog.PushFront(PurchaseMessage(item.id, item.name, item.category), old(shrineLog), LogCap)
    {
      if page.devCoins < item.cost {
        AddShrineMessage(SystemSender, "Insufficient Coins", "You need " + Text.NatStr(item.cost) + " Dev Coins for this purchase.");
        return;
      }
      page.HandleDevCoinUpdate(-(item.cost as int));
      if item.category == Spirits {
        AddShrineMessage(SystemSender, SpiritSummoned, item.name + " has joined your development pantheon!");
      } else if item.category == Upgrades && Text.Contains(item.id, "mining") {
        var boost := if item.id == Boost1Id then 10 else 25;
        miningRate := miningRate + boost;
        AddShrineMessage(SystemSender, UpgradeAcquired, "Mining rate increased by " + Text.NatStr(boost) + " coins/hour!");
      } else {
        AddShrineMessage(SystemSender, ToolAcquired, item.name + " added to your development arsenal!");
      }
      item.unlocked := true;
    }

    /** `handleClicker`: one clicker point and one coin. */
    method HandleClicker()
      requires Valid()
      modifies this`clickerPoints, page`devCoins
      ensures Valid()
      ensures clickerPoints == old(clickerPoints) + 1
      ensures page.devCoins == old(page.devCoins) + 1
    {
      clickerPoints := clickerPoints + 1;
      page.HandleDevCoinUpdate(1);
    }

    /**
     * `sacrifice`, with the drawn reward in [250, 749]. Below 250 coins only
     * "Insufficient Offering" is logged; otherwise the net change is the
     * reward minus 250, never a loss.
     */
    method Sacrifice(reward: int)
      requires Valid()
      requires SacrificeCost <= reward < SacrificeCost + 500
      modifies this`shrineLog, page`devCoins
      ensures Valid()
      ensures old(page.devCoins) < SacrificeCost ==>
        && page.devCoins == old(page.devCoins)
        && shrineLog == RollingLog.PushFront(InsufficientOffering, old(shrineLog), LogCap)
      ensures old(page.devCoins) >= SacrificeCost ==>
        && page.devCoins == old(page.devCoins) - SacrificeCost + reward >= old(page.devCoins)
        && shrineLog == RollingLog.PushFront(SacrificeMessage(reward), old(shrineLog), LogCap)
    {
      if page.devCoins < SacrificeCost {
        AddShrineMessage(InsufficientOffering.sender, InsufficientOffering.header, InsufficientOffering.text);
        return;
      }
      page.HandleDevCoinUpdate(-SacrificeCost);
      page.HandleDevCoinUpdate(reward);
      var m := SacrificeMessage(reward);
      AddShrineMessage(m.sender, m.header, m.text);
    }

    /** The passive-mining tick: `MiningYield(miningRate)` coins and a log line, or nothing when that is 0. */
    method MiningTick()
      requires Valid()
      modifies this`shrineLog, page`devCoins
      ensures Valid()
      ensures page.devCoins == old(page.devCoins) + MiningYield(miningRate)
      ensures MiningYield(miningRate) == 0 ==> shrineLog == old(shrineLog)
      ensures MiningYield(miningRate) > 0 ==> shrineLog == RollingLog.PushFront(
        Message(SystemSender, "Mining Rig", "Energy condenser generated " + Text.NatStr(MiningYield(miningRate)) + " Dev Coins"),
        old(shrineLog), LogCap)
    {
      var coins := miningRate / TicksPerHour;
      if coins > 0 {
        page.HandleDevCoinUpdate(coins);
        AddShrineMessage(SystemSender, "Mining Rig", "Energy condenser generated " + Text.NatStr(coins) + " Dev Coins");
      }
    }

    /**
     * The agent-whisper tick: when the 15% draw `fires`, the `activity`-th
     * activity is logged and `reward` coins (drawn in [3, 10]) are awarded.
     */
    method AgentWhisper(fires: bool, activity: nat, reward: int)
      requires Valid()
      requires activity < |SpiritualActivities| && 3 <= reward <= 10
      modifies this`shrineLog, page`devCoins
      ensures Valid()
      ensures !fires ==> shrineLog == old(shrineLog) && page.devCoins == old(page.devCoins)
      ensures fires ==>
        && page.devCoins == old(page.devCoins) + reward
        && shrineLog == RollingLog.PushFront(
             Message(SystemSender, "Agent Whisper", "The 24-Agent Framework has " + SpiritualActivities[activity]),
             old(shrineLog), LogCap)
    {
      if fires {
        AddShrineMessage(SystemSender, "Agent Whisper", "The 24-Agent Framework has " + SpiritualActivities[activity]);
        page.HandleDevCoinUpdate(reward);
      }
    }
  }

  /** At the starting rate of 10 coins an hour a mining tick yields nothing; it takes a rate of 360. */
  lemma NoMiningYieldBelowHourlyTicks(rate: int)
    ensures MiningYield(InitialMiningRate) == 0
    ensures rate < TicksPerHour ==> MiningYield(rate) <= 0
    ensures MiningYield(rate) >= 1 <==> rate >= TicksPerHour
  {
  }
}
