/** The ZHA quirk for the AwoX ERCU_3groups_Zm remote with three banks.

    The remote's buttons 1, 2 and 3 select a bank; every control command it
    then sends is addressed to one of three Touchlink groups. Each custom
    cluster resolves that group to a bank and records it, and the quirk
    exposes every base trigger once per bank, with the bank number appended
    to the action name. */
module AwoxThreeBanks {
  import opened Common

  // ---------------------------------------------------------------------
  // Bank resolution
  // ---------------------------------------------------------------------

  /** The Touchlink group ids the remote addresses, one per bank. */
  const GroupId1: int := 0x800A
  const GroupId2: int := 0x800B
  const GroupId3: int := 0x800C

  const GroupToBank: map<int, int> := map[GroupId1 := 1, GroupId2 := 2, GroupId3 := 3]

  predicate IsBank(b: int)
  {
    1 <= b <= 3
  }

  /** The destination addressing of an incoming command. `NoAddressing`
      stands for a missing (or falsy) addressing object; `Addressing(None)`
      for one without a `group` attribute, or whose group is `None`. */
  datatype DstAddressing = NoAddressing | Addressing(group: Option<int>)

  /** The group id read off the addressing, if there is one. */
  function GroupIdOf(dst: DstAddressing): Option<int>
  {
    match dst
    case NoAddressing => None
    case Addressing(g) => g
  }

  /** The bank for a group id: the mapped bank for a known id, and bank 1
      when the id is missing, falsy (0) or not one of the three. */
  function ResolveBank(groupId: Option<int>): (bank: int)
    ensures IsBank(bank)
    ensures bank != 1 ==> groupId.Some? && groupId.value in GroupToBank
  {
    match groupId
    case None => 1
    case Some(g) => if g != 0 then (if g in GroupToBank then GroupToBank[g] else 1) else 1
  }

  /** The three group ids resolve to banks 1, 2 and 3. */
  lemma KnownGroupsResolve()
    ensures ResolveBank(Some(0x800A)) == 1
    ensures ResolveBank(Some(0x800B)) == 2
    ensures ResolveBank(Some(0x800C)) == 3
  {
  }

  /** The group table is a bijection from the three group ids onto {1, 2, 3}. */
  lemma GroupToBankIsBijection()
    ensures GroupToBank.Keys == {GroupId1, GroupId2, GroupId3}
    ensures GroupToBank.Values == {1, 2, 3}
    ensures forall g1, g2 :: g1 in GroupToBank && g2 in GroupToBank && GroupToBank[g1] == GroupToBank[g2] ==> g1 == g2
  {
    assert GroupToBank[GroupId1] == 1 && GroupToBank[GroupId2] == 2 && GroupToBank[GroupId3] == 3;
  }

  /** Missing addressing, addressing without a group, a falsy group and any
      unlisted group all fall back to bank 1. */
  lemma UnknownGroupsResolveToBankOne(dst: DstAddressing)
    requires || dst.NoAddressing?
             || dst.group.None?
             || dst.group.value == 0
             || dst.group.value !in {GroupId1, GroupId2, GroupId3}
    ensures ResolveBank(GroupIdOf(dst)) == 1
  {
  }

  /** ResolveBank picks bank b exactly when the group id is the one mapped to
      b, or b is 1 and the group id is not one of the three. */
  lemma ResolveBankExactly(groupId: Option<int>, b: int)
    ensures ResolveBank(groupId) == b <==>
              (groupId.Some? && groupId.value in GroupToBank && GroupToBank[groupId.value] == b)
              || (b == 1 && !(groupId.Some? && groupId.value in GroupToBank))
  {
  }

  // ---------------------------------------------------------------------
  // Custom clusters
  // ---------------------------------------------------------------------

  /** The four clusters the quirk replaces with bank-aware subclasses. */
  datatype ClusterKind = OnOffCluster | ScenesCluster | ColorCluster | LevelControlCluster

  datatype ArgType = Uint8

  /** A ZCL command definition: name, argument schema and whether the
      command is manufacturer specific. */
  datatype CommandDef = CommandDef(name: string, schema: seq<(string, ArgType)>, isManufacturerSpecific: bool)

  const AwoxColorCommand: CommandDef :=
    CommandDef("awox_color", [("param1", Uint8), ("color", Uint8)], true)

  const AwoxRefreshCommand: CommandDef :=
    CommandDef("awox_refresh", [("param1", Uint8), ("press", Uint8)], true)

  /** The command id each kind of cluster overrides, if any. */
  function OverriddenCommandId(kind: ClusterKind): Option<int>
  {
    match kind
    case ColorCluster => Some(0x30)
    case LevelControlCluster => Some(0x10)
    case _ => None
  }

  /** The server command table of a custom cluster, given its parent's:
      a copy of the parent table with one slot overridden for the Color and
      LevelControl clusters; the inherited table otherwise. */
  function ServerCommands(kind: ClusterKind, parent: map<int, CommandDef>): (table: map<int, CommandDef>)
    ensures OverriddenCommandId(kind).None? ==> table == parent
    ensures OverriddenCommandId(kind).Some? ==> table.Keys == parent.Keys + {OverriddenCommandId(kind).value}
    ensures kind == ColorCluster ==> table[0x30] == AwoxColorCommand
    ensures kind == LevelControlCluster ==> table[0x10] == AwoxRefreshCommand
    ensures forall id :: id in parent && Some(id) != OverriddenCommandId(kind) ==> id in table && table[id] == parent[id]
  {
    match kind
    case ColorCluster => parent[0x30 := AwoxColorCommand]
    case LevelControlCluster => parent[0x10 := AwoxRefreshCommand]
    case _ => parent
  }

  /** One of the quirk's custom clusters. `currentBank` is the Python
      attribute `_current_bank`, which does not exist before the first
      request. */
  class AwoxCluster {
    const kind: ClusterKind
    const serverCommands: map<int, CommandDef>
    var currentBank: Option<int>

    constructor (kind: ClusterKind, parentCommands: map<int, CommandDef>)
      ensures this.kind == kind
      ensures serverCommands == ServerCommands(kind, parentCommands)
      ensures currentBank == None
    {
      this.kind := kind;
      serverCommands := ServerCommands(kind, parentCommands);
      currentBank := None;
    }

    /** Resolves and records the bank of an incoming request, then hands the
        request unchanged to the parent handler and returns its result. */
    method HandleClusterRequest<H, A, R>(hdr: H, args: A, dst: DstAddressing, parent: (H, A, DstAddressing) -> R)
      returns (r: R)
      modifies this
      ensures currentBank == Some(ResolveBank(GroupIdOf(dst)))
      ensures r == parent(hdr, args, dst)
    {
      var groupId: Option<int> := None;
      if dst.Addressing? && dst.group.Some? {
        groupId := dst.group;
      }
      var bank := ResolveBank(groupId);
      currentBank := Some(bank);
      r := parent(hdr, args, dst);
    }
  }

  // ---------------------------------------------------------------------
  // Trigger table
  // ---------------------------------------------------------------------

  datatype PressType = ShortPress | LongPress

  /** A device automation trigger key: press type and action name. */
  datatype TriggerKey = TriggerKey(press: PressType, action: string)

  /** A trigger definition; `params`, `endpointId` and `bank` are the
      optional keys of the Python dict. */
  datatype TriggerDef = TriggerDef(
    command: string,
    clusterId: int,
    params: Option<map<string, int>>,
    endpointId: Option<int>,
    bank: Option<int>)

  /** The endpoint every generated trigger is bound to. */
  const EndpointId: int := 1

  /** The decimal digit of a bank, as Python's f-string writes it. */
  function BankDigit(bank: int): char
    requires IsBank(bank)
  {
    ('0' as int + bank) as char
  }

  /** The key of a base trigger in the given bank: `"<action>_<bank>"`. */
  function Suffixed(key: TriggerKey, bank: int): TriggerKey
    requires IsBank(bank)
  {
    TriggerKey(key.press, key.action + "_" + [BankDigit(bank)])
  }

  /** A copy of a base definition annotated with the endpoint and the bank. */
  function WithBank(def: TriggerDef, bank: int): TriggerDef
  {
    def.(endpointId := Some(EndpointId), bank := Some(bank))
  }

  /** The base key a generated key came from: the action with the two-letter
      suffix removed. */
  function BaseKeyOf(key: TriggerKey): TriggerKey
    requires |key.action| >= 2
  {
    TriggerKey(key.press, key.action[..|key.action| - 2])
  }

  /** The bank a generated key belongs to: its last character as a digit. */
  function BankOfKey(key: TriggerKey): int
    requires |key.action| >= 1
  {
    key.action[|key.action| - 1] as int - '0' as int
  }

  /** BaseKeyOf and BankOfKey undo Suffixed. */
  lemma SuffixedInverse(key: TriggerKey, bank: int)
    requires IsBank(bank)
    ensures |Suffixed(key, bank).action| == |key.action| + 2
    ensures BaseKeyOf(Suffixed(key, bank)) == key
    ensures BankOfKey(Suffixed(key, bank)) == bank
  {
    var s := Suffixed(key, bank).action;
    assert s[..|s| - 2] == key.action;
  }

  /** Appending `"_<bank>"` cannot make two keys collide. */
  lemma SuffixedInjective(k1: TriggerKey, b1: int, k2: TriggerKey, b2: int)
    requires IsBank(b1) && IsBank(b2)
    requires Suffixed(k1, b1) == Suffixed(k2, b2)
    ensures k1 == k2 && b1 == b2
  {
    SuffixedInverse(k1, b1);
    SuffixedInverse(k2, b2);
  }

  /** The (base key, bank) pairs of a set of base keys. */
  function AllPairs(keys: set<TriggerKey>): set<(TriggerKey, int)>
  {
    set k, b | k in keys && 1 <= b <= 3 :: (k, b)
  }

  ghost predicate ValidPairs(base: map<TriggerKey, TriggerDef>, pairs: set<(TriggerKey, int)>)
  {
    forall p :: p in pairs ==> p.0 in base && IsBank(p.1)
  }

  /** The keys generated for a set of (base key, bank) pairs. */
  function KeysOf(pairs: set<(TriggerKey, int)>): set<TriggerKey>
    requires forall p :: p in pairs ==> IsBank(p.1)
  {
    set p | p in pairs :: Suffixed(p.0, p.1)
  }

  /** The entries generated for a set of (base key, bank) pairs. */
  function Expansion(base: map<TriggerKey, TriggerDef>, pairs: set<(TriggerKey, int)>): map<TriggerKey, TriggerDef>
    requires ValidPairs(base, pairs)
  {
    ExpansionWellFormed(base, pairs);
    map t | t in KeysOf(pairs) :: WithBank(base[BaseKeyOf(t)], BankOfKey(t))
  }

  lemma ExpansionWellFormed(base: map<TriggerKey, TriggerDef>, pairs: set<(TriggerKey, int)>)
    requires ValidPairs(base, pairs)
    ensures forall t :: t in KeysOf(pairs) ==> |t.action| >= 2 && BaseKeyOf(t) in base && IsBank(BankOfKey(t))
  {
    forall t | t in KeysOf(pairs)
      ensures |t.action| >= 2 && BaseKeyOf(t) in base && IsBank(BankOfKey(t))
    {
      var p :| p in pairs && t == Suffixed(p.0, p.1);
      SuffixedInverse(p.0, p.1);
    }
  }

  /** The generated trigger table: every base trigger once per bank. */
  function ExpandedTriggers(base: map<TriggerKey, TriggerDef>): map<TriggerKey, TriggerDef>
  {
    Expansion(base, AllPairs(base.Keys))
  }

  /** Adding one (key, bank) pair adds exactly its generated entry. */
  lemma ExpansionStep(base: map<TriggerKey, TriggerDef>, pairs: set<(TriggerKey, int)>, key: TriggerKey, bank: int)
    requires ValidPairs(base, pairs) && key in base && IsBank(bank)
    ensures ValidPairs(base, pairs + {(key, bank)})
    ensures Expansion(base, pairs + {(key, bank)}) == Expansion(base, pairs)[Suffixed(key, bank) := WithBank(base[key], bank)]
  {
    var bigger := pairs + {(key, bank)};
    var lhs := Expansion(base, bigger);
    var rhs := Expansion(base, pairs)[Suffixed(key, bank) := WithBank(base[key], bank)];
    assert KeysOf(bigger) == KeysOf(pairs) + {Suffixed(key, bank)};
    SuffixedInverse(key, bank);
    forall t | t in lhs.Keys ensures lhs[t] == rhs[t] {
      if t != Suffixed(key, bank) {
        assert t in KeysOf(pairs);
      }
    }
  }

  /** Entry by entry, the generated table is the base table suffixed by bank. */
  lemma ExpandedTriggersEntries(base: map<TriggerKey, TriggerDef>, key: TriggerKey, bank: int)
    requires key in base && IsBank(bank)
    ensures Suffixed(key, bank) in ExpandedTriggers(base)
    ensures ExpandedTriggers(base)[Suffixed(key, bank)] == WithBank(base[key], bank)
  {
    assert (key, bank) in AllPairs(base.Keys);
    SuffixedInverse(key, bank);
  }

  /** Every generated key is some base key with a bank suffix, and its entry
      is that base entry with the endpoint and bank added; command, cluster
      and parameters are those of the base entry. */
  lemma ExpandedTriggersOrigin(base: map<TriggerKey, TriggerDef>, t: TriggerKey)
    requires t in ExpandedTriggers(base)
    ensures |t.action| >= 2 && BaseKeyOf(t) in base && IsBank(BankOfKey(t))
    ensures t == Suffixed(BaseKeyOf(t), BankOfKey(t))
    ensures ExpandedTriggers(base)[t] == WithBank(base[BaseKeyOf(t)], BankOfKey(t))
    ensures ExpandedTriggers(base)[t].command == base[BaseKeyOf(t)].command
    ensures ExpandedTriggers(base)[t].clusterId == base[BaseKeyOf(t)].clusterId
    ensures ExpandedTriggers(base)[t].params == base[BaseKeyOf(t)].params
    ensures ExpandedTriggers(base)[t].endpointId == Some(EndpointId)
    ensures ExpandedTriggers(base)[t].bank == Some(BankOfKey(t))
  {
    var p :| p in AllPairs(base.Keys) && t == Suffixed(p.0, p.1);
    SuffixedInverse(p.0, p.1);
  }

  lemma AllPairsSplit(keys: set<TriggerKey>, x: TriggerKey)
    requires x in keys
    ensures AllPairs(keys) == AllPairs(keys - {x}) + {(x, 1), (x, 2), (x, 3)}
  {
  }

  lemma KeysOfUnion(p1: set<(TriggerKey, int)>, p2: set<(TriggerKey, int)>)
    requires forall p :: p in p1 ==> IsBank(p.1)
    requires forall p :: p in p2 ==> IsBank(p.1)
    ensures KeysOf(p1 + p2) == KeysOf(p1) + KeysOf(p2)
  {
  }

  /** The three keys generated from one base key are distinct and none of
      them is generated from any other base key. */
  lemma FreshSuffixedKeys(rest: set<TriggerKey>, x: TriggerKey)
    requires x !in rest
    ensures |KeysOf({(x, 1), (x, 2), (x, 3)})| == 3
    ensures KeysOf(AllPairs(rest)) !! KeysOf({(x, 1), (x, 2), (x, 3)})
  {
    SuffixedInverse(x, 1);
    SuffixedInverse(x, 2);
    SuffixedInverse(x, 3);
    assert KeysOf({(x, 1), (x, 2), (x, 3)}) == {Suffixed(x, 1), Suffixed(x, 2), Suffixed(x, 3)};
    forall t | t in KeysOf(AllPairs(rest)) ensures t !in KeysOf({(x, 1), (x, 2), (x, 3)}) {
      var p :| p in AllPairs(rest) && t == Suffixed(p.0, p.1);
      SuffixedInverse(p.0, p.1);
    }
  }

  /** Three generated keys per base key, all distinct. */
  lemma {:induction false} KeysOfAllPairsSize(keys: set<TriggerKey>)
    ensures |KeysOf(AllPairs(keys))| == 3 * |keys|
    decreases |keys|
  {
    if keys != {} {
      var x :| x in keys;
      var rest := keys - {x};
      KeysOfAllPairsSize(rest);
      AllPairsSplit(keys, x);
      KeysOfUnion(AllPairs(rest), {(x, 1), (x, 2), (x, 3)});
      FreshSuffixedKeys(rest, x);
    }
  }

  /** The generated table has exactly three entries per base entry. */
  lemma ExpandedTriggersSize(base: map<TriggerKey, TriggerDef>)
    ensures |ExpandedTriggers(base)| == 3 * |base|
  {
    KeysOfAllPairsSize(base.Keys);
    assert ExpandedTriggers(base).Keys == KeysOf(AllPairs(base.Keys));
  }

  /** Builds the device automation triggers with the nested loop of the
      quirk: for every base trigger and every bank, insert a copy of the
      definition with the endpoint and the bank under the suffixed key. */
  method GenerateDeviceAutomationTriggers(base: map<TriggerKey, TriggerDef>)
    returns (table: map<TriggerKey, TriggerDef>)
    ensures table == ExpandedTriggers(base)
  {
    table := map[];
    var remaining := base.Keys;
    ghost var done: set<(TriggerKey, int)> := {};
    while remaining != {}
      invariant remaining <= base.Keys
      invariant done == AllPairs(base.Keys - remaining)
      invariant ValidPairs(base, done)
      invariant table == Expansion(base, done)
      decreases remaining
    {
      var key :| key in remaining;
      var bank := 1;
      while bank <= 3
        invariant 1 <= bank <= 4
        invariant done == AllPairs(base.Keys - remaining) + (set b | 1 <= b < bank :: (key, b))
        invariant ValidPairs(base, done)
        invariant table == Expansion(base, done)
      {
        var def := base[key].(endpointId := Some(EndpointId), bank := Some(bank));
        ExpansionStep(base, done, key, bank);
        table := table[TriggerKey(key.press, key.action + "_" + [BankDigit(bank)]) := def];
        done := done + {(key, bank)};
        bank := bank + 1;
      }
      remaining := remaining - {key};
    }
  }

  // ---------------------------------------------------------------------
  // The quirk's base triggers
  // ---------------------------------------------------------------------

  /** Action and command names; the ones the quirk imports are those
      zhaquirks.const defines. */
  const TurnOn: string := "turn_on"
  const TurnOff: string := "turn_off"
  const DimUp: string := "dim_up"
  const DimDown: string := "dim_down"
  const CommandOn: string := "on"
  const CommandOff: string := "off"
  const CommandStepOnOff: string := "step_with_on_off"
  const CommandMoveToLevelOnOff: string := "move_to_level_with_on_off"
  const CommandStepColorTemp: string := "step_color_temp"
  const CommandAwoxColor: string := "awox_color"
  const CommandAwoxRefresh: string := "awox_refresh"
  const CommandEnhancedMoveHue: string := "enhanced_move_hue"
  const CommandMoveToColorTemp: string := "move_to_color_temp"
  const CommandMoveToHueSaturation: string := "move_to_hue_and_saturation"
  const CommandRecall: string := "recall"

  /** A base trigger definition: no endpoint and no bank yet. */
  function Base(command: string, clusterId: int, params: Option<map<string, int>>): TriggerDef
  {
    TriggerDef(command, clusterId, params, None, None)
  }

  /** The 22 base triggers: short and long presses of the control buttons. */
  const BaseTriggers: map<TriggerKey, TriggerDef> := map[
    TriggerKey(ShortPress, TurnOn) := Base(CommandOn, 6, None),
    TriggerKey(ShortPress, TurnOff) := Base(CommandOff, 6, None),
    TriggerKey(ShortPress, "red") := Base(CommandAwoxColor, 768, Some(map["color" := 255])),
    TriggerKey(LongPress, "red") := Base(CommandMoveToHueSaturation, 768, Some(map["hue" := 255])),
    TriggerKey(ShortPress, "green") := Base(CommandAwoxColor, 768, Some(map["color" := 85])),
    TriggerKey(LongPress, "green") := Base(CommandMoveToHueSaturation, 768, Some(map["hue" := 85])),
    TriggerKey(ShortPress, "blue") := Base(CommandAwoxColor, 768, Some(map["color" := 170])),
    TriggerKey(LongPress, "blue") := Base(CommandMoveToHueSaturation, 768, Some(map["hue" := 170])),
    TriggerKey(ShortPress, "cycle") := Base(CommandEnhancedMoveHue, 768, Some(map["move_mode" := 1])),
    TriggerKey(LongPress, "cycle") := Base(CommandEnhancedMoveHue, 768, Some(map["move_mode" := 3])),
    TriggerKey(ShortPress, "heart_1") := Base(CommandRecall, 5, Some(map["scene_id" := 1])),
    TriggerKey(ShortPress, "heart_2") := Base(CommandRecall, 5, Some(map["scene_id" := 2])),
    TriggerKey(ShortPress, DimUp) := Base(CommandStepOnOff, 8, Some(map["step_mode" := 0])),
    TriggerKey(LongPress, DimUp) := Base(CommandMoveToLevelOnOff, 8, Some(map["level" := 254])),
    TriggerKey(ShortPress, DimDown) := Base(CommandStepOnOff, 8, Some(map["step_mode" := 1])),
    TriggerKey(LongPress, DimDown) := Base(CommandMoveToLevelOnOff, 8, Some(map["level" := 1])),
    TriggerKey(ShortPress, "warm") := Base(CommandStepColorTemp, 768, Some(map["step_mode" := 1])),
    TriggerKey(LongPress, "warm") := Base(CommandMoveToColorTemp, 768, Some(map["color_temp_mireds" := 454])),
    TriggerKey(ShortPress, "cold") := Base(CommandStepColorTemp, 768, Some(map["step_mode" := 3])),
    TriggerKey(LongPress, "cold") := Base(CommandMoveToColorTemp, 768, Some(map["color_temp_mireds" := 153])),
    TriggerKey(ShortPress, "refresh") := Base(CommandAwoxRefresh, 8, Some(map["press" := 1])),
    TriggerKey(LongPress, "refresh") := Base(CommandAwoxRefresh, 8, Some(map["press" := 2]))
  ]

  /** The actions with a short-press trigger, and those with a long-press one. */
  const ShortPressActions: set<string> :=
    {"turn_on", "turn_off", "red", "green", "blue", "cycle", "heart_1", "heart_2",
     "dim_up", "dim_down", "warm", "cold", "refresh"}
  const LongPressActions: set<string> :=
    {"red", "green", "blue", "cycle", "dim_up", "dim_down", "warm", "cold", "refresh"}

  function KeysFor(press: PressType, actions: set<string>): set<TriggerKey>
  {
    set a | a in actions :: TriggerKey(press, a)
  }

  lemma {:induction false} KeysForSize(press: PressType, actions: set<string>)
    ensures |KeysFor(press, actions)| == |actions|
    decreases |actions|
  {
    if actions != {} {
      var a :| a in actions;
      KeysForSize(press, actions - {a});
      assert KeysFor(press, actions) == KeysFor(press, actions - {a}) + {TriggerKey(press, a)};
    }
  }

  /** The base triggers are keyed by the short-press and long-press actions. */
  lemma BaseTriggerKeys()
    ensures BaseTriggers.Keys == KeysFor(ShortPress, ShortPressActions) + KeysFor(LongPress, LongPressActions)
  {
  }

  lemma ActionCounts()
    ensures |ShortPressActions| == 13 && |LongPressActions| == 9
  {
  }

  /** The quirk's 22 base triggers expand to 66 device automation triggers. */
  lemma DeviceAutomationTriggersCount()
    ensures |BaseTriggers| == 22
    ensures |ExpandedTriggers(BaseTriggers)| == 66
  {
    BaseTriggerKeys();
    ActionCounts();
    KeysForSize(ShortPress, ShortPressActions);
    KeysForSize(LongPress, LongPressActions);
    assert KeysFor(ShortPress, ShortPressActions) !! KeysFor(LongPress, LongPressActions);
    assert |BaseTriggers| == |BaseTriggers.Keys|;
    ExpandedTriggersSize(BaseTriggers);
  }

  /** The short press of "red" appears once per bank, as "red_1", "red_2"
      and "red_3", with the colour command, cluster and parameters of the
      base entry, endpoint 1 and its bank number. */
  lemma RedTriggerPerBank(bank: int)
    requires IsBank(bank)
    ensures var key := TriggerKey(ShortPress, "red_" + [BankDigit(bank)]);
            && key in ExpandedTriggers(BaseTriggers)
            && ExpandedTriggers(BaseTriggers)[key]
               == TriggerDef("awox_color", 768, Some(map["color" := 255]), Some(1), Some(bank))
  {
    var red := TriggerKey(ShortPress, "red");
    assert red in BaseTriggers;
    ExpandedTriggersEntries(BaseTriggers, red, bank);
    assert Suffixed(red, bank) == TriggerKey(ShortPress, "red_" + [BankDigit(bank)]);
  }
}
