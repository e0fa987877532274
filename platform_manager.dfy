/** The platform manager: the runtime bots (one per stored bot entity, each with its
    platform adapter), their lookup and removal by uuid, the write-back of an adapter's
    configuration into the `platform-adapters` list, and the reply rule of `send`. */
module PlatformManager {
  import opened Wrappers
  import opened Json

  datatype LauncherType = Person | Group

  /** The two message events the manager listens for. */
  datatype MessageEvent =
    | FriendMessage(senderId: string)
    | GroupMessage(senderId: string, groupId: string)

  datatype EventKind = FriendKind | GroupKind

  /** The query a listener adds for an event: launcher type, launcher id and sender id. */
  datatype QueryOrigin = QueryOrigin(launcherType: LauncherType, launcherId: string, senderId: string)

  /** The listeners `load_bot` registers: a friend message is launched by its sender, a group
      message by its group; the sender is always the event's sender. */
  function OriginOf(event: MessageEvent): (r: QueryOrigin)
    ensures r.senderId == event.senderId
    ensures event.FriendMessage? <==> r.launcherType == Person
    ensures r.launcherId == (if event.GroupMessage? then event.groupId else event.senderId)
  {
    match event
    case FriendMessage(sender) => QueryOrigin(Person, sender, sender)
    case GroupMessage(sender, group) => QueryOrigin(Group, group, sender)
  }

  /** A stored bot (`persistence_bot.Bot`). */
  datatype BotEntity = BotEntity(uuid: string, adapter: string, adapterConfig: map<string, Json>, enable: bool)

  /** A platform adapter instance; its network side is not modelled. */
  class Adapter {
    const name: string
    const config: map<string, Json>
    var listenerKinds: seq<EventKind>
    var killed: bool

    constructor (name: string, config: map<string, Json>)
      ensures this.name == name && this.config == config && listenerKinds == [] && !killed
    {
      this.name := name;
      this.config := config;
      listenerKinds := [];
      killed := false;
    }
  }

  /** `RuntimeBot`: `enable` is copied from the entity; `started` records that `run` created
      the adapter's task. */
  class RuntimeBot {
    const entity: BotEntity
    const enable: bool
    const adapter: Adapter
    var started: bool

    constructor (entity: BotEntity, adapter: Adapter)
      ensures this.entity == entity && enable == entity.enable && this.adapter == adapter && !started
    {
      this.entity := entity;
      enable := entity.enable;
      this.adapter := adapter;
      started := false;
    }
  }

  /** An entry of `message_platform_adapter_components`: its name and `to_plain_dict()`. */
  datatype Component = Component(name: string, plainDict: map<string, Json>)

  /** The position of the first bot with that uuid. */
  function FirstBot(bots: seq<RuntimeBot>, uuid: string): (r: Option<nat>)
    ensures r.Some? ==>
      (r.value < |bots| && bots[r.value].entity.uuid == uuid
       && forall j :: 0 <= j < r.value ==> bots[j].entity.uuid != uuid)
    ensures r.None? ==> forall j :: 0 <= j < |bots| ==> bots[j].entity.uuid != uuid
  {
    if bots == [] then None
    else if bots[0].entity.uuid == uuid then Some(0)
    else match FirstBot(bots[1..], uuid)
      case None => None
      case Some(k) => Some(k + 1)
  }

  lemma FirstBotAt(bots: seq<RuntimeBot>, uuid: string, i: nat)
    requires i < |bots| && bots[i].entity.uuid == uuid
    requires forall j :: 0 <= j < i ==> bots[j].entity.uuid != uuid
    ensures FirstBot(bots, uuid) == Some(i)
  {
    var r := FirstBot(bots, uuid);
    assert !(r.value < i) && !(r.value > i);
  }

  /** A `platform-adapters` entry counts as enabled when its `enable` value is truthy. */
  predicate Enabled(entry: map<string, Json>) {
    "enable" in entry && PyTruthy(entry["enable"])
  }

  function CountEnabled(entries: seq<map<string, Json>>): nat {
    if entries == [] then 0 else (if Enabled(entries[0]) then 1 else 0) + CountEnabled(entries[1..])
  }

  datatype WriteBackError = AdapterNotFound | EnableMissing(entry: nat) | EmptyAdapterList

  /** The counting loop of `write_back_config` from entry `i` on, with `index` enabled entries
      still to pass: the slot of the entry it stops at, -1 when the list runs out, or the
      `KeyError` of an entry without `enable`. */
  function SlotFrom(entries: seq<map<string, Json>>, i: nat, index: int): (r: Result<int, WriteBackError>)
    requires i <= |entries|
    ensures r.Success? ==> r.value == -1 || i <= r.value < |entries|
    decreases |entries| - i
  {
    if i == |entries| then Success(-1)
    else if "enable" !in entries[i] then Failure(EnableMissing(i))
    else if PyTruthy(entries[i]["enable"]) then
      if index - 1 == -1 then Success(i) else SlotFrom(entries, i + 1, index - 1)
    else SlotFrom(entries, i + 1, index)
  }

  /** The counting loop finds the k-th (0-based) enabled entry: the slot it stops at is
      enabled with exactly k enabled entries before it; -1 means fewer than k + 1 exist. */
  lemma {:induction false} SlotIsKthEnabled(entries: seq<map<string, Json>>, i: nat, index: nat)
    requires i <= |entries| && SlotFrom(entries, i, index).Success?
    ensures var j := SlotFrom(entries, i, index).value;
      && (j >= 0 ==> i <= j < |entries| && Enabled(entries[j]) && CountEnabled(entries[i..j]) == index)
      && (j == -1 ==> CountEnabled(entries[i..]) <= index)
    decreases |entries| - i
  {
    if i < |entries| {
      assert entries[i..][1..] == entries[i + 1..];
      if PyTruthy(entries[i]["enable"]) {
        if index != 0 {
          SlotIsKthEnabled(entries, i + 1, index - 1);
          var j := SlotFrom(entries, i, index).value;
          if j >= 0 {
            assert entries[i..j][1..] == entries[i + 1..j];
          }
        } else {
          assert entries[i..i] == [];
        }
      } else {
        SlotIsKthEnabled(entries, i + 1, index);
        var j := SlotFrom(entries, i, index).value;
        if j >= 0 {
          assert entries[i..j][1..] == entries[i + 1..j];
        }
      }
    }
  }

  /** The entry `write_back_config` writes: `adapter` and `enable`, overlaid by `config`. */
  function NewConfig(adapterName: string, config: map<string, Json>): (r: map<string, Json>)
    ensures r.Keys == config.Keys + {"adapter", "enable"}
    ensures forall k :: k in config ==> r[k] == config[k]
    ensures "adapter" !in config ==> r["adapter"] == JStr(adapterName)
    ensures "enable" !in config ==> r["enable"] == JBool(true)
  {
    map["adapter" := JStr(adapterName), "enable" := JBool(true)] + config
  }

  /** The manager, with the parts of `platform_cfg` it reads and writes. */
  class Manager {
    var adapters: seq<Adapter>
    var bots: seq<RuntimeBot>
    /** The adapter names `adapter_dict` holds a class for. */
    var adapterNames: set<string>
    var components: seq<Component>
    var platformAdapters: seq<map<string, Json>>
    var atSender: Json
    var quoteOrigin: Json

    constructor (adapterNames: set<string>, platformAdapters: seq<map<string, Json>>, atSender: Json, quoteOrigin: Json)
      ensures adapters == [] && bots == [] && components == []
      ensures this.adapterNames == adapterNames && this.platformAdapters == platformAdapters
      ensures this.atSender == atSender && this.quoteOrigin == quoteOrigin
    {
      adapters, bots, components := [], [], [];
      this.adapterNames := adapterNames;
      this.platformAdapters := platformAdapters;
      this.atSender := atSender;
      this.quoteOrigin := quoteOrigin;
    }

    /** `load_bot`: builds the entity's adapter (a `KeyError` for an unknown adapter name),
        registers the friend and group listeners, and appends exactly one runtime bot. */
    method LoadBot(entity: BotEntity) returns (r: Result<RuntimeBot, string>)
      modifies this
      ensures entity.adapter !in adapterNames ==> r.Failure? && bots == old(bots)
      ensures entity.adapter in adapterNames ==>
        && r.Success? && fresh(r.value) && fresh(r.value.adapter)
        && bots == old(bots) + [r.value]
        && r.value.entity == entity && r.value.enable == entity.enable && !r.value.started
        && r.value.adapter.name == entity.adapter && r.value.adapter.config == entity.adapterConfig
        && r.value.adapter.listenerKinds == [FriendKind, GroupKind]
      ensures adapters == old(adapters) && adapterNames == old(adapterNames) && components == old(components)
      ensures platformAdapters == old(platformAdapters) && atSender == old(atSender) && quoteOrigin == old(quoteOrigin)
    {
      if entity.adapter !in adapterNames {
        return Failure("KeyError: " + entity.adapter);
      }
      var adapterInst := new Adapter(entity.adapter, entity.adapterConfig);
      adapterInst.listenerKinds := adapterInst.listenerKinds + [FriendKind];
      adapterInst.listenerKinds := adapterInst.listenerKinds + [GroupKind];
      var runtimeBot := new RuntimeBot(entity, adapterInst);
      bots := bots + [runtimeBot];
      return Success(runtimeBot);
    }

    /** `get_bot_by_uuid`: the first bot with that uuid, or none. Changes nothing. */
    method GetBotByUuid(uuid: string) returns (r: Option<RuntimeBot>)
      ensures FirstBot(bots, uuid).None? ==> r.None?
      ensures FirstBot(bots, uuid).Some? ==> r == Some(bots[FirstBot(bots, uuid).value])
    {
      for i := 0 to |bots|
        invariant forall j :: 0 <= j < i ==> bots[j].entity.uuid != uuid
      {
        if bots[i].entity.uuid == uuid {
          FirstBotAt(bots, uuid, i);
          return Some(bots[i]);
        }
      }
      return None;
    }

    /** `remove_bot`: drops the first bot with that uuid, shutting its adapter down first when
        the bot is enabled; without a match nothing changes. */
    method RemoveBot(uuid: string)
      modifies this, set b | b in bots :: b.adapter
      ensures FirstBot(old(bots), uuid).None? ==> bots == old(bots)
      ensures FirstBot(old(bots), uuid).Some? ==>
        var i := FirstBot(old(bots), uuid).value;
        var bot := old(bots)[i];
        && bots == old(bots)[..i] + old(bots)[i + 1..]
        && bot.adapter.killed == (old(bot.adapter.killed) || bot.enable)
        && forall a :: a in old(set b | b in bots :: b.adapter) && a != bot.adapter ==> a.killed == old(a.killed)
      ensures FirstBot(old(bots), uuid).None? ==>
        forall a :: a in old(set b | b in bots :: b.adapter) ==> a.killed == old(a.killed)
      ensures adapters == old(adapters) && platformAdapters == old(platformAdapters)
      ensures components == old(components) && adapterNames == old(adapterNames)
      ensures atSender == old(atSender) && quoteOrigin == old(quoteOrigin)
      ensures forall a :: a in old(set b | b in bots :: b.adapter) ==> a.listenerKinds == old(a.listenerKinds)
    {
      var i := 0;
      while i < |bots|
        invariant 0 <= i <= |bots|
        invariant forall j :: 0 <= j < i ==> bots[j].entity.uuid != uuid
      {
        var bot := bots[i];
        if bot.entity.uuid == uuid {
          FirstBotAt(bots, uuid, i);
          if bot.enable {
            bot.adapter.killed := true;
          }
          bots := bots[..i] + bots[i + 1..];
          return;
        }
        i := i + 1;
      }
    }

    /** `get_available_adapter_info_by_name`: the plain dict of the first component with that
        name. Changes nothing. */
    method AdapterInfoByName(name: string) returns (r: Option<map<string, Json>>)
      ensures r.Some? <==> exists j :: 0 <= j < |components| && components[j].name == name
      ensures r.Some? ==> exists j :: (0 <= j < |components| && components[j].name == name
        && components[j].plainDict == r.value
        && forall k :: 0 <= k < j ==> components[k].name != name)
    {
      for i := 0 to |components|
        invariant forall k :: 0 <= k < i ==> components[k].name != name
      {
        if components[i].name == name {
          return Some(components[i].plainDict);
        }
      }
      return None;
    }

    /** `write_back_config`: finds `adapterInst`'s position k in `adapters`, then replaces the
        k-th enabled entry of `platform-adapters` by the new entry, or the last entry when
        there are fewer enabled entries; saving the file is not modelled. */
    method WriteBackConfig(adapterName: string, adapterInst: Adapter, config: map<string, Json>)
      returns (r: Result<(), WriteBackError>)
      modifies this
      ensures adapterInst !in old(adapters) ==> r == Failure(AdapterNotFound) && platformAdapters == old(platformAdapters)
      ensures adapterInst in old(adapters) ==>
        exists k :: 0 <= k < |old(adapters)| && old(adapters)[k] == adapterInst
          && (forall j :: 0 <= j < k ==> old(adapters)[j] != adapterInst)
          && match SlotFrom(old(platformAdapters), 0, k)
             case Failure(e) => r == Failure(e) && platformAdapters == old(platformAdapters)
             case Success(j) =>
               if j == -1 && old(platformAdapters) == [] then
                 r == Failure(EmptyAdapterList) && platformAdapters == old(platformAdapters)
               else
                 var slot := if j == -1 then |old(platformAdapters)| - 1 else j;
                 r == Success(()) && platformAdapters == old(platformAdapters)[slot := NewConfig(adapterName, config)]
      ensures adapters == old(adapters) && bots == old(bots) && components == old(components)
      ensures atSender == old(atSender) && quoteOrigin == old(quoteOrigin) && adapterNames == old(adapterNames)
    {
      var index := -2;
      for i := 0 to |adapters|
        invariant forall j :: 0 <= j < i ==> adapters[j] != adapterInst
      {
        if adapters[i] == adapterInst {
          index := i;
          break;
        }
      }
      if index == -2 {
        return Failure(AdapterNotFound);
      }
      ghost var k := index;

      var entries := platformAdapters;
      var realIndex := -1;
      var i := 0;
      while i < |entries|
        invariant 0 <= i <= |entries| && index >= 0
        invariant SlotFrom(entries, 0, k) == SlotFrom(entries, i, index)
      {
        if "enable" !in entries[i] {
          return Failure(EnableMissing(i));
        }
        if PyTruthy(entries[i]["enable"]) {
          index := index - 1;
          if index == -1 {
            realIndex := i;
            break;
          }
        }
        i := i + 1;
      }
      if realIndex == -1 && entries == [] {
        return Failure(EmptyAdapterList);
      }
      var newCfg := NewConfig(adapterName, config);
      var slot := if realIndex == -1 then |entries| - 1 else realIndex;
      platformAdapters := entries[slot := newCfg];
      return Success(());
    }

    /** `run`: starts the adapter task of every enabled bot. */
    method Run()
      modifies set b | b in bots
      ensures forall b :: b in bots ==> b.started == (old(b.started) || b.enable)
    {
      for i := 0 to |bots|
        invariant forall b :: b in bots[..i] ==> b.started == (old(b.started) || b.enable)
        invariant forall b :: b in bots && b !in bots[..i] ==> b.started == old(b.started)
      {
        assert bots[..i + 1] == bots[..i] + [bots[i]];
        if bots[i].enable {
          bots[i].started := true;
        }
      }
      assert bots[..|bots|] == bots;
    }

    /** `shutdown`: kills the adapter of every enabled bot; cancelling the platform tasks is
        not modelled. */
    method Shutdown()
      modifies set b | b in bots :: b.adapter
      ensures forall a :: a in (set b | b in bots :: b.adapter) ==>
        a.killed == (old(a.killed) || exists b :: b in bots && b.adapter == a && b.enable)
      ensures forall a :: a in (set b | b in bots :: b.adapter) ==> a.listenerKinds == old(a.listenerKinds)
    {
      ghost var owners := set b | b in bots :: b.adapter;
      for i := 0 to |bots|
        invariant forall a :: a in owners ==>
          a.killed == (old(a.killed) || exists b :: b in bots[..i] && b.adapter == a && b.enable)
        invariant forall a :: a in owners ==> a.listenerKinds == old(a.listenerKinds)
      {
        assert bots[..i + 1] == bots[..i] + [bots[i]];
        if bots[i].enable {
          bots[i].adapter.killed := true;
        }
      }
      assert bots[..|bots|] == bots;
    }

    /** `send`: puts an `At` of the sender in front of the chain only for group messages with
        `at-sender` set, and asks for quoting exactly when `quote-origin` is truthy. */
    method Send(event: MessageEvent, msg: MessageChain) returns (quote: bool)
      modifies msg
      ensures PyTruthy(atSender) && event.GroupMessage? ==> msg.components == [At(event.senderId)] + old(msg.components)
      ensures !(PyTruthy(atSender) && event.GroupMessage?) ==> msg.components == old(msg.components)
      ensures quote == PyTruthy(quoteOrigin)
    {
      if PyTruthy(atSender) && event.GroupMessage? {
        msg.components := [At(event.senderId)] + msg.components;
      }
      quote := if PyTruthy(quoteOrigin) then true else false;
    }
  }

  /** A bot's reply chain, which `send` edits in place. */
  datatype ChainComponent = At(target: string) | Other(text: string)

  class MessageChain {
    var components: seq<ChainComponent>

    constructor (components: seq<ChainComponent>)
      ensures this.components == components
    {
      this.components := components;
    }
  }
}
