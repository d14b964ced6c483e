/** The select entities: a fixed set of labelled options per entity, mapped back
    to a numeric code when the user picks one, then written to the device
    through the hub and, optimistically, into the shared snapshot. */
module FroniusSelect {
  import opened Common
  import opened FroniusClient
  import opened FroniusHub
  import opened FroniusBase

  const ExtControlModeKey := "ext_control_mode"
  const ExportLimitEnableKey := "export_limit_enable"
  const ConnKey := "Conn"

  // ---------------------------------------------------------------------------
  // From a label back to its code

  /** The code of the first item, in iteration order, whose label is `search`. */
  function LabelCode(options: OptionsDict, search: string): (r: Option<int>)
    ensures r.None? <==> search !in Labels(options)
    ensures r.Some? ==> exists i :: 0 <= i < |options| && options[i] == (r.value, search)
                           && forall j :: 0 <= j < i ==> options[j].1 != search
  {
    if |options| == 0 then None
    else if options[0].1 == search then
      assert options[0] == (options[0].0, search);
      Some(options[0].0)
    else
      var r := LabelCode(options[1..], search);
      assert Labels(options) == [options[0].1] + Labels(options[1..]);
      if r.Some? then
        var i :| 0 <= i < |options[1..]| && options[1..][i] == (r.value, search)
                 && forall j :: 0 <= j < i ==> options[1..][j].1 != search;
        assert options[i + 1] == (r.value, search);
        assert forall j :: 0 <= j < i + 1 ==> options[j].1 != search by {
          forall j | 0 <= j < i + 1 ensures options[j].1 != search {
            if j > 0 { assert options[j] == options[1..][j - 1]; }
          }
        }
        r
      else r
  }

  /** The lookup as the entity runs it: a scan of the items that stops at the
      first match, and None when no label matches. */
  method GetKey(options: OptionsDict, search: string) returns (code: Option<int>)
    ensures code == LabelCode(options, search)
  {
    var i := 0;
    while i < |options|
      invariant 0 <= i <= |options|
      invariant LabelCode(options[i..], search) == LabelCode(options, search)
    {
      if options[i].1 == search {
        return Some(options[i].0);
      }
      assert options[i..][1..] == options[i + 1..];
      i := i + 1;
    }
    return None;
  }

  /** With distinct labels, looking up the label of an item gives back its code. */
  lemma {:induction false} LabelRoundTrip(options: OptionsDict, i: nat)
    requires i < |options|
    requires forall j, k :: 0 <= j < k < |options| ==> options[j].1 != options[k].1
    ensures LabelCode(options, options[i].1) == Some(options[i].0)
  {
    if i > 0 {
      assert options[0].1 != options[i].1;
      assert options[1..][i - 1] == options[i];
      LabelRoundTrip(options[1..], i - 1);
    }
  }

  /** Labels are not unique in general: when two items share a label, looking
      it up gives the code of an item at or before the earlier of the two. */
  lemma LabelCodeFirstWins(options: OptionsDict, i: nat, j: nat)
    requires i < j < |options| && options[i].1 == options[j].1
    ensures exists k :: 0 <= k <= i && LabelCode(options, options[j].1) == Some(options[k].0)
  {
    var search := options[j].1;
    assert Labels(options)[i] == search;
    var r := LabelCode(options, search);
    var k :| 0 <= k < |options| && options[k] == (r.value, search)
             && forall m :: 0 <= m < k ==> options[m].1 != search;
    assert k <= i;
    assert r == Some(options[k].0);
  }

  // ---------------------------------------------------------------------------
  // Writing an option

  /** The hub operation a select entity calls with the looked-up code. */
  function SelectCommand(key: string, code: Option<int>): (cmd: Option<Command>)
    ensures cmd.Some? <==> key in {ExtControlModeKey, ExportLimitEnableKey, ConnKey}
    ensures cmd.Some? ==> (IsGuarded(cmd.value) <==> key == ExtControlModeKey)
    ensures cmd.Some? && key != ExtControlModeKey ==>
      CallsOf(cmd.value) == [if key == ConnKey then SetConnStatus(code) else SetExportLimitEnable(code)]
    ensures cmd.Some? && key == ExtControlModeKey ==>
      (CallsOf(cmd.value) == [] <==> code.None? || code.value < 0 || code.value > 8)
  {
    if key == ExtControlModeKey then Some(Mode(code))
    else if key == ExportLimitEnableKey then Some(ExportLimitEnable(code))
    else if key == ConnKey then Some(ConnStatus(code))
    else None
  }

  /** Picking a label the mode select does not list reaches the hub as an
      unknown mode: no mode-change call is made. */
  lemma UnknownModeLabelMakesNoCall(options: OptionsDict, search: string)
    requires search !in Labels(options)
    ensures CallsOf(SelectCommand(ExtControlModeKey, LabelCode(options, search)).value) == []
  {
  }

  /** An unknown mode label is not rejected: the mode operation makes no call
      and returns normally, whether or not the hub was busy, so the caller goes
      on to write the label into the snapshot. */
  lemma UnknownModeLabelReturnsNormally(options: OptionsDict, search: string, wasBusy: bool,
                                        fault: Option<string>, connectReply: bool)
    requires search !in Labels(options)
    ensures var e := Invoke(SelectCommand(ExtControlModeKey, LabelCode(options, search)).value,
                            wasBusy, fault, connectReply);
      e.calls == [] && e.reply == Returned(NoValue) && e.busy == wasBusy
  {
  }

  /** The other selects pass an unknown label on to the client as None. */
  lemma UnknownLabelPassesNone(key: string, options: OptionsDict, search: string)
    requires key == ExportLimitEnableKey || key == ConnKey
    requires search !in Labels(options)
    ensures CallsOf(SelectCommand(key, LabelCode(options, search)).value) ==
      [if key == ConnKey then SetConnStatus(None) else SetExportLimitEnable(None)]
  {
  }

  /** A listed mode label with a code in 0..8 makes exactly the mode change of that code. */
  lemma ModeLabelSelectsMode(options: OptionsDict, i: nat)
    requires i < |options| && 0 <= options[i].0 <= 8
    requires forall j, k :: 0 <= j < k < |options| ==> options[j].1 != options[k].1
    ensures var calls := CallsOf(SelectCommand(ExtControlModeKey, LabelCode(options, options[i].1)).value);
      |calls| == 1 && ModeOfCall(calls[0]) == Some(options[i].0)
  {
    LabelRoundTrip(options, i);
  }

  class SelectEntity {
    const base: BaseEntity
    const hub: Hub

    constructor (coordinator: Coordinator, name: string, key: string, options: Option<OptionsDict>, hub: Hub)
      ensures this.hub == hub && fresh(base)
      ensures base.coordinator == coordinator && base.key == key && base.name == name
      ensures base.optionsDict == options
      ensures base.options == if options.Some? then Some(Labels(options.value)) else None
      ensures base.uniqueId == coordinator.name + "_" + key && base.hasEntityName && base.entityName == name
    {
      base := new BaseEntity(coordinator, name, key, None, None, None, None, None, options,
                             None, None, None, None);
      this.hub := hub;
    }

    /** The option shown: the snapshot's value under the entity's key, or None
        when the snapshot is empty or lacks the key. */
    function CurrentOption(): (r: Option<Value>)
      reads base.coordinator, base.coordinator.data
      ensures r.Some? <==> base.coordinator.data != null && base.key in base.coordinator.data.entries
      ensures r.Some? ==> r.value == base.coordinator.data.entries[base.key]
    {
      var d := base.Data();
      if |d| > 0 && base.key in d then Some(d[base.key]) else None
    }

    /** Picking `option`: its code is looked up, the hub operation for the key is
        called with it, and when that did not raise and the coordinator holds a
        non-empty snapshot, the label is written into it under the key. */
    method SelectOption(option: string) returns (r: Reply)
      modifies hub, hub.client, hub.client.data, base.coordinator.data
      ensures base.optionsDict.None? ==>
        r == Raised(NoOptions) && hub.busy == old(hub.busy) && hub.client.log == old(hub.client.log)
      ensures base.optionsDict.None? && base.coordinator.data != null ==>
        base.coordinator.data.entries == old(base.coordinator.data.entries)
      ensures base.optionsDict.Some? ==>
        var cmd := SelectCommand(base.key, LabelCode(base.optionsDict.value, option));
        var e := if cmd.Some? then Invoke(cmd.value, old(hub.busy), hub.client.FaultAt(|old(hub.client.log)|), hub.client.connectReply)
                 else Effect(old(hub.busy), [], Returned(NoValue));
        && hub.busy == e.busy && hub.client.log == old(hub.client.log) + e.calls
        && (e.reply.Raised? ==> r == e.reply)
        && (e.reply.Returned? ==> r == Returned(NoValue))
        && (base.coordinator.data != null ==>
              base.coordinator.data.entries ==
                if e.reply.Returned? && |old(base.coordinator.data.entries)| > 0
                then old(base.coordinator.data.entries)[base.key := Text(option)]
                else old(base.coordinator.data.entries))
        && (base.coordinator.data != null && e.reply.Returned? && |old(base.coordinator.data.entries)| > 0 ==>
              CurrentOption() == Some(Text(option)))
      ensures hub.client.data != base.coordinator.data ==> hub.client.data.entries == old(hub.client.data.entries)
    {
      if base.optionsDict.None? {
        return Raised(NoOptions);
      }
      var code := GetKey(base.optionsDict.value, option);
      var cmd := SelectCommand(base.key, code);
      if cmd.Some? {
        r := hub.Execute(cmd.value);
        if r.Raised? {
          return;
        }
      }
      var d := base.coordinator.data;
      if d != null && |d.entries| > 0 {
        d.entries := d.entries[base.key := Text(option)];
      }
      r := Returned(NoValue);
    }
  }

  /** A select entity type: its name, its key and its options dict. */
  datatype SelectType = SelectType(name: string, key: string, options: OptionsDict)

  /** `selects` are the entities built from `types`, one per type and in order,
      each reading `coordinator` and writing through `hub`. */
  predicate BuiltFrom(selects: seq<SelectEntity>, hub: Hub, coordinator: Coordinator, types: seq<SelectType>)
  {
    && |selects| == |types|
    && forall i :: 0 <= i < |types| ==> SelectBuiltFrom(selects[i], hub, coordinator, types[i])
  }

  /** One entity carries its type's name, key, options dict and option labels, the coordinator and the hub. */
  predicate SelectBuiltFrom(select: SelectEntity, hub: Hub, coordinator: Coordinator, t: SelectType)
  {
    && select.hub == hub && select.base.coordinator == coordinator
    && select.base.name == t.name && select.base.key == t.key
    && select.base.optionsDict == Some(t.options) && select.base.options == Some(Labels(t.options))
  }

  method BuildSelects(hub: Hub, coordinator: Coordinator, types: seq<SelectType>) returns (selects: seq<SelectEntity>)
    ensures BuiltFrom(selects, hub, coordinator, types)
  {
    selects := [];
    for i := 0 to |types|
      invariant BuiltFrom(selects, hub, coordinator, types[..i])
    {
      var t := types[i];
      var select := new SelectEntity(coordinator, t.name, t.key, Some(t.options), hub);
      assert types[..i + 1] == types[..i] + [t];
      selects := selects + [select];
    }
    assert types[..|types|] == types;
  }

  /** The select entities built at setup: the storage types, only when storage
      is configured, then the inverter types, always. */
  method SetupSelects(hub: Hub, coordinator: Coordinator, storageTypes: seq<SelectType>, inverterTypes: seq<SelectType>)
    returns (entities: seq<SelectEntity>)
    ensures var s := if hub.client.storageConfigured then |storageTypes| else 0;
      && |entities| == s + |inverterTypes|
      && (hub.client.storageConfigured ==> BuiltFrom(entities[..s], hub, coordinator, storageTypes))
      && BuiltFrom(entities[s..], hub, coordinator, inverterTypes)
  {
    var storage: seq<SelectEntity> := [];
    if hub.client.storageConfigured {
      storage := BuildSelects(hub, coordinator, storageTypes);
    }
    var inverter := BuildSelects(hub, coordinator, inverterTypes);
    entities := storage + inverter;
    assert entities[..|storage|] == storage;
    assert entities[|storage|..] == inverter;
  }
}
