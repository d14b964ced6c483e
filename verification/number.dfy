/** The number entities: the storage setpoints and the export-limit rate. Their
    availability depends on the battery's extended control mode, and the rate
    setpoints are shown in watts, scaled from the percentage the device stores. */
module FroniusNumber {
  import opened Common
  import opened FroniusClient
  import opened FroniusHub
  import opened FroniusBase

  const MinimumReserveKey := "minimum_reserve"
  const ChargeLimitKey := "charge_limit"
  const DischargeLimitKey := "discharge_limit"
  const GridChargePowerKey := "grid_charge_power"
  const GridDischargePowerKey := "grid_discharge_power"
  const ExportLimitRateKey := "export_limit_rate"

  // ---------------------------------------------------------------------------
  // Availability

  /** Whether the number entity `key` is available under extended control mode `mode`. */
  predicate IsAvailable(key: string, mode: int)
    ensures IsAvailable(key, mode) ==> key in {MinimumReserveKey, ChargeLimitKey, DischargeLimitKey,
                                               GridChargePowerKey, GridDischargePowerKey, ExportLimitRateKey}
    ensures key == MinimumReserveKey || key == ExportLimitRateKey ==> IsAvailable(key, mode)
    ensures !(1 <= mode <= 7) ==> (IsAvailable(key, mode) <==> key == MinimumReserveKey || key == ExportLimitRateKey)
  {
    if key == MinimumReserveKey then true
    else if key == ChargeLimitKey && mode in [1, 3, 6] then true
    else if key == DischargeLimitKey && mode in [2, 3, 7] then true
    else if key == GridChargePowerKey && mode in [4] then true
    else if key == GridDischargePowerKey && mode in [5] then true
    else key == ExportLimitRateKey
  }

  /** The same table read by mode: the setpoints each mode enables, on top of the
      minimum reserve and the export-limit rate that are always available.
      1 charge, 2 discharge, 3 charge_discharge, 4 grid_charge,
      5 grid_discharge, 6 block_discharge, 7 block_charge. */
  function AvailableKeys(mode: int): set<string>
  {
    {MinimumReserveKey, ExportLimitRateKey}
    + (match mode
       case 1 => {ChargeLimitKey}
       case 2 => {DischargeLimitKey}
       case 3 => {ChargeLimitKey, DischargeLimitKey}
       case 4 => {GridChargePowerKey}
       case 5 => {GridDischargePowerKey}
       case 6 => {ChargeLimitKey}
       case 7 => {DischargeLimitKey}
       case _ => {})
  }

  /** Availability depends on nothing but the key and the mode, and agrees with the by-mode table. */
  lemma AvailableMatchesModeTable(key: string, mode: int)
    ensures IsAvailable(key, mode) <==> key in AvailableKeys(mode)
  {
  }

  /** Grid charging and grid discharging power are never available together. */
  lemma GridPowersExclusive(mode: int)
    ensures !(IsAvailable(GridChargePowerKey, mode) && IsAvailable(GridDischargePowerKey, mode))
  {
  }

  /** Switching from grid_charge (4) to grid_discharge (5) swaps which grid power is available. */
  lemma GridModesSwap()
    ensures IsAvailable(GridChargePowerKey, 4) && !IsAvailable(GridDischargePowerKey, 4)
    ensures !IsAvailable(GridChargePowerKey, 5) && IsAvailable(GridDischargePowerKey, 5)
  {
  }

  // ---------------------------------------------------------------------------
  // Presented value

  /** Rounding to the nearest integer, halves upward. */
  function RoundHalfUp(x: real): (r: int)
    ensures x - 0.5 < r as real <= x + 0.5
  {
    (x + 0.5).Floor
  }

  predicate IsDischargeRateKey(key: string) { key == GridDischargePowerKey || key == DischargeLimitKey }
  predicate IsChargeRateKey(key: string) { key == GridChargePowerKey || key == ChargeLimitKey }

  /** The device-reported rate ceiling a rate setpoint is scaled against. */
  function Ceiling(key: string, maxDischargeRateW: int, maxChargeRateW: int): int
  {
    if IsDischargeRateKey(key) then maxDischargeRateW else maxChargeRateW
  }

  /** A number entity's state: nothing, the stored value as it is, a rate
      setpoint in watts, or the TypeError raised by scaling a value that is not
      a number. */
  datatype Reading = NoState | Shown(v: Value) | Watts(w: int) | TypeError

  function Presented(key: string, data: map<string, Value>, maxDischargeRateW: int, maxChargeRateW: int): (r: Reading)
    ensures r.NoState? <==> key !in data
    ensures key in data && !IsDischargeRateKey(key) && !IsChargeRateKey(key) ==> r == Shown(data[key])
    ensures key in data && (IsDischargeRateKey(key) || IsChargeRateKey(key)) ==>
      && (r.Watts? <==> data[key].Num?)
      && (r.TypeError? <==> !data[key].Num?)
    ensures r.Watts? ==>
      var exact := data[key].x / 100.0 * Ceiling(key, maxDischargeRateW, maxChargeRateW) as real;
      exact - 0.5 < r.w as real <= exact + 0.5
  {
    if |data| > 0 && key in data then
      if IsDischargeRateKey(key) || IsChargeRateKey(key) then
        match data[key]
        case Num(raw) => Watts(RoundHalfUp(raw / 100.0 * Ceiling(key, maxDischargeRateW, maxChargeRateW) as real))
        case _ => TypeError
      else Shown(data[key])
    else NoState
  }

  /** A rate setpoint stored as 100 percent is shown as exactly the ceiling. */
  lemma FullPercentIsCeiling(key: string, data: map<string, Value>, maxDischargeRateW: int, maxChargeRateW: int)
    requires IsDischargeRateKey(key) || IsChargeRateKey(key)
    requires key in data && data[key] == Num(100.0)
    ensures Presented(key, data, maxDischargeRateW, maxChargeRateW) == Watts(Ceiling(key, maxDischargeRateW, maxChargeRateW))
  {
  }

  /** A percentage between 0 and 100 is shown between 0 and the ceiling. */
  lemma PresentedWithinCeiling(key: string, data: map<string, Value>, maxDischargeRateW: int, maxChargeRateW: int)
    requires IsDischargeRateKey(key) || IsChargeRateKey(key)
    requires key in data && data[key].Num? && 0.0 <= data[key].x <= 100.0
    requires Ceiling(key, maxDischargeRateW, maxChargeRateW) >= 0
    ensures var r := Presented(key, data, maxDischargeRateW, maxChargeRateW);
      r.Watts? && 0 <= r.w <= Ceiling(key, maxDischargeRateW, maxChargeRateW)
  {
    var c := Ceiling(key, maxDischargeRateW, maxChargeRateW);
    var p := data[key].x / 100.0;
    assert 0.0 <= p <= 1.0;
    ScaledWithin(p, c as real);
    var w := RoundHalfUp(p * c as real);
    assert -0.5 < w as real <= c as real + 0.5;
    assert Presented(key, data, maxDischargeRateW, maxChargeRateW) == Watts(w);
  }

  /** A fraction between 0 and 1 of a non-negative ceiling lies between 0 and the ceiling. */
  lemma ScaledWithin(p: real, c: real)
    requires 0.0 <= p <= 1.0 && 0.0 <= c
    ensures 0.0 <= p * c <= c
  {
    assert 0.0 <= p * c;
    assert 0.0 <= (1.0 - p) * c;
    assert c - p * c == (1.0 - p) * c;
  }

  /** Half of an 8000 W ceiling is shown as 4000 W. */
  lemma HalfOfCeiling()
    ensures Presented(GridChargePowerKey, map[GridChargePowerKey := Num(50.0)], 0, 8000) == Watts(4000)
  {
  }

  // ---------------------------------------------------------------------------
  // Setup

  /** One entry of a number-entity type table. */
  datatype NumberType = NumberType(
    name: string, key: string, min: real, max: real, maxKey: Option<string>,
    unit: Option<string>, mode: Option<string>, step: real)

  /** The max bound given at setup: the snapshot's value under the type's max
      key when there is one and it is not None, otherwise the static max. */
  function MaxBound(t: NumberType, data: map<string, Value>): (bound: Value)
    ensures t.maxKey.Some? && t.maxKey.value in data && data[t.maxKey.value] != Null ==> bound == data[t.maxKey.value]
    ensures !(t.maxKey.Some? && t.maxKey.value in data && data[t.maxKey.value] != Null) ==> bound == Num(t.max)
  {
    var fromData := if t.maxKey.Some? && t.maxKey.value in data then data[t.maxKey.value] else Null;
    if fromData == Null then Num(t.max) else fromData
  }

  // ---------------------------------------------------------------------------
  // Writing a value

  /** The number entity a client call writes for, and the value it carries:
      each setpoint has its own client setter, and the export-limit rate is
      written through apply_export_limit. */
  function KeyOfCall(c: Call): Option<(string, real)>
  {
    match c
    case SetMinimumReserve(v) => Some((MinimumReserveKey, v))
    case SetChargeLimit(v) => Some((ChargeLimitKey, v))
    case SetDischargeLimit(v) => Some((DischargeLimitKey, v))
    case SetGridChargePower(v) => Some((GridChargePowerKey, v))
    case SetGridDischargePower(v) => Some((GridDischargePowerKey, v))
    case ApplyExportLimit(v) => Some((ExportLimitRateKey, v))
    case _ => None
  }

  /** The hub operation a number entity calls when set to `value`. */
  function NumberCommand(key: string, value: real): (cmd: Option<Command>)
    ensures cmd.Some? <==> key in {MinimumReserveKey, ChargeLimitKey, DischargeLimitKey,
                                   GridChargePowerKey, GridDischargePowerKey, ExportLimitRateKey}
    ensures cmd.Some? ==> (IsGuarded(cmd.value) <==> key != ExportLimitRateKey)
    ensures cmd.Some? ==>
      |CallsOf(cmd.value)| == 1 && KeyOfCall(CallsOf(cmd.value)[0]) == Some((key, value))
  {
    if key == MinimumReserveKey then Some(MinimumReserve(value))
    else if key == ChargeLimitKey then Some(ChargeLimit(value))
    else if key == DischargeLimitKey then Some(DischargeLimit(value))
    else if key == GridChargePowerKey then Some(GridChargePower(value))
    else if key == GridDischargePowerKey then Some(GridDischargePower(value))
    else if key == ExportLimitRateKey then Some(ExportLimitApply(value))
    else None
  }

  /** Different number entities write through different client calls. */
  lemma {:induction false} NumberCommandsDistinct(k1: string, k2: string, v1: real, v2: real)
    requires NumberCommand(k1, v1).Some? && NumberCommand(k2, v2).Some? && k1 != k2
    ensures CallsOf(NumberCommand(k1, v1).value) != CallsOf(NumberCommand(k2, v2).value)
  {
    var c1, c2 := NumberCommand(k1, v1).value, NumberCommand(k2, v2).value;
    if CallsOf(c1) == CallsOf(c2) {
      CallsOfInjective(c1, c2);
      assert false;
    }
  }

  class NumberEntity {
    const base: BaseEntity
    const hub: Hub

    constructor (coordinator: Coordinator, name: string, key: string, minVal: real, maxVal: Value,
                 unit: Option<string>, mode: Option<string>, nativeStep: real, hub: Hub)
      ensures this.hub == hub && fresh(base)
      ensures base.coordinator == coordinator && base.key == key && base.name == name
      ensures base.nativeMinValue == Some(minVal) && base.nativeMaxValue == Some(maxVal)
      ensures base.nativeStep == Some(nativeStep) && base.unit == unit && base.mode == mode
      ensures base.optionsDict.None?
      ensures base.uniqueId == coordinator.name + "_" + key && base.hasEntityName && base.entityName == name
    {
      base := new BaseEntity(coordinator, name, key, None, None, unit, None, None, None,
                             Some(minVal), Some(maxVal), Some(nativeStep), mode);
      this.hub := hub;
    }

    /** Availability follows the client's current extended control mode alone;
        the coordinator's last poll plays no part. */
    function Available(): (r: bool)
      ensures r <==> base.key in AvailableKeys(hub.client.storageExtendedControlMode)
    {
      AvailableMatchesModeTable(base.key, hub.client.storageExtendedControlMode);
      IsAvailable(base.key, hub.client.storageExtendedControlMode)
    }

    /** The state shown: nothing without a snapshot holding the key; a rate
        setpoint scaled from percent to watts against the client's discharge or
        charge ceiling; any other value as it is. */
    function State(): (r: Reading)
      reads base.coordinator, base.coordinator.data
      ensures r.NoState? <==> base.coordinator.data == null || base.key !in base.coordinator.data.entries
      ensures !r.NoState? && !IsDischargeRateKey(base.key) && !IsChargeRateKey(base.key) ==>
        r == Shown(base.coordinator.data.entries[base.key])
      ensures !r.NoState? && (IsDischargeRateKey(base.key) || IsChargeRateKey(base.key)) ==>
        && (r.Watts? <==> base.coordinator.data.entries[base.key].Num?)
        && (r.TypeError? <==> !base.coordinator.data.entries[base.key].Num?)
      ensures r.Watts? && base.coordinator.data.entries[base.key].Num? && IsDischargeRateKey(base.key) ==>
        var exact := base.coordinator.data.entries[base.key].x / 100.0 * hub.client.maxDischargeRateW as real;
        exact - 0.5 < r.w as real <= exact + 0.5
      ensures r.Watts? && base.coordinator.data.entries[base.key].Num? && IsChargeRateKey(base.key) ==>
        var exact := base.coordinator.data.entries[base.key].x / 100.0 * hub.client.maxChargeRateW as real;
        exact - 0.5 < r.w as real <= exact + 0.5
    {
      assert base.coordinator.data != null && base.key in base.coordinator.data.entries ==>
        base.key in base.Data() && base.Data()[base.key] == base.coordinator.data.entries[base.key];
      Presented(base.key, base.Data(), hub.client.maxDischargeRateW, hub.client.maxChargeRateW)
    }

    /** Setting a value calls the hub operation for this key, whether or not the
        entity is available; an unknown key calls nothing. */
    method SetNativeValue(value: real) returns (r: Reply)
      modifies hub, hub.client, hub.client.data
      ensures hub.client.data.entries == old(hub.client.data.entries)
      ensures NumberCommand(base.key, value).None? ==>
        r == Returned(NoValue) && hub.busy == old(hub.busy) && hub.client.log == old(hub.client.log)
      ensures NumberCommand(base.key, value).Some? ==>
        var e := Invoke(NumberCommand(base.key, value).value, old(hub.busy),
                        hub.client.FaultAt(|old(hub.client.log)|), hub.client.connectReply);
        hub.busy == e.busy && hub.client.log == old(hub.client.log) + e.calls && r == e.reply
    {
      var cmd := NumberCommand(base.key, value);
      r := Returned(NoValue);
      if cmd.Some? {
        r := hub.Execute(cmd.value);
      }
    }
  }

  /** `numbers` are the entities built from `types`, one per type and in order,
      each reading `coordinator`, writing through `hub` and bounded by `maxes`. */
  predicate NumbersBuiltFrom(numbers: seq<NumberEntity>, hub: Hub, coordinator: Coordinator,
                             types: seq<NumberType>, maxes: seq<Value>)
  {
    && |numbers| == |types| == |maxes|
    && forall i :: 0 <= i < |types| ==> NumberBuiltFrom(numbers[i], hub, coordinator, types[i], maxes[i])
  }

  /** One entity carries its type's name, key, min, step, unit and mode, the given max bound, the coordinator and the hub. */
  predicate NumberBuiltFrom(number: NumberEntity, hub: Hub, coordinator: Coordinator, t: NumberType, max: Value)
  {
    && number.hub == hub && number.base.coordinator == coordinator
    && number.base.name == t.name && number.base.key == t.key
    && number.base.nativeMinValue == Some(t.min) && number.base.nativeMaxValue == Some(max)
    && number.base.nativeStep == Some(t.step) && number.base.unit == t.unit && number.base.mode == t.mode
  }

  method BuildNumbers(hub: Hub, coordinator: Coordinator, types: seq<NumberType>, maxes: seq<Value>)
    returns (numbers: seq<NumberEntity>)
    requires |maxes| == |types|
    ensures NumbersBuiltFrom(numbers, hub, coordinator, types, maxes)
  {
    numbers := [];
    for i := 0 to |types|
      invariant NumbersBuiltFrom(numbers, hub, coordinator, types[..i], maxes[..i])
    {
      var t := types[i];
      var number := new NumberEntity(coordinator, t.name, t.key, t.min, maxes[i], t.unit, t.mode, t.step, hub);
      assert types[..i + 1] == types[..i] + [t];
      assert maxes[..i + 1] == maxes[..i] + [maxes[i]];
      numbers := numbers + [number];
    }
    assert types[..|types|] == types;
    assert maxes[..|maxes|] == maxes;
  }

  /** The max bounds of the storage types: each taken from `data` when available. */
  function SnapshotMaxes(types: seq<NumberType>, data: map<string, Value>): (maxes: seq<Value>)
    ensures |maxes| == |types|
    ensures forall i :: 0 <= i < |types| ==> maxes[i] == MaxBound(types[i], data)
  {
    seq(|types|, i requires 0 <= i < |types| => MaxBound(types[i], data))
  }

  /** The max bounds of the inverter types: their static max. */
  function StaticMaxes(types: seq<NumberType>): (maxes: seq<Value>)
    ensures |maxes| == |types|
    ensures forall i :: 0 <= i < |types| ==> maxes[i] == Num(types[i].max)
  {
    seq(|types|, i requires 0 <= i < |types| => Num(types[i].max))
  }

  /** The number entities built at setup: the storage types, only when storage
      is configured, each with its max bound taken from the snapshot when
      available; then the inverter types, always, with their static max. */
  method SetupNumbers(hub: Hub, coordinator: Coordinator, storageTypes: seq<NumberType>, inverterTypes: seq<NumberType>)
    returns (entities: seq<NumberEntity>)
    ensures var s := if hub.client.storageConfigured then |storageTypes| else 0;
      && |entities| == s + |inverterTypes|
      && (hub.client.storageConfigured ==>
            NumbersBuiltFrom(entities[..s], hub, coordinator, storageTypes,
                             SnapshotMaxes(storageTypes, hub.client.data.entries)))
      && NumbersBuiltFrom(entities[s..], hub, coordinator, inverterTypes, StaticMaxes(inverterTypes))
  {
    var storage: seq<NumberEntity> := [];
    if hub.client.storageConfigured {
      storage := BuildNumbers(hub, coordinator, storageTypes, SnapshotMaxes(storageTypes, hub.client.data.entries));
    }
    var inverter := BuildNumbers(hub, coordinator, inverterTypes, StaticMaxes(inverterTypes));
    entities := storage + inverter;
    assert entities[..|storage|] == storage;
    assert entities[|storage|..] == inverter;
  }
}
