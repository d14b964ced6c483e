/** The register client the hub drives, as a fake: it records every call in a log,
    fails the calls its fault schedule names, and merges a fixed response into its
    data dict for each successful read. Register encoding and transport are not
    part of this model. */
module FroniusClient {
  import opened Common

  /** One call on the client, named after the client coroutine it stands for. */
  datatype Call =
    | Connect
    | ReadInverterData
    | ReadInverterStatusData
    | ReadInverterModelSettingsData
    | ReadInverterControlsData
    | ReadMeterData(meterPrefix: string, unitId: int)
    | ReadMpptData
    | ReadExportLimitData
    | ReadInverterStorageData
    | SetAutoMode
    | SetChargeMode
    | SetDischargeMode
    | SetChargeDischargeMode
    | SetGridChargeMode
    | SetGridDischargeMode
    | SetBlockDischargeMode
    | SetBlockChargeMode
    | SetCalibrateMode
    | SetMinimumReserve(value: real)
    | SetChargeLimit(value: real)
    | SetDischargeLimit(value: real)
    | SetGridChargePower(value: real)
    | SetGridDischargePower(value: real)
    | SetExportLimitRate(value: real)
    | SetExportLimitEnable(code: Option<int>)
    | ApplyExportLimit(value: real)
    | SetConnStatus(code: Option<int>)
  {
    /** Reads fill the data dict; every other call leaves it alone. */
    predicate IsRead() {
      || ReadInverterData? || ReadInverterStatusData? || ReadInverterModelSettingsData?
      || ReadInverterControlsData? || ReadMeterData? || ReadMpptData?
      || ReadExportLimitData? || ReadInverterStorageData?
    }
  }

  /** How one client call ended: it returned, or it raised with a message. */
  datatype Outcome = Pass | Fail(message: string)

  /** What the fake device does: the capabilities found at discovery, which calls
      fail (by their position in the call log), what each read merges into the
      data dict, and the values the client exposes as attributes. */
  datatype Device = Device(
    meterConfigured: bool,
    mpptConfigured: bool,
    storageConfigured: bool,
    faults: map<nat, string>,
    responses: map<Call, map<string, Value>>,
    connectReply: bool,
    maxChargeRateW: int,
    maxDischargeRateW: int,
    storageExtendedControlMode: int,
    initialData: map<string, Value>)

  /** The effect of one call on the data dict. */
  function AfterCall(entries: map<string, Value>, c: Call, responses: map<Call, map<string, Value>>): map<string, Value>
  {
    if c.IsRead() && c in responses then entries + responses[c] else entries
  }

  /** The data dict after the first `n` calls of `calls` have all succeeded, in order. */
  function Merged(entries: map<string, Value>, calls: seq<Call>, n: nat, responses: map<Call, map<string, Value>>): map<string, Value>
    requires n <= |calls|
  {
    if n == 0 then entries
    else AfterCall(Merged(entries, calls, n - 1, responses), calls[n - 1], responses)
  }

  /** A failed cycle does not roll back: every key present before, and every key
      a successful read supplied, is still in the dict afterwards. */
  lemma {:induction false} MergedKeepsKeys(entries: map<string, Value>, calls: seq<Call>, n: nat, responses: map<Call, map<string, Value>>)
    requires n <= |calls|
    ensures entries.Keys <= Merged(entries, calls, n, responses).Keys
    ensures forall i :: 0 <= i < n && calls[i].IsRead() && calls[i] in responses ==>
              responses[calls[i]].Keys <= Merged(entries, calls, n, responses).Keys
  {
    if n > 0 {
      MergedKeepsKeys(entries, calls, n - 1, responses);
    }
  }

  /** The client's `data` dict. It is one object, shared by the client, the hub
      and the coordinator, and entities write into it. */
  class Snapshot {
    var entries: map<string, Value>

    constructor (entries: map<string, Value>)
      ensures this.entries == entries
    {
      this.entries := entries;
    }
  }

  class Client {
    const host: string
    const port: int
    const inverterUnitId: int
    const meterUnitIds: seq<int>
    const timeout: int
    const data: Snapshot
    const meterConfigured: bool
    const mpptConfigured: bool
    const storageConfigured: bool
    const faults: map<nat, string>
    const responses: map<Call, map<string, Value>>
    const connectReply: bool
    const maxChargeRateW: int
    const maxDischargeRateW: int
    const storageExtendedControlMode: int
    /** Every call made so far, in order. */
    var log: seq<Call>

    constructor (host: string, port: int, inverterUnitId: int, meterUnitIds: seq<int>, timeout: int, device: Device)
      ensures this.host == host && this.port == port && this.inverterUnitId == inverterUnitId
      ensures this.meterUnitIds == meterUnitIds && this.timeout == timeout
      ensures fresh(data) && data.entries == device.initialData && log == []
      ensures meterConfigured == device.meterConfigured && mpptConfigured == device.mpptConfigured
      ensures storageConfigured == device.storageConfigured
      ensures faults == device.faults && responses == device.responses && connectReply == device.connectReply
      ensures maxChargeRateW == device.maxChargeRateW && maxDischargeRateW == device.maxDischargeRateW
      ensures storageExtendedControlMode == device.storageExtendedControlMode
    {
      this.host := host;
      this.port := port;
      this.inverterUnitId := inverterUnitId;
      this.meterUnitIds := meterUnitIds;
      this.timeout := timeout;
      data := new Snapshot(device.initialData);
      meterConfigured := device.meterConfigured;
      mpptConfigured := device.mpptConfigured;
      storageConfigured := device.storageConfigured;
      faults := device.faults;
      responses := device.responses;
      connectReply := device.connectReply;
      maxChargeRateW := device.maxChargeRateW;
      maxDischargeRateW := device.maxDischargeRateW;
      storageExtendedControlMode := device.storageExtendedControlMode;
      log := [];
    }

    /** Whether the call at position `n` of the log fails, and with which message. */
    function FaultAt(n: nat): (f: Option<string>)
      ensures f.Some? <==> n in faults
      ensures f.Some? ==> f.value == faults[n]
    {
      if n in faults then Some(faults[n]) else None
    }

    /** Makes one call: it is logged whether or not it fails, and a successful read
        merges its response into the data dict. */
    method Perform(c: Call) returns (o: Outcome)
      modifies this, data
      ensures log == old(log) + [c]
      ensures o == (if FaultAt(|old(log)|).Some? then Fail(FaultAt(|old(log)|).value) else Pass)
      ensures data.entries == if o.Pass? then AfterCall(old(data.entries), c, responses) else old(data.entries)
    {
      var n := |log|;
      log := log + [c];
      if n in faults {
        o := Fail(faults[n]);
      } else {
        o := Pass;
        data.entries := AfterCall(data.entries, c, responses);
      }
    }
  }
}
