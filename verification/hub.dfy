/** The hub: the busy guard around device transactions, the mode dispatch and
    the setters, the poll cycle of the coordinator, and the pure pieces computed
    when the hub is built (its id, the client timeout, the library version gate). */
module FroniusHub {
  import opened Common
  import opened FroniusClient

  // ---------------------------------------------------------------------------
  // Library version gate

  /** The oldest Modbus library release the hub accepts. */
  const PymodbusVersion := Version(3, 11, 2)

  /** Release order: by major, then minor, then micro component. */
  predicate Older(a: Version, b: Version)
    ensures Older(a, b) ==> a != b
    ensures a.major != b.major ==> (Older(a, b) <==> a.major < b.major)
    ensures a.major == b.major && a.minor != b.minor ==> (Older(a, b) <==> a.minor < b.minor)
    ensures a.major == b.major && a.minor == b.minor ==> (Older(a, b) <==> a.micro < b.micro)
  {
    || a.major < b.major
    || (a.major == b.major && a.minor < b.minor)
    || (a.major == b.major && a.minor == b.minor && a.micro < b.micro)
  }

  lemma OlderIsStrictTotalOrder(a: Version, b: Version, c: Version)
    ensures !Older(a, a)
    ensures Older(a, b) && Older(b, c) ==> Older(a, c)
    ensures a == b || Older(a, b) || Older(b, a)
  {
  }

  /** The version check run before the client is initialised: `None` when the
      installed version is missing (only a warning) or at least the required one,
      and the error to raise when it is older. */
  function CheckPymodbusVersion(installed: Option<Version>): (r: Option<Error>)
    ensures r.Some? <==> installed.Some? && Older(installed.value, PymodbusVersion)
    ensures r.Some? ==> r.value == VersionTooOld(installed.value, PymodbusVersion)
  {
    match installed
    case None => None
    case Some(v) => if Older(v, PymodbusVersion) then Some(VersionTooOld(v, PymodbusVersion)) else None
  }

  // ---------------------------------------------------------------------------
  // Values computed when the hub is built

  /** The client's timeout: one second under the scan interval, but never under 3. */
  function ClientTimeout(scanInterval: int): (t: int)
    ensures t >= 3 && t >= scanInterval - 1
    ensures t == 3 || t == scanInterval - 1
  {
    if scanInterval - 1 > 3 then scanInterval - 1 else 3
  }

  predicate IsUpper(c: char) { 'A' <= c <= 'Z' }

  /** ASCII lower-casing of one character. */
  function LowerChar(c: char): (d: char)
    ensures !IsUpper(d)
    ensures IsUpper(c) ==> d as int == c as int + 32
    ensures !IsUpper(c) ==> d == c
  {
    if IsUpper(c) then (c as int + 32) as char else c
  }

  function Lower(s: string): (r: string)
    ensures |r| == |s|
    ensures forall i :: 0 <= i < |s| ==> r[i] == LowerChar(s[i])
  {
    if s == [] then [] else [LowerChar(s[0])] + Lower(s[1..])
  }

  /** `s` with every '.' removed. */
  function StripDots(s: string): (r: string)
    ensures '.' !in r
    ensures |r| <= |s|
    ensures forall c :: c in r ==> c in s
    ensures '.' !in s ==> r == s
  {
    if s == [] then []
    else (if s[0] == '.' then [] else [s[0]]) + StripDots(s[1..])
  }

  /** Only dots are removed: every other character keeps its number of occurrences. */
  lemma {:induction false} StripDotsKeepsOthers(s: string, c: char)
    requires c != '.'
    ensures multiset(StripDots(s))[c] == multiset(s)[c]
  {
    if s != [] {
      assert s == [s[0]] + s[1..];
      StripDotsKeepsOthers(s[1..], c);
    }
  }

  /** Stripping a string that starts with `c`: `c` is kept unless it is a dot. */
  lemma StripDotsCons(c: char, s: string)
    ensures StripDots([c] + s) == (if c == '.' then [] else [c]) + StripDots(s)
  {
    assert ([c] + s)[1..] == s;
  }

  /** Dots are removed piecewise, so the characters that are kept stay in
      their order: stripping a concatenation concatenates the stripped parts. */
  lemma {:induction false} StripDotsAppend(a: string, b: string)
    ensures StripDots(a + b) == StripDots(a) + StripDots(b)
  {
    if a == [] {
      assert a + b == b;
    } else {
      StripDotsAppend(a[1..], b);
      StripDotsAppendStep(a, b);
    }
  }

  /** One step of the induction: the law for `a` follows from the law for its tail. */
  lemma StripDotsAppendStep(a: string, b: string)
    requires a != []
    requires StripDots(a[1..] + b) == StripDots(a[1..]) + StripDots(b)
    ensures StripDots(a + b) == StripDots(a) + StripDots(b)
  {
    var c, rest := a[0], a[1..];
    var head := if c == '.' then [] else [c];
    SplitHead(a, b);
    StripDotsCons(c, rest + b);
    StripDotsCons(c, rest);
    AppendAssoc(head, StripDots(rest), StripDots(b));
  }

  /** A non-empty string is its first character followed by the rest. */
  lemma SplitHead(a: string, b: string)
    requires a != []
    ensures a == [a[0]] + a[1..] && a + b == [a[0]] + (a[1..] + b)
  {
  }

  lemma AppendAssoc(x: string, y: string, z: string)
    ensures x + (y + z) == (x + y) + z
  {
  }

  /** The hub id: the lower-cased name, '_', and the lower-cased host without dots. */
  function HubId(name: string, host: string): (id: string)
    ensures |id| == |name| + 1 + |StripDots(Lower(host))|
    ensures id[..|name|] == Lower(name) && id[|name|] == '_'
    ensures id[|name| + 1..] == StripDots(Lower(host))
    ensures '.' !in id[|name| + 1..]
    ensures forall c :: c in id ==> !IsUpper(c)
  {
    var lname, tail := Lower(name), StripDots(Lower(host));
    IdParts(lname, tail);
    LowerHasNoUpper(name);
    LowerHasNoUpper(host);
    lname + "_" + tail
  }

  /** The three parts of an id and where each sits. */
  lemma IdParts(x: string, y: string)
    ensures var z := x + "_" + y;
      && |z| == |x| + 1 + |y| && z[..|x|] == x && z[|x|] == '_' && z[|x| + 1..] == y
      && forall c :: c in z ==> c in x || c == '_' || c in y
  {
    var z := x + "_" + y;
    assert z[..|x|] == x;
    assert z[|x| + 1..] == y;
  }

  lemma LowerHasNoUpper(s: string)
    ensures forall c :: c in Lower(s) ==> !IsUpper(c)
  {
    forall c | c in Lower(s)
      ensures !IsUpper(c)
    {
      var i :| 0 <= i < |s| && Lower(s)[i] == c;
    }
  }

  /** Lower-casing is idempotent, so an id built from an already lower-case name
      and host keeps them as they are. */
  lemma {:induction false} LowerIdempotent(s: string)
    ensures Lower(Lower(s)) == Lower(s)
  {
    var l := Lower(s);
    assert |Lower(l)| == |l|;
    forall i | 0 <= i < |l|
      ensures Lower(l)[i] == l[i]
    {
      assert !IsUpper(l[i]);
    }
  }

  // ---------------------------------------------------------------------------
  // Mode dispatch

  /** The client call `set_mode` makes for a mode code: one per code 0..8, none otherwise. */
  function ModeCall(mode: Option<int>): (c: Option<Call>)
    ensures c.Some? <==> mode.Some? && 0 <= mode.value <= 8
    ensures c.Some? ==> ModeOfCall(c.value) == mode
  {
    if mode == Some(0) then Some(SetAutoMode)
    else if mode == Some(1) then Some(SetChargeMode)
    else if mode == Some(2) then Some(SetDischargeMode)
    else if mode == Some(3) then Some(SetChargeDischargeMode)
    else if mode == Some(4) then Some(SetGridChargeMode)
    else if mode == Some(5) then Some(SetGridDischargeMode)
    else if mode == Some(6) then Some(SetBlockDischargeMode)
    else if mode == Some(7) then Some(SetBlockChargeMode)
    else if mode == Some(8) then Some(SetCalibrateMode)
    else None
  }

  /** The mode code a mode-setting client call stands for: the inverse of `ModeCall`. */
  function ModeOfCall(c: Call): Option<int>
  {
    match c
    case SetAutoMode => Some(0)
    case SetChargeMode => Some(1)
    case SetDischargeMode => Some(2)
    case SetChargeDischargeMode => Some(3)
    case SetGridChargeMode => Some(4)
    case SetGridDischargeMode => Some(5)
    case SetBlockDischargeMode => Some(6)
    case SetBlockChargeMode => Some(7)
    case SetCalibrateMode => Some(8)
    case _ => None
  }

  /** Two different mode codes never make the same client call. */
  lemma ModeCallInjective(a: Option<int>, b: Option<int>)
    requires ModeCall(a).Some? && ModeCall(a) == ModeCall(b)
    ensures a == b
  {
  }

  /** Every call `ModeCall` makes is a mode change, never a read or a setter. */
  lemma ModeCallIsModeChange(mode: Option<int>)
    requires ModeCall(mode).Some?
    ensures ModeOfCall(ModeCall(mode).value).Some? && !ModeCall(mode).value.IsRead()
  {
  }

  // ---------------------------------------------------------------------------
  // Hub operations

  /** One constructor per hub coroutine that talks to the client:
      TestConnection is test_connection, Mode is set_mode, MinimumReserve is
      set_minimum_reserve, ..., ExportLimitApply is apply_export_limit,
      ConnStatus is set_conn_status. */
  datatype Command =
    | TestConnection
    | Mode(mode: Option<int>)
    | MinimumReserve(value: real)
    | ChargeLimit(value: real)
    | DischargeLimit(value: real)
    | GridChargePower(value: real)
    | GridDischargePower(value: real)
    | ExportLimitRate(value: real)
    | ExportLimitEnable(code: Option<int>)
    | ExportLimitApply(value: real)
    | ConnStatus(code: Option<int>)

  /** The operations wrapped by the busy guard: all but the export-limit and
      connection setters. */
  predicate IsGuarded(cmd: Command)
    ensures IsGuarded(cmd) <==>
      !(cmd.ExportLimitRate? || cmd.ExportLimitEnable? || cmd.ExportLimitApply? || cmd.ConnStatus?)
  {
    || cmd.TestConnection? || cmd.Mode? || cmd.MinimumReserve? || cmd.ChargeLimit?
    || cmd.DischargeLimit? || cmd.GridChargePower? || cmd.GridDischargePower?
  }

  /** The client calls an operation makes: at most one, never a read, and none
      exactly for a mode code outside 0..8. */
  function CallsOf(cmd: Command): (calls: seq<Call>)
    ensures |calls| <= 1
    ensures forall c :: c in calls ==> !c.IsRead()
    ensures calls == [] <==> cmd.Mode? && ModeCall(cmd.mode).None?
  {
    match cmd
    case TestConnection => [Connect]
    case Mode(m) => if ModeCall(m).Some? then [ModeCall(m).value] else []
    case MinimumReserve(v) => [SetMinimumReserve(v)]
    case ChargeLimit(v) => [SetChargeLimit(v)]
    case DischargeLimit(v) => [SetDischargeLimit(v)]
    case GridChargePower(v) => [SetGridChargePower(v)]
    case GridDischargePower(v) => [SetGridDischargePower(v)]
    case ExportLimitRate(v) => [SetExportLimitRate(v)]
    case ExportLimitEnable(code) => [SetExportLimitEnable(code)]
    case ExportLimitApply(v) => [ApplyExportLimit(v)]
    case ConnStatus(code) => [SetConnStatus(code)]
  }

  /** Different operations make different client calls. */
  lemma {:induction false} CallsOfInjective(a: Command, b: Command)
    requires CallsOf(a) != [] && CallsOf(a) == CallsOf(b)
    ensures a == b
  {
    if a.Mode? || b.Mode? {
      var c := CallsOf(a)[0];
      assert ModeOfCall(c).Some? <==> a.Mode?;
      assert ModeOfCall(c).Some? <==> b.Mode?;
      if a.Mode? {
        ModeCallInjective(a.mode, b.mode);
      }
    }
  }

  datatype Ret = NoValue | Flag(b: bool)

  /** What a hub coroutine gives its caller: a value, or an exception it raised. */
  datatype Reply = Returned(value: Ret) | Raised(error: Error)

  /** What the undecorated body of an operation gives back, given whether its
      client call fails. test_connection catches the failure and answers false. */
  function BodyReply(cmd: Command, fault: Option<string>, connectReply: bool): (r: Reply)
    ensures cmd.TestConnection? ==> r == Returned(Flag(fault.None? && connectReply))
    ensures !cmd.TestConnection? && CallsOf(cmd) != [] && fault.Some? ==> r == Raised(ClientError(fault.value))
    ensures !cmd.TestConnection? && (CallsOf(cmd) == [] || fault.None?) ==> r == Returned(NoValue)
  {
    if cmd.TestConnection? then Returned(Flag(fault.None? && connectReply))
    else if CallsOf(cmd) != [] && fault.Some? then Raised(ClientError(fault.value))
    else Returned(NoValue)
  }

  /** The busy flag afterwards, the calls made and the reply of one invocation. */
  datatype Effect = Effect(busy: bool, calls: seq<Call>, reply: Reply)

  /** One invocation of a hub operation as its caller sees it: a guarded one is
      dropped while the hub is busy; otherwise the body runs. */
  function Invoke(cmd: Command, wasBusy: bool, fault: Option<string>, connectReply: bool): (e: Effect)
    ensures e.busy == wasBusy
    ensures e.calls == CallsOf(cmd) || (e.calls == [] && IsGuarded(cmd) && wasBusy)
    ensures e.reply.Raised? ==> e.calls != [] && fault.Some? && e.reply == Raised(ClientError(fault.value))
    ensures cmd.TestConnection? && !wasBusy ==> e.reply == Returned(Flag(fault.None? && connectReply))
  {
    if IsGuarded(cmd) && wasBusy then Effect(true, [], Returned(NoValue))
    else Effect(if IsGuarded(cmd) then false else wasBusy, CallsOf(cmd), BodyReply(cmd, fault, connectReply))
  }

  /** A guarded operation called while busy makes no call, answers None and leaves the hub busy. */
  lemma BusyGuardSkips(cmd: Command, fault: Option<string>, connectReply: bool)
    requires IsGuarded(cmd)
    ensures Invoke(cmd, true, fault, connectReply) == Effect(true, [], Returned(NoValue))
  {
  }

  /** A guarded operation called while idle runs its body once, leaves the hub
      idle whether the body returned or raised, and passes the body's
      exception or result on unchanged. */
  lemma BusyGuardRunsOnce(cmd: Command, fault: Option<string>, connectReply: bool)
    requires IsGuarded(cmd)
    ensures var e := Invoke(cmd, false, fault, connectReply);
      && !e.busy && e.calls == CallsOf(cmd) && e.reply == BodyReply(cmd, fault, connectReply)
      && (!cmd.TestConnection? && e.calls != [] && fault.Some? ==> e.reply == Raised(ClientError(fault.value)))
  {
  }

  /** The export-limit and connection setters are not guarded: they run even
      while the hub is busy and never change the flag. */
  lemma UnguardedIgnoresBusy(cmd: Command, wasBusy: bool, fault: Option<string>, connectReply: bool)
    requires cmd.ExportLimitRate? || cmd.ExportLimitEnable? || cmd.ExportLimitApply? || cmd.ConnStatus?
    ensures var e := Invoke(cmd, wasBusy, fault, connectReply);
      e.busy == wasBusy && e.calls == CallsOf(cmd) && |e.calls| == 1
  {
  }

  class Hub {
    const name: string
    const id: string
    const scanInterval: int
    const client: Client
    /** Set while a guarded operation is running. */
    var busy: bool

    constructor (name: string, host: string, port: int, inverterUnitId: int, meterUnitIds: seq<int>,
                 scanInterval: int, device: Device)
      ensures this.name == name && id == HubId(name, host) && this.scanInterval == scanInterval && !busy
      ensures fresh(client) && fresh(client.data) && client.log == [] && client.data.entries == device.initialData
      ensures client.host == host && client.port == port && client.inverterUnitId == inverterUnitId
      ensures client.meterUnitIds == meterUnitIds && client.timeout == ClientTimeout(scanInterval)
      ensures client.meterConfigured == device.meterConfigured && client.mpptConfigured == device.mpptConfigured
      ensures client.storageConfigured == device.storageConfigured && client.faults == device.faults
      ensures client.responses == device.responses && client.connectReply == device.connectReply
      ensures client.maxChargeRateW == device.maxChargeRateW && client.maxDischargeRateW == device.maxDischargeRateW
      ensures client.storageExtendedControlMode == device.storageExtendedControlMode
    {
      this.name := name;
      id := HubId(name, host);
      client := new Client(host, port, inverterUnitId, meterUnitIds, ClientTimeout(scanInterval), device);
      this.scanInterval := scanInterval;
      busy := false;
    }

    /** The first half of the busy guard, up to the wrapped call. */
    method Enter() returns (proceed: bool)
      modifies this
      ensures proceed == !old(busy) && busy
    {
      if busy {
        return false;
      }
      busy := true;
      proceed := true;
    }

    /** The second half: the flag is cleared before the body's outcome is passed on. */
    method Exit(outcome: Reply) returns (r: Reply)
      modifies this
      ensures !busy && r == outcome
    {
      busy := false;
      r := outcome;
    }

    /** One client write; its failure becomes the operation's exception. */
    method Write(c: Call) returns (r: Reply)
      requires !c.IsRead()
      modifies client, client.data
      ensures client.log == old(client.log) + [c]
      ensures client.data.entries == old(client.data.entries)
      ensures var f := client.FaultAt(|old(client.log)|);
        r == if f.Some? then Raised(ClientError(f.value)) else Returned(NoValue)
    {
      var o := client.Perform(c);
      r := if o.Fail? then Raised(ClientError(o.message)) else Returned(NoValue);
    }

    /** The undecorated body of an operation. */
    method Run(cmd: Command) returns (r: Reply)
      modifies client, client.data
      ensures client.log == old(client.log) + CallsOf(cmd)
      ensures client.data.entries == old(client.data.entries)
      ensures r == BodyReply(cmd, client.FaultAt(|old(client.log)|), client.connectReply)
    {
      match cmd
      case TestConnection =>
        var o := client.Perform(Connect);
        r := Returned(Flag(o.Pass? && client.connectReply));
      case Mode(m) => r := SetMode(m);
      case MinimumReserve(v) => r := Write(SetMinimumReserve(v));
      case ChargeLimit(v) => r := Write(SetChargeLimit(v));
      case DischargeLimit(v) => r := Write(SetDischargeLimit(v));
      case GridChargePower(v) => r := Write(SetGridChargePower(v));
      case GridDischargePower(v) => r := Write(SetGridDischargePower(v));
      case ExportLimitRate(v) => r := Write(SetExportLimitRate(v));
      case ExportLimitEnable(code) => r := Write(SetExportLimitEnable(code));
      case ExportLimitApply(v) => r := Write(ApplyExportLimit(v));
      case ConnStatus(code) => r := Write(SetConnStatus(code));
    }

    /** The body of `set_mode`: one mode-change call for a code in 0..8, nothing otherwise. */
    method SetMode(mode: Option<int>) returns (r: Reply)
      modifies client, client.data
      ensures client.log == old(client.log) + CallsOf(Mode(mode))
      ensures client.data.entries == old(client.data.entries)
      ensures r == BodyReply(Mode(mode), client.FaultAt(|old(client.log)|), client.connectReply)
    {
      if mode == Some(0) { r := Write(SetAutoMode); }
      else if mode == Some(1) { r := Write(SetChargeMode); }
      else if mode == Some(2) { r := Write(SetDischargeMode); }
      else if mode == Some(3) { r := Write(SetChargeDischargeMode); }
      else if mode == Some(4) { r := Write(SetGridChargeMode); }
      else if mode == Some(5) { r := Write(SetGridDischargeMode); }
      else if mode == Some(6) { r := Write(SetBlockDischargeMode); }
      else if mode == Some(7) { r := Write(SetBlockChargeMode); }
      else if mode == Some(8) { r := Write(SetCalibrateMode); }
      else { r := Returned(NoValue); }
    }

    /** The busy guard around the body of an operation. */
    method Guarded(cmd: Command) returns (r: Reply)
      modifies this, client, client.data
      ensures old(busy) ==> busy && r == Returned(NoValue) && client.log == old(client.log)
      ensures !old(busy) ==> !busy && client.log == old(client.log) + CallsOf(cmd)
      ensures !old(busy) ==> r == BodyReply(cmd, client.FaultAt(|old(client.log)|), client.connectReply)
      ensures client.data.entries == old(client.data.entries)
    {
      var proceed := Enter();
      if !proceed {
        return Returned(NoValue);
      }
      var outcome := Run(cmd);
      r := Exit(outcome);
    }

    /** Calling an operation on the hub: through the guard when it is decorated, directly otherwise. */
    method Execute(cmd: Command) returns (r: Reply)
      modifies this, client, client.data
      ensures var e := Invoke(cmd, old(busy), client.FaultAt(|old(client.log)|), client.connectReply);
        busy == e.busy && client.log == old(client.log) + e.calls && r == e.reply
      ensures client.data.entries == old(client.data.entries)
    {
      if IsGuarded(cmd) {
        r := Guarded(cmd);
      } else {
        r := Run(cmd);
      }
    }

    /** Two operations overlapping: the second arrives while the first is
        suspended in its client call, after that call was issued. When the first
        is guarded the hub is busy meanwhile, so a guarded second is dropped and
        an unguarded one runs; either way the hub is idle once both are done.
        An operation that makes no client call never suspends, so nothing can
        overlap it. */
    method Overlapping(first: Command, second: Command) returns (r1: Reply, r2: Reply)
      requires !busy && CallsOf(first) != []
      modifies this, client, client.data
      ensures var e2 := Invoke(second, IsGuarded(first), client.FaultAt(|old(client.log)| + |CallsOf(first)|),
                               client.connectReply);
        && !busy && client.log == old(client.log) + CallsOf(first) + e2.calls
        && r1 == BodyReply(first, client.FaultAt(|old(client.log)|), client.connectReply)
        && r2 == e2.reply
      ensures IsGuarded(first) && IsGuarded(second) ==>
        r2 == Returned(NoValue) && client.log == old(client.log) + CallsOf(first)
    {
      if IsGuarded(first) {
        var proceed := Enter();
        var outcome := Run(first);
        r2 := Execute(second);
        r1 := Exit(outcome);
      } else {
        r1 := Run(first);
        r2 := Execute(second);
      }
    }
  }

  // ---------------------------------------------------------------------------
  // Poll cycle

  /** Every meter is read under this key prefix, whatever its unit id. */
  const MeterPrefix := "m1_"
  const UpdateFailedPrefix := "Fronius data update failed: "

  const InverterReads := [ReadInverterData, ReadInverterStatusData, ReadInverterModelSettingsData, ReadInverterControlsData]

  function MeterReads(ids: seq<int>): (meterCalls: seq<Call>)
    ensures |meterCalls| == |ids|
    ensures forall i :: 0 <= i < |ids| ==> meterCalls[i] == ReadMeterData(MeterPrefix, ids[i])
  {
    seq(|ids|, i requires 0 <= i < |ids| => ReadMeterData(MeterPrefix, ids[i]))
  }

  function MeterPart(meter: bool, ids: seq<int>): (part: seq<Call>)
    ensures |part| == if meter then |ids| else 0
  {
    if meter then MeterReads(ids) else []
  }

  /** The reads after the meters: MPPT if configured, export limit, storage if configured. */
  function TailReads(mppt: bool, storage: bool): (tail: seq<Call>)
    ensures |tail| == 1 + (if mppt then 1 else 0) + (if storage then 1 else 0)
    ensures forall j :: 0 <= j < |tail| ==> !tail[j].ReadMeterData?
  {
    (if mppt then [ReadMpptData] else []) + [ReadExportLimitData]
    + (if storage then [ReadInverterStorageData] else [])
  }

  /** The reads of one complete poll cycle, in order. */
  function PlannedReads(meter: bool, ids: seq<int>, mppt: bool, storage: bool): (plan: seq<Call>)
    ensures |plan| == 5 + (if meter then |ids| else 0) + (if mppt then 1 else 0) + (if storage then 1 else 0)
    ensures forall i :: 0 <= i < |plan| ==> plan[i].IsRead()
  {
    InverterReads + MeterPart(meter, ids) + TailReads(mppt, storage)
  }

  /** The first four reads of a cycle are the inverter reads. */
  lemma PlanInverterAt(meter: bool, ids: seq<int>, mppt: bool, storage: bool)
    ensures var plan := PlannedReads(meter, ids, mppt, storage);
      && plan[0] == ReadInverterData && plan[1] == ReadInverterStatusData
      && plan[2] == ReadInverterModelSettingsData && plan[3] == ReadInverterControlsData
  {
    var plan := PlannedReads(meter, ids, mppt, storage);
    var head := InverterReads + MeterPart(meter, ids);
    assert plan == head + TailReads(mppt, storage);
    assert forall j :: 0 <= j < 4 ==> plan[j] == head[j] == InverterReads[j];
  }

  /** After the inverter and meter reads come the reads of `TailReads`. */
  lemma PlanTailAt(meter: bool, ids: seq<int>, mppt: bool, storage: bool)
    ensures var plan, m := PlannedReads(meter, ids, mppt, storage), |MeterPart(meter, ids)|;
      var tail := TailReads(mppt, storage);
      && plan[4 + m..] == tail
      && forall j :: 0 <= j < |tail| ==> plan[4 + m + j] == tail[j]
  {
    var plan := PlannedReads(meter, ids, mppt, storage);
    var head := InverterReads + MeterPart(meter, ids);
    assert plan == head + TailReads(mppt, storage);
    assert plan[|head|..] == TailReads(mppt, storage);
  }

  /** The MPPT read, when configured, comes right after the meter reads. */
  lemma PlanMpptAt(meter: bool, ids: seq<int>, mppt: bool, storage: bool)
    requires mppt
    ensures 4 + |MeterPart(meter, ids)| < |PlannedReads(meter, ids, mppt, storage)|
    ensures PlannedReads(meter, ids, mppt, storage)[4 + |MeterPart(meter, ids)|] == ReadMpptData
  {
    PlanTailAt(meter, ids, mppt, storage);
  }

  /** The export-limit read comes right after the MPPT read, or the meter reads without one. */
  lemma PlanExportAt(meter: bool, ids: seq<int>, mppt: bool, storage: bool)
    ensures var k := 4 + |MeterPart(meter, ids)| + (if mppt then 1 else 0);
      k < |PlannedReads(meter, ids, mppt, storage)| && PlannedReads(meter, ids, mppt, storage)[k] == ReadExportLimitData
  {
    PlanTailAt(meter, ids, mppt, storage);
    assert TailReads(mppt, storage)[if mppt then 1 else 0] == ReadExportLimitData;
  }

  /** The storage read, when configured, comes right after the export-limit read. */
  lemma PlanStorageAt(meter: bool, ids: seq<int>, mppt: bool, storage: bool)
    requires storage
    ensures var k := 5 + |MeterPart(meter, ids)| + (if mppt then 1 else 0);
      k < |PlannedReads(meter, ids, mppt, storage)| && PlannedReads(meter, ids, mppt, storage)[k] == ReadInverterStorageData
  {
    PlanTailAt(meter, ids, mppt, storage);
    assert TailReads(mppt, storage)[1 + if mppt then 1 else 0] == ReadInverterStorageData;
  }

  /** Which read sits at each position of a cycle. */
  lemma PlanIndex(meter: bool, ids: seq<int>, mppt: bool, storage: bool)
    ensures var plan := PlannedReads(meter, ids, mppt, storage);
      var m, p := |MeterPart(meter, ids)|, if mppt then 1 else 0;
      && plan[0] == ReadInverterData && plan[1] == ReadInverterStatusData
      && plan[2] == ReadInverterModelSettingsData && plan[3] == ReadInverterControlsData
      && (mppt ==> plan[4 + m] == ReadMpptData)
      && plan[4 + m + p] == ReadExportLimitData
      && (storage ==> plan[5 + m + p] == ReadInverterStorageData)
  {
    PlanInverterAt(meter, ids, mppt, storage);
    if mppt {
      PlanMpptAt(meter, ids, mppt, storage);
    }
    PlanExportAt(meter, ids, mppt, storage);
    if storage {
      PlanStorageAt(meter, ids, mppt, storage);
    }
  }

  /** With meters configured, the read at position 4 + i is that of the i-th meter unit id. */
  lemma PlanMeterAt(ids: seq<int>, mppt: bool, storage: bool, i: nat)
    requires i < |ids|
    ensures 4 + i < |PlannedReads(true, ids, mppt, storage)|
    ensures PlannedReads(true, ids, mppt, storage)[4 + i] == ReadMeterData(MeterPrefix, ids[i])
  {
    var plan := PlannedReads(true, ids, mppt, storage);
    assert plan == InverterReads + MeterReads(ids) + TailReads(mppt, storage);
    assert plan[4 + i] == MeterReads(ids)[i];
  }

  /** The order of a poll cycle: the four inverter reads; one read per meter unit
      id, all under the prefix "m1_", only when meters are configured; the MPPT
      read only when configured; the export-limit read always; and the storage
      read, last, only when storage is configured. */
  lemma {:induction false} PlannedReadsOrder(meter: bool, ids: seq<int>, mppt: bool, storage: bool)
    ensures var plan := PlannedReads(meter, ids, mppt, storage);
      && plan[..4] == InverterReads
      && (meter ==> plan[4..4 + |ids|] == MeterReads(ids))
      && (forall i :: 0 <= i < |plan| && plan[i].ReadMeterData? ==>
            meter && 4 <= i < 4 + |ids| && plan[i] == ReadMeterData(MeterPrefix, ids[i - 4]))
      && (ReadMpptData in plan <==> mppt)
      && (ReadInverterStorageData in plan <==> storage)
      && (storage ==> plan[|plan| - 1] == ReadInverterStorageData)
      && plan[|plan| - (if storage then 2 else 1)] == ReadExportLimitData
      && (mppt ==> plan[|plan| - (if storage then 3 else 2)] == ReadMpptData)
  {
    PlanPrefixes(meter, ids, mppt, storage);
    PlanMetersOnly(meter, ids, mppt, storage);
    PlanOptionalReads(meter, ids, mppt, storage);
    PlanIndex(meter, ids, mppt, storage);
  }

  /** The cycle starts with the inverter reads, then, when configured, the meter reads. */
  lemma PlanPrefixes(meter: bool, ids: seq<int>, mppt: bool, storage: bool)
    ensures var plan := PlannedReads(meter, ids, mppt, storage);
      && plan[..4] == InverterReads
      && (meter ==> plan[4..4 + |ids|] == MeterReads(ids))
  {
    var plan := PlannedReads(meter, ids, mppt, storage);
    var head := InverterReads + MeterPart(meter, ids);
    assert plan == head + TailReads(mppt, storage);
    assert plan[..|head|] == head;
    assert head[..4] == InverterReads;
    assert head[4..] == MeterPart(meter, ids);
  }

  /** Meter reads occur only at their positions, one per unit id. */
  lemma PlanMetersOnly(meter: bool, ids: seq<int>, mppt: bool, storage: bool)
    ensures var plan := PlannedReads(meter, ids, mppt, storage);
      forall i :: 0 <= i < |plan| && plan[i].ReadMeterData? ==>
        meter && 4 <= i < 4 + |ids| && plan[i] == ReadMeterData(MeterPrefix, ids[i - 4])
  {
    PlanInverterAt(meter, ids, mppt, storage);
    PlanMeterRange(meter, ids, mppt, storage);
    PlanTailNoMeter(meter, ids, mppt, storage);
  }

  /** The positions after the inverter reads and before the tail hold the meter reads. */
  lemma PlanMeterRange(meter: bool, ids: seq<int>, mppt: bool, storage: bool)
    ensures var plan := PlannedReads(meter, ids, mppt, storage);
      forall i :: 4 <= i < 4 + |MeterPart(meter, ids)| ==> plan[i] == ReadMeterData(MeterPrefix, ids[i - 4])
  {
    if meter {
      forall i | 4 <= i < 4 + |ids|
        ensures PlannedReads(true, ids, mppt, storage)[i] == ReadMeterData(MeterPrefix, ids[i - 4])
      {
        PlanMeterAt(ids, mppt, storage, i - 4);
      }
    }
  }

  /** No read of the tail is a meter read. */
  lemma PlanTailNoMeter(meter: bool, ids: seq<int>, mppt: bool, storage: bool)
    ensures var plan := PlannedReads(meter, ids, mppt, storage);
      forall i :: 4 + |MeterPart(meter, ids)| <= i < |plan| ==> !plan[i].ReadMeterData?
  {
    var plan, m, tail := PlannedReads(meter, ids, mppt, storage), |MeterPart(meter, ids)|, TailReads(mppt, storage);
    PlanTailAt(meter, ids, mppt, storage);
    forall i | 4 + m <= i < |plan|
      ensures !plan[i].ReadMeterData?
    {
      var j := i - 4 - m;
      assert plan[4 + m + j] == tail[j];
    }
  }

  /** The MPPT and storage reads occur exactly when configured, at the end of the cycle. */
  lemma PlanOptionalReads(meter: bool, ids: seq<int>, mppt: bool, storage: bool)
    ensures var plan := PlannedReads(meter, ids, mppt, storage);
      && (ReadMpptData in plan <==> mppt)
      && (ReadInverterStorageData in plan <==> storage)
  {
    var plan := PlannedReads(meter, ids, mppt, storage);
    var head, tail := InverterReads + MeterPart(meter, ids), TailReads(mppt, storage);
    assert plan == head + tail;
    assert forall c :: c in head ==> !c.ReadMpptData? && !c.ReadInverterStorageData?;
  }

  /** The position, among `n` calls logged from position `base` on, of the first
      one the fault schedule makes fail. */
  function FirstFault(faults: map<nat, string>, base: nat, n: nat): (r: Option<nat>)
    ensures r.None? <==> forall j :: base <= j < base + n ==> j !in faults
    ensures r.Some? ==> r.value < n && base + r.value in faults
    ensures r.Some? ==> forall j :: base <= j < base + r.value ==> j !in faults
    decreases n
  {
    if n == 0 then None
    else if base in faults then Some(0)
    else match FirstFault(faults, base + 1, n - 1)
      case None => None
      case Some(k) => Some(k + 1)
  }

  /** The first failing call is the one at position `k` when none before it fails. */
  lemma FirstFaultAt(faults: map<nat, string>, base: nat, n: nat, k: nat)
    requires k < n && base + k in faults
    requires forall j :: base <= j < base + k ==> j !in faults
    ensures FirstFault(faults, base, n) == Some(k)
  {
    var r := FirstFault(faults, base, n);
    assert r.Some?;
  }

  /** A poll cycle following `plan`, started with log `log0` and data `entries0`,
      has made its first `k` reads, and all of them succeeded. */
  ghost predicate CycleProgress(log: seq<Call>, entries: map<string, Value>, faults: map<nat, string>,
                                responses: map<Call, map<string, Value>>, plan: seq<Call>, k: nat,
                                log0: seq<Call>, entries0: map<string, Value>)
  {
    && k <= |plan|
    && log == log0 + plan[..k]
    && (forall j :: |log0| <= j < |log0| + k ==> j !in faults)
    && entries == Merged(entries0, plan, k, responses)
  }

  /** The `k`-th read of that cycle was made and failed with `message`; the reads before it succeeded. */
  ghost predicate CycleFailed(log: seq<Call>, entries: map<string, Value>, faults: map<nat, string>,
                              responses: map<Call, map<string, Value>>, plan: seq<Call>, k: nat,
                              log0: seq<Call>, entries0: map<string, Value>, message: string)
  {
    && k < |plan|
    && log == log0 + plan[..k + 1]
    && (forall j :: |log0| <= j < |log0| + k ==> j !in faults)
    && |log0| + k in faults && message == faults[|log0| + k]
    && entries == Merged(entries0, plan, k, responses)
  }

  lemma CycleLogLength(log: seq<Call>, entries: map<string, Value>, faults: map<nat, string>,
                       responses: map<Call, map<string, Value>>, plan: seq<Call>, k: nat,
                       log0: seq<Call>, entries0: map<string, Value>)
    requires CycleProgress(log, entries, faults, responses, plan, k, log0, entries0)
    ensures |log| == |log0| + k
  {
  }

  /** Making the next read of the plan: a read that succeeds extends the
      progress by one; a read that fails ends the cycle at that position. */
  lemma CycleStep(log: seq<Call>, entries: map<string, Value>, faults: map<nat, string>,
                  responses: map<Call, map<string, Value>>, plan: seq<Call>, k: nat,
                  log0: seq<Call>, entries0: map<string, Value>)
    requires CycleProgress(log, entries, faults, responses, plan, k, log0, entries0) && k < |plan|
    ensures |log| !in faults ==>
      CycleProgress(log + [plan[k]], AfterCall(entries, plan[k], responses), faults, responses, plan, k + 1, log0, entries0)
    ensures |log| in faults ==>
      CycleFailed(log + [plan[k]], entries, faults, responses, plan, k, log0, entries0, faults[|log|])
  {
    assert plan[..k] + [plan[k]] == plan[..k + 1];
  }

  /** Before its first read, a cycle has made no progress. */
  lemma CycleStart(log0: seq<Call>, entries0: map<string, Value>, faults: map<nat, string>,
                   responses: map<Call, map<string, Value>>, plan: seq<Call>)
    ensures CycleProgress(log0, entries0, faults, responses, plan, 0, log0, entries0)
  {
    assert plan[..0] == [];
  }

  /** A cycle that made every read of its plan found no fault and merged every response. */
  lemma CycleComplete(log: seq<Call>, entries: map<string, Value>, faults: map<nat, string>,
                      responses: map<Call, map<string, Value>>, plan: seq<Call>,
                      log0: seq<Call>, entries0: map<string, Value>)
    requires CycleProgress(log, entries, faults, responses, plan, |plan|, log0, entries0)
    ensures FirstFault(faults, |log0|, |plan|).None?
    ensures log == log0 + plan && entries == Merged(entries0, plan, |plan|, responses)
  {
    assert plan[..|plan|] == plan;
  }

  /** A cycle that failed at read `k` failed at its first fault. */
  lemma CycleFailedFirst(log: seq<Call>, entries: map<string, Value>, faults: map<nat, string>,
                         responses: map<Call, map<string, Value>>, plan: seq<Call>, k: nat,
                         log0: seq<Call>, entries0: map<string, Value>, message: string)
    requires CycleFailed(log, entries, faults, responses, plan, k, log0, entries0, message)
    ensures FirstFault(faults, |log0|, |plan|) == Some(k) && message == faults[|log0| + k]
    ensures log == log0 + plan[..k + 1] && entries == Merged(entries0, plan, k, responses)
  {
    FirstFaultAt(faults, |log0|, |plan|, k);
  }

  /** How a cycle ended, told by its first fault: none, and every read was
      logged and merged; or the one at position `k`, which was logged, gave the
      message, and left the merges of the reads before it. */
  datatype PollResult = Fetched(snapshot: Snapshot) | Failed(error: Error)

  /** What one poll returns and leaves behind, as a function of where the
      fault schedule first fails: with no fault, the whole plan is logged and
      merged and the client's dict is returned; otherwise the plan up to and
      including the failing read is logged, the reads before it are merged, and
      the failure carries that read's message. */
  ghost predicate PollOutcome(r: PollResult, snapshot: Snapshot, log: seq<Call>, entries: map<string, Value>,
                              faults: map<nat, string>, responses: map<Call, map<string, Value>>, plan: seq<Call>,
                              log0: seq<Call>, entries0: map<string, Value>)
  {
    match FirstFault(faults, |log0|, |plan|)
    case None =>
      && r == Fetched(snapshot)
      && log == log0 + plan
      && entries == Merged(entries0, plan, |plan|, responses)
    case Some(k) =>
      && r == Failed(UpdateFailed(UpdateFailedPrefix + faults[|log0| + k]))
      && log == log0 + plan[..k + 1]
      && entries == Merged(entries0, plan, k, responses)
  }

  lemma CycleOutcome(r: PollResult, snapshot: Snapshot, log: seq<Call>, entries: map<string, Value>,
                     faults: map<nat, string>, responses: map<Call, map<string, Value>>, plan: seq<Call>,
                     log0: seq<Call>, entries0: map<string, Value>, failed: bool, k: nat, message: string)
    requires failed ==> CycleFailed(log, entries, faults, responses, plan, k, log0, entries0, message)
    requires failed ==> r == Failed(UpdateFailed(UpdateFailedPrefix + message))
    requires !failed ==> CycleProgress(log, entries, faults, responses, plan, |plan|, log0, entries0)
    requires !failed ==> r == Fetched(snapshot)
    ensures PollOutcome(r, snapshot, log, entries, faults, responses, plan, log0, entries0)
  {
    if failed {
      CycleFailedFirst(log, entries, faults, responses, plan, k, log0, entries0, message);
    } else {
      CycleComplete(log, entries, faults, responses, plan, log0, entries0);
    }
  }

  class Coordinator {
    const hub: Hub
    const name: string
    /** The last data returned by a successful poll; null before the first. */
    var data: Snapshot?
    var lastUpdateSuccess: bool

    constructor (domain: string, hub: Hub)
      ensures this.hub == hub && name == domain + "_" + hub.id + "_coordinator"
      ensures data == null && lastUpdateSuccess
    {
      this.hub := hub;
      name := domain + "_" + hub.id + "_coordinator";
      data := null;
      lastUpdateSuccess := true;
    }

    function Plan(): seq<Call>
    {
      PlannedReads(hub.client.meterConfigured, hub.client.meterUnitIds,
                   hub.client.mpptConfigured, hub.client.storageConfigured)
    }

    /** The first `k` reads of the cycle started with log `log0` and data
        `entries0` have been made, and all of them succeeded. */
    ghost predicate Progress(k: nat, log0: seq<Call>, entries0: map<string, Value>)
      reads hub.client, hub.client.data
    {
      CycleProgress(hub.client.log, hub.client.data.entries, hub.client.faults, hub.client.responses,
                    Plan(), k, log0, entries0)
    }

    /** The `k`-th read of that cycle was made and failed with `message`. */
    ghost predicate FailedAt(k: nat, log0: seq<Call>, entries0: map<string, Value>, message: string)
      reads hub.client, hub.client.data
    {
      CycleFailed(hub.client.log, hub.client.data.entries, hub.client.faults, hub.client.responses,
                  Plan(), k, log0, entries0, message)
    }

    /** One awaited read of the cycle. */
    method Read(c: Call, ghost k: nat, ghost log0: seq<Call>, ghost entries0: map<string, Value>) returns (o: Outcome)
      requires Progress(k, log0, entries0) && k < |Plan()| && Plan()[k] == c
      modifies hub.client, hub.client.data
      ensures o.Pass? ==> Progress(k + 1, log0, entries0)
      ensures o.Fail? ==> FailedAt(k, log0, entries0, o.message)
    {
      ghost var log1, entries1 := hub.client.log, hub.client.data.entries;
      CycleLogLength(log1, entries1, hub.client.faults, hub.client.responses, Plan(), k, log0, entries0);
      o := hub.client.Perform(c);
      CycleStep(log1, entries1, hub.client.faults, hub.client.responses, Plan(), k, log0, entries0);
    }

    /** The body of the poll's `try`: the reads in their fixed order, each
        awaited in turn, the first failure propagating at once. `k` is the
        position of the failed read. */
    method ReadAll(ghost log0: seq<Call>, ghost entries0: map<string, Value>) returns (o: Outcome, ghost k: nat)
      requires Progress(0, log0, entries0)
      modifies hub.client, hub.client.data
      ensures o.Pass? ==> Progress(|Plan()|, log0, entries0)
      ensures o.Fail? ==> FailedAt(k, log0, entries0, o.message)
    {
      o, k := ReadInverter(log0, entries0);
      if o.Fail? { return; }
      o, k := ReadMeters(log0, entries0);
      if o.Fail? { return; }
      o, k := ReadOptional(log0, entries0);
    }

    /** The four inverter reads. */
    method ReadInverter(ghost log0: seq<Call>, ghost entries0: map<string, Value>) returns (o: Outcome, ghost k: nat)
      requires Progress(0, log0, entries0)
      modifies hub.client, hub.client.data
      ensures o.Pass? ==> Progress(4, log0, entries0)
      ensures o.Fail? ==> FailedAt(k, log0, entries0, o.message)
    {
      PlanInverterAt(hub.client.meterConfigured, hub.client.meterUnitIds,
                hub.client.mpptConfigured, hub.client.storageConfigured);
      k := 0;
      o := Read(ReadInverterData, 0, log0, entries0);
      if o.Fail? { return; }
      k := 1;
      o := Read(ReadInverterStatusData, 1, log0, entries0);
      if o.Fail? { return; }
      k := 2;
      o := Read(ReadInverterModelSettingsData, 2, log0, entries0);
      if o.Fail? { return; }
      k := 3;
      o := Read(ReadInverterControlsData, 3, log0, entries0);
    }

    /** One read per meter unit id, when meters are configured. */
    method ReadMeters(ghost log0: seq<Call>, ghost entries0: map<string, Value>) returns (o: Outcome, ghost k: nat)
      requires Progress(4, log0, entries0)
      modifies hub.client, hub.client.data
      ensures o.Pass? ==> Progress(MetersEnd(), log0, entries0)
      ensures o.Fail? ==> FailedAt(k, log0, entries0, o.message)
    {
      o, k := Pass, 4;
      if hub.client.meterConfigured {
        var ids := hub.client.meterUnitIds;
        for i := 0 to |ids|
          invariant o.Pass? && k == 4 + i && Progress(k, log0, entries0)
        {
          PlanMeterAt(hub.client.meterUnitIds, hub.client.mpptConfigured, hub.client.storageConfigured, i);
          o := Read(ReadMeterData(MeterPrefix, ids[i]), k, log0, entries0);
          if o.Fail? { return; }
          k := k + 1;
        }
        assert k == MetersEnd();
      } else {
        assert k == MetersEnd();
      }
    }

    /** The position in the cycle just after the meter reads. */
    function MetersEnd(): nat
    {
      4 + |MeterPart(hub.client.meterConfigured, hub.client.meterUnitIds)|
    }

    /** The position in the cycle just after the MPPT read, if any. */
    function MpptEnd(): nat
    {
      MetersEnd() + if hub.client.mpptConfigured then 1 else 0
    }

    /** The MPPT read if configured, the export-limit read, the storage read if configured. */
    method ReadOptional(ghost log0: seq<Call>, ghost entries0: map<string, Value>) returns (o: Outcome, ghost k: nat)
      requires Progress(MetersEnd(), log0, entries0)
      modifies hub.client, hub.client.data
      ensures o.Pass? ==> Progress(|Plan()|, log0, entries0)
      ensures o.Fail? ==> FailedAt(k, log0, entries0, o.message)
    {
      o, k := ReadMppt(log0, entries0);
      if o.Fail? { return; }
      o, k := ReadExport(log0, entries0);
      if o.Fail? { return; }
      o, k := ReadStorage(log0, entries0);
    }

    method ReadMppt(ghost log0: seq<Call>, ghost entries0: map<string, Value>) returns (o: Outcome, ghost k: nat)
      requires Progress(MetersEnd(), log0, entries0)
      modifies hub.client, hub.client.data
      ensures o.Pass? ==> Progress(MpptEnd(), log0, entries0)
      ensures o.Fail? ==> FailedAt(k, log0, entries0, o.message)
    {
      o, k := Pass, MetersEnd();
      if hub.client.mpptConfigured {
        PlanMpptAt(hub.client.meterConfigured, hub.client.meterUnitIds,
                   hub.client.mpptConfigured, hub.client.storageConfigured);
        o := Read(ReadMpptData, k, log0, entries0);
      }
    }

    method ReadExport(ghost log0: seq<Call>, ghost entries0: map<string, Value>) returns (o: Outcome, ghost k: nat)
      requires Progress(MpptEnd(), log0, entries0)
      modifies hub.client, hub.client.data
      ensures o.Pass? ==> Progress(MpptEnd() + 1, log0, entries0)
      ensures o.Fail? ==> FailedAt(k, log0, entries0, o.message)
    {
      PlanExportAt(hub.client.meterConfigured, hub.client.meterUnitIds,
                   hub.client.mpptConfigured, hub.client.storageConfigured);
      k := MpptEnd();
      o := Read(ReadExportLimitData, k, log0, entries0);
    }

    method ReadStorage(ghost log0: seq<Call>, ghost entries0: map<string, Value>) returns (o: Outcome, ghost k: nat)
      requires Progress(MpptEnd() + 1, log0, entries0)
      modifies hub.client, hub.client.data
      ensures o.Pass? ==> Progress(|Plan()|, log0, entries0)
      ensures o.Fail? ==> FailedAt(k, log0, entries0, o.message)
    {
      o, k := Pass, MpptEnd() + 1;
      if hub.client.storageConfigured {
        PlanStorageAt(hub.client.meterConfigured, hub.client.meterUnitIds,
                      hub.client.mpptConfigured, hub.client.storageConfigured);
        assert k + 1 == |Plan()|;
        o := Read(ReadInverterStorageData, k, log0, entries0);
      } else {
        assert k == |Plan()|;
      }
    }

    /** One poll cycle: the reads in their fixed order, stopping at the first
        that fails, which becomes the cycle's single UpdateFailed. On success the
        client's own data dict is returned. The poll is not busy-guarded. */
    method Update() returns (r: PollResult)
      modifies hub.client, hub.client.data
      ensures PollOutcome(r, hub.client.data, hub.client.log, hub.client.data.entries, hub.client.faults,
                          hub.client.responses, Plan(), old(hub.client.log), old(hub.client.data.entries))
    {
      ghost var log0, entries0 := hub.client.log, hub.client.data.entries;
      CycleStart(log0, entries0, hub.client.faults, hub.client.responses, Plan());
      var o, k := ReadAll(log0, entries0);
      if o.Fail? {
        r := Failed(UpdateFailed(UpdateFailedPrefix + o.message));
      } else {
        r := Fetched(hub.client.data);
      }
      CycleOutcome(r, hub.client.data, hub.client.log, hub.client.data.entries, hub.client.faults, hub.client.responses,
                   Plan(), old(hub.client.log), old(hub.client.data.entries), o.Fail?, k, if o.Fail? then o.message else "");
    }

    /** What the coordinator keeps of a cycle: the returned dict and success, or
        its previous data and failure. The kept data is the client's own dict
        once a poll has succeeded, so a later failed cycle still shows, through
        it, the reads merged before the failure. */
    method Refresh() returns (r: PollResult)
      modifies this, hub.client, hub.client.data
      ensures FirstFault(hub.client.faults, |old(hub.client.log)|, |Plan()|).None? <==> r.Fetched?
      ensures r.Fetched? ==> data == hub.client.data && lastUpdateSuccess
      ensures r.Failed? ==> r.error.UpdateFailed? && data == old(data) && !lastUpdateSuccess
      ensures r.Fetched? ==>
        && hub.client.log == old(hub.client.log) + Plan()
        && data.entries == Merged(old(hub.client.data.entries), Plan(), |Plan()|, hub.client.responses)
      ensures var first := FirstFault(hub.client.faults, |old(hub.client.log)|, |Plan()|);
        first.Some? ==>
          && r == Failed(UpdateFailed(UpdateFailedPrefix + hub.client.faults[|old(hub.client.log)| + first.value]))
          && hub.client.log == old(hub.client.log) + Plan()[..first.value + 1]
          && hub.client.data.entries == Merged(old(hub.client.data.entries), Plan(), first.value, hub.client.responses)
          && (old(data) == hub.client.data ==>
                data.entries == Merged(old(hub.client.data.entries), Plan(), first.value, hub.client.responses))
    {
      r := Update();
      if r.Fetched? {
        data := r.snapshot;
        lastUpdateSuccess := true;
      } else {
        lastUpdateSuccess := false;
      }
    }
  }
}
