/** What every entity of the integration is built from: its configuration,
    assigned once when it is constructed, and the coordinator it reads. */
module FroniusBase {
  import opened Common
  import opened FroniusClient
  import opened FroniusHub

  /** An options dict (code to label), as its items in iteration order. */
  type OptionsDict = seq<(int, string)>

  /** The labels of an options dict, in iteration order. */
  function Labels(options: OptionsDict): (labels: seq<string>)
    ensures |labels| == |options|
    ensures forall i :: 0 <= i < |options| ==> labels[i] == options[i].1
  {
    seq(|options|, i requires 0 <= i < |options| => options[i].1)
  }

  /** The snapshot an entity reads: the coordinator's data, an empty dict before
      the first successful poll (a null and an empty dict are both falsy and are
      treated alike by every entity). */
  function SnapshotOf(coordinator: Coordinator): (snapshot: map<string, Value>)
    reads coordinator, coordinator.data
    ensures |snapshot| == 0 <==> coordinator.data == null || |coordinator.data.entries| == 0
    ensures |snapshot| > 0 ==> snapshot == coordinator.data.entries
  {
    if coordinator.data == null then map[] else coordinator.data.entries
  }

  class BaseEntity {
    const coordinator: Coordinator
    const key: string
    const name: string
    const unit: Option<string>
    const icon: Option<string>
    // The attributes below are None when not given: the entity then leaves them unset and the framework's default applies.
    const deviceClass: Option<string>
    const stateClass: Option<string>
    const entityCategory: Option<string>
    const optionsDict: Option<OptionsDict>
    const options: Option<seq<string>>
    const nativeMinValue: Option<real>
    const nativeMaxValue: Option<Value>
    const nativeStep: Option<real>
    const mode: Option<string>
    const hasEntityName: bool
    const entityName: string
    const uniqueId: string

    constructor (coordinator: Coordinator, name: string, key: string,
                 deviceClass: Option<string>, stateClass: Option<string>, unit: Option<string>,
                 icon: Option<string>, entityCategory: Option<string>, options: Option<OptionsDict>,
                 min: Option<real>, max: Option<Value>, nativeStep: Option<real>, mode: Option<string>)
      ensures this.coordinator == coordinator && this.key == key && this.name == name
      ensures this.unit == unit && this.icon == icon
      ensures this.deviceClass == deviceClass && this.stateClass == stateClass
      ensures this.entityCategory == entityCategory
      ensures optionsDict == options
      ensures this.options == if options.Some? then Some(Labels(options.value)) else None
      ensures nativeMinValue == min && nativeMaxValue == max && this.nativeStep == nativeStep
      ensures this.mode == mode
      ensures hasEntityName && entityName == name
      ensures uniqueId == coordinator.name + "_" + key
    {
      this.coordinator := coordinator;
      this.key := key;
      this.name := name;
      this.unit := unit;
      this.icon := icon;

      this.deviceClass := deviceClass;
      this.stateClass := stateClass;
      this.entityCategory := entityCategory;
      optionsDict := options;
      this.options := if options.Some? then Some(Labels(options.value)) else None;
      nativeMinValue := min;
      nativeMaxValue := max;
      this.nativeStep := nativeStep;
      this.mode := mode;

      hasEntityName := true;
      entityName := name;
      uniqueId := coordinator.name + "_" + key;
    }

    /** An entity is available exactly when the coordinator's last poll succeeded. */
    function Available(): (r: bool)
      reads coordinator
      ensures r <==> coordinator.lastUpdateSuccess
    {
      coordinator.lastUpdateSuccess
    }

    /** Entities never poll: the coordinator pushes its data to them. */
    function ShouldPoll(): (r: bool)
      ensures !r
    {
      false
    }

    function Data(): map<string, Value>
      reads coordinator, coordinator.data
    {
      SnapshotOf(coordinator)
    }
  }
}
