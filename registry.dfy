/**
 * The device registry: registered devices in registration order, looked up
 * by id, and snapshotted into descriptor and measurement arrays.
 */
module Registry {
  import opened Wrappers
  import Json

  /** What the registry and the dispatcher see of a device: its id and its type(). */
  datatype DeviceRef = DeviceRef(id: string, kind: string)

  /** One registered `std::shared_ptr<Device>`, which may be null. */
  type Slot = Option<DeviceRef>

  predicate Matches(slot: Slot, id: string)
  {
    slot.Some? && slot.value.id == id
  }

  /** No slot is null. */
  predicate AllPresent(slots: seq<Slot>)
  {
    forall i :: 0 <= i < |slots| ==> slots[i].Some?
  }

  /** The lookup `get_device` performs: the first non-null device with the id, if any. */
  function FindDevice(slots: seq<Slot>, id: string): (r: Option<DeviceRef>)
    ensures r.None? <==> forall i :: 0 <= i < |slots| ==> !Matches(slots[i], id)
    ensures r.Some? ==> r.value.id == id && r in slots
  {
    if slots == [] then None
    else if Matches(slots[0], id) then slots[0]
    else FindDevice(slots[1..], id)
  }

  /** The device found is the one in the first matching slot. */
  lemma {:induction false} FindDeviceIsFirst(slots: seq<Slot>, id: string, i: nat)
    requires i < |slots| && Matches(slots[i], id)
    requires forall j :: 0 <= j < i ==> !Matches(slots[j], id)
    ensures FindDevice(slots, id) == slots[i]
  {
    if i > 0 {
      FindDeviceIsFirst(slots[1..], id, i - 1);
    }
  }

  /**
   * Registering a device never changes which device an id already resolves
   * to, so a duplicate id registered later is shadowed by the earlier one.
   */
  lemma {:induction false} FindAfterAppend(slots: seq<Slot>, dev: Slot, id: string)
    ensures FindDevice(slots + [dev], id) ==
      if FindDevice(slots, id).Some? then FindDevice(slots, id)
      else if Matches(dev, id) then dev
      else None
  {
    if slots != [] {
      assert (slots + [dev])[1..] == slots[1..] + [dev];
      FindAfterAppend(slots[1..], dev, id);
    }
  }

  /** One `{id, measurement}` entry of `poll_all`. */
  function PollEntry(d: DeviceRef, measurement: Json.Value): (entry: Json.Value)
    ensures entry.Obj? && entry.fields.Keys == {"id", "measurement"}
    ensures entry.fields["id"] == Json.Str(d.id) && entry.fields["measurement"] == measurement
  {
    Json.Obj(map["id" := Json.Str(d.id), "measurement" := measurement])
  }

  class DeviceRegistry {
    var devices: seq<Slot>

    constructor()
      ensures devices == []
    {
      devices := [];
    }

    /** `register_device`: appends, keeping earlier devices and not rejecting duplicates or nulls. */
    method RegisterDevice(dev: Slot)
      modifies this
      ensures devices == old(devices) + [dev]
    {
      devices := devices + [dev];
    }

    /** `for_each_device`: the devices handed to `fn`, one call each, in registration order. */
    method ForEachDevice() returns (calls: seq<Slot>)
      ensures calls == devices
    {
      calls := [];
      var i := 0;
      while i < |devices|
        invariant 0 <= i <= |devices|
        invariant calls == devices[..i]
      {
        calls := calls + [devices[i]];
        i := i + 1;
      }
    }

    /** `get_device`: the first non-null device with the id, or null. */
    method GetDevice(id: string) returns (r: Option<DeviceRef>)
      ensures r == FindDevice(devices, id)
    {
      var i := 0;
      while i < |devices|
        invariant 0 <= i <= |devices|
        invariant forall j :: 0 <= j < i ==> !Matches(devices[j], id)
      {
        if Matches(devices[i], id) {
          FindDeviceIsFirst(devices, id, i);
          return devices[i];
        }
        i := i + 1;
      }
      return None;
    }

    /**
     * `get_descriptor_graph`: one descriptor per device, in registration
     * order. `describe` stands for each device's virtual `descriptor()`;
     * the source dereferences every slot, so none may be null.
     */
    method GetDescriptorGraph(describe: DeviceRef -> Json.Value) returns (graph: Json.Value)
      requires AllPresent(devices)
      ensures graph.Arr? && |graph.items| == |devices|
      ensures forall i :: 0 <= i < |devices| ==> graph.items[i] == describe(devices[i].value)
    {
      var items: seq<Json.Value> := [];
      var i := 0;
      while i < |devices|
        invariant 0 <= i <= |devices|
        invariant |items| == i
        invariant forall j :: 0 <= j < i ==> items[j] == describe(devices[j].value)
      {
        items := items + [describe(devices[i].value)];
        i := i + 1;
      }
      graph := Json.Arr(items);
    }

    /**
     * `poll_all`: one `{id, measurement}` per device, in registration order.
     * `measure` stands for each device's `read_measurement()`.
     */
    method PollAll(measure: DeviceRef -> Json.Value) returns (updates: Json.Value)
      requires AllPresent(devices)
      ensures updates.Arr? && |updates.items| == |devices|
      ensures forall i :: 0 <= i < |devices| ==>
        updates.items[i] == PollEntry(devices[i].value, measure(devices[i].value))
    {
      var items: seq<Json.Value> := [];
      var i := 0;
      while i < |devices|
        invariant 0 <= i <= |devices|
        invariant |items| == i
        invariant forall j :: 0 <= j < i ==> items[j] == PollEntry(devices[j].value, measure(devices[j].value))
      {
        var d := devices[i].value;
        items := items + [Json.Obj(map["id" := Json.Str(d.id), "measurement" := measure(d)])];
        i := i + 1;
      }
      updates := Json.Arr(items);
    }
  }
}

/** The two broadcast envelopes built from registry snapshots. */
module DescriptorProtocol {
  import Json
  import Registry

  class DescriptorProtocol {
    const registry: Registry.DeviceRegistry

    constructor(reg: Registry.DeviceRegistry)
      ensures registry == reg
    {
      registry := reg;
    }

    /** `build_descriptor_message`: `{type: "descriptor", devices: <descriptor graph>}`. */
    method BuildDescriptorMessage(describe: Registry.DeviceRef -> Json.Value) returns (msg: Json.Value)
      requires Registry.AllPresent(registry.devices)
      ensures msg.Obj? && msg.fields.Keys == {"type", "devices"}
      ensures msg.fields["type"] == Json.Str("descriptor")
      ensures var devices := msg.fields["devices"];
        devices.Arr? && |devices.items| == |registry.devices|
        && forall i :: 0 <= i < |registry.devices| ==> devices.items[i] == describe(registry.devices[i].value)
    {
      var graph := registry.GetDescriptorGraph(describe);
      msg := Json.Obj(map["type" := Json.Str("descriptor"), "devices" := graph]);
    }

    /** `build_measurement_update`: `{type: "measurement_update", updates: <poll_all>}`. */
    method BuildMeasurementUpdate(measure: Registry.DeviceRef -> Json.Value) returns (msg: Json.Value)
      requires Registry.AllPresent(registry.devices)
      ensures msg.Obj? && msg.fields.Keys == {"type", "updates"}
      ensures msg.fields["type"] == Json.Str("measurement_update")
      ensures var updates := msg.fields["updates"];
        updates.Arr? && |updates.items| == |registry.devices|
        && forall i :: 0 <= i < |registry.devices| ==>
          updates.items[i] == Registry.PollEntry(registry.devices[i].value, measure(registry.devices[i].value))
    {
      var updates := registry.PollAll(measure);
      msg := Json.Obj(map["type" := Json.Str("measurement_update"), "updates" := updates]);
    }
  }
}
