/**
 * The state cache: device metadata by id and a bounded, per-device history
 * of measurements.
 */
module StateCache {
  import opened Wrappers

  /** The payload of a measurement: a number, a vector of numbers or a string. */
  datatype Payload = Number(x: real) | Series(xs: seq<real>) | Text(s: string)

  /** One measurement; `tsMs` stands for the time point. */
  datatype Measurement = Measurement(deviceId: string, tsMs: int, value: Payload, units: string)

  /** Display metadata of a device. */
  datatype DeviceMeta = DeviceMeta(deviceId: string, kind: string, toleranceLow: real, toleranceHigh: real,
                                   baselineOffset: real)

  /** The most measurements kept per device. */
  const HISTORY_CAP: nat := 1000

  function Min(a: nat, b: nat): nat { if a <= b then a else b }

  /** The history after a push: the oldest entries beyond the cap are erased. */
  function Capped(h: seq<Measurement>): (r: seq<Measurement>)
    ensures |r| == Min(|h|, HISTORY_CAP)
    ensures r == h[|h| - |r|..]
  {
    if |h| > HISTORY_CAP then h[|h| - HISTORY_CAP..] else h
  }

  /** The last `max` entries of a history, or all of it when it is shorter. */
  function LastN(h: seq<Measurement>, max: nat): (r: seq<Measurement>)
    ensures |r| == Min(max, |h|)
    ensures r == h[|h| - |r|..]
  {
    if |h| > max then h[|h| - max..] else h
  }

  /**
   * A push keeps the newest entries in order: the pushed measurement is
   * last, the entries before it are the newest of the old history, and the
   * history never exceeds the cap.
   */
  lemma PushKeepsNewest(h: seq<Measurement>, m: Measurement)
    requires |h| <= HISTORY_CAP
    ensures var r := Capped(h + [m]);
      |r| <= HISTORY_CAP && |r| > 0 && r[|r| - 1] == m
      && r[..|r| - 1] == h[|h| - (|r| - 1)..]
      && (|h| < HISTORY_CAP ==> r == h + [m])
  {
    var r := Capped(h + [m]);
    assert r[..|r| - 1] == (h + [m])[|h| + 1 - |r|..|h|];
  }

  /** Asking for the last n entries twice, with n <= m, is asking for the last n. */
  lemma LastNOfLastN(h: seq<Measurement>, n: nat, m: nat)
    requires n <= m
    ensures LastN(LastN(h, m), n) == LastN(h, n)
  {
  }

  class StateCache {
    var metas: map<string, DeviceMeta>
    var store: map<string, seq<Measurement>>

    /** Every history is within the cap and every entry is filed under its own id. */
    predicate Valid()
      reads this
    {
      (forall id :: id in store ==> |store[id]| <= HISTORY_CAP)
      && (forall id :: id in metas ==> metas[id].deviceId == id)
    }

    constructor()
      ensures metas == map[] && store == map[] && Valid()
    {
      metas := map[];
      store := map[];
    }

    /** `upsertDeviceMeta`: replaces the entry for the id and leaves the others alone. */
    method UpsertDeviceMeta(m: DeviceMeta)
      requires Valid()
      modifies this
      ensures Valid()
      ensures metas == old(metas)[m.deviceId := m] && store == old(store)
    {
      metas := metas[m.deviceId := m];
    }

    /** `pushMeasurement`: appends to that device's history only, then drops the oldest beyond the cap. */
    method PushMeasurement(m: Measurement)
      requires Valid()
      modifies this
      ensures Valid()
      ensures var before := if m.deviceId in old(store) then old(store)[m.deviceId] else [];
        store == old(store)[m.deviceId := Capped(before + [m])]
      ensures metas == old(metas)
    {
      var vec := if m.deviceId in store then store[m.deviceId] else [];
      vec := vec + [m];
      if |vec| > HISTORY_CAP {
        vec := vec[|vec| - HISTORY_CAP..];
      }
      store := store[m.deviceId := vec];
    }

    /** `getMeasurements` (`max` defaults to 100): the last `min(max, size)` entries in order; nothing for an unknown id. */
    method GetMeasurements(deviceId: string, max: nat := 100) returns (out: seq<Measurement>)
      ensures deviceId !in store ==> out == []
      ensures deviceId in store ==> out == LastN(store[deviceId], max)
    {
      if deviceId !in store {
        return [];
      }
      var h := store[deviceId];
      var begin := if |h| > max then |h| - max else 0;
      out := h[begin..];
    }

    /** `getLast`: the newest entry, or nothing when the id is unknown or its history empty. */
    method GetLast(deviceId: string) returns (r: Option<Measurement>)
      ensures r.None? <==> deviceId !in store || store[deviceId] == []
      ensures r.Some? ==> r.value == store[deviceId][|store[deviceId]| - 1]
    {
      if deviceId !in store || store[deviceId] == [] {
        return None;
      }
      r := Some(store[deviceId][|store[deviceId]| - 1]);
    }

    /** `listDeviceMeta`: every stored entry once; the order of the hash map is left open. */
    method ListDeviceMeta() returns (out: seq<DeviceMeta>)
      requires Valid()
      ensures |out| == |metas|
      ensures forall i :: 0 <= i < |out| ==> out[i].deviceId in metas && metas[out[i].deviceId] == out[i]
      ensures forall i, j :: 0 <= i < j < |out| ==> out[i].deviceId != out[j].deviceId
    {
      out := [];
      var left := metas.Keys;
      while left != {}
        invariant left <= metas.Keys
        invariant |out| + |left| == |metas|
        invariant forall i :: 0 <= i < |out| ==> out[i].deviceId in metas && metas[out[i].deviceId] == out[i]
        invariant forall i :: 0 <= i < |out| ==> out[i].deviceId !in left
        invariant forall i, j :: 0 <= i < j < |out| ==> out[i].deviceId != out[j].deviceId
        decreases |left|
      {
        var id :| id in left;
        out := out + [metas[id]];
        left := left - {id};
      }
    }
  }
}
