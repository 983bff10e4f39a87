/**
 * The editor's responsive-value helpers. A responsive value is a plain
 * object with a `_default` key and one key per device that overrides it;
 * the device `fit` stands for `_default`. The helpers see values as they
 * are in memory, where an object's key may hold `undefined`, so they work
 * on a JavaScript value type of their own rather than on stored property
 * values.
 */
module Responsive {

  /** A JavaScript value; `Obj` is a plain (non-array, non-null) object and its own keys. */
  datatype Any =
    | Undefined
    | Null
    | Bool(b: bool)
    | Num(n: int)
    | Str(s: string)
    | Arr(items: seq<Any>)
    | Obj(fields: map<string, Any>)

  const DefaultKey := "_default"

  /** `isResponsiveValue(v)`: a non-null, non-array object that has a `_default` key. */
  predicate IsResponsive(v: Any)
  {
    v.Obj? && DefaultKey in v.fields
  }

  /** The key a device reads and writes: `fit` is mapped to `_default`. */
  function DeviceKey(deviceId: string): (k: string)
    ensures deviceId == "fit" ==> k == DefaultKey
    ensures deviceId != "fit" ==> k == deviceId
  {
    if deviceId == "fit" then DefaultKey else deviceId
  }

  /**
   * `getDeviceValue(v, d)`: a value that is not responsive is returned as
   * it is; otherwise the device's entry when it is defined, else `_default`.
   */
  function GetDeviceValue(v: Any, deviceId: string): (r: Any)
    ensures !IsResponsive(v) ==> r == v
    ensures IsResponsive(v) ==>
      var k := DeviceKey(deviceId);
      && (k in v.fields && v.fields[k] != Undefined ==> r == v.fields[k])
      && (!(k in v.fields && v.fields[k] != Undefined) ==> r == v.fields[DefaultKey])
  {
    if !IsResponsive(v) then v
    else
      var k := DeviceKey(deviceId);
      if k in v.fields && v.fields[k] != Undefined then v.fields[k] else v.fields[DefaultKey]
  }

  /**
   * `setDeviceValue(cur, d, x)`: a copy of the responsive value, or
   * `{_default: cur}` for any other value, with the device's key set to `x`.
   */
  function SetDeviceValue(cur: Any, deviceId: string, x: Any): (r: Any)
    ensures IsResponsive(r)
  {
    var base := if IsResponsive(cur) then cur.fields else map[DefaultKey := cur];
    Obj(base[DeviceKey(deviceId) := x])
  }

  /**
   * `hasDeviceOverride(v, d)`: a responsive value with an own key for `d`,
   * never for `fit` or `_default`. An overridden device is one
   * `getOverriddenDevices` lists, and it reads its own entry when that is
   * defined.
   */
  predicate HasDeviceOverride(v: Any, deviceId: string)
    ensures HasDeviceOverride(v, deviceId) ==> v.Obj? && deviceId in OverriddenDevices(v.fields)
    ensures HasDeviceOverride(v, deviceId) && v.fields[deviceId] != Undefined ==>
      GetDeviceValue(v, deviceId) == v.fields[deviceId]
  {
    IsResponsive(v) && deviceId != "fit" && deviceId != DefaultKey && deviceId in v.fields
  }

  /** `clearDeviceOverride(v, d)`: the object without the key `d`; `_default` and `fit` cannot be cleared. */
  function ClearDeviceOverride(fields: map<string, Any>, deviceId: string): (r: map<string, Any>)
    ensures deviceId == DefaultKey || deviceId == "fit" ==> r == fields
    ensures deviceId != DefaultKey && deviceId != "fit" ==> r.Keys == fields.Keys - {deviceId}
    ensures forall k :: k in r ==> r[k] == fields[k]
  {
    if deviceId == DefaultKey || deviceId == "fit" then fields else fields - {deviceId}
  }

  /** `getOverriddenDevices(v)`: the object's keys other than `_default`. */
  function OverriddenDevices(fields: map<string, Any>): (r: set<string>)
    ensures DefaultKey !in r
    ensures forall k :: k in fields && k != DefaultKey ==> k in r
    ensures r <= fields.Keys
  {
    fields.Keys - {DefaultKey}
  }

  /** A device reads back the value just set for it, when that value is defined. */
  lemma GetAfterSet(cur: Any, deviceId: string, x: Any)
    requires x != Undefined
    ensures GetDeviceValue(SetDeviceValue(cur, deviceId, x), deviceId) == x
  {
  }

  /**
   * Setting one device's value changes what no other device reads, unless
   * that device is `_default` (or `fit`), which the others fall back to.
   */
  lemma SetLeavesOtherDevices(cur: Any, deviceId: string, x: Any, other: string)
    requires IsResponsive(cur)
    requires DeviceKey(deviceId) != DefaultKey && DeviceKey(other) != DeviceKey(deviceId)
    ensures GetDeviceValue(SetDeviceValue(cur, deviceId, x), other) == GetDeviceValue(cur, other)
    ensures forall k :: k != DeviceKey(deviceId) ==>
      (k in SetDeviceValue(cur, deviceId, x).fields <==> k in cur.fields) &&
      (k in cur.fields ==> SetDeviceValue(cur, deviceId, x).fields[k] == cur.fields[k])
  {
  }

  /**
   * A plain value is wrapped as `_default`: unless `_default` itself is
   * set, every device other than the one set still reads the plain value.
   */
  lemma SetWrapsPlain(cur: Any, deviceId: string, x: Any, other: string)
    requires !IsResponsive(cur)
    requires DeviceKey(other) != DeviceKey(deviceId)
    ensures SetDeviceValue(cur, deviceId, x).fields[DefaultKey] == (if DeviceKey(deviceId) == DefaultKey then x else cur)
    ensures DeviceKey(deviceId) != DefaultKey ==> GetDeviceValue(SetDeviceValue(cur, deviceId, x), other) == cur
  {
  }

  /**
   * After clearing, a device has no override and reads `_default`; the
   * `_default` entry itself is never removed or changed.
   */
  lemma ClearRemovesOverride(fields: map<string, Any>, deviceId: string)
    requires DefaultKey in fields
    ensures var r := ClearDeviceOverride(fields, deviceId);
      && !HasDeviceOverride(Obj(r), deviceId)
      && DefaultKey in r && r[DefaultKey] == fields[DefaultKey]
      && (deviceId != "fit" && deviceId != DefaultKey ==> GetDeviceValue(Obj(r), deviceId) == fields[DefaultKey])
  {
  }

  /** Clearing a device that had no key undoes setting it. */
  lemma ClearUndoesSet(fields: map<string, Any>, deviceId: string, x: Any)
    requires DefaultKey in fields && deviceId !in fields && deviceId != "fit"
    ensures ClearDeviceOverride(SetDeviceValue(Obj(fields), deviceId, x).fields, deviceId) == fields
  {
    assert DeviceKey(deviceId) == deviceId;
    assert deviceId != DefaultKey;
    assert fields[deviceId := x] - {deviceId} == fields;
  }

  /**
   * The overridden devices are exactly the devices `hasDeviceOverride`
   * reports, `fit` apart (a `fit` key is listed but never an override).
   */
  lemma OverriddenMatchesHas(fields: map<string, Any>, deviceId: string)
    requires DefaultKey in fields && deviceId != "fit"
    ensures deviceId in OverriddenDevices(fields) <==> HasDeviceOverride(Obj(fields), deviceId)
  {
  }

  /** Values that are not responsive have no overrides and read the same on every device. */
  lemma PlainHasNoOverride(v: Any, deviceId: string)
    requires !IsResponsive(v)
    ensures !HasDeviceOverride(v, deviceId) && GetDeviceValue(v, deviceId) == v
  {
  }
}
