/** The push-notification device endpoints of
  * fieldsight/viewsets/FieldsightFcmViewset.py: registering a device
  * (an upsert by device id), and switching devices off by device id or by
  * row. */
module FcmDevices {
  import opened Common

  /** A Device row: the device id, the registration id, the owner's email
    * and whether it receives notifications. */
  datatype Device = Device(devId: string, regId: string, name: string, isActive: bool)

  /** A User row as the lookup reads it. */
  datatype UserRow = UserRow(username: string, email: string)

  /** The name stored on the device: the submitted value when some user has
    * it as email, else the email of the one user with that username; None
    * is the DoesNotExist (or MultipleObjectsReturned) of that lookup. */
  function DeviceName(users: seq<UserRow>, given: string): (r: Option<string>)
    ensures (exists u :: u in users && u.email == given) ==> r == Some(given)
    ensures r.Some? && r.value != given ==>
      exists u :: u in users && u.username == given && u.email == r.value
    ensures (forall u :: u in users ==> u.email != given && u.username != given) ==> r.None?
    // with no email match, the lookup by username succeeds iff exactly one
    // row has it, and then gives that row's email
    ensures (forall u :: u in users ==> u.email != given) ==>
      var named := Where(users, (u: UserRow) => u.username == given);
      (r.Some? <==> |named| == 1) && (r.Some? ==> r == Some(named[0].email))
  {
    if exists u :: u in users && u.email == given then Some(given)
    else
      var named := Where(users, (u: UserRow) => u.username == given);
      if |named| == 1 then
        assert named[0] in named;
        Some(named[0].email)
      else
        assert named != [] ==> named[0] in named;
        None
  }

  /** The device with id `devId`, if any. */
  ghost function DeviceWith(devices: map<int, Device>, devId: string): (r: Option<int>)
    ensures r.Some? ==> r.value in devices && devices[r.value].devId == devId
    ensures r.None? ==> forall k :: k in devices ==> devices[k].devId != devId
  {
    if exists k :: k in devices && devices[k].devId == devId then
      var k :| k in devices && devices[k].devId == devId;
      Some(k)
    else None
  }

  /** Device ids are unique. */
  ghost predicate UniqueDevIds(devices: map<int, Device>)
  {
    forall a, b :: a in devices && b in devices && devices[a].devId == devices[b].devId ==> a == b
  }

  lemma DeviceWithIs(devices: map<int, Device>, devId: string, k: int)
    requires UniqueDevIds(devices) && k in devices && devices[k].devId == devId
    ensures DeviceWith(devices, devId) == Some(k)
  {
  }

  /** The table after registering: the device with that id, or a new one at
    * `nextId`, active with the submitted registration id and name. */
  ghost function Upserted(devices: map<int, Device>, nextId: int, devId: string, regId: string, name: string): map<int, Device>
  {
    match DeviceWith(devices, devId)
    case Some(k) => devices[k := devices[k].(isActive := true, regId := regId, name := name)]
    case None => devices[nextId := Device(devId, regId, name, true)]
  }

  /** After registering, exactly one device has the id, it is active with
    * the submitted registration id and name, an existing row is reused,
    * and every other device is unchanged. */
  lemma UpsertKeepsOneDevice(devices: map<int, Device>, nextId: int, devId: string, regId: string, name: string)
    requires UniqueDevIds(devices) && forall k :: k in devices ==> k < nextId
    ensures var r := Upserted(devices, nextId, devId, regId, name);
      UniqueDevIds(r) &&
      DeviceWith(r, devId).Some? && r[DeviceWith(r, devId).value] == Device(devId, regId, name, true) &&
      (DeviceWith(devices, devId).Some? ==> r.Keys == devices.Keys && DeviceWith(r, devId) == DeviceWith(devices, devId)) &&
      (DeviceWith(devices, devId).None? ==> r.Keys == devices.Keys + {nextId}) &&
      (forall k :: k in devices && devices[k].devId != devId ==> k in r && r[k] == devices[k])
  {
    var r := Upserted(devices, nextId, devId, regId, name);
    var key := if DeviceWith(devices, devId).Some? then DeviceWith(devices, devId).value else nextId;
    assert key in r && r[key].devId == devId;
    DeviceWithIs(r, devId, key);
  }

  /** `filter(dev_id=devId).update(is_active=False)`; a None id (a request
    * without `dev_id`) matches no row. */
  function Deactivated(devices: map<int, Device>, devId: Option<string>): (r: map<int, Device>)
    ensures r.Keys == devices.Keys
    ensures forall k :: k in devices && Some(devices[k].devId) == devId ==> r[k] == devices[k].(isActive := false)
    ensures forall k :: k in devices && Some(devices[k].devId) != devId ==> r[k] == devices[k]
  {
    map k | k in devices :: if Some(devices[k].devId) == devId then devices[k].(isActive := false) else devices[k]
  }

  /** Switching off twice is switching off once, and no device with the
    * id stays active. */
  lemma DeactivateIdempotent(devices: map<int, Device>, devId: Option<string>)
    ensures Deactivated(Deactivated(devices, devId), devId) == Deactivated(devices, devId)
    ensures forall k :: k in Deactivated(devices, devId) && Some(Deactivated(devices, devId)[k].devId) == devId ==>
      !Deactivated(devices, devId)[k].isActive
  {
    var once := Deactivated(devices, devId);
    var twice := Deactivated(once, devId);
    assert forall k :: k in once ==> once[k].devId == devices[k].devId;
    assert twice == once;
  }

  /** The status of `destroy`: the update raises no DoesNotExist, so the
    * 404 branch is never taken. */
  function DestroyStatus(devices: map<int, Device>, devId: string): (status: int)
    ensures status == 200
  {
    200
  }

  /** `destroy` as evidently intended: 404 when no device has the id. */
  function DestroyStatusIntended(devices: map<int, Device>, devId: string): (status: int)
    ensures status == 200 <==> exists k :: k in devices && devices[k].devId == devId
    ensures status == 404 <==> forall k :: k in devices ==> devices[k].devId != devId
  {
    if exists k :: k in devices && devices[k].devId == devId then 200 else 404
  }

  /** An unknown device id is reported as destroyed. */
  lemma UnknownDeviceDestroyed()
    ensures DestroyStatus(map[], "x") == 200
    ensures DestroyStatusIntended(map[], "x") == 404
  {
  }

  /** The device table. */
  class DeviceStore {
    var devices: map<int, Device>
    var nextId: int

    ghost predicate Valid()
      reads this
    {
      UniqueDevIds(devices) && forall k :: k in devices ==> k < nextId
    }

    constructor(devices0: map<int, Device>, nextId0: int)
      requires UniqueDevIds(devices0) && forall k :: k in devices0 ==> k < nextId0
      ensures Valid() && devices == devices0 && nextId == nextId0
    {
      devices := devices0;
      nextId := nextId0;
    }

    /** `perform_create`: fetch the device with the id or make one, set it
      * active with the registration id, resolve its name, save. A failed
      * name lookup raises before the save and changes nothing. */
    method PerformCreate(devId: string, regId: string, given: string, users: seq<UserRow>) returns (ok: bool)
      requires Valid()
      modifies this
      ensures Valid()
      ensures ok <==> DeviceName(users, given).Some?
      ensures !ok ==> devices == old(devices) && nextId == old(nextId)
      ensures ok ==> devices == Upserted(old(devices), old(nextId), devId, regId, DeviceName(users, given).value)
    {
      var existing: Option<int> := None;
      if k :| k in devices && devices[k].devId == devId {
        DeviceWithIs(devices, devId, k);
        existing := Some(k);
      }
      var device := if existing.Some? then devices[existing.value] else Device(devId, "", "", false);
      device := device.(isActive := true, regId := regId);
      var name := DeviceName(users, given);
      if name.None? {
        return false;
      }
      device := device.(name := name.value);
      UpsertKeepsOneDevice(devices, nextId, devId, regId, name.value);
      if existing.Some? {
        devices := devices[existing.value := device];
      } else {
        devices := devices[nextId := device];
        nextId := nextId + 1;
      }
      return true;
    }

    /** `destroy`: every device with the id is switched off; always 200. */
    method Destroy(devId: string) returns (status: int)
      requires Valid()
      modifies this
      ensures Valid()
      ensures devices == Deactivated(old(devices), Some(devId)) && nextId == old(nextId)
      ensures status == DestroyStatus(old(devices), devId)
    {
      DeactivatedKeepsIds(devices, Some(devId));
      devices := Deactivated(devices, Some(devId));
      return 200;
    }

    /** `inactivate`: every device with the posted id is switched off;
      * always 200. */
    method Inactivate(devId: Option<string>) returns (status: int)
      requires Valid()
      modifies this
      ensures Valid()
      ensures devices == Deactivated(old(devices), devId) && nextId == old(nextId)
      ensures status == 200
    {
      DeactivatedKeepsIds(devices, devId);
      devices := Deactivated(devices, devId);
      return 200;
    }

    /** `perform_destroy`: the row is kept, switched off. */
    method PerformDestroy(key: int)
      requires Valid() && key in devices
      modifies this
      ensures Valid()
      ensures devices == old(devices)[key := old(devices)[key].(isActive := false)] && nextId == old(nextId)
    {
      devices := devices[key := devices[key].(isActive := false)];
    }
  }

  /** Switching off keeps the device ids, so they stay unique. */
  lemma DeactivatedKeepsIds(devices: map<int, Device>, devId: Option<string>)
    requires UniqueDevIds(devices)
    ensures UniqueDevIds(Deactivated(devices, devId))
    ensures forall k :: k in devices ==> Deactivated(devices, devId)[k].devId == devices[k].devId
  {
    var r := Deactivated(devices, devId);
    assert forall k :: k in devices ==> r[k].devId == devices[k].devId;
  }
}
