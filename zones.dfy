/** The zone registry of app/zones.py: the zone table keyed by `zone_id` and the camera
    index built by `ZoneRegistry.__init__`, and the three lookups the relay uses. */
module Zones {
  import opened Common
  import opened Models

  // ---------------------------------------------------------------- specification

  /** The ids of a list of zones. */
  function IdSet(zs: seq<ZoneConfig>): set<string> {
    set z | z in zs :: z.zoneId
  }

  /** `{zone.zone_id: zone for zone in zones}`: later configs replace earlier ones with the same id. */
  function ZoneTable(zs: seq<ZoneConfig>): (t: map<string, ZoneConfig>)
    ensures t.Keys == IdSet(zs)
    ensures forall k :: k in t ==> t[k] in zs && t[k].zoneId == k
    decreases |zs|
  {
    if zs == [] then map[]
    else
      var prefix, last := zs[..|zs| - 1], zs[|zs| - 1];
      assert zs == prefix + [last];
      ZoneTable(prefix)[last.zoneId := last]
  }

  /** The key order of that dict: each id where it first appears. */
  function IdOrder(zs: seq<ZoneConfig>): (ids: seq<string>)
    ensures forall k :: k in ids <==> k in IdSet(zs)
    ensures forall a, b :: 0 <= a < b < |ids| ==> ids[a] != ids[b]
    decreases |zs|
  {
    if zs == [] then []
    else
      var prefix, last := zs[..|zs| - 1], zs[|zs| - 1];
      assert zs == prefix + [last];
      var earlier := IdOrder(prefix);
      if last.zoneId in earlier then earlier else earlier + [last.zoneId]
  }

  /** The inner loop: every camera of one zone mapped to that zone's id, in list order. */
  function IndexCameras(index: map<string, string>, cameras: seq<string>, zoneId: string): map<string, string>
    decreases |cameras|
  {
    if cameras == [] then index
    else IndexCameras(index, cameras[..|cameras| - 1], zoneId)[cameras[|cameras| - 1] := zoneId]
  }

  /** The outer loop: the camera index after all zones, in list order. */
  function CameraIndex(zs: seq<ZoneConfig>): map<string, string>
    decreases |zs|
  {
    if zs == [] then map[]
    else IndexCameras(CameraIndex(zs[..|zs| - 1]), zs[|zs| - 1].cameraIds, zs[|zs| - 1].zoneId)
  }

  /** No two configs share a `zone_id` (nothing in the source enforces this). */
  predicate UniqueIds(zs: seq<ZoneConfig>) {
    forall i, j :: 0 <= i < j < |zs| ==> zs[i].zoneId != zs[j].zoneId
  }

  // ---------------------------------------------------------------- lemmas

  /** Last writer wins: the table keeps, for each id, the last config carrying it. */
  lemma {:induction false} ZoneTableLastWins(zs: seq<ZoneConfig>, i: nat)
    requires i < |zs|
    requires forall j :: i < j < |zs| ==> zs[j].zoneId != zs[i].zoneId
    ensures zs[i].zoneId in ZoneTable(zs) && ZoneTable(zs)[zs[i].zoneId] == zs[i]
    decreases |zs|
  {
    if i < |zs| - 1 {
      var prefix := zs[..|zs| - 1];
      assert forall j :: i < j < |prefix| ==> prefix[j] == zs[j];
      ZoneTableLastWins(prefix, i);
    }
  }

  /** The inner loop adds the zone's cameras and keeps every other entry. */
  lemma {:induction false} IndexCamerasSpec(index: map<string, string>, cameras: seq<string>, zoneId: string, c: string)
    ensures c in IndexCameras(index, cameras, zoneId) <==> c in cameras || c in index
    ensures c in cameras ==> IndexCameras(index, cameras, zoneId)[c] == zoneId
    ensures c !in cameras && c in index ==> IndexCameras(index, cameras, zoneId)[c] == index[c]
    decreases |cameras|
  {
    if cameras != [] {
      var prefix := cameras[..|cameras| - 1];
      assert cameras == prefix + [cameras[|cameras| - 1]];
      IndexCamerasSpec(index, prefix, zoneId, c);
    }
  }

  /** A camera is indexed exactly when some zone lists it. */
  lemma {:induction false} CameraIndexed(zs: seq<ZoneConfig>, c: string)
    ensures c in CameraIndex(zs) <==> exists i :: 0 <= i < |zs| && c in zs[i].cameraIds
    decreases |zs|
  {
    if zs != [] {
      var prefix := zs[..|zs| - 1];
      CameraIndexed(prefix, c);
      IndexCamerasSpec(CameraIndex(prefix), zs[|zs| - 1].cameraIds, zs[|zs| - 1].zoneId, c);
      if exists i :: 0 <= i < |zs| && c in zs[i].cameraIds {
        var i :| 0 <= i < |zs| && c in zs[i].cameraIds;
        if i < |zs| - 1 {
          assert prefix[i] == zs[i];
        }
      }
      if exists i :: 0 <= i < |prefix| && c in prefix[i].cameraIds {
        var i :| 0 <= i < |prefix| && c in prefix[i].cameraIds;
        assert zs[i] == prefix[i];
      }
    }
  }

  /** A camera listed by several zones is indexed to the last of them. */
  lemma {:induction false} CameraIndexLastWins(zs: seq<ZoneConfig>, i: nat, c: string)
    requires i < |zs| && c in zs[i].cameraIds
    requires forall j :: i < j < |zs| ==> c !in zs[j].cameraIds
    ensures c in CameraIndex(zs) && CameraIndex(zs)[c] == zs[i].zoneId
    decreases |zs|
  {
    var prefix := zs[..|zs| - 1];
    IndexCamerasSpec(CameraIndex(prefix), zs[|zs| - 1].cameraIds, zs[|zs| - 1].zoneId, c);
    if i < |zs| - 1 {
      assert forall j :: i < j < |prefix| ==> prefix[j] == zs[j];
      CameraIndexLastWins(prefix, i, c);
    }
  }

  /** Every id the camera index points to is an id of the table. */
  lemma {:induction false} CameraIndexPointsIntoTable(zs: seq<ZoneConfig>, c: string)
    requires c in CameraIndex(zs)
    ensures CameraIndex(zs)[c] in ZoneTable(zs)
    ensures c in ZoneTable(zs)[CameraIndex(zs)[c]].cameraIds || !UniqueIds(zs)
    decreases |zs|
  {
    CameraIndexed(zs, c);
    var i :| 0 <= i < |zs| && c in zs[i].cameraIds;
    var last := LastListing(zs, c, i);
    CameraIndexLastWins(zs, last, c);
    if UniqueIds(zs) {
      ZoneTableLastWins(zs, last);
    } else {
      assert zs[last] in zs;
    }
  }

  /** The last index at or after `i` whose zone lists `c`. */
  lemma LastListing(zs: seq<ZoneConfig>, c: string, i: nat) returns (last: nat)
    requires i < |zs| && c in zs[i].cameraIds
    ensures i <= last < |zs| && c in zs[last].cameraIds
    ensures forall j :: last < j < |zs| ==> c !in zs[j].cameraIds
    decreases |zs| - i
  {
    if exists j :: i < j < |zs| && c in zs[j].cameraIds {
      var j :| i < j < |zs| && c in zs[j].cameraIds;
      last := LastListing(zs, c, j);
    } else {
      last := i;
    }
  }

  /** With a repeated `zone_id`, the camera index can send a camera to a config that does not list it. */
  lemma RepeatedIdMisroutesCamera()
    ensures var a := ZoneConfig("z", "site", ["cam-1"], Medium, DefaultSchedule, ["whatsapp"], 60, 30);
      var b := ZoneConfig("z", "site", ["cam-2"], Medium, DefaultSchedule, ["whatsapp"], 60, 30);
      var zs := [a, b];
      && "cam-1" in CameraIndex(zs)
      && CameraIndex(zs)["cam-1"] in ZoneTable(zs)
      && "cam-1" !in ZoneTable(zs)[CameraIndex(zs)["cam-1"]].cameraIds
  {
    var a := ZoneConfig("z", "site", ["cam-1"], Medium, DefaultSchedule, ["whatsapp"], 60, 30);
    var b := ZoneConfig("z", "site", ["cam-2"], Medium, DefaultSchedule, ["whatsapp"], 60, 30);
    var zs := [a, b];
    assert zs[..1] == [a];
    assert [a][..0] == [];
    IndexCamerasSpec(map[], a.cameraIds, "z", "cam-1");
    IndexCamerasSpec(CameraIndex([a]), b.cameraIds, "z", "cam-1");
    ZoneTableLastWins(zs, 1);
    assert "cam-1" != "cam-2";
  }

  // ---------------------------------------------------------------- the registry

  class ZoneRegistry {
    /** The list the registry was built from. */
    ghost const configs: seq<ZoneConfig>
    /** `self._zones` */
    var zones: map<string, ZoneConfig>
    /** The insertion order of `self._zones`. */
    var order: seq<string>
    /** `self._camera_index` */
    var cameraIndex: map<string, string>

    ghost predicate Valid()
      reads this
    {
      && (forall i :: 0 <= i < |configs| ==> ValidZone(configs[i]))
      && zones == ZoneTable(configs)
      && order == IdOrder(configs)
      && cameraIndex == CameraIndex(configs)
    }

    /** `ZoneRegistry.__init__` */
    constructor (zs: seq<ZoneConfig>)
      requires forall i :: 0 <= i < |zs| ==> ValidZone(zs[i])
      ensures Valid() && configs == zs
    {
      configs := zs;
      zones, order, cameraIndex := map[], [], map[];
      new;
      IndexZones(zs);
      IndexCamerasOfZones(zs);
    }

    /** The first loop of `__init__`: the zone table and the order its ids first appear in. */
    method IndexZones(zs: seq<ZoneConfig>)
      modifies this
      ensures zones == ZoneTable(zs) && order == IdOrder(zs)
      ensures cameraIndex == old(cameraIndex)
    {
      zones, order := map[], [];
      var i := 0;
      while i < |zs|
        invariant 0 <= i <= |zs|
        invariant zones == ZoneTable(zs[..i]) && order == IdOrder(zs[..i])
        invariant cameraIndex == old(cameraIndex)
      {
        var zone := zs[i];
        TableStep(zs, i);
        if zone.zoneId !in zones {
          order := order + [zone.zoneId];
        }
        zones := zones[zone.zoneId := zone];
        i := i + 1;
      }
      assert zs[..i] == zs;
    }

    /** The second loop of `__init__`: every camera of every zone, later zones overriding earlier ones. */
    method IndexCamerasOfZones(zs: seq<ZoneConfig>)
      modifies this
      ensures cameraIndex == CameraIndex(zs)
      ensures zones == old(zones) && order == old(order)
    {
      cameraIndex := map[];
      var i := 0;
      while i < |zs|
        invariant 0 <= i <= |zs|
        invariant cameraIndex == CameraIndex(zs[..i])
        invariant zones == old(zones) && order == old(order)
      {
        var zone := zs[i];
        IndexStep(zs, i);
        var j := 0;
        while j < |zone.cameraIds|
          invariant 0 <= j <= |zone.cameraIds|
          invariant cameraIndex == IndexCameras(CameraIndex(zs[..i]), zone.cameraIds[..j], zone.zoneId)
          invariant zones == old(zones) && order == old(order)
        {
          CameraStep(CameraIndex(zs[..i]), zone.cameraIds, zone.zoneId, j);
          cameraIndex := cameraIndex[zone.cameraIds[j] := zone.zoneId];
          j := j + 1;
        }
        assert zone.cameraIds[..j] == zone.cameraIds;
        i := i + 1;
      }
      assert zs[..i] == zs;
    }

    /** `get_zone`: the last config with this id, or None when no config has it. */
    function GetZone(zoneId: string): (r: Option<ZoneConfig>)
      reads this
      requires Valid()
      ensures r.None? <==> forall i :: 0 <= i < |configs| ==> configs[i].zoneId != zoneId
      ensures r.Some? ==> r.value in configs && r.value.zoneId == zoneId && ValidZone(r.value)
      ensures forall i :: (0 <= i < |configs| && configs[i].zoneId == zoneId
                           && (forall j :: i < j < |configs| ==> configs[j].zoneId != zoneId))
                          ==> r == Some(configs[i])
    {
      LastWinsEverywhere(configs);
      Get(zones, zoneId)
    }

    /** `zone_for_camera`: None for a camera no zone lists; otherwise the table's config for the id
        of the last zone listing it, which lists the camera whenever ids are unique. */
    function ZoneForCamera(cameraId: string): (r: Option<ZoneConfig>)
      reads this
      requires Valid()
      ensures r.None? <==> forall i :: 0 <= i < |configs| ==> cameraId !in configs[i].cameraIds
      ensures forall i :: (0 <= i < |configs| && cameraId in configs[i].cameraIds
                           && (forall j :: i < j < |configs| ==> cameraId !in configs[j].cameraIds))
                          ==> r.Some? && r.value.zoneId == configs[i].zoneId
      ensures r.Some? && UniqueIds(configs) ==> cameraId in r.value.cameraIds
      ensures r.Some? ==> r.value in configs && ValidZone(r.value)
      ensures r.Some? ==> r == GetZone(r.value.zoneId)
    {
      CameraLookups(configs, cameraId);
      match Get(cameraIndex, cameraId)
      case None => None
      case Some(zoneId) => Get(zones, zoneId)
    }

    /** The `zones` property: one config per distinct id, the one `get_zone` returns, in the
        order the ids first appear. */
    function Zones(): (r: seq<ZoneConfig>)
      reads this
      requires Valid()
      ensures |r| == |order|
      ensures forall k :: 0 <= k < |r| ==> r[k].zoneId == order[k] && GetZone(r[k].zoneId) == Some(r[k])
      ensures forall k, l :: 0 <= k < l < |r| ==> r[k].zoneId != r[l].zoneId
      ensures forall i :: 0 <= i < |configs| ==> configs[i].zoneId in order
    {
      assert forall i :: 0 <= i < |configs| ==> configs[i] in configs;
      ValuesInOrder(zones, order)
    }
  }

  /** `dict.values()` in key order. */
  function ValuesInOrder(t: map<string, ZoneConfig>, ids: seq<string>): (vs: seq<ZoneConfig>)
    requires forall k :: k in ids ==> k in t
    ensures |vs| == |ids|
    ensures forall k :: 0 <= k < |vs| ==> vs[k] == t[ids[k]]
  {
    if ids == [] then [] else [t[ids[0]]] + ValuesInOrder(t, ids[1..])
  }

  lemma TableStep(zs: seq<ZoneConfig>, i: nat)
    requires i < |zs|
    ensures ZoneTable(zs[..i + 1]) == ZoneTable(zs[..i])[zs[i].zoneId := zs[i]]
    ensures IdOrder(zs[..i + 1]) ==
      if zs[i].zoneId in ZoneTable(zs[..i]) then IdOrder(zs[..i]) else IdOrder(zs[..i]) + [zs[i].zoneId]
  {
    assert zs[..i + 1][..i] == zs[..i];
  }

  lemma IndexStep(zs: seq<ZoneConfig>, i: nat)
    requires i < |zs|
    ensures CameraIndex(zs[..i + 1]) == IndexCameras(CameraIndex(zs[..i]), zs[i].cameraIds, zs[i].zoneId)
  {
    assert zs[..i + 1][..i] == zs[..i];
  }

  lemma CameraStep(index: map<string, string>, cameras: seq<string>, zoneId: string, j: nat)
    requires j < |cameras|
    ensures IndexCameras(index, cameras[..j + 1], zoneId) == IndexCameras(index, cameras[..j], zoneId)[cameras[j] := zoneId]
  {
    assert cameras[..j + 1][..j] == cameras[..j];
  }

  lemma LastWinsEverywhere(zs: seq<ZoneConfig>)
    ensures forall i :: 0 <= i < |zs| && (forall j :: i < j < |zs| ==> zs[j].zoneId != zs[i].zoneId) ==>
      zs[i].zoneId in ZoneTable(zs) && ZoneTable(zs)[zs[i].zoneId] == zs[i]
    ensures forall k :: k !in ZoneTable(zs) <==> forall i :: 0 <= i < |zs| ==> zs[i].zoneId != k
  {
    forall i | 0 <= i < |zs| && (forall j :: i < j < |zs| ==> zs[j].zoneId != zs[i].zoneId)
      ensures zs[i].zoneId in ZoneTable(zs) && ZoneTable(zs)[zs[i].zoneId] == zs[i]
    {
      ZoneTableLastWins(zs, i);
    }
    assert forall i :: 0 <= i < |zs| ==> zs[i] in zs;
  }

  lemma CameraLookups(zs: seq<ZoneConfig>, c: string)
    ensures c !in CameraIndex(zs) <==> forall i :: 0 <= i < |zs| ==> c !in zs[i].cameraIds
    ensures c in CameraIndex(zs) ==> CameraIndex(zs)[c] in ZoneTable(zs)
    ensures c in CameraIndex(zs) && UniqueIds(zs) ==> c in ZoneTable(zs)[CameraIndex(zs)[c]].cameraIds
    ensures forall i :: 0 <= i < |zs| && c in zs[i].cameraIds && (forall j :: i < j < |zs| ==> c !in zs[j].cameraIds) ==>
      c in CameraIndex(zs) && CameraIndex(zs)[c] == zs[i].zoneId
  {
    CameraIndexed(zs, c);
    if c in CameraIndex(zs) {
      CameraIndexPointsIntoTable(zs, c);
    }
    forall i | 0 <= i < |zs| && c in zs[i].cameraIds && (forall j :: i < j < |zs| ==> c !in zs[j].cameraIds)
      ensures c in CameraIndex(zs) && CameraIndex(zs)[c] == zs[i].zoneId
    {
      CameraIndexLastWins(zs, i, c);
    }
  }
}
