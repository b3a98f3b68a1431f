/** Volume fencing (volume_manager.py): single-owner, reference-counted mounts with forced takeover
    and late clean-up by evicted nodes. A node's name on the array is taken to be its node id. */
module Fencing {
  import opened Util
  import Names
  import opened Vluns

  type Node = string
  type MountId = string
  type VolId = Names.Uuid

  datatype PathRec = PathRec(device: string, path: string, mountDir: string)

  /** The fencing fields of a volume's etcd record; None is an absent key or a null. */
  datatype VolRec = VolRec(isSnap: bool,
                           nodeMountInfo: Option<map<Node, seq<MountId>>>,
                           pathInfo: Option<PathRec>,
                           oldPathInfo: Option<seq<(Node, Option<PathRec>)>>)

  /** Where attaching the device on the node can fail; the last stage sets owner and mode. */
  datatype Stage = ConnectVolume | MakeFilesystem | MakeDir | MountDir | RemoveLostFound | SetOwner

  /** initialize_connection makes one export per port, and can fail after any of them. */
  datatype Attach = Attached(path: PathRec) | FailsInit(exported: set<(nat, nat)>) | FailsAt(stage: Stage)

  /** What the node's operating system answers during a mount; startOk is false when the connector's properties or,
      on the owner, the table of mounts cannot be read. */
  datatype MountEnv = MountEnv(startOk: bool, mounted: bool, realPath: string, dirExists: bool, devExists: bool,
                               remountOk: bool, attach: Attach)

  datatype Branch = NotStarted | First | Shared | Takeover | Remount | FullRemount

  datatype World = World(vols: map<VolId, VolRec>, vluns: set<Vlun>)

  // ---- record invariants ----

  ghost function Owner(m: map<Node, seq<MountId>>): (n: Node)
    requires |m| == 1
    ensures n in m && m.Keys == {n}
  {
    assert m.Keys != {};
    var n :| n in m;
    assert |m.Keys - {n}| == 0;
    n
  }

  ghost predicate OldPathsOk(list: seq<(Node, Option<PathRec>)>) {
    && list != []
    && (forall i :: 0 <= i < |list| ==> list[i].1.Some?)
    && (forall i, j :: 0 <= i < j < |list| ==> list[i].0 != list[j].0)
  }

  /** Holds of every record in every run, faults included. */
  ghost predicate WellFormed(r: VolRec) {
    && (r.nodeMountInfo.Some? ==>
          && |r.nodeMountInfo.value| == 1
          && r.pathInfo.Some?
          && forall n :: n in r.nodeMountInfo.value ==>
               r.nodeMountInfo.value[n] != [] && NoDup(r.nodeMountInfo.value[n]))
    && (r.oldPathInfo.Some? ==> OldPathsOk(r.oldPathInfo.value))
  }

  ghost predicate AllWellFormed(vols: map<VolId, VolRec>) {
    forall id :: id in vols ==> WellFormed(vols[id])
  }

  /** Holds as long as no unmount is cut short: a free volume has no path record. */
  ghost predicate PathsMatch(r: VolRec) {
    r.pathInfo.Some? <==> r.nodeMountInfo.Some?
  }

  ghost function OwnerSet(r: VolRec): set<Node> {
    if r.nodeMountInfo.None? then {} else r.nodeMountInfo.value.Keys
  }

  function NameOf(id: VolId, r: VolRec): string {
    Names.ArrayName(id, r.isSnap)
  }

  /** Only the recorded owner's host has VLUNs for the volume. */
  ghost predicate ExportSafe(w: World, id: VolId)
    requires id in w.vols
  {
    ExportHosts(w.vluns, NameOf(id, w.vols[id])) <= OwnerSet(w.vols[id])
  }

  // ---- mount ----

  function BranchOf(r: VolRec, n: Node, env: MountEnv): Branch {
    if !env.startOk then NotStarted
    else if r.nodeMountInfo.None? then First
    else if n !in r.nodeMountInfo.value then Takeover
    else if env.mounted then Shared
    else if r.pathInfo.Some? && Contains(env.realPath, "dm-") && env.dirExists && env.devExists then Remount
    else FullRemount
  }

  /** Records the evicted owner's path, replacing any earlier entry it had. */
  function Evict(list: Option<seq<(Node, Option<PathRec>)>>, owner: Node, path: Option<PathRec>)
    : seq<(Node, Option<PathRec>)>
  {
    DropNode(if list.Some? then list.value else [], owner) + [(owner, path)]
  }

  function DropNode(list: seq<(Node, Option<PathRec>)>, n: Node): seq<(Node, Option<PathRec>)> {
    if list == [] then []
    else (if list[0].0 == n then [] else [list[0]]) + DropNode(list[1..], n)
  }

  function AddId(ids: seq<MountId>, mid: MountId): seq<MountId> {
    if mid in ids then ids else ids + [mid]
  }

  /** The record after a mount; `forced` says whether the forced VLUN removal went through. */
  ghost function MountedRec(r: VolRec, n: Node, mid: MountId, env: MountEnv, forced: bool): VolRec
    requires WellFormed(r)
  {
    match BranchOf(r, n, env)
    case NotStarted => r
    case First =>
      if env.attach.Attached?
      then r.(nodeMountInfo := Some(map[n := [mid]]), pathInfo := Some(env.attach.path)) else r
    case Shared => r.(nodeMountInfo := Some(map[n := AddId(r.nodeMountInfo.value[n], mid)]))
    case Takeover =>
      if !forced then r
      else
        var evicted := r.(oldPathInfo := Some(Evict(r.oldPathInfo, Owner(r.nodeMountInfo.value), r.pathInfo)));
        if env.attach.Attached?
        then evicted.(nodeMountInfo := Some(map[n := [mid]]), pathInfo := Some(env.attach.path)) else evicted
    case Remount =>
      if !env.remountOk then r
      else
        var kept := if mid in r.nodeMountInfo.value[n] then r.nodeMountInfo.value else map[n := [mid]];
        r.(nodeMountInfo := Some(kept), pathInfo := Some(r.pathInfo.value.(path := env.realPath)))
    case FullRemount =>
      // the mount id is not recorded here
      if env.attach.Attached? then r.(pathInfo := Some(env.attach.path)) else r
  }

  ghost predicate MountSucceeds(r: VolRec, n: Node, env: MountEnv, forced: bool) {
    match BranchOf(r, n, env)
    case NotStarted => false
    case First => env.attach.Attached?
    case Shared => true
    case Takeover => forced && env.attach.Attached?
    case Remount => env.remountOk
    case FullRemount => env.attach.Attached?
  }

  /** The VLUN tables agree except on exports of `vol` to `host`. */
  ghost predicate SameElsewhere(before: set<Vlun>, after: set<Vlun>, vol: string, host: Host) {
    forall v: Vlun :: !(v.vol == vol && v.host == host) ==> (v in before <==> v in after)
  }

  /** The VLUNs after attaching: rolled back, left behind, or in place. */
  ghost predicate AttachExports(before: set<Vlun>, after: set<Vlun>, vol: string, host: Host,
                                attach: Attach, terminated: bool)
  {
    match attach
    case FailsInit(exported) => after == before + Exports(vol, host, exported)
    case _ =>
      && SameElsewhere(before, after, vol, host)
      && if attach.Attached? || Unrolled(attach) then before <= after && host in ExportHosts(after, vol)
         else terminated ==> host !in ExportHosts(after, vol)
  }

  /** Making the filesystem or the mount directory and removing lost+found are not guarded: an exception there
      skips the rollback. */
  predicate Unrolled(a: Attach) {
    a == FailsAt(MakeFilesystem) || a == FailsAt(MakeDir) || a == FailsAt(RemoveLostFound)
  }

  /** The failure leaves exports behind: no rollback follows, or it finds no undo step because
      initialize_connection has not returned. */
  predicate Unguarded(a: Attach) {
    Unrolled(a) || (a.FailsInit? && a.exported != {})
  }

  ghost predicate MountExports(before: set<Vlun>, after: set<Vlun>, vol: string, n: Node, branch: Branch,
                               attach: Attach, forced: bool, terminated: bool)
  {
    match branch
    case NotStarted => after == before
    case Shared => after == before
    case Remount => after == before
    case First => AttachExports(before, after, vol, n, attach, terminated)
    case FullRemount => AttachExports(before, after, vol, n, attach, terminated)
    case Takeover =>
      if !forced then OnlyRemoves(before, after, vol, ExportHosts(before, vol))
      else exists mid ::
        && ForceRemoved(before, mid, vol)
        && AttachExports(mid, after, vol, n, attach, terminated)
  }

  ghost predicate MountStep(w: World, w': World, n: Node, id: VolId, mid: MountId, env: MountEnv,
                            forced: bool, terminated: bool)
    requires id in w.vols && WellFormed(w.vols[id])
  {
    var r := w.vols[id];
    && w'.vols == w.vols[id := MountedRec(r, n, mid, env, forced)]
    && MountExports(w.vluns, w'.vluns, NameOf(id, r), n, BranchOf(r, n, env), env.attach, forced, terminated)
  }

  // ---- unmount ----

  function FirstOfNode(list: seq<(Node, Option<PathRec>)>, n: Node): Option<(Node, Option<PathRec>)> {
    if list == [] then None
    else if list[0].0 == n then Some(list[0])
    else FirstOfNode(list[1..], n)
  }

  function OldEntry(r: VolRec, n: Node): Option<(Node, Option<PathRec>)> {
    if r.oldPathInfo.None? then None else FirstOfNode(r.oldPathInfo.value, n)
  }

  /** The record once the fencing part of an unmount is done. */
  function ReleasedRec(r: VolRec, n: Node, mid: MountId): VolRec {
    if r.nodeMountInfo.None? then r
    else if n !in r.nodeMountInfo.value then
      match OldEntry(r, n)
      case None => r
      case Some(e) =>
        var left := RemoveFirst(r.oldPathInfo.value, e);
        r.(oldPathInfo := if left == [] then None else Some(left))
    else
      var left := RemoveFirst(r.nodeMountInfo.value[n], mid);
      r.(nodeMountInfo := if left == [] then None else Some(r.nodeMountInfo.value[n := left]))
  }

  /** The unmount goes on to clean up the device: the last id went, an evicted node found its old
      path, or the record holds a path although the volume is free. */
  predicate CleansUp(r: VolRec, n: Node, mid: MountId) {
    if r.nodeMountInfo.None? then r.pathInfo.Some?
    else if n !in r.nodeMountInfo.value then OldEntry(r, n).Some?
    else RemoveFirst(r.nodeMountInfo.value[n], mid) == []
  }

  predicate Evicted(r: VolRec, n: Node) {
    r.nodeMountInfo.Some? && n !in r.nodeMountInfo.value
  }

  /** The path whose device an unmount cleans up, if it gets that far. */
  function CleanUpPath(r: VolRec, n: Node, mid: MountId): Option<PathRec> {
    if !CleansUp(r, n, mid) then None else if Evicted(r, n) then OldEntry(r, n).value.1 else r.pathInfo
  }

  function UnmountedRec(r: VolRec, n: Node, mid: MountId, cleaned: bool): VolRec {
    var released := ReleasedRec(r, n, mid);
    if CleansUp(r, n, mid) && cleaned && !Evicted(r, n) then released.(pathInfo := None) else released
  }

  ghost predicate UnmountStep(w: World, w': World, n: Node, id: VolId, mid: MountId,
                              cleaned: bool, terminated: bool)
    requires id in w.vols
  {
    var r := w.vols[id];
    var vol := NameOf(id, r);
    && w'.vols == w.vols[id := UnmountedRec(r, n, mid, cleaned)]
    && if CleansUp(r, n, mid) && cleaned
       then OnlyRemoves(w.vluns, w'.vluns, vol, {n}) && (terminated ==> w'.vluns == Without(w.vluns, vol, {n}))
       else w'.vluns == w.vluns
  }

  ghost predicate PluginName(name: string) {
    exists u: VolId, isSnap: bool :: name == Names.ArrayName(u, isSnap)
  }

  /** Only plugin volumes are exported; their names never contain one another. */
  ghost predicate PluginExports(vluns: set<Vlun>) {
    forall v :: v in vluns ==> PluginName(v.vol)
  }

  /** No exported volume's name properly contains this one's. */
  ghost predicate NamesClear(vluns: set<Vlun>, vol: string) {
    forall v :: v in vluns && Contains(v.vol, vol) ==> v.vol == vol
  }

  lemma PluginSubstring(hay: string, needle: string)
    requires PluginName(hay) && PluginName(needle)
    ensures Contains(hay, needle) ==> hay == needle
  {
    var u, uSnap :| hay == Names.ArrayName(u, uSnap);
    var v, vSnap :| needle == Names.ArrayName(v, vSnap);
    Names.SubstringIsEquality(u, uSnap, v, vSnap);
  }

  lemma PluginExportsClear(vluns: set<Vlun>, vol: string)
    requires PluginExports(vluns) && PluginName(vol)
    ensures NamesClear(vluns, vol)
  {
    forall v | v in vluns && Contains(v.vol, vol)
      ensures v.vol == vol
    {
      PluginSubstring(v.vol, vol);
    }
  }

  // ---- the manager on one node ----

  class Etcd {
    var vols: map<VolId, VolRec>

    constructor ()
      ensures vols == map[]
    {
      vols := map[];
    }
  }

  datatype Undo = TerminateConnection | DisconnectVolume | RemoveDir | UmountDir

  class VolumeManager {
    const nodeId: Node
    const etcd: Etcd
    const arr: Array3Par

    constructor (nodeId: Node, etcd: Etcd, arr: Array3Par)
      ensures this.nodeId == nodeId && this.etcd == etcd && this.arr == arr
    {
      this.nodeId, this.etcd, this.arr := nodeId, etcd, arr;
    }

    ghost function State(): World
      reads this, etcd, arr
    {
      World(etcd.vols, arr.vluns)
    }

    /** _rollback: the undo steps in reverse, exceptions ignored. Only the export is modelled. */
    method Rollback(vol: string, undo: seq<Undo>) returns (terminated: bool)
      requires arr.Valid()
      modifies arr
      ensures arr.Valid()
      ensures OnlyRemoves(old(arr.vluns), arr.vluns, vol, {nodeId})
      ensures TerminateConnection !in undo ==> arr.vluns == old(arr.vluns)
      ensures TerminateConnection in undo && terminated ==> nodeId !in ExportHosts(arr.vluns, vol)
      ensures NamesClear(old(arr.vluns), vol) ==> terminated
    {
      terminated := true;
      var i := |undo|;
      while i > 0
        invariant 0 <= i <= |undo| && arr.Valid()
        invariant OnlyRemoves(old(arr.vluns), arr.vluns, vol, {nodeId})
        invariant TerminateConnection !in undo[i..] ==> arr.vluns == old(arr.vluns)
        invariant TerminateConnection in undo[i..] && terminated ==> nodeId !in ExportHosts(arr.vluns, vol)
        invariant NamesClear(old(arr.vluns), vol) ==> terminated
      {
        i := i - 1;
        if undo[i] == TerminateConnection {
          ghost var before := arr.vluns;
          var ok := arr.DeleteVlun(vol, nodeId);
          terminated := ok && nodeId !in (set v | v in arr.vluns && v.vol == vol :: v.host);
          assert arr.vluns <= before;
        }
        assert undo[i..] == [undo[i]] + undo[i + 1..];
      }
      assert undo[0..] == undo;
    }

    /** _mount_volume and what follows it up to the etcd update, with its undo list. */
    method AttachDevice(vol: string, attach: Attach, paths: set<(nat, nat)>)
      returns (path: Option<PathRec>, terminated: bool)
      requires arr.Valid() && paths != {}
      modifies arr
      ensures arr.Valid()
      ensures AttachExports(old(arr.vluns), arr.vluns, vol, nodeId, attach, terminated)
      ensures path == if attach.Attached? then Some(attach.path) else None
      ensures NamesClear(old(arr.vluns), vol) ==> terminated
    {
      var undo: seq<Undo> := [];
      terminated := true;
      if attach.FailsInit? {
        arr.Export(vol, nodeId, attach.exported);
        terminated := Rollback(vol, undo);
        return None, terminated;
      }
      arr.Export(vol, nodeId, paths);
      ghost var exported := arr.vluns;
      var p :| p in paths;
      assert Vlun(vol, nodeId, p.0, p.1, false) in arr.vluns;
      undo := undo + [TerminateConnection];
      if attach == FailsAt(ConnectVolume) {
        terminated := Rollback(vol, undo);
        return None, terminated;
      }
      undo := undo + [DisconnectVolume];
      if attach == FailsAt(MakeFilesystem) || attach == FailsAt(MakeDir) {
        return None, terminated;
      }
      undo := undo + [RemoveDir];
      if attach == FailsAt(MountDir) {
        terminated := Rollback(vol, undo);
        return None, terminated;
      }
      undo := undo + [UmountDir];
      if attach == FailsAt(RemoveLostFound) {
        return None, terminated;
      }
      if attach.FailsAt? {  // the one stage left: SetOwner
        terminated := Rollback(vol, undo);
        return None, terminated;
      }
      path := Some(attach.path);
    }

    /** The entries of a list that belong to other nodes. */
    method SkipNode(list: seq<(Node, Option<PathRec>)>, n: Node) returns (kept: seq<(Node, Option<PathRec>)>)
      ensures kept == DropNode(list, n)
    {
      kept := [];
      var i := 0;
      while i < |list|
        invariant 0 <= i <= |list|
        invariant kept == DropNode(list[..i], n)
      {
        DropNodeMore(list[..i], list[i], n);
        assert list[..i + 1] == list[..i] + [list[i]];
        if list[i].0 != n {
          kept := kept + [list[i]];
        }
        i := i + 1;
      }
      assert list[..i] == list;
    }

    /** Caches the evicted owner's path, so that its late unmount can still clean up. */
    method RememberOldPath(r: VolRec) returns (r': VolRec)
      requires WellFormed(r) && r.nodeMountInfo.Some?
      ensures r' == r.(oldPathInfo := Some(Evict(r.oldPathInfo, Owner(r.nodeMountInfo.value), r.pathInfo)))
    {
      var info := r.nodeMountInfo.value;
      assert Owner(info) in info;
      var owner :| owner in info;
      OneKey(info, owner);
      var kept := SkipNode(if r.oldPathInfo.Some? then r.oldPathInfo.value else [], owner);
      r' := r.(oldPathInfo := Some(kept + [(owner, r.pathInfo)]));
    }

    /** The volume is mounted elsewhere: its VLUNs are removed by force, then the owner's path is cached. */
    method EvictOwner(id: VolId, faulty: bool) returns (forced: bool, r': VolRec)
      requires arr.Valid() && id in etcd.vols && WellFormed(etcd.vols[id]) && etcd.vols[id].nodeMountInfo.Some?
      modifies etcd, arr
      ensures arr.Valid()
      ensures var r := old(etcd.vols)[id];
              && r' == (if forced then r.(oldPathInfo := Some(Evict(r.oldPathInfo, Owner(r.nodeMountInfo.value),
                                                                    r.pathInfo))) else r)
              && etcd.vols == old(etcd.vols)[id := r']
              && if forced then ForceRemoved(old(arr.vluns), arr.vluns, NameOf(id, r))
                 else OnlyRemoves(old(arr.vluns), arr.vluns, NameOf(id, r), ExportHosts(old(arr.vluns), NameOf(id, r)))
      ensures arr.vluns <= old(arr.vluns)
      ensures !faulty ==> forced
    {
      r' := etcd.vols[id];
      forced := arr.ForceRemoveVolumeVlun(NameOf(id, r'), faulty);
      assert etcd.vols == etcd.vols[id := r'];
      if forced {
        r' := RememberOldPath(r');
        etcd.vols := etcd.vols[id := r'];
      }
    }

    /** _update_mount_id_list: one more mount by the owner; an id it already holds is ignored. */
    method UpdateMountIdList(id: VolId, mid: MountId)
      requires id in etcd.vols && WellFormed(etcd.vols[id])
      requires etcd.vols[id].nodeMountInfo.Some? && nodeId in etcd.vols[id].nodeMountInfo.value
      modifies etcd
      ensures var r := old(etcd.vols)[id];
              var ids := AddId(r.nodeMountInfo.value[nodeId], mid);
              etcd.vols == old(etcd.vols)[id := r.(nodeMountInfo := Some(map[nodeId := ids]))]
    {
      var r := etcd.vols[id];
      var info := r.nodeMountInfo.value;
      OneKey(info, nodeId);
      if mid !in info[nodeId] {
        info := info[nodeId := info[nodeId] + [mid]];
        etcd.vols := etcd.vols[id := r.(nodeMountInfo := Some(info))];
      } else {
        assert info == info[nodeId := info[nodeId]];
        assert etcd.vols == etcd.vols[id := r];
      }
    }

    /** A mount on the node that owns the volume; not `done` when the device has to be attached again. */
    method MountByOwner(id: VolId, mid: MountId, env: MountEnv) returns (done: bool, ok: bool)
      requires id in etcd.vols && WellFormed(etcd.vols[id]) && env.startOk
      requires etcd.vols[id].nodeMountInfo.Some? && nodeId in etcd.vols[id].nodeMountInfo.value
      modifies etcd
      ensures done <==> BranchOf(old(etcd.vols)[id], nodeId, env) != FullRemount
      ensures etcd.vols == if done then old(etcd.vols)[id := MountedRec(old(etcd.vols)[id], nodeId, mid, env, true)]
                else old(etcd.vols)
      ensures done ==> (ok <==> MountSucceeds(old(etcd.vols)[id], nodeId, env, true))
    {
      var r := etcd.vols[id];
      var info := r.nodeMountInfo.value;
      if env.mounted {
        UpdateMountIdList(id, mid);
        return true, true;
      }
      if r.pathInfo.Some? && Contains(env.realPath, "dm-") && env.dirExists && env.devExists {
        if !env.remountOk {
          assert etcd.vols == etcd.vols[id := r];
          return true, false;
        }
        OneKey(info, nodeId);
        r := r.(pathInfo := Some(r.pathInfo.value.(path := env.realPath)));
        if mid !in info[nodeId] {
          r := r.(nodeMountInfo := Some(info[nodeId := [mid]]));
        }
        etcd.vols := etcd.vols[id := r];
        return true, true;
      }
      done, ok := false, false;
    }

    /** The last part of a mount: attach the device and save mount ids and path. */
    method AttachAndSave(id: VolId, info: map<Node, seq<MountId>>, env: MountEnv, paths: set<(nat, nat)>)
      returns (ok: bool, terminated: bool)
      requires arr.Valid() && id in etcd.vols && paths != {}
      modifies etcd, arr
      ensures arr.Valid() && (ok <==> env.attach.Attached?)
      ensures var r := old(etcd.vols)[id];
              && AttachExports(old(arr.vluns), arr.vluns, NameOf(id, r), nodeId, env.attach, terminated)
              && etcd.vols == old(etcd.vols)[id := if ok then r.(nodeMountInfo := Some(info),
                                                                 pathInfo := Some(env.attach.path)) else r]
              && (NamesClear(old(arr.vluns), NameOf(id, r)) ==> terminated)
    {
      var r := etcd.vols[id];
      var path;
      path, terminated := AttachDevice(NameOf(id, r), env.attach, paths);
      ok := path.Some?;
      assert etcd.vols == etcd.vols[id := r];
      if ok {
        etcd.vols := etcd.vols[id := r.(nodeMountInfo := Some(info), pathInfo := path)];
      }
    }

    /** A mount of a volume that another node owns. */
    method MountTakeover(id: VolId, mid: MountId, env: MountEnv, paths: set<(nat, nat)>, faulty: bool)
      returns (ok: bool, forced: bool, terminated: bool)
      requires arr.Valid() && paths != {} && id in etcd.vols && WellFormed(etcd.vols[id])
      requires BranchOf(etcd.vols[id], nodeId, env) == Takeover
      modifies etcd, arr
      ensures arr.Valid()
      ensures MountStep(old(State()), State(), nodeId, id, mid, env, forced, terminated)
      ensures ok <==> MountSucceeds(old(etcd.vols)[id], nodeId, env, forced)
      ensures !faulty ==> forced
      ensures NamesClear(old(arr.vluns), NameOf(id, old(etcd.vols)[id])) ==> terminated
    {
      ok, terminated := false, true;
      var evicted;
      forced, evicted := EvictOwner(id, faulty);
      ghost var cut := arr.vluns;
      if forced {
        ok, terminated := AttachAndSave(id, map[nodeId := [mid]], env, paths);
        assert ForceRemoved(old(arr.vluns), cut, NameOf(id, evicted));
      }
    }

    /** _synchronized_mount_volume, under the volume's lock. */
    method MountVolume(id: VolId, mid: MountId, env: MountEnv, paths: set<(nat, nat)>, faulty: bool)
      returns (ok: bool, forced: bool, terminated: bool)
      requires arr.Valid() && AllWellFormed(etcd.vols) && paths != {}
      modifies etcd, arr
      ensures arr.Valid()
      ensures id !in old(etcd.vols) ==> !ok && State() == old(State())
      ensures id in old(etcd.vols) ==>
                && MountStep(old(State()), State(), nodeId, id, mid, env, forced, terminated)
                && (ok <==> MountSucceeds(old(etcd.vols)[id], nodeId, env, forced))
      ensures !faulty ==> forced
      ensures id in old(etcd.vols) && NamesClear(old(arr.vluns), NameOf(id, old(etcd.vols)[id])) ==> terminated
    {
      ok, forced, terminated := false, true, true;
      if id !in etcd.vols {
        return;
      }
      var r := etcd.vols[id];
      assert etcd.vols == etcd.vols[id := r];
      if !env.startOk {
        return;
      }
      var info := map[nodeId := [mid]];
      if r.nodeMountInfo.Some? {
        if nodeId !in r.nodeMountInfo.value {
          ok, forced, terminated := MountTakeover(id, mid, env, paths, faulty);
          return;
        }
        info := r.nodeMountInfo.value;
        var done;
        done, ok := MountByOwner(id, mid, env);
        if done {
          return;
        }
      }
      ok, terminated := AttachAndSave(id, info, env, paths);
    }

    /** The first old path of this node, as the search loop finds it. */
    method FindOldPath(r: VolRec) returns (entry: Option<(Node, Option<PathRec>)>)
      ensures entry == OldEntry(r, nodeId)
    {
      entry := None;
      if r.oldPathInfo.Some? {
        var list := r.oldPathInfo.value;
        var i := 0;
        while i < |list| && entry.None?
          invariant 0 <= i <= |list|
          invariant FirstOfNode(list, nodeId) == if entry.Some? then entry else FirstOfNode(list[i..], nodeId)
        {
          if list[i].0 == nodeId {
            entry := Some(list[i]);
          }
          i := i + 1;
        }
      }
    }

    /** The fencing part of unmount_volume: whether to go on, with which path, and whether the node owns the volume. */
    method ReleaseVolume(id: VolId, mid: MountId) returns (go: bool, path: Option<PathRec>, owns: bool)
      requires id in etcd.vols && WellFormed(etcd.vols[id])
      modifies etcd
      ensures etcd.vols == old(etcd.vols)[id := ReleasedRec(old(etcd.vols)[id], nodeId, mid)]
      ensures var r := old(etcd.vols)[id];
              && (go && path.Some? <==> CleansUp(r, nodeId, mid))
              && (go && path.None? <==> r.nodeMountInfo.None? && r.pathInfo.None?)
              && (go ==> (owns <==> !Evicted(r, nodeId)) && path == CleanUpPath(r, nodeId, mid))
    {
      var r := etcd.vols[id];
      owns := true;
      assert etcd.vols == etcd.vols[id := r];
      if r.nodeMountInfo.Some? {
        var info := r.nodeMountInfo.value;
        if nodeId !in info {
          var entry := FindOldPath(r);
          if entry.None? {
            return false, None, owns;
          }
          EntryListed(r.oldPathInfo.value, nodeId);
          var left := RemoveFirst(r.oldPathInfo.value, entry.value);
          etcd.vols := etcd.vols[id := r.(oldPathInfo := if left == [] then None else Some(left))];
          return true, entry.value.1, false;
        }
        var ids := RemoveFirst(info[nodeId], mid);
        etcd.vols := etcd.vols[id := r.(nodeMountInfo := Some(info[nodeId := ids]))];
        if |ids| > 0 {
          return false, None, owns;
        }
        etcd.vols := etcd.vols[id := r.(nodeMountInfo := None)];
      }
      go, path := true, r.pathInfo;
    }

    /** unmount_volume, under the volume's lock; `cleanupOk` says whether unmounting and
        disconnecting the device at the path `used` raise no exception. */
    method UnmountVolume(id: VolId, mid: MountId, cleanupOk: bool)
      returns (ok: bool, terminated: bool, used: Option<PathRec>)
      requires arr.Valid() && AllWellFormed(etcd.vols)
      modifies etcd, arr
      ensures arr.Valid()
      ensures id !in old(etcd.vols) ==> !ok && State() == old(State())
      ensures id in old(etcd.vols) ==>
                && UnmountStep(old(State()), State(), nodeId, id, mid, cleanupOk, terminated)
                && var r := old(etcd.vols)[id];
                   && (ok <==> (CleansUp(r, nodeId, mid) ==> cleanupOk) && (r.nodeMountInfo.None? ==> r.pathInfo.Some?))
                   && used == CleanUpPath(r, nodeId, mid)
      ensures id in old(etcd.vols) && NamesClear(old(arr.vluns), NameOf(id, old(etcd.vols)[id])) ==> terminated
    {
      terminated, used := true, None;
      if id !in etcd.vols {
        return false, terminated, used;
      }
      var vol := NameOf(id, etcd.vols[id]);
      var go, path, owns := ReleaseVolume(id, mid);
      if !go {
        return true, terminated, used;
      }
      used := path;
      if path.None? || !cleanupOk {
        return false, terminated, used;
      }
      ghost var before := arr.vluns;
      terminated := arr.DeleteVlun(vol, nodeId);
      terminated := terminated && nodeId !in (set v | v in arr.vluns && v.vol == vol :: v.host);
      assert terminated ==> arr.vluns == Without(before, vol, {nodeId});
      if owns {
        etcd.vols := etcd.vols[id := etcd.vols[id].(pathInfo := None)];
      }
      ok := true;
    }
  }

  lemma {:induction false} DropNodeMore(list: seq<(Node, Option<PathRec>)>, e: (Node, Option<PathRec>), n: Node)
    ensures DropNode(list + [e], n) == DropNode(list, n) + if e.0 == n then [] else [e]
  {
    if list == [] {
      assert [] + [e] == [e] && DropNode([e], n) == if e.0 == n then [] else [e];
    } else {
      var head := if list[0].0 == n then [] else [list[0]];
      assert (list + [e])[1..] == list[1..] + [e];
      assert DropNode(list + [e], n) == head + DropNode(list[1..] + [e], n);
      DropNodeMore(list[1..], e, n);
    }
  }

  lemma {:induction false} EntryListed(list: seq<(Node, Option<PathRec>)>, n: Node)
    requires FirstOfNode(list, n).Some?
    ensures FirstOfNode(list, n).value in list
  {
    if list[0].0 != n {
      EntryListed(list[1..], n);
    }
  }

  lemma OneKey(m: map<Node, seq<MountId>>, n: Node)
    requires |m| == 1 && n in m
    ensures m.Keys == {n} && Owner(m) == n
    ensures forall ids :: m[n := ids] == map[n := ids]
  {
    assert n in {Owner(m)};
  }
}
