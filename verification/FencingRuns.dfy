/** What every mount and unmount keeps, and what whole runs by any number of nodes keep. */
module FencingRuns {
  import opened Util
  import Names
  import opened Vluns
  import opened Fencing

  /** One locked operation, with what its surroundings answered. */
  datatype Event =
    | Mount(n: Node, id: VolId, mid: MountId, env: MountEnv, forced: bool, terminated: bool)
    | Unmount(n: Node, id: VolId, mid: MountId, cleaned: bool, terminated: bool)

  ghost predicate Step(w: World, e: Event, w': World) {
    && e.id in w.vols && WellFormed(w.vols[e.id])
    && match e
       case Mount(n, id, mid, env, forced, terminated) => MountStep(w, w', n, id, mid, env, forced, terminated)
       case Unmount(n, id, mid, cleaned, terminated) => UnmountStep(w, w', n, id, mid, cleaned, terminated)
  }

  // ---- the abstract machine: an owner and a set of mount ids ----

  datatype Holding = Free | Held(owner: Node, ids: set<MountId>)

  ghost function HoldingOf(r: VolRec): Holding
    requires WellFormed(r)
  {
    if r.nodeMountInfo.None? then Free
    else
      var n := Owner(r.nodeMountInfo.value);
      Held(n, Elems(r.nodeMountInfo.value[n]))
  }

  predicate CanRemount(env: MountEnv) {
    Contains(env.realPath, "dm-") && env.dirExists && env.devExists
  }

  function HoldStep(h: Holding, e: Event): Holding {
    match e
    case Mount(n, _, mid, env, forced, _) =>
      if !env.startOk then h
      else if h.Free? || h.owner != n then
        if (h.Free? || forced) && env.attach.Attached? then Held(n, {mid}) else h
      else if env.mounted then Held(n, h.ids + {mid})
      else if CanRemount(env) && env.remountOk && mid !in h.ids then Held(n, {mid})
      else h
    case Unmount(n, _, mid, _, _) =>
      if h.Free? || h.owner != n then h
      else if h.ids <= {mid} then Free
      else Held(n, h.ids - {mid})
  }

  lemma SingleKey(n: Node, ids: seq<MountId>)
    ensures |map[n := ids]| == 1 && Owner(map[n := ids]) == n
  {
    OneKey(map[n := ids], n);
  }

  lemma {:induction false} DropNodeEntries(list: seq<(Node, Option<PathRec>)>, n: Node)
    requires forall i, j :: 0 <= i < j < |list| ==> list[i].0 != list[j].0
    requires forall i :: 0 <= i < |list| ==> list[i].1.Some?
    ensures var d := DropNode(list, n);
            && (forall e :: e in d <==> e in list && e.0 != n)
            && (forall i, j :: 0 <= i < j < |d| ==> d[i].0 != d[j].0)
  {
    if list != [] {
      var rest := list[1..];
      DropNodeEntries(rest, n);
      assert list == [list[0]] + rest;
      assert forall e :: e in rest ==> e.0 != list[0].0;
    }
  }

  lemma EvictKeepsOrder(list: Option<seq<(Node, Option<PathRec>)>>, owner: Node, path: PathRec)
    requires list.Some? ==> OldPathsOk(list.value)
    ensures OldPathsOk(Evict(list, owner, Some(path)))
  {
    var before := if list.Some? then list.value else [];
    var kept := DropNode(before, owner);
    DropNodeEntries(before, owner);
    forall i | 0 <= i < |kept|
      ensures kept[i].0 != owner && kept[i].1.Some?
    {
      assert kept[i] in kept;
    }
  }

  predicate Owns(r: VolRec, n: Node) {
    r.nodeMountInfo.Some? && n in r.nodeMountInfo.value
  }

  function OldList(r: VolRec): seq<(Node, Option<PathRec>)> {
    if r.oldPathInfo.Some? then r.oldPathInfo.value else []
  }

  /** Evicting enters the owner with its path, in place of any earlier entry it had, and keeps every other node's. */
  lemma EvictEntries(list: Option<seq<(Node, Option<PathRec>)>>, owner: Node, path: PathRec)
    requires list.Some? ==> OldPathsOk(list.value)
    ensures forall e :: e in Evict(list, owner, Some(path)) <==>
                        e == (owner, Some(path)) || (list.Some? && e in list.value && e.0 != owner)
  {
    DropNodeEntries(if list.Some? then list.value else [], owner);
  }

  lemma {:induction false} RemoveEntry(list: seq<(Node, Option<PathRec>)>, n: Node, e: (Node, Option<PathRec>))
    requires forall i, j :: 0 <= i < j < |list| ==> list[i].0 != list[j].0
    requires FirstOfNode(list, n) == Some(e)
    ensures e in list && e.0 == n
    ensures RemoveFirst(list, e) == DropNode(list, n)
  {
    var rest := list[1..];
    if list[0].0 == n {
      NoSuchNode(rest, n);
    } else {
      RemoveEntry(rest, n, e);
    }
  }

  lemma {:induction false} NoSuchNode(list: seq<(Node, Option<PathRec>)>, n: Node)
    requires forall i :: 0 <= i < |list| ==> list[i].0 != n
    ensures DropNode(list, n) == list && FirstOfNode(list, n) == None
  {
    if list != [] {
      NoSuchNode(list[1..], n);
    }
  }

  // ---- one step on the record ----

  lemma MountKeepsWellFormed(r: VolRec, n: Node, mid: MountId, env: MountEnv, forced: bool)
    requires WellFormed(r)
    ensures WellFormed(MountedRec(r, n, mid, env, forced))
    ensures MountedRec(r, n, mid, env, forced).isSnap == r.isSnap
  {
    SingleKey(n, [mid]);
    if BranchOf(r, n, env) == Takeover {
      TakeoverKeepsWellFormed(r, n, mid, env, forced);
    } else if r.nodeMountInfo.Some? && n in r.nodeMountInfo.value {
      SingleKey(n, AddId(r.nodeMountInfo.value[n], mid));
    }
  }

  lemma TakeoverKeepsWellFormed(r: VolRec, n: Node, mid: MountId, env: MountEnv, forced: bool)
    requires WellFormed(r) && BranchOf(r, n, env) == Takeover
    ensures WellFormed(MountedRec(r, n, mid, env, forced))
  {
    SingleKey(n, [mid]);
    EvictKeepsOrder(r.oldPathInfo, Owner(r.nodeMountInfo.value), r.pathInfo.value);
  }

  lemma UnmountKeepsWellFormed(r: VolRec, n: Node, mid: MountId, cleaned: bool)
    requires WellFormed(r)
    ensures WellFormed(UnmountedRec(r, n, mid, cleaned))
    ensures UnmountedRec(r, n, mid, cleaned).isSnap == r.isSnap
  {
    if r.nodeMountInfo.Some? {
      if n in r.nodeMountInfo.value {
        OneKey(r.nodeMountInfo.value, n);
        RemoveFirstNoDup(r.nodeMountInfo.value[n], mid);
        SingleKey(n, RemoveFirst(r.nodeMountInfo.value[n], mid));
      } else if OldEntry(r, n).Some? {
        LateUnmountEntries(r.oldPathInfo.value, n);
      }
    }
  }

  /** An evicted node's unmount drops its own entry and keeps the others. */
  lemma LateUnmountEntries(list: seq<(Node, Option<PathRec>)>, n: Node)
    requires OldPathsOk(list) && FirstOfNode(list, n).Some?
    ensures var left := RemoveFirst(list, FirstOfNode(list, n).value);
            && (left != [] ==> OldPathsOk(left))
            && forall e :: e in left <==> e in list && e.0 != n
  {
    var e := FirstOfNode(list, n).value;
    RemoveEntry(list, n, e);
    DropNodeEntries(list, n);
    var left := RemoveFirst(list, e);
    forall i | 0 <= i < |left|
      ensures left[i].1.Some?
    {
      assert left[i] in left;
    }
  }

  lemma StepKeepsWellFormed(w: World, e: Event, w': World)
    requires AllWellFormed(w.vols) && Step(w, e, w')
    ensures AllWellFormed(w'.vols) && w'.vols.Keys == w.vols.Keys
    ensures forall id :: id in w.vols ==> w'.vols[id].isSnap == w.vols[id].isSnap
  {
    var r := w.vols[e.id];
    match e
    case Mount(n, id, mid, env, forced, _) => MountKeepsWellFormed(r, n, mid, env, forced);
    case Unmount(n, id, mid, cleaned, _) => UnmountKeepsWellFormed(r, n, mid, cleaned);
  }

  /** Every step of a volume's record is a step of the abstract machine. */
  lemma StepRefines(w: World, e: Event, w': World)
    requires AllWellFormed(w.vols) && Step(w, e, w')
    ensures AllWellFormed(w'.vols)
    ensures HoldingOf(w'.vols[e.id]) == HoldStep(HoldingOf(w.vols[e.id]), e)
  {
    StepKeepsWellFormed(w, e, w');
    var r := w.vols[e.id];
    match e
    case Mount(n, id, mid, env, forced, _) => MountRefines(r, e);
    case Unmount(n, id, mid, cleaned, _) => UnmountRefines(r, e);
  }

  lemma MountRefines(r: VolRec, e: Event)
    requires WellFormed(r) && e.Mount?
    requires WellFormed(MountedRec(r, e.n, e.mid, e.env, e.forced))
    ensures HoldingOf(MountedRec(r, e.n, e.mid, e.env, e.forced)) == HoldStep(HoldingOf(r), e)
  {
    SingleKey(e.n, [e.mid]);
    assert Elems([e.mid]) == {e.mid};
    if r.nodeMountInfo.Some? && e.n in r.nodeMountInfo.value {
      OwnerMountRefines(r, e);
    }
  }

  lemma OwnerMountRefines(r: VolRec, e: Event)
    requires WellFormed(r) && e.Mount? && r.nodeMountInfo.Some? && e.n in r.nodeMountInfo.value
    requires WellFormed(MountedRec(r, e.n, e.mid, e.env, e.forced))
    ensures HoldingOf(MountedRec(r, e.n, e.mid, e.env, e.forced)) == HoldStep(HoldingOf(r), e)
  {
    var ids := r.nodeMountInfo.value[e.n];
    OneKey(r.nodeMountInfo.value, e.n);
    SingleKey(e.n, [e.mid]);
    SingleKey(e.n, AddId(ids, e.mid));
    assert Elems([e.mid]) == {e.mid} && Elems(AddId(ids, e.mid)) == Elems(ids) + {e.mid};
  }

  lemma UnmountRefines(r: VolRec, e: Event)
    requires WellFormed(r) && e.Unmount?
    requires WellFormed(UnmountedRec(r, e.n, e.mid, e.cleaned))
    ensures HoldingOf(UnmountedRec(r, e.n, e.mid, e.cleaned)) == HoldStep(HoldingOf(r), e)
  {
    var n, mid := e.n, e.mid;
    if r.nodeMountInfo.Some? && n in r.nodeMountInfo.value {
      var ids := r.nodeMountInfo.value[n];
      var left := RemoveFirst(ids, mid);
      OneKey(r.nodeMountInfo.value, n);
      RemoveFirstNoDup(ids, mid);
      SingleKey(n, left);
      assert Elems(left) == Elems(ids) - {mid};
      if left != [] {
        assert left[0] in Elems(ids) && left[0] != mid;
      }
    }
  }

  /** A successful mount's id is held afterwards, except after a reboot whose device could not be
      remounted as it was: there the id is dropped unless it was held already. */
  lemma MountRecordsId(r: VolRec, e: Event)
    requires WellFormed(r) && e.Mount? && MountSucceeds(r, e.n, e.env, e.forced)
    ensures var h := HoldingOf(r);
            var r' := MountedRec(r, e.n, e.mid, e.env, e.forced);
            && WellFormed(r')
            && HoldingOf(r').Held? && HoldingOf(r').owner == e.n
            && (e.mid in HoldingOf(r').ids <==>
                  !(h.Held? && h.owner == e.n && !e.env.mounted && !CanRemount(e.env) && e.mid !in h.ids))
  {
    MountKeepsWellFormed(r, e.n, e.mid, e.env, e.forced);
    MountRefines(r, e);
  }

  /** Whether a mount reports success, by who holds the volume and what the node answers. */
  lemma MountReports(r: VolRec, e: Event)
    requires WellFormed(r) && e.Mount?
    ensures var h := HoldingOf(r);
            MountSucceeds(r, e.n, e.env, e.forced) <==>
              e.env.startOk
              && (h.Free? ==> e.env.attach.Attached?)
              && (h.Held? && h.owner != e.n ==> e.forced && e.env.attach.Attached?)
              && (h.Held? && h.owner == e.n && !e.env.mounted ==>
                    if CanRemount(e.env) then e.env.remountOk else e.env.attach.Attached?)
  {
  }

  /** A mount that reports failure, and a shared one, leave the recorded path alone; any other records where the device
      is now. */
  lemma MountRecordsPath(r: VolRec, e: Event)
    requires WellFormed(r) && e.Mount?
    ensures var h := HoldingOf(r);
            var own := h.Held? && h.owner == e.n;
            var r' := MountedRec(r, e.n, e.mid, e.env, e.forced);
            if !MountSucceeds(r, e.n, e.env, e.forced) || (own && e.env.mounted) then r'.pathInfo == r.pathInfo
            else if own && CanRemount(e.env) then
              && r.pathInfo.Some? && r'.pathInfo.Some? && r'.pathInfo.value.path == e.env.realPath
              && r'.pathInfo.value.device == r.pathInfo.value.device
              && r'.pathInfo.value.mountDir == r.pathInfo.value.mountDir
            else e.env.attach.Attached? && r'.pathInfo == Some(e.env.attach.path)
  {
  }

  /** A first mount, or another mount by the owner of a mounted volume with a new id, followed by
      its unmount gives the record back. */
  lemma MountThenUnmount(r: VolRec, n: Node, mid: MountId, env: MountEnv)
    requires WellFormed(r)
    requires env.startOk
    requires if r.nodeMountInfo.None? then r.pathInfo.None? && env.attach.Attached?
             else n in r.nodeMountInfo.value && env.mounted && mid !in r.nodeMountInfo.value[n]
    ensures UnmountedRec(MountedRec(r, n, mid, env, true), n, mid, true) == r
  {
    if r.nodeMountInfo.None? {
      assert RemoveFirst([mid], mid) == [];
    } else {
      var ids := r.nodeMountInfo.value[n];
      OneKey(r.nodeMountInfo.value, n);
      RemoveLast(ids, mid);
      assert r.nodeMountInfo.value == map[n := ids];
      assert map[n := ids + [mid]][n := ids] == map[n := ids];
    }
  }

  // ---- path records ----

  /** A step leaves a path record on a free volume exactly when it is the owner's last unmount
      and the device clean-up raises. */
  lemma StepPathsMatch(w: World, e: Event, w': World)
    requires AllWellFormed(w.vols) && Step(w, e, w') && PathsMatch(w.vols[e.id])
    ensures PathsMatch(w'.vols[e.id]) <==>
              !(e.Unmount? && !e.cleaned && HoldingOf(w.vols[e.id]).Held?
                && HoldStep(HoldingOf(w.vols[e.id]), e).Free?)
  {
    StepRefines(w, e, w');
  }

  // ---- exports ----

  ghost predicate SameForOthers(before: set<Vlun>, after: set<Vlun>, vol: string) {
    forall v: Vlun :: v.vol != vol ==> (v in before <==> v in after)
  }

  lemma StepExportsFrame(w: World, e: Event, w': World)
    requires AllWellFormed(w.vols) && Step(w, e, w')
    ensures SameForOthers(w.vluns, w'.vluns, NameOf(e.id, w.vols[e.id]))
  {
    var r := w.vols[e.id];
    var vol := NameOf(e.id, r);
    if e.Mount? && BranchOf(r, e.n, e.env) == Takeover && e.forced {
      var mid :| ForceRemoved(w.vluns, mid, vol) && AttachExports(mid, w'.vluns, vol, e.n, e.env.attach, e.terminated);
      ForceRemovedClears(w.vluns, mid, vol);
      assert SameForOthers(w.vluns, mid, vol);
    }
  }

  /** Every VLUN that a step adds is of the step's own volume. */
  lemma StepKeepsPluginExports(w: World, e: Event, w': World)
    requires AllWellFormed(w.vols) && Step(w, e, w') && PluginExports(w.vluns)
    ensures PluginExports(w'.vluns) && NamesClear(w.vluns, NameOf(e.id, w.vols[e.id]))
  {
    StepExportsFrame(w, e, w');
    PluginExportsClear(w.vluns, NameOf(e.id, w.vols[e.id]));
  }

  /** A step touches no other volume: neither its record nor its VLUNs. */
  lemma StepTouchesOneVolume(w: World, e: Event, w': World, other: VolId)
    requires AllWellFormed(w.vols) && Step(w, e, w') && other in w.vols && other != e.id
    ensures other in w'.vols && w'.vols[other] == w.vols[other]
    ensures forall v: Vlun :: v.vol == NameOf(other, w.vols[other]) ==> (v in w.vluns <==> v in w'.vluns)
    ensures ExportHosts(w'.vluns, NameOf(other, w.vols[other])) == ExportHosts(w.vluns, NameOf(other, w.vols[other]))
  {
    StepExportsFrame(w, e, w');
    Names.NamesDistinct(other, w.vols[other].isSnap, e.id, w.vols[e.id].isSnap);
  }

  lemma AttachExportHosts(before: set<Vlun>, after: set<Vlun>, vol: string, host: Host, attach: Attach,
                          terminated: bool)
    requires AttachExports(before, after, vol, host, attach, terminated)
    ensures ExportHosts(after, vol) - {host} == ExportHosts(before, vol) - {host}
    ensures !attach.Attached? && !Unguarded(attach) && terminated ==>
              ExportHosts(after, vol) <= ExportHosts(before, vol)
    ensures Unguarded(attach) ==> host in ExportHosts(after, vol)
  {
    forall h | h in ExportHosts(before, vol) - {host}
      ensures h in ExportHosts(after, vol)
    {
      var v :| v in before && v.vol == vol && v.host == h;
      assert v in after;
    }
    if attach.FailsInit? && attach.exported != {} {
      var p :| p in attach.exported;
      assert Vlun(vol, host, p.0, p.1, false) in after;
    }
  }

  /** Whether a mount's attach stage was reached, and failed in a way that leaves exports behind. */
  predicate LeaksExport(h: Holding, e: Event) {
    && e.Mount? && e.env.startOk
    && (e.env.attach in {FailsAt(MakeFilesystem), FailsAt(MakeDir), FailsAt(RemoveLostFound)}
        || (e.env.attach.FailsInit? && e.env.attach.exported != {}))
    && (h.Free? || (h.owner != e.n && e.forced))
  }

  /** A mount keeps exports within the owner's host exactly when it does not fail in a way that leaves
      exports on a node that is not yet the owner. Takeover relies on the
      two rounds of forced removal: an export-safe volume is on at most one host. */
  lemma MountExportSafe(w: World, e: Event, w': World)
    requires AllWellFormed(w.vols) && Step(w, e, w') && e.Mount? && e.terminated
    requires ExportSafe(w, e.id)
    ensures e.id in w'.vols
    ensures ExportSafe(w', e.id) <==> !LeaksExport(HoldingOf(w.vols[e.id]), e)
  {
    StepKeepsWellFormed(w, e, w');
    var r := w.vols[e.id];
    var vol := NameOf(e.id, r);
    match BranchOf(r, e.n, e.env)
    case NotStarted => MountedOwners(r, e);
    case Shared => MountedOwners(r, e);
    case Remount => MountedOwners(r, e);
    case First => DirectMountExports(w, e, w');
    case FullRemount => DirectMountExports(w, e, w');
    case Takeover => TakeoverExports(w, e, w');
  }

  /** Who owns the volume after a mount. */
  lemma MountedOwners(r: VolRec, e: Event)
    requires WellFormed(r) && e.Mount?
    ensures OwnerSet(r) == if HoldingOf(r).Free? then {} else {HoldingOf(r).owner}
    ensures var r' := MountedRec(r, e.n, e.mid, e.env, e.forced);
            OwnerSet(r') == if MountSucceeds(r, e.n, e.env, e.forced) then {e.n} else OwnerSet(r)
  {
    if r.nodeMountInfo.Some? && e.n in r.nodeMountInfo.value {
      OneKey(r.nodeMountInfo.value, e.n);
    }
  }

  lemma DirectMountExports(w: World, e: Event, w': World)
    requires AllWellFormed(w.vols) && Step(w, e, w') && e.Mount? && e.terminated
    requires BranchOf(w.vols[e.id], e.n, e.env) == First || BranchOf(w.vols[e.id], e.n, e.env) == FullRemount
    requires ExportSafe(w, e.id)
    requires w'.vols[e.id].isSnap == w.vols[e.id].isSnap
    ensures ExportSafe(w', e.id) <==> !LeaksExport(HoldingOf(w.vols[e.id]), e)
  {
    var r := w.vols[e.id];
    MountedOwners(r, e);
    AttachExportHosts(w.vluns, w'.vluns, NameOf(e.id, r), e.n, e.env.attach, true);
  }

  lemma TakeoverExports(w: World, e: Event, w': World)
    requires AllWellFormed(w.vols) && Step(w, e, w') && e.Mount? && e.terminated
    requires BranchOf(w.vols[e.id], e.n, e.env) == Takeover
    requires ExportSafe(w, e.id)
    requires w'.vols[e.id].isSnap == w.vols[e.id].isSnap
    ensures ExportSafe(w', e.id) <==> !LeaksExport(HoldingOf(w.vols[e.id]), e)
  {
    var r := w.vols[e.id];
    var vol := NameOf(e.id, r);
    MountedOwners(r, e);
    if e.forced {
      var mid :| ForceRemoved(w.vluns, mid, vol) && AttachExports(mid, w'.vluns, vol, e.n, e.env.attach, true);
      AtMostOneHost(ExportHosts(w.vluns, vol), HoldingOf(r).owner);
      ForceRemovedClears(w.vluns, mid, vol);
      AttachExportHosts(mid, w'.vluns, vol, e.n, e.env.attach, true);
    }
  }

  lemma OwnerSetIsHolder(r: VolRec)
    requires WellFormed(r)
    ensures OwnerSet(r) == if HoldingOf(r).Free? then {} else {HoldingOf(r).owner}
  {
  }

  lemma AtMostOneHost(hosts: set<Host>, h: Host)
    requires hosts <= {h}
    ensures |hosts| <= 2
  {
    SubsetSize(hosts, {h});
  }

  /** An unmount keeps exports within the owner's host unless the owner's last unmount is cut short
      before its VLUNs are removed. */
  lemma UnmountExportSafe(w: World, e: Event, w': World)
    requires AllWellFormed(w.vols) && Step(w, e, w') && e.Unmount? && e.terminated
    requires ExportSafe(w, e.id)
    ensures e.id in w'.vols
    ensures ExportSafe(w', e.id) <==>
              !(!e.cleaned && HoldStep(HoldingOf(w.vols[e.id]), e).Free?
                && ExportHosts(w.vluns, NameOf(e.id, w.vols[e.id])) != {})
  {
    StepRefines(w, e, w');
    StepKeepsWellFormed(w, e, w');
    var r := w.vols[e.id];
    OwnerSetIsHolder(r);
    OwnerSetIsHolder(w'.vols[e.id]);
    WithoutHosts(w.vluns, NameOf(e.id, r), {e.n});
  }

  /** A late unmount by an evicted node never changes the owner's mount info, path or VLUNs: it
      removes that node's entry from the old paths, and no other. */
  lemma LateUnmountFrame(w: World, e: Event, w': World)
    requires AllWellFormed(w.vols) && Step(w, e, w') && e.Unmount? && Evicted(w.vols[e.id], e.n)
    ensures e.id in w'.vols
    ensures var r, r' := w.vols[e.id], w'.vols[e.id];
            && r'.nodeMountInfo == r.nodeMountInfo && r'.pathInfo == r.pathInfo
            && Elems(OldList(r')) == (set x | x in Elems(OldList(r)) && x.0 != e.n)
    ensures forall v: Vlun :: v.host != e.n ==> (v in w.vluns <==> v in w'.vluns)
    ensures ExportSafe(w, e.id) ==> w'.vluns == w.vluns
  {
    var r := w.vols[e.id];
    var list := OldList(r);
    if OldEntry(r, e.n).Some? {
      LateUnmountEntries(list, e.n);
    } else {
      EntryIsFound(list, e.n);
    }
    if ExportSafe(w, e.id) {
      assert e.n !in ExportHosts(w.vluns, NameOf(e.id, r));
      assert Without(w.vluns, NameOf(e.id, r), {e.n}) == w.vluns;
    }
  }

  lemma {:induction false} EntryIsFound(list: seq<(Node, Option<PathRec>)>, n: Node)
    ensures FirstOfNode(list, n).None? <==> forall x :: x in list ==> x.0 != n
  {
    if list != [] {
      EntryIsFound(list[1..], n);
      assert list == [list[0]] + list[1..];
    }
  }

  /** After a forced takeover, attached or not, the old paths are the former owner's and those of all other nodes. */
  lemma TakeoverOldPaths(w: World, e: Event, w': World)
    requires AllWellFormed(w.vols) && Step(w, e, w') && e.Mount? && e.env.startOk && e.forced
    requires HoldingOf(w.vols[e.id]).Held? && HoldingOf(w.vols[e.id]).owner != e.n
    ensures e.id in w'.vols
    ensures var r, owner := w.vols[e.id], HoldingOf(w.vols[e.id]).owner;
            forall x :: x in OldList(w'.vols[e.id]) <==>
                        x == (owner, r.pathInfo) || (x in OldList(r) && x.0 != owner)
  {
    var r := w.vols[e.id];
    EvictEntries(r.oldPathInfo, HoldingOf(r).owner, r.pathInfo.value);
  }

  /** No other mount changes the old paths. */
  lemma OtherMountOldPaths(w: World, e: Event, w': World)
    requires AllWellFormed(w.vols) && Step(w, e, w') && e.Mount?
    requires HoldingOf(w.vols[e.id]).Free? || HoldingOf(w.vols[e.id]).owner == e.n || !e.forced || !e.env.startOk
    ensures e.id in w'.vols && w'.vols[e.id].oldPathInfo == w.vols[e.id].oldPathInfo
  {
  }

  /** Nor does an unmount by the owner, or of a free volume. */
  lemma OtherUnmountOldPaths(w: World, e: Event, w': World)
    requires AllWellFormed(w.vols) && Step(w, e, w') && e.Unmount? && !Evicted(w.vols[e.id], e.n)
    ensures e.id in w'.vols && w'.vols[e.id].oldPathInfo == w.vols[e.id].oldPathInfo
  {
  }

  /** An unmount of a free volume that still has a path record takes that record and the node's exports away, or
      changes nothing. */
  lemma FreeUnmount(w: World, e: Event, w': World)
    requires AllWellFormed(w.vols) && Step(w, e, w') && e.Unmount? && e.terminated
    requires w.vols[e.id].nodeMountInfo.None? && w.vols[e.id].pathInfo.Some?
    ensures e.id in w'.vols
    ensures var r, r' := w.vols[e.id], w'.vols[e.id];
            && (e.cleaned ==> PathsMatch(r') && ExportHosts(w'.vluns, NameOf(e.id, r))
                                                == ExportHosts(w.vluns, NameOf(e.id, r)) - {e.n})
            && (!e.cleaned ==> r' == r && w'.vluns == w.vluns)
            && r'.oldPathInfo == r.oldPathInfo && r'.nodeMountInfo.None?
  {
    WithoutHosts(w.vluns, NameOf(e.id, w.vols[e.id]), {e.n});
  }

  /** So an owner's last unmount that was cut short is made good by another one on the same node: the volume is free,
      has no path record and is not exported. */
  lemma RetriedUnmount(w: World, e: Event, w': World, e': Event, w'': World)
    requires AllWellFormed(w.vols) && Step(w, e, w') && e.Unmount? && !e.cleaned && e.terminated
    requires ExportSafe(w, e.id) && Owns(w.vols[e.id], e.n) && HoldStep(HoldingOf(w.vols[e.id]), e).Free?
    requires Step(w', e', w'') && e'.Unmount? && e'.id == e.id && e'.n == e.n && e'.cleaned && e'.terminated
    ensures e.id in w''.vols && w''.vols[e.id].nodeMountInfo.None? && w''.vols[e.id].pathInfo.None?
    ensures ExportHosts(w''.vluns, NameOf(e.id, w.vols[e.id])) == {}
  {
    StepRefines(w, e, w');
    StepKeepsWellFormed(w, e, w');
    OneKey(w.vols[e.id].nodeMountInfo.value, e.n);
    FreeUnmount(w', e', w'');
  }

  // ---- whole runs ----

  ghost predicate Run(ws: seq<World>, es: seq<Event>) {
    |ws| == |es| + 1 && forall i :: 0 <= i < |es| ==> Step(ws[i], es[i], ws[i + 1])
  }

  /** The abstract machine run over the events of one volume. */
  function HoldAfter(h: Holding, es: seq<Event>, id: VolId): Holding {
    if es == [] then h
    else
      var before := HoldAfter(h, es[..|es| - 1], id);
      if es[|es| - 1].id == id then HoldStep(before, es[|es| - 1]) else before
  }

  /** Whatever nodes do and whatever fails, a volume's record follows the abstract machine. */
  lemma {:induction false} RunRefines(ws: seq<World>, es: seq<Event>, id: VolId)
    requires Run(ws, es) && AllWellFormed(ws[0].vols) && id in ws[0].vols
    ensures AllWellFormed(ws[|es|].vols) && id in ws[|es|].vols
    ensures HoldingOf(ws[|es|].vols[id]) == HoldAfter(HoldingOf(ws[0].vols[id]), es, id)
    decreases |es|
  {
    if es != [] {
      var k := |es| - 1;
      RunRefines(ws[..|es|], es[..k], id);
      assert ws[..|es|][k] == ws[k];
      StepRefines(ws[k], es[k], ws[k + 1]);
      StepKeepsWellFormed(ws[k], es[k], ws[k + 1]);
      if es[k].id != id {
        StepTouchesOneVolume(ws[k], es[k], ws[k + 1], id);
      }
    }
  }

  // ---- what an evicted node finds ----

  /** The node finds `p` as its old path; and as long as it is still recorded as the owner, because the takeover went
      no further, `p` is also the volume's path. */
  ghost predicate Finds(r: VolRec, n: Node, p: PathRec) {
    OldEntry(r, n) == Some((n, Some(p))) && (Owns(r, n) ==> r.pathInfo == Some(p))
  }

  lemma {:induction false} FirstIsOnly(list: seq<(Node, Option<PathRec>)>, n: Node, p: Option<PathRec>)
    requires forall i, j :: 0 <= i < j < |list| ==> list[i].0 != list[j].0
    ensures FirstOfNode(list, n) == Some((n, p)) <==> (n, p) in list
  {
    if list != [] {
      FirstIsOnly(list[1..], n, p);
      assert list == [list[0]] + list[1..];
      if list[0].0 == n && (n, p) in list[1..] {
        assert false;
      }
    }
  }

  lemma OldEntryIn(r: VolRec, n: Node, p: PathRec)
    requires WellFormed(r)
    ensures OldEntry(r, n) == Some((n, Some(p))) <==> (n, Some(p)) in OldList(r)
  {
    FirstIsOnly(OldList(r), n, Some(p));
  }

  /** Evicting a node gives it its path to find. */
  lemma EvictionIsFound(w: World, e: Event, w': World, n: Node, p: PathRec)
    requires AllWellFormed(w.vols) && Step(w, e, w') && e.Mount? && e.env.startOk && e.forced && e.n != n
    requires Owns(w.vols[e.id], n) && w.vols[e.id].pathInfo == Some(p)
    ensures AllWellFormed(w'.vols) && e.id in w'.vols && Finds(w'.vols[e.id], n, p)
  {
    StepKeepsWellFormed(w, e, w');
    OneKey(w.vols[e.id].nodeMountInfo.value, n);
    TakeoverOldPaths(w, e, w');
    OldEntryIn(w'.vols[e.id], n, p);
  }

  /** What the node finds is kept by every step, except its own unmount and its own mount that makes it the owner. */
  lemma StepKeepsFinds(w: World, e: Event, w': World, n: Node, p: PathRec)
    requires AllWellFormed(w.vols) && Step(w, e, w') && Finds(w.vols[e.id], n, p)
    requires e.id in w'.vols && (e.n == n ==> e.Mount? && !Owns(w'.vols[e.id], n))
    ensures Finds(w'.vols[e.id], n, p)
  {
    var r, r' := w.vols[e.id], w'.vols[e.id];
    StepKeepsWellFormed(w, e, w');
    OldEntryIn(r, n, p);
    OldEntryIn(r', n, p);
    if e.Mount? {
      if Owns(r, n) && e.n != n && e.env.startOk && e.forced {
        EvictionIsFound(w, e, w', n, p);
      } else {
        MountKeepsFinds(w, e, w', n, p);
      }
    } else if Evicted(r, e.n) {
      LateUnmountFrame(w, e, w');
      assert (n, Some(p)) in Elems(OldList(r'));
    } else {
      OtherUnmountOldPaths(w, e, w');
    }
  }

  lemma MountKeepsFinds(w: World, e: Event, w': World, n: Node, p: PathRec)
    requires AllWellFormed(w.vols) && Step(w, e, w') && e.Mount? && e.id in w'.vols && Finds(w.vols[e.id], n, p)
    requires !(Owns(w.vols[e.id], n) && e.n != n && e.env.startOk && e.forced)
    requires e.n == n ==> !Owns(w'.vols[e.id], n)
    requires WellFormed(w'.vols[e.id])
    ensures Finds(w'.vols[e.id], n, p)
  {
    var r, h := w.vols[e.id], HoldingOf(w.vols[e.id]);
    if h.Free? || h.owner == e.n || !e.forced || !e.env.startOk {
      OtherMountOldPaths(w, e, w');
    } else {
      TakeoverOldPaths(w, e, w');
      OldEntryIn(r, n, p);
      OldEntryIn(w'.vols[e.id], n, p);
    }
    if Owns(r, n) {
      OneKey(r.nodeMountInfo.value, n);
    }
  }

  /** The `i`-th event is not the node's unmount of the volume, nor a mount by which it takes it back. */
  ghost predicate StaysAway(ws: seq<World>, es: seq<Event>, id: VolId, n: Node, i: nat)
    requires i < |es| && |ws| == |es| + 1
  {
    es[i].id == id && es[i].n == n ==> es[i].Mount? && id in ws[i + 1].vols && !Owns(ws[i + 1].vols[id], n)
  }

  /** The `j`-th event evicts node `n`, which has path `p`. */
  ghost predicate Evicts(ws: seq<World>, es: seq<Event>, j: nat, n: Node, p: PathRec)
    requires j < |es| && |ws| == |es| + 1
  {
    && es[j].Mount? && es[j].env.startOk && es[j].forced && es[j].n != n
    && es[j].id in ws[j].vols && Owns(ws[j].vols[es[j].id], n) && ws[j].vols[es[j].id].pathInfo == Some(p)
  }

  lemma {:induction false} KeepsFinding(ws: seq<World>, es: seq<Event>, j: nat, k: nat, n: Node, p: PathRec)
    requires Run(ws, es) && AllWellFormed(ws[0].vols) && j < k <= |es| && Evicts(ws, es, j, n, p)
    requires forall i :: j < i < k ==> StaysAway(ws, es, es[j].id, n, i)
    ensures es[j].id in ws[k].vols && Finds(ws[k].vols[es[j].id], n, p)
  {
    RunStep(ws, es, k - 1);
    RunWellFormed(ws, es, k - 1);
    if k == j + 1 {
      EvictionIsFound(ws[j], es[j], ws[k], n, p);
    } else {
      KeepsFinding(ws, es, j, k - 1, n, p);
      assert StaysAway(ws, es, es[j].id, n, k - 1);
      AnyStepKeepsFinds(ws[k - 1], es[k - 1], ws[k], es[j].id, n, p);
    }
  }

  /** Over any run, a node that was evicted, and has neither taken the volume back nor unmounted it since, still finds
      the path that it had, whoever else mounts, is evicted or unmounts in between; if another node owns the volume by
      then, that path is what its late unmount cleans up. */
  lemma EvictedPathKept(ws: seq<World>, es: seq<Event>, j: nat, k: nat, n: Node, p: PathRec)
    requires Run(ws, es) && AllWellFormed(ws[0].vols) && j < k <= |es| && Evicts(ws, es, j, n, p)
    requires forall i :: j < i < k ==> StaysAway(ws, es, es[j].id, n, i)
    ensures es[j].id in ws[k].vols && OldEntry(ws[k].vols[es[j].id], n) == Some((n, Some(p)))
    ensures forall mid :: Evicted(ws[k].vols[es[j].id], n) ==> CleanUpPath(ws[k].vols[es[j].id], n, mid) == Some(p)
  {
    KeepsFinding(ws, es, j, k, n, p);
  }

  lemma AnyStepKeepsFinds(w: World, e: Event, w': World, id: VolId, n: Node, p: PathRec)
    requires AllWellFormed(w.vols) && Step(w, e, w') && id in w.vols && Finds(w.vols[id], n, p)
    requires e.id == id && e.n == n ==> e.Mount? && e.id in w'.vols && !Owns(w'.vols[id], n)
    ensures id in w'.vols && Finds(w'.vols[id], n, p)
  {
    StepKeepsWellFormed(w, e, w');
    if e.id == id {
      StepKeepsFinds(w, e, w', n, p);
    } else {
      StepTouchesOneVolume(w, e, w', id);
    }
  }

  lemma {:induction false} RunWellFormed(ws: seq<World>, es: seq<Event>, k: nat)
    requires Run(ws, es) && AllWellFormed(ws[0].vols) && k <= |es|
    ensures AllWellFormed(ws[k].vols)
  {
    if k > 0 {
      RunWellFormed(ws, es, k - 1);
      RunStep(ws, es, k - 1);
      StepKeepsWellFormed(ws[k - 1], es[k - 1], ws[k]);
    }
  }

  /** No clean-up is cut short, and no mount fails in a way that leaves exports. */
  ghost predicate FaultFree(e: Event) {
    e.terminated && if e.Mount? then !Unguarded(e.env.attach) else e.cleaned
  }

  ghost predicate Secure(w: World) {
    && AllWellFormed(w.vols)
    && forall id :: id in w.vols ==> ExportSafe(w, id) && PathsMatch(w.vols[id])
  }

  lemma StepKeepsSecure(w: World, e: Event, w': World)
    requires Secure(w) && Step(w, e, w') && FaultFree(e)
    ensures Secure(w')
  {
    StepKeepsWellFormed(w, e, w');
    StepPathsMatch(w, e, w');
    if e.Mount? {
      MountExportSafe(w, e, w');
    } else {
      UnmountExportSafe(w, e, w');
    }
    forall id | id in w'.vols && id != e.id
      ensures ExportSafe(w', id) && PathsMatch(w'.vols[id])
    {
      StepTouchesOneVolume(w, e, w', id);
    }
  }

  /** Along every fault-free run, whenever the lock is free only the owner's host has VLUNs, and a
      volume has a path record exactly while it is mounted. */
  lemma {:induction false} RunSecure(ws: seq<World>, es: seq<Event>, k: nat)
    requires Run(ws, es) && Secure(ws[0]) && k < |ws|
    requires forall i :: 0 <= i < k ==> FaultFree(es[i])
    ensures Secure(ws[k])
  {
    if k > 0 {
      RunSecure(ws, es, k - 1);
      RunStep(ws, es, k - 1);
      StepKeepsSecure(ws[k - 1], es[k - 1], ws[k]);
    }
  }

  lemma RunStep(ws: seq<World>, es: seq<Event>, i: nat)
    requires Run(ws, es) && i < |es|
    ensures Step(ws[i], es[i], ws[i + 1])
  {
  }

  /** On an array that exports plugin volumes only, no run ever meets an exported name that contains another
      one, so that terminating a connection always takes the node's VLUNs of the volume away. */
  lemma {:induction false} RunNamesClear(ws: seq<World>, es: seq<Event>, k: nat)
    requires Run(ws, es) && AllWellFormed(ws[0].vols) && PluginExports(ws[0].vluns) && k < |ws|
    ensures AllWellFormed(ws[k].vols) && PluginExports(ws[k].vluns)
    ensures k < |es| ==> es[k].id in ws[k].vols && NamesClear(ws[k].vluns, NameOf(es[k].id, ws[k].vols[es[k].id]))
  {
    if k > 0 {
      RunNamesClear(ws, es, k - 1);
      RunStep(ws, es, k - 1);
      StepKeepsWellFormed(ws[k - 1], es[k - 1], ws[k]);
      StepKeepsPluginExports(ws[k - 1], es[k - 1], ws[k]);
    }
    if k < |es| {
      RunStep(ws, es, k);
      StepKeepsPluginExports(ws[k], es[k], ws[k + 1]);
    }
  }
}
