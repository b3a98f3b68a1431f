/** Undo lists run in reverse (volume_manager.py `_rollback`, file_manager.py `_unexecute`), and
    the creation of volumes and clones that relies on them. */
module Rollback {
  import opened Util
  import Names

  /** Applies the undo steps last to first. */
  function UndoAll<C, S>(apply: (C, S) -> S, undo: seq<C>, s: S): S
    decreases |undo|
  {
    if undo == [] then s
    else UndoAll(apply, undo[..|undo| - 1], apply(undo[|undo| - 1], s))
  }

  lemma UndoPush<C, S>(apply: (C, S) -> S, undo: seq<C>, c: C, s: S)
    ensures UndoAll(apply, undo + [c], s) == UndoAll(apply, undo, apply(c, s))
  {
    assert (undo + [c])[..|undo|] == undo;
  }

  /** If every undo step maps the state its action left back to the state the action found, then
      running the list in reverse restores the first state. */
  lemma {:induction false} LifoRestores<C, S>(apply: (C, S) -> S, undo: seq<C>, states: seq<S>)
    requires |states| == |undo| + 1
    requires forall i :: 0 <= i < |undo| ==> apply(undo[i], states[i + 1]) == states[i]
    ensures UndoAll(apply, undo, states[|undo|]) == states[0]
    decreases |undo|
  {
    if undo != [] {
      var k := |undo| - 1;
      assert apply(undo[k], states[k + 1]) == states[k];
      LifoRestores(apply, undo[..k], states[..k + 1]);
    }
  }

  // ---- the array's volumes and volume sets ----

  /** A volume set and its flash-cache policy, None while none was set. */
  datatype VvSet = VvSet(members: set<string>, policy: Option<bool>)

  datatype Arr = Arr(volumes: set<string>, vvsets: map<string, VvSet>)

  datatype UndoStep = DeleteVolume(vol: string) | DeleteVvset(vvs: string) | RemoveFromSet(vol: string, vvs: string)

  function SetsOf(a: Arr, vol: string): set<string> {
    set s | s in a.vvsets && vol in a.vvsets[s].members
  }

  function Leave(a: Arr, vol: string, vvs: string): Arr
    requires vvs in a.vvsets
  {
    a.(vvsets := a.vvsets[vvs := a.vvsets[vvs].(members := a.vvsets[vvs].members - {vol})])
  }

  /** What one undo step does; a step the array refuses changes nothing, its exception is ignored. */
  function ApplyUndo(u: UndoStep, a: Arr): Arr {
    match u
    case DeleteVolume(vol) =>
      if SetsOf(a, vol) == {} then a.(volumes := a.volumes - {vol})
      else if s :| s in a.vvsets && SetsOf(a, vol) == {s}
      then Leave(a, vol, s).(volumes := a.volumes - {vol})
      else a  // busy: the volume is in several sets
    case DeleteVvset(vvs) => a.(vvsets := a.vvsets - {vvs})
    case RemoveFromSet(vol, vvs) => if vvs in a.vvsets then Leave(a, vol, vvs) else a
  }

  /** The array keeps set members and volumes consistent. */
  ghost predicate ArrOk(a: Arr) {
    forall s :: s in a.vvsets ==> a.vvsets[s].members <= a.volumes
  }

  /** Deleting a volume that is in one set takes it out of that set as well. */
  lemma DeleteKeepsOk(a: Arr, vol: string)
    requires ArrOk(a) && |SetsOf(a, vol)| <= 1
    ensures var b := ApplyUndo(DeleteVolume(vol), a);
            && ArrOk(b) && b.vvsets.Keys == a.vvsets.Keys
            && b.volumes == a.volumes - {vol} && SetsOf(b, vol) == {}
            && forall s :: s in a.vvsets && vol !in a.vvsets[s].members ==> b.vvsets[s] == a.vvsets[s]
  {
    var sets := SetsOf(a, vol);
    if sets != {} {
      var s :| s in sets;
      assert |sets - {s}| == 0 && sets == {s};
      DeletedFromSet(a, vol, s);
    } else {
      assert forall s :: s in a.vvsets && vol in a.vvsets[s].members ==> s in sets;
    }
  }

  lemma DeletedFromSet(a: Arr, vol: string, s: string)
    requires ArrOk(a) && SetsOf(a, vol) == {s} && s in a.vvsets
    ensures ApplyUndo(DeleteVolume(vol), a) == Leave(a, vol, s).(volumes := a.volumes - {vol})
    ensures var b := Leave(a, vol, s).(volumes := a.volumes - {vol}); ArrOk(b) && SetsOf(b, vol) == {}
  {
    assert forall t :: t in a.vvsets && SetsOf(a, vol) == {t} ==> t in {s};
    assert forall t :: t in a.vvsets && t != s ==> t !in SetsOf(a, vol);
  }

  /** Steps of a creation that the surroundings can make fail. */
  datatype Step = CreateOnArray | CreateVvset | SetPolicy | AddToSet | SaveRecord

  datatype Record = Record(displayName: string, backendName: string)

  function AddVolume(a: Arr, vol: string): Arr {
    a.(volumes := a.volumes + {vol})
  }

  function WithPolicy(a: Arr, vvs: string, flash: bool): Arr
    requires vvs in a.vvsets
  {
    a.(vvsets := a.vvsets[vvs := a.vvsets[vvs].(policy := Some(flash))])
  }

  function Join(a: Arr, vol: string, vvs: string): Arr
    requires vvs in a.vvsets
  {
    a.(vvsets := a.vvsets[vvs := a.vvsets[vvs].(members := a.vvsets[vvs].members + {vol})])
  }

  /** The set a new volume goes to: the requested one, else a set of its own for flash cache. */
  function TargetSet(id: Names.Uuid, flash: Option<bool>, qos: Option<string>): Option<string> {
    if qos.Some? then qos else if flash.Some? then Some(Names.VvsName(id)) else None
  }

  /** Whether the policy of a set that existed before was changed on the way. */
  ghost predicate PolicyChanged(a: Arr, flash: Option<bool>, qos: Option<string>) {
    && flash.Some? && qos.Some? && qos.value in a.vvsets
    && a.vvsets[qos.value].policy != flash
  }

  /** The creation gets past the flash-cache policy. */
  predicate PastPolicy(a: Arr, id: Names.Uuid, flash: Option<bool>, qos: Option<string>, fail: Option<Step>) {
    && Names.VolName(id) !in a.volumes && fail != Some(CreateOnArray)
    && (flash.Some? && qos.None? ==> fail != Some(CreateVvset) && Names.VvsName(id) !in a.vvsets)
    && (flash.Some? ==> fail != Some(SetPolicy) && (qos.Some? ==> qos.value in a.vvsets))
  }

  predicate Succeeds(a: Arr, id: Names.Uuid, flash: Option<bool>, qos: Option<string>, fail: Option<Step>) {
    && PastPolicy(a, id, flash, qos, fail)
    && (TargetSet(id, flash, qos).Some? ==> fail != Some(AddToSet) && (qos.Some? ==> qos.value in a.vvsets))
    && fail != Some(SaveRecord)
  }

  /** The steps that a creation goes through. */
  function Performs(flash: Option<bool>, qos: Option<string>): set<Step> {
    {CreateOnArray, SaveRecord}
    + (if flash.Some? && qos.None? then {CreateVvset} else {})
    + (if flash.Some? then {SetPolicy} else {})
    + (if flash.Some? || qos.Some? then {AddToSet} else {})
  }

  /** A creation succeeds if and only if none of its steps fails, its names are new and the named set is there. */
  lemma SucceedsExactly(a: Arr, id: Names.Uuid, flash: Option<bool>, qos: Option<string>, fail: Option<Step>)
    ensures Succeeds(a, id, flash, qos, fail) <==>
              && (fail.Some? ==> fail.value !in Performs(flash, qos))
              && Names.VolName(id) !in a.volumes
              && (flash.Some? && qos.None? ==> Names.VvsName(id) !in a.vvsets)
              && (qos.Some? ==> qos.value in a.vvsets)
  {
  }

  /** What a failed creation leaves when it got past setting the policy. */
  function AfterPolicy(a: Arr, flash: Option<bool>, qos: Option<string>): Arr {
    if flash.Some? && qos.Some? && qos.value in a.vvsets then WithPolicy(a, qos.value, flash.value) else a
  }

  class VolumeCreator {
    var arr: Arr
    var records: map<Names.Uuid, Record>

    constructor (arr: Arr)
      ensures this.arr == arr && records == map[]
    {
      this.arr, records := arr, map[];
    }

    /** _rollback */
    method Undo(undo: seq<UndoStep>)
      modifies this`arr
      ensures arr == UndoAll(ApplyUndo, undo, old(arr))
    {
      var i := |undo|;
      assert undo[..i] == undo;
      while i > 0
        invariant 0 <= i <= |undo|
        invariant UndoAll(ApplyUndo, undo[..i], arr) == UndoAll(ApplyUndo, undo, old(arr))
      {
        i := i - 1;
        assert undo[..i + 1] == undo[..i] + [undo[i]];
        UndoPush(ApplyUndo, undo[..i], undo[i], arr);
        arr := ApplyUndo(undo[i], arr);
      }
      assert undo[..0] == [];
    }

    /** _create_vvs, when flash cache is asked for and no set was named. */
    method CreateOwnSet(id: Names.Uuid, vol: string, undo: seq<UndoStep>, fail: Option<Step>, ghost base: Arr)
      returns (vvs: Option<string>, undo': seq<UndoStep>)
      requires ArrOk(base) && vol !in base.volumes && arr == AddVolume(base, vol)
      requires undo == [DeleteVolume(vol)]
      modifies this`arr
      ensures vvs.None? ==> arr == old(arr) && undo' == undo
      ensures vvs.None? <==> fail == Some(CreateVvset) || Names.VvsName(id) in base.vvsets
      ensures vvs.Some? ==> vvs.value == Names.VvsName(id) && vvs.value !in base.vvsets
                            && undo' == undo + [DeleteVvset(vvs.value)]
                            && arr == OwnSetAdded(base, id, vol)
    {
      var name := Names.VvsName(id);
      if fail == Some(CreateVvset) || name in arr.vvsets {
        return None, undo;
      }
      arr := arr.(vvsets := arr.vvsets[name := VvSet({}, None)]);
      vvs, undo' := Some(name), undo + [DeleteVvset(name)];
    }

    /** _apply_volume_specs; `policySet` tells whether it got past the policy call. */
    method ApplyVolumeSpecs(id: Names.Uuid, vol: string, flash: Option<bool>, qos: Option<string>,
                            undo: seq<UndoStep>, fail: Option<Step>, ghost base: Arr)
      returns (ok: bool, undo': seq<UndoStep>, ghost policySet: bool)
      requires ArrOk(base) && vol !in base.volumes && arr == AddVolume(base, vol)
      requires undo == [DeleteVolume(vol)]
      modifies this`arr
      ensures UndoAll(ApplyUndo, undo', arr) == if policySet then AfterPolicy(base, flash, qos) else base
      ensures ok ==> policySet && ArrOk(arr) && InTargetSet(base, arr, id, vol, flash, qos)
      ensures fail != Some(CreateOnArray) && vol == Names.VolName(id) ==>
                && (policySet <==> PastPolicy(base, id, flash, qos, fail))
                && (ok && fail != Some(SaveRecord) <==> Succeeds(base, id, flash, qos, fail))
    {
      undo', policySet := undo, false;
      var vvs := qos;
      SingleUndo(base, vol);
      if flash.Some? && vvs.None? {
        vvs, undo' := CreateOwnSet(id, vol, undo, fail, base);
        if vvs.None? {
          return false, undo', false;
        }
        OwnSetUndone(base, id, vol);
      }
      ghost var created := arr;
      if vvs.Some? && flash.Some? {
        if fail == Some(SetPolicy) || vvs.value !in arr.vvsets {
          return false, undo', false;
        }
        arr := WithPolicy(arr, vvs.value, flash.value);
        PolicyUndone(base, created, arr, id, vol, flash, qos, undo');
      }
      policySet := true;
      assert UndoAll(ApplyUndo, undo', arr) == AfterPolicy(base, flash, qos);
      if vvs.Some? {
        if fail == Some(AddToSet) || vvs.value !in arr.vvsets {
          return false, undo', true;
        }
        JoinsTarget(base, created, arr, id, vol, flash, qos, vvs.value);
        JoinUndone(arr, undo', vol, vvs.value);
        arr := Join(arr, vol, vvs.value);
        undo' := undo' + [RemoveFromSet(vol, vvs.value)];
      }
      ok := true;
    }

    /** create_volume, and likewise _clone_volume, without replication: a failure at any step runs
        the undo list. */
    method CreateVolume(id: Names.Uuid, displayName: string, flash: Option<bool>, qos: Option<string>,
                        fail: Option<Step>)
      returns (ok: bool, ghost policySet: bool)
      requires ArrOk(arr)
      modifies this
      ensures ok <==> Succeeds(old(arr), id, flash, qos, fail)
      ensures policySet <==> PastPolicy(old(arr), id, flash, qos, fail)
      ensures !ok ==> records == old(records)
      ensures !ok ==> arr == if policySet then AfterPolicy(old(arr), flash, qos) else old(arr)
      ensures ok ==> records == old(records)[id := Record(displayName, Names.VolName(id))]
      ensures ok ==> ArrOk(arr) && Names.VolName(id) !in old(arr).volumes
                     && InTargetSet(old(arr), arr, id, Names.VolName(id), flash, qos)
      ensures ok && qos.Some? ==> qos.value in arr.vvsets && Names.VolName(id) in arr.vvsets[qos.value].members
      ensures ok && qos.None? ==>
                arr.vvsets == if flash.None? then old(arr).vvsets
                              else old(arr).vvsets[Names.VvsName(id) := VvSet({Names.VolName(id)}, flash)]
    {
      var vol := Names.VolName(id);
      var undo: seq<UndoStep> := [];
      policySet := false;
      ghost var base := arr;
      if fail == Some(CreateOnArray) || vol in arr.volumes {
        Undo(undo);
        return false, false;
      }
      arr := AddVolume(arr, vol);
      undo := undo + [DeleteVolume(vol)];
      ok, undo, policySet := ApplyVolumeSpecs(id, vol, flash, qos, undo, fail, base);
      if !ok || fail == Some(SaveRecord) {
        Undo(undo);
        return false, policySet;
      }
      records := records[id := Record(displayName, vol)];
      OwnTarget(base, arr, id, vol, flash, qos);
    }
  }

  /** The volume has been added, it is a member of its target set, and nothing else has changed
      but that set's policy. */
  ghost predicate InTargetSet(before: Arr, after: Arr, id: Names.Uuid, vol: string, flash: Option<bool>,
                              qos: Option<string>) {
    && after.volumes == before.volumes + {vol}
    && match TargetSet(id, flash, qos)
       case None => after.vvsets == before.vvsets
       case Some(s) =>
         && after.vvsets.Keys == before.vvsets.Keys + {s}
         && (qos.None? ==> s !in before.vvsets)
         && after.vvsets[s].members == (if qos.Some? && s in before.vvsets then before.vvsets[s].members
                                        else {}) + {vol}
         && after.vvsets[s].policy == (if flash.Some? then flash
                                       else if s in before.vvsets then before.vvsets[s].policy else None)
         && forall t :: t in before.vvsets && t != s ==> after.vvsets[t] == before.vvsets[t]
  }

  lemma OwnTarget(before: Arr, after: Arr, id: Names.Uuid, vol: string, flash: Option<bool>, qos: Option<string>)
    requires InTargetSet(before, after, id, vol, flash, qos)
    ensures qos.None? ==> after.vvsets == if flash.None? then before.vvsets
                                          else before.vvsets[Names.VvsName(id) := VvSet({vol}, flash)]
  {
    if qos.None? && flash.Some? {
      assert after.vvsets[Names.VvsName(id)] == VvSet({vol}, flash);
    }
  }

  /** The array once the volume and its own empty set have been made. */
  function OwnSetAdded(base: Arr, id: Names.Uuid, vol: string): Arr {
    Arr(base.volumes + {vol}, base.vvsets[Names.VvsName(id) := VvSet({}, None)])
  }

  lemma OwnSetUndone(base: Arr, id: Names.Uuid, vol: string)
    requires ArrOk(base) && vol !in base.volumes && Names.VvsName(id) !in base.vvsets
    ensures UndoAll(ApplyUndo, [DeleteVolume(vol)] + [DeleteVvset(Names.VvsName(id))],
                    OwnSetAdded(base, id, vol)) == base
  {
    SingleUndo(base, vol);
    UndoPush(ApplyUndo, [DeleteVolume(vol)], DeleteVvset(Names.VvsName(id)), OwnSetAdded(base, id, vol));
    assert ApplyUndo(DeleteVvset(Names.VvsName(id)), OwnSetAdded(base, id, vol)) == AddVolume(base, vol);
  }

  lemma JoinUndone(a: Arr, undo: seq<UndoStep>, vol: string, vvs: string)
    requires vvs in a.vvsets && vol !in a.vvsets[vvs].members
    ensures UndoAll(ApplyUndo, undo + [RemoveFromSet(vol, vvs)], Join(a, vol, vvs)) == UndoAll(ApplyUndo, undo, a)
  {
    UndoPush(ApplyUndo, undo, RemoveFromSet(vol, vvs), Join(a, vol, vvs));
    assert a.vvsets[vvs].members + {vol} - {vol} == a.vvsets[vvs].members;
    assert ApplyUndo(RemoveFromSet(vol, vvs), Join(a, vol, vvs)).vvsets == a.vvsets;
  }

  lemma JoinsTarget(base: Arr, created: Arr, a: Arr, id: Names.Uuid, vol: string, flash: Option<bool>,
                    qos: Option<string>, vvs: string)
    requires ArrOk(base) && vol !in base.volumes && TargetSet(id, flash, qos) == Some(vvs)
    requires if qos.Some? then created == AddVolume(base, vol)
             else Names.VvsName(id) !in base.vvsets && created == OwnSetAdded(base, id, vol)
    requires vvs in created.vvsets && a == if flash.Some? then WithPolicy(created, vvs, flash.value) else created
    ensures vol !in a.vvsets[vvs].members
    ensures ArrOk(Join(a, vol, vvs)) && InTargetSet(base, Join(a, vol, vvs), id, vol, flash, qos)
  {
  }

  lemma SingleUndo(base: Arr, vol: string)
    requires ArrOk(base) && vol !in base.volumes
    ensures UndoAll(ApplyUndo, [DeleteVolume(vol)], AddVolume(base, vol)) == base
    ensures ArrOk(AddVolume(base, vol))
  {
    var a := AddVolume(base, vol);
    assert SetsOf(a, vol) == {};
    assert a.volumes - {vol} == base.volumes;
    LifoRestores(ApplyUndo, [DeleteVolume(vol)], [base, a]);
  }

  /** Setting a policy is not on the undo list: it goes with a set made for this volume, and stays
      on a set that was there before. */
  lemma PolicyUndone(base: Arr, created: Arr, a: Arr, id: Names.Uuid, vol: string, flash: Option<bool>,
                     qos: Option<string>,
                     undo: seq<UndoStep>)
    requires ArrOk(base) && vol !in base.volumes && flash.Some?
    requires if qos.Some? then undo == [DeleteVolume(vol)] && created == AddVolume(base, vol) &&
               qos.value in created.vvsets
             else undo == [DeleteVolume(vol), DeleteVvset(Names.VvsName(id))] && Names.VvsName(id) !in base.vvsets
                  && created == OwnSetAdded(base, id, vol)
    requires a == WithPolicy(created, if qos.Some? then qos.value else Names.VvsName(id), flash.value)
    ensures UndoAll(ApplyUndo, undo, a) == AfterPolicy(base, flash, qos)
    ensures ArrOk(a)
  {
    if qos.Some? {
      var kept := WithPolicy(base, qos.value, flash.value);
      assert a == AddVolume(kept, vol);
      SingleUndo(kept, vol);
    } else {
      SingleUndo(base, vol);
      assert ApplyUndo(DeleteVvset(Names.VvsName(id)), a) == AddVolume(base, vol);
      UndoPush(ApplyUndo, [DeleteVolume(vol)], DeleteVvset(Names.VvsName(id)), a);
      assert [DeleteVolume(vol)] + [DeleteVvset(Names.VvsName(id))] == undo;
    }
  }

  /** A failed creation leaves the array as it was, unless it had changed the flash-cache policy of
      a set that existed before: then that policy, and nothing else, stays changed. */
  lemma FailedCreationRestores(a: Arr, flash: Option<bool>, qos: Option<string>, policySet: bool)
    ensures var left := if policySet then AfterPolicy(a, flash, qos) else a;
            && (left == a <==> !(policySet && PolicyChanged(a, flash, qos)))
            && left.volumes == a.volumes && left.vvsets.Keys == a.vvsets.Keys
            && forall s :: s in a.vvsets ==> left.vvsets[s].members == a.vvsets[s].members
  {
    if flash.Some? && qos.Some? && qos.value in a.vvsets {
      var b := WithPolicy(a, qos.value, flash.value);
      if a.vvsets[qos.value].policy == flash {
        assert b.vvsets == a.vvsets;
      }
    }
  }
}
