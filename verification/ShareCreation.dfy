/** Creating and deleting file shares (file_manager.py, cmd_createfpg.py, cmd_createvfs.py, cmd_createshare.py,
    cmd_setquota.py, cmd_deleteshare.py): the search for an FPG with room, the fallback that creates a new
    FPG with an address of its own, and the undo list. */
module ShareCreation {
  import opened Util
  import opened BackendMetadata
  import Rollback

  type Id = string
  type Qid = string

  datatype Vfs = Vfs(name: string, ip: Ip)
  datatype Quota = Quota(fpg: Fpg, share: string, mib: nat)

  /** The array: FPGs with their CPG, the virtual file server of an FPG, shares with their FPG, and quotas. */
  datatype Arr = Arr(fpgs: map<Fpg, Cpg>, vfs: map<Fpg, Vfs>, shares: map<Id, Fpg>, quotas: map<Qid, Quota>)

  datatype Status = Creating | Available | Failed

  /** A share's arguments, which are also what its etcd record holds. */
  datatype Share = Share(status: Status, fpg: Option<Fpg>, vfs: Option<Vfs>, id: Option<Id>, quota: Option<Qid>)

  /** Everything a creation may change, except the share's own record. */
  datatype World = World(arr: Arr, meta: Option<Meta>, fpgMeta: map<(Cpg, Fpg), Option<Vfs>>)

  /** Virtual file servers, shares and quotas are on FPGs that exist. */
  ghost predicate ArrayOk(a: Arr) {
    && a.vfs.Keys <= a.fpgs.Keys
    && (forall id :: id in a.shares ==> a.shares[id] in a.fpgs)
    && (forall q :: q in a.quotas ==> a.quotas[q].fpg in a.fpgs)
  }

  // ---- what the surroundings decide ----

  datatype Look = Room | Full | Unreadable

  /** One attempt on one FPG: the capacity check, the new share's id and the quota's id, None for failures. */
  datatype Attempt = Attempt(look: Look, share: Option<Id>, quota: Option<Qid>)

  /** How CreateFpgCmd.execute ends; the last two fail after the FPG is on the array. */
  datatype FpgOutcome = FpgDone | FpgRefused | DefaultNotSaved | MetadataNotSaved

  /** How CreateVfsCmd.execute ends; the last fails after the VFS is on the array. */
  datatype VfsOutcome = VfsDone | VfsRefused | VfsNotRecorded

  datatype Env = Env(tries: nat -> Attempt, fpg: FpgOutcome, pool: seq<(string, set<Ip>)>, vfs: VfsOutcome,
                     markOk: bool, last: Attempt)

  /** The array hands out ids that are not in use. */
  ghost predicate Fresh(a: Attempt, arr: Arr) {
    && (a.share.Some? ==> a.share.value !in arr.shares)
    && (a.quota.Some? ==> a.quota.value !in arr.quotas)
  }

  ghost predicate FreshIds(env: Env, arr: Arr) {
    Fresh(env.last, arr) && forall k: nat :: Fresh(env.tries(k), arr)
  }

  // ---- undo ----

  datatype Cmd =
    | FpgCreated(fpg: Fpg, isDefault: bool) | IpClaimed(ip: Ip) | VfsCreated | ShareCreated | QuotaSet(quota: Qid)

  /** What `unexecute` of a command does; a share is deleted by the id that the arguments hold by then. */
  function ApplyUndo(cpg: Cpg, args: Share, c: Cmd, w: World): World {
    match c
    case FpgCreated(f, isDefault) =>
      w.(arr := w.arr.(fpgs := w.arr.fpgs - {f}, vfs := w.arr.vfs - {f}),
         meta := if isDefault && w.meta.Some? then Some(UndoDefault(w.meta.value, cpg, f)) else w.meta,
         fpgMeta := w.fpgMeta - {(cpg, f)})
    case IpClaimed(ip) => w.(meta := if w.meta.Some? then Some(Unclaimed(w.meta.value, ip)) else None)
    case VfsCreated => w
    case ShareCreated => if args.id.Some? then w.(arr := w.arr.(shares := w.arr.shares - {args.id.value})) else w
    case QuotaSet(q) => w.(arr := w.arr.(quotas := w.arr.quotas - {q}))
  }

  function Undoer(cpg: Cpg, args: Share): (Cmd, World) -> World {
    (c, w) => ApplyUndo(cpg, args, c, w)
  }

  function Undone(cpg: Cpg, args: Share, undo: seq<Cmd>, w: World): World {
    Rollback.UndoAll(Undoer(cpg, args), undo, w)
  }

  // ---- how far a state is from the first one ----

  /** Every address listed as in use is on the array. */
  ghost predicate NoStaleIp(w: World) {
    forall ip :: ip in InUse(w.meta) ==> ip in VfsIps(w.arr)
  }

  function VfsIps(a: Arr): set<Ip> {
    set f | f in a.vfs :: a.vfs[f].ip
  }

  /** `w` is `w0` with some new FPGs (and their virtual file servers), new default entries of this CPG, and
      addresses newly locked and newly in use. */
  ghost predicate Grown(w0: World, w: World, cpg: Cpg, fpgs: set<Fpg>, defaults: multiset<Fpg>,
                        locked: multiset<Ip>, used: multiset<Ip>)
  {
    && GrownArr(w0.arr, w.arr, fpgs)
    && w.fpgMeta - Keyed(cpg, fpgs) == w0.fpgMeta - Keyed(cpg, fpgs)
    && GrownLists(w0.meta, w.meta, cpg, defaults, locked, NoStaleIp(w0), used)
  }

  ghost predicate GrownArr(a0: Arr, a: Arr, fpgs: set<Fpg>) {
    && fpgs !! a0.fpgs.Keys && a.fpgs.Keys == a0.fpgs.Keys + fpgs
    && a.fpgs - fpgs == a0.fpgs && a.vfs - fpgs == a0.vfs
    && a.shares == a0.shares && a.quotas == a0.quotas
  }

  ghost predicate GrownLists(m0: Option<Meta>, m: Option<Meta>, cpg: Cpg, defaults: multiset<Fpg>,
                             locked: multiset<Ip>, clean: bool, used: multiset<Ip>)
  {
    && multiset(DefaultsOf(m, cpg)) == multiset(DefaultsOf(m0, cpg)) + defaults
    && multiset(Locked(m)) == multiset(Locked(m0)) + locked
    && (clean ==> multiset(InUse(m)) == multiset(InUse(m0)) + used)
  }

  ghost function Keyed(cpg: Cpg, fpgs: set<Fpg>): set<(Cpg, Fpg)> {
    set f | f in fpgs :: (cpg, f)
  }

  /** At most the metadata of one FPG that was not on the array is gone. */
  ghost predicate KeptMeta(w0: World, w: World, cpg: Cpg) {
    w.fpgMeta == w0.fpgMeta || exists f :: f !in w0.arr.fpgs && w.fpgMeta == w0.fpgMeta - {(cpg, f)}
  }

  /** Back to where it began: the array, this CPG's default FPGs and the address lists. */
  ghost predicate Restored(w0: World, w: World, cpg: Cpg) {
    && w.arr == w0.arr && KeptMeta(w0, w, cpg)
    && GrownLists(w0.meta, w.meta, cpg, multiset{}, multiset{}, NoStaleIp(w0), multiset{})
  }

  lemma NothingGrown(w0: World, w: World, cpg: Cpg)
    requires Grown(w0, w, cpg, {}, multiset{}, multiset{}, multiset{})
    ensures Restored(w0, w, cpg)
  {
    assert w.arr.fpgs - {} == w.arr.fpgs && w.arr.vfs - {} == w.arr.vfs;
    assert Keyed(cpg, {}) == {};
    assert w.fpgMeta - {} == w.fpgMeta && w0.fpgMeta - {} == w0.fpgMeta;
  }

  lemma DroppedDefault(m0: Option<Meta>, m: Meta, cpg: Cpg, f: Fpg, clean: bool)
    requires GrownLists(m0, Some(m), cpg, multiset{f}, multiset{}, clean, multiset{})
    ensures GrownLists(m0, Some(UndoDefault(m, cpg, f)), cpg, multiset{}, multiset{}, clean, multiset{})
  {
    RemoveFirstMultiset(DefaultsOf(Some(m), cpg), f);
    assert f in multiset(DefaultsOf(Some(m), cpg));
    assert multiset(DefaultsOf(m0, cpg)) + multiset{f} - multiset{f} == multiset(DefaultsOf(m0, cpg));
  }

  lemma UndoFpg(w0: World, w: World, cpg: Cpg, args: Share, f: Fpg, isDefault: bool)
    requires Grown(w0, w, cpg, {f}, if isDefault then multiset{f} else multiset{}, multiset{}, multiset{})
    ensures Restored(w0, ApplyUndo(cpg, args, FpgCreated(f, isDefault), w), cpg)
  {
    assert Keyed(cpg, {f}) == {(cpg, f)};
    if isDefault {
      assert f in multiset(DefaultsOf(w.meta, cpg));
      DroppedDefault(w0.meta, w.meta.value, cpg, f, NoStaleIp(w0));
    }
  }

  lemma UnclaimedLists(meta: Option<Meta>, cpg: Cpg, ip: Ip)
    ensures var m := if meta.Some? then Some(Unclaimed(meta.value, ip)) else None;
            && multiset(Locked(m)) == multiset(Locked(meta)) - multiset{ip}
            && multiset(InUse(m)) == multiset(InUse(meta)) - multiset{ip}
            && DefaultsOf(m, cpg) == DefaultsOf(meta, cpg)
  {
    RemoveFirstMultiset(Locked(meta), ip);
    RemoveFirstMultiset(InUse(meta), ip);
  }

  lemma TakeOut(before: multiset<Ip>, after: multiset<Ip>, ip: Ip, there: bool)
    requires ip !in before && after == before + (if there then multiset{ip} else multiset{})
    ensures after - multiset{ip} == before
  {
  }

  lemma UndoClaim(w0: World, w: World, cpg: Cpg, args: Share, fpgs: set<Fpg>, defaults: multiset<Fpg>, ip: Ip,
                  marked: bool)
    requires ip !in VfsIps(w0.arr) && ip !in Locked(w0.meta)
    requires Grown(w0, w, cpg, fpgs, defaults, if marked then multiset{} else multiset{ip},
                   if marked then multiset{ip} else multiset{})
    ensures Grown(w0, ApplyUndo(cpg, args, IpClaimed(ip), w), cpg, fpgs, defaults, multiset{}, multiset{})
  {
    UnclaimedLists(w.meta, cpg, ip);
    TakeOut(multiset(Locked(w0.meta)), multiset(Locked(w.meta)), ip, !marked);
    if NoStaleIp(w0) {
      TakeOut(multiset(InUse(w0.meta)), multiset(InUse(w.meta)), ip, marked);
    }
  }

  lemma AddedDefault(m: Meta, cpg: Cpg, f: Fpg)
    ensures DefaultsOf(Some(AddDefault(m, cpg, f)), cpg) == DefaultsOf(Some(m), cpg) + [f]
    ensures forall c :: c != cpg ==> DefaultsOf(Some(AddDefault(m, cpg, f)), c) == DefaultsOf(Some(m), c)
  {
  }

  /** Undoing two commands, with or without the creation of a VFS, whose undo does nothing. */
  lemma UndoTwo(cpg: Cpg, args: Share, c: Cmd, d: Cmd, w: World)
    ensures Undone(cpg, args, [c, d], w) == ApplyUndo(cpg, args, c, ApplyUndo(cpg, args, d, w))
    ensures Undone(cpg, args, [c, d, VfsCreated], w) == Undone(cpg, args, [c, d], w)
  {
    UndoOne(cpg, args, c, ApplyUndo(cpg, args, d, w));
    assert [c, d] == [c] + [d];
    Rollback.UndoPush(Undoer(cpg, args), [c], d, w);
    assert [c, d, VfsCreated] == [c, d] + [VfsCreated];
    Rollback.UndoPush(Undoer(cpg, args), [c, d], VfsCreated, w);
  }

  /** Undoing a new FPG whose address was claimed. */
  lemma UndoClaimedFpg(w0: World, w: World, cpg: Cpg, args: Share, f: Fpg, isDefault: bool, ip: Ip, marked: bool)
    requires ip !in VfsIps(w0.arr) && ip !in Locked(w0.meta)
    requires Grown(w0, w, cpg, {f}, if isDefault then multiset{f} else multiset{},
                   if marked then multiset{} else multiset{ip}, if marked then multiset{ip} else multiset{})
    ensures Restored(w0, Undone(cpg, args, [FpgCreated(f, isDefault), IpClaimed(ip)], w), cpg)
    ensures Restored(w0, Undone(cpg, args, [FpgCreated(f, isDefault), IpClaimed(ip), VfsCreated], w), cpg)
  {
    UndoTwo(cpg, args, FpgCreated(f, isDefault), IpClaimed(ip), w);
    UndoClaim(w0, w, cpg, args, {f}, if isDefault then multiset{f} else multiset{}, ip, marked);
    UndoFpg(w0, ApplyUndo(cpg, args, IpClaimed(ip), w), cpg, args, f, isDefault);
  }

  lemma UndoOne(cpg: Cpg, args: Share, c: Cmd, w: World)
    ensures Undone(cpg, args, [c], w) == ApplyUndo(cpg, args, c, w)
  {
    assert [] + [c] == [c];
    Rollback.UndoPush(Undoer(cpg, args), [], c, w);
  }

  // ---- where the share goes ----

  datatype Search = On(fpg: Fpg, with: Attempt) | Stuck | NeedNew

  /** An attempt on a default FPG that lets the search go on to the next one. */
  predicate PassedOver(a: Arr, f: Fpg, t: Attempt) {
    f !in a.fpgs || t.look.Full? || (t.look.Room? && f in a.vfs && t.share.Some? && t.quota.None?)
  }

  predicate Takes(a: Arr, f: Fpg, t: Attempt) {
    f in a.fpgs && t.look.Room? && f in a.vfs && t.share.Some? && t.quota.Some?
  }

  /** _get_default_available_fpg, driven by _create_share_on_fpg, from the k-th default FPG on. */
  function SearchDefaults(a: Arr, list: seq<Fpg>, k: nat, tries: nat -> Attempt): Search
    requires k <= |list|
    decreases |list| - k
  {
    if k == |list| then NeedNew
    else if PassedOver(a, list[k], tries(k)) then SearchDefaults(a, list, k + 1, tries)
    else if Takes(a, list[k], tries(k)) then On(list[k], tries(k))
    else Stuck
  }

  /** _get_existing_fpg: an FPG named by the user, known to the plugin or created outside it. */
  function UseExisting(a: Arr, fpgMeta: map<(Cpg, Fpg), Option<Vfs>>, cpg: Cpg, f: Fpg, t: Attempt): Search {
    if f !in a.fpgs then NeedNew
    else if !t.look.Room? || ExistingVfs(a, fpgMeta, cpg, f).None? || t.share.None? || t.quota.None? then Stuck
    else On(f, t)
  }

  /** The virtual file server to use on an existing FPG; a legacy FPG must belong to the CPG. */
  function ExistingVfs(a: Arr, fpgMeta: map<(Cpg, Fpg), Option<Vfs>>, cpg: Cpg, f: Fpg): Option<Vfs>
    requires f in a.fpgs
  {
    if (cpg, f) in fpgMeta then fpgMeta[(cpg, f)]
    else if a.fpgs[f] == cpg && f in a.vfs then Some(a.vfs[f])
    else None
  }

  /** Where the search ends: over the default FPGs, or on the one FPG the user named. */
  function Sought(w: World, cpg: Cpg, fpg: Option<Fpg>, tries: nat -> Attempt): Search {
    if fpg.None? then SearchDefaults(w.arr, DefaultsOf(w.meta, cpg), 0, tries)
    else UseExisting(w.arr, w.fpgMeta, cpg, fpg.value, tries(0))
  }

  /** The search ends on the first default FPG that is not passed over, and on none exactly when all are. */
  lemma {:induction false} SearchEndsOnFirst(a: Arr, list: seq<Fpg>, k: nat, tries: nat -> Attempt)
    requires k <= |list|
    ensures var r := SearchDefaults(a, list, k, tries);
            && (r.NeedNew? <==> forall i :: k <= i < |list| ==> PassedOver(a, list[i], tries(i)))
            && (r.On? <==> exists i :: k <= i < |list| && Takes(a, list[i], tries(i)) && r == On(list[i], tries(i))
                                       && forall j :: k <= j < i ==> PassedOver(a, list[j], tries(j)))
    decreases |list| - k
  {
    if k < |list| {
      SearchEndsOnFirst(a, list, k + 1, tries);
    }
  }

  /** The attempt found room, and share and quota were both made. */
  predicate Succeeds(t: Attempt) {
    t.look == Room && t.share.Some? && t.quota.Some?
  }

  /** An FPG that the user named is used with this virtual file server: the one etcd has for it under this CPG, which
      may still be missing, or else the one on the array, if the FPG is of this CPG. */
  ghost predicate NamedUsable(w: World, cpg: Cpg, f: Fpg, t: Attempt, v: Vfs) {
    && f in w.arr.fpgs && Succeeds(t)
    && ((cpg, f) in w.fpgMeta ==> w.fpgMeta[(cpg, f)] == Some(v))
    && ((cpg, f) !in w.fpgMeta ==> w.arr.fpgs[f] == cpg && f in w.arr.vfs && w.arr.vfs[f] == v)
  }

  /** The `i`-th default FPG is used: it is there and its own attempt succeeded, and each earlier one is missing, was
      full, or had its quota refused. */
  ghost predicate DefaultUsable(w: World, cpg: Cpg, i: nat, tries: nat -> Attempt) {
    var list := DefaultsOf(w.meta, cpg);
    && i < |list| && list[i] in w.arr.fpgs && list[i] in w.arr.vfs && Succeeds(tries(i))
    && forall j: nat :: j < i ==> Declined(w, list[j], tries(j))
  }

  ghost predicate Declined(w: World, f: Fpg, t: Attempt) {
    f !in w.arr.fpgs || t.look == Full
    || (t.look == Room && f in w.arr.vfs && t.share.Some? && t.quota == None)
  }

  /** Exactly when a named FPG is used, and when a new one is made instead. */
  lemma NamedSearch(w: World, cpg: Cpg, f: Fpg, tries: nat -> Attempt)
    ensures var r := Sought(w, cpg, Some(f), tries);
            && (r.On? <==> exists v :: NamedUsable(w, cpg, f, tries(0), v))
            && (r.On? ==> r == On(f, tries(0)))
            && (r.NeedNew? <==> f !in w.arr.fpgs)
  {
    if Sought(w, cpg, Some(f), tries).On? {
      assert NamedUsable(w, cpg, f, tries(0), ExistingVfs(w.arr, w.fpgMeta, cpg, f).value);
    }
  }

  /** Exactly when a default FPG is used, which one, and when a new one is made instead. */
  lemma DefaultSearch(w: World, cpg: Cpg, tries: nat -> Attempt)
    ensures var r, list := Sought(w, cpg, None, tries), DefaultsOf(w.meta, cpg);
            && (r.On? <==> exists i: nat :: DefaultUsable(w, cpg, i, tries))
            && (r.On? ==> exists i: nat :: DefaultUsable(w, cpg, i, tries) && r == On(list[i], tries(i)))
            && (r.NeedNew? <==> forall j: nat :: j < |list| ==> Declined(w, list[j], tries(j)))
  {
    var list := DefaultsOf(w.meta, cpg);
    SearchEndsOnFirst(w.arr, list, 0, tries);
    var r := Sought(w, cpg, None, tries);
    if r.On? {
      var i :| 0 <= i < |list| && Takes(w.arr, list[i], tries(i)) && r == On(list[i], tries(i))
               && forall j :: 0 <= j < i ==> PassedOver(w.arr, list[j], tries(j));
      assert DefaultUsable(w, cpg, i, tries);
    }
    if i: nat :| DefaultUsable(w, cpg, i, tries) {
      FirstTaken(w.arr, list, 0, i, tries);
    }
  }

  lemma {:induction false} FirstTaken(a: Arr, list: seq<Fpg>, k: nat, i: nat, tries: nat -> Attempt)
    requires k <= i < |list| && Takes(a, list[i], tries(i))
    requires forall j: nat :: k <= j < i ==> PassedOver(a, list[j], tries(j))
    ensures SearchDefaults(a, list, k, tries) == On(list[i], tries(i))
    decreases i - k
  {
    if k < i {
      FirstTaken(a, list, k + 1, i, tries);
    }
  }

  // ---- the outcome ----

  function AddShare(a: Arr, f: Fpg, id: Id): Arr {
    a.(shares := a.shares[id := f])
  }

  function AddQuota(a: Arr, q: Qid, f: Fpg, name: string, mib: nat): Arr {
    a.(quotas := a.quotas[q := Quota(f, name, mib)])
  }

  /** The share with its quota is on an FPG that was there, and nothing else changed. */
  ghost predicate PlacedOn(w0: World, w: World, f: Fpg, t: Attempt, name: string, mib: nat) {
    && f in w0.arr.fpgs && t.share.Some? && t.quota.Some?
    && w == w0.(arr := AddQuota(AddShare(w0.arr, f, t.share.value), t.quota.value, f, name, mib))
  }

  /** The share with its quota is on a new FPG with an address nobody had, in use and no longer locked. */
  ghost predicate PlacedNew(w0: World, w: World, cpg: Cpg, isDefault: bool, f: Fpg, v: Vfs, t: Attempt, name: string,
                            mib: nat) {
    && f !in w0.arr.fpgs && t.share.Some? && t.quota.Some?
    && v.ip !in VfsIps(w0.arr) && v.ip !in Locked(w0.meta)
    && w.arr == AddQuota(AddShare(w0.arr.(fpgs := w0.arr.fpgs[f := cpg], vfs := w0.arr.vfs[f := v]), f, t.share.value),
                         t.quota.value, f, name, mib)
    && w.fpgMeta == w0.fpgMeta[(cpg, f) := Some(v)]
    && InUse(w.meta) == InUse(w0.meta) + [v.ip] && Locked(w.meta) == Locked(w0.meta)
    && (forall c :: DefaultsOf(w.meta, c) == DefaultsOf(w0.meta, c) + if isDefault && c == cpg then [f] else [])
  }

  /** CreateFpgCmd.execute fails after the FPG is on the array, so that the command never joins the undo list. */
  predicate HalfWay(o: FpgOutcome, isDefault: bool) {
    o.MetadataNotSaved? || (isDefault && o.DefaultNotSaved?)
  }

  predicate FpgMade(o: FpgOutcome, isDefault: bool) {
    !o.FpgRefused? && !HalfWay(o, isDefault)
  }

  predicate AddressLeft(pool: seq<(string, set<Ip>)>, taken: set<Ip>) {
    exists i :: 0 <= i < |pool| && !(pool[i].1 <= taken)
  }

  /** When the fallback to a new FPG goes through. */
  predicate NewFpgWorks(w0: World, isDefault: bool, env: Env) {
    && FpgMade(env.fpg, isDefault) && AddressLeft(env.pool, VfsIps(w0.arr) + Elems(Locked(w0.meta)))
    && Furnishes(env)
  }

  function WithFpg(w: World, cpg: Cpg, f: Fpg, isDefault: bool): World
    requires isDefault ==> w.meta.Some?
  {
    World(w.arr.(fpgs := w.arr.fpgs[f := cpg]),
          if isDefault then Some(AddDefault(w.meta.value, cpg, f)) else w.meta, w.fpgMeta[(cpg, f) := None])
  }

  lemma GrowFpg(w0: World, w: World, cpg: Cpg, f: Fpg, isDefault: bool)
    requires Grown(w0, w, cpg, {}, multiset{}, multiset{}, multiset{}) && f !in w0.arr.fpgs && f !in w0.arr.vfs
    requires isDefault ==> w.meta.Some?
    ensures Grown(w0, WithFpg(w, cpg, f, isDefault), cpg, {f}, if isDefault then multiset{f} else multiset{},
                  multiset{}, multiset{})
    ensures Locked(WithFpg(w, cpg, f, isDefault).meta) == Locked(w.meta)
  {
    assert Keyed(cpg, {f}) == {(cpg, f)} && Keyed(cpg, {}) == {};
    assert w.fpgMeta - {} == w.fpgMeta && w0.fpgMeta - {} == w0.fpgMeta;
    GrowArr(w0.arr, w.arr, cpg, f);
    if isDefault {
      GrowDefault(w0.meta, w.meta.value, cpg, f, NoStaleIp(w0));
    }
  }

  lemma GrowArr(a0: Arr, a: Arr, cpg: Cpg, f: Fpg)
    requires GrownArr(a0, a, {}) && f !in a0.fpgs && f !in a0.vfs
    ensures GrownArr(a0, a.(fpgs := a.fpgs[f := cpg]), {f})
  {
    assert a.fpgs - {} == a.fpgs && a.vfs - {} == a.vfs;
  }

  lemma GrowDefault(m0: Option<Meta>, m: Meta, cpg: Cpg, f: Fpg, clean: bool)
    requires GrownLists(m0, Some(m), cpg, multiset{}, multiset{}, clean, multiset{})
    ensures GrownLists(m0, Some(AddDefault(m, cpg, f)), cpg, multiset{f}, multiset{}, clean, multiset{})
  {
    AddedDefault(m, cpg, f);
  }

  lemma MarkedLists(m: Option<Meta>, cpg: Cpg, ip: Ip)
    requires ip !in Locked(m)
    ensures var n := Marked(Some(WithLocked(m, ip)), ip);
            n.Some? && Locked(n) == Locked(m) && InUse(n) == InUse(m) + [ip] && DefaultsOf(n, cpg) == DefaultsOf(m, cpg)
  {
    RemoveLast(Locked(m), ip);
  }

  /** The same state with other lists, as far as GrownLists can tell. */
  lemma Relist(m0: Option<Meta>, m: Option<Meta>, n: Option<Meta>, cpg: Cpg, defaults: multiset<Fpg>, clean: bool,
               locked: seq<Ip>, used: seq<Ip>)
    requires GrownLists(m0, m, cpg, defaults, multiset{}, clean, multiset{})
    requires DefaultsOf(n, cpg) == DefaultsOf(m, cpg) && Locked(n) == Locked(m) + locked && InUse(n) == InUse(m) + used
    ensures GrownLists(m0, n, cpg, defaults, multiset(locked), clean, multiset(used))
  {
  }

  lemma GrowVfs(w0: World, w: World, cpg: Cpg, f: Fpg, defaults: multiset<Fpg>, locked: multiset<Ip>,
                used: multiset<Ip>, v: Vfs, recorded: bool)
    requires Grown(w0, w, cpg, {f}, defaults, locked, used)
    ensures Grown(w0, WithVfs(w, cpg, f, v, recorded), cpg, {f}, defaults, locked, used)
  {
    assert Keyed(cpg, {f}) == {(cpg, f)};
    assert w.arr.vfs[f := v] - {f} == w.arr.vfs - {f};
    assert w.fpgMeta[(cpg, f) := Some(v)] - {(cpg, f)} == w.fpgMeta - {(cpg, f)};
  }

  lemma GrowMark(w0: World, w: World, cpg: Cpg, f: Fpg, defaults: multiset<Fpg>, m: Option<Meta>, ip: Ip)
    requires ip !in Locked(m) && w.meta == Some(WithLocked(m, ip))
    requires GrownLists(w0.meta, m, cpg, defaults, multiset{}, NoStaleIp(w0), multiset{})
    requires Grown(w0, w, cpg, {f}, defaults, multiset{ip}, multiset{})
    ensures Grown(w0, w.(meta := Marked(w.meta, ip)), cpg, {f}, defaults, multiset{}, multiset{ip})
  {
    MarkedLists(m, cpg, ip);
    Relist(w0.meta, m, Marked(w.meta, ip), cpg, defaults, NoStaleIp(w0), [], [ip]);
  }

  /** Only the name counter may differ. */
  ghost predicate Named(w0: World, w: World) {
    && w == w0.(meta := w.meta) && Locked(w.meta) == Locked(w0.meta) && InUse(w.meta) == InUse(w0.meta)
    && forall c :: DefaultsOf(w.meta, c) == DefaultsOf(w0.meta, c)
  }

  lemma NamingGrowsNothing(w0: World, w: World, cpg: Cpg)
    requires Named(w0, w)
    ensures Grown(w0, w, cpg, {}, multiset{}, multiset{}, multiset{})
  {
    assert w.arr.fpgs - {} == w.arr.fpgs && w.arr.vfs - {} == w.arr.vfs;
  }

  lemma GrowClaim(w0: World, w: World, cpg: Cpg, f: Fpg, defaults: multiset<Fpg>, ip: Option<Ip>)
    requires Grown(w0, w, cpg, {f}, defaults, multiset{}, multiset{})
    ensures Grown(w0, w.(meta := Some(if ip.Some? then WithLocked(w.meta, ip.value) else Initialized(w.meta))), cpg,
                  {f}, defaults, if ip.Some? then multiset{ip.value} else multiset{}, multiset{})
  {
    var n := Some(if ip.Some? then WithLocked(w.meta, ip.value) else Initialized(w.meta));
    Relist(w0.meta, w.meta, n, cpg, defaults, NoStaleIp(w0), if ip.Some? then [ip.value] else [], []);
  }

  /** The state and the undo list when the fallback stops, after the names were generated. */
  function Fallback(w: World, cpg: Cpg, f: Fpg, isDefault: bool, claim: Option<Vfs>, name: string, mib: nat,
                    env: Env): (World, seq<Cmd>)
    requires isDefault ==> w.meta.Some?
  {
    if env.fpg.FpgRefused? then (w, [])
    else
      var w2 := WithFpg(w, cpg, f, isDefault);
      if isDefault && env.fpg.DefaultNotSaved? then (w.(arr := w2.arr), [])
      else if env.fpg.MetadataNotSaved? then (w2.(fpgMeta := w.fpgMeta), [])
      else if claim.None? then (w2.(meta := Some(Initialized(w2.meta))), [FpgCreated(f, isDefault)])
      else Furnished(w2.(meta := Some(WithLocked(w2.meta, claim.value.ip))), cpg, f, isDefault, claim.value, name,
                     mib, env)
  }

  /** What the claim gives: an address of the pool that is neither on the array nor locked, if there is one. */
  ghost predicate ClaimOk(w0: World, claim: Option<Vfs>, env: Env) {
    && (claim.Some? <==> AddressLeft(env.pool, VfsIps(w0.arr) + Elems(Locked(w0.meta))))
    && (claim.Some? ==> claim.value.ip !in VfsIps(w0.arr) && claim.value.ip !in Locked(w0.meta))
  }

  lemma FallbackUndone(w0: World, w1: World, cpg: Cpg, args: Share, f: Fpg, isDefault: bool, claim: Option<Vfs>,
                       name: string, mib: nat, env: Env)
    requires Named(w0, w1) && ArrayOk(w0.arr) && f !in w0.arr.fpgs && Fresh(env.last, w0.arr)
    requires isDefault ==> w1.meta.Some?
    requires FpgMade(env.fpg, isDefault) && ClaimOk(w0, claim, env)
    requires claim.Some? ==> !Furnishes(env)
    requires env.vfs.VfsDone? && env.markOk && env.last.share.Some? && claim.Some? ==> args.id == env.last.share
    ensures var (w, undo) := Fallback(w1, cpg, f, isDefault, claim, name, mib, env);
            Restored(w0, Undone(cpg, args, undo, w), cpg)
  {
    var w2 := WithFpg(w1, cpg, f, isDefault);
    NamingGrowsNothing(w0, w1, cpg);
    GrowFpg(w0, w1, cpg, f, isDefault);
    GrowClaim(w0, w2, cpg, f, if isDefault then multiset{f} else multiset{},
              if claim.Some? then Some(claim.value.ip) else None);
    if claim.Some? {
      FurnishUndone(w0, w2.(meta := Some(WithLocked(w2.meta, claim.value.ip))), w2.meta, cpg, args, f, isDefault,
                    claim.value, name, mib, env);
    } else {
      var w3 := w2.(meta := Some(Initialized(w2.meta)));
      UndoFpg(w0, w3, cpg, args, f, isDefault);
      UndoOne(cpg, args, FpgCreated(f, isDefault), w3);
    }
  }

  /** A creation command that fails half way leaves its FPG behind; every other failure is undone completely. */
  lemma FallbackRestores(w0: World, w1: World, cpg: Cpg, args: Share, f: Fpg, isDefault: bool, claim: Option<Vfs>,
                         name: string, mib: nat, env: Env)
    requires Named(w0, w1) && ArrayOk(w0.arr) && f !in w0.arr.fpgs && Fresh(env.last, w0.arr)
    requires isDefault ==> w1.meta.Some?
    requires (FpgMade(env.fpg, isDefault) ==> ClaimOk(w0, claim, env)) && !NewFpgWorks(w0, isDefault, env)
    requires FpgMade(env.fpg, isDefault) && env.vfs.VfsDone? && env.markOk && env.last.share.Some? && claim.Some? ==>
               args.id == env.last.share
    ensures var (w, undo) := Fallback(w1, cpg, f, isDefault, claim, name, mib, env);
            Restored(w0, Undone(cpg, args, undo, w), cpg) <==> !HalfWay(env.fpg, isDefault)
  {
    if env.fpg.FpgRefused? {
      NamingGrowsNothing(w0, w1, cpg);
      NothingGrown(w0, w1, cpg);
    } else if HalfWay(env.fpg, isDefault) {
      assert f in Fallback(w1, cpg, f, isDefault, claim, name, mib, env).0.arr.fpgs;
    } else {
      FallbackUndone(w0, w1, cpg, args, f, isDefault, claim, name, mib, env);
    }
  }

  lemma FallbackPlaces(w0: World, w1: World, cpg: Cpg, f: Fpg, isDefault: bool, claim: Option<Vfs>, name: string,
                       mib: nat, env: Env)
    requires Named(w0, w1) && f !in w0.arr.fpgs && (isDefault ==> w1.meta.Some?)
    requires ClaimOk(w0, claim, env) && NewFpgWorks(w0, isDefault, env)
    ensures claim.Some?
    ensures PlacedNew(w0, Fallback(w1, cpg, f, isDefault, claim, name, mib, env).0, cpg, isDefault, f, claim.value,
                      env.last, name, mib)
  {
    var m2 := WithFpg(w1, cpg, f, isDefault).meta;
    var ip := claim.value.ip;
    assert Locked(m2) == Locked(w0.meta);
    FallbackResult(w1, cpg, f, isDefault, claim.value, name, mib, env);
    PlacedNewLists(w0.meta, w1.meta, m2, Marked(Some(WithLocked(m2, ip)), ip), cpg, isDefault, f, ip);
  }

  /** The state when every step of the fallback went through. */
  lemma FallbackResult(w: World, cpg: Cpg, f: Fpg, isDefault: bool, v: Vfs, name: string, mib: nat, env: Env)
    requires (isDefault ==> w.meta.Some?) && FpgMade(env.fpg, isDefault) && Furnishes(env)
    ensures var end := Fallback(w, cpg, f, isDefault, Some(v), name, mib, env).0;
            && end.arr == AddQuota(AddShare(w.arr.(fpgs := w.arr.fpgs[f := cpg], vfs := w.arr.vfs[f := v]), f,
                                            env.last.share.value), env.last.quota.value, f, name, mib)
            && end.fpgMeta == w.fpgMeta[(cpg, f) := Some(v)]
            && end.meta == Marked(Some(WithLocked(WithFpg(w, cpg, f, isDefault).meta, v.ip)), v.ip)
  {
    assert w.fpgMeta[(cpg, f) := None][(cpg, f) := Some(v)] == w.fpgMeta[(cpg, f) := Some(v)];
  }

  lemma PlacedNewLists(m0: Option<Meta>, m1: Option<Meta>, m2: Option<Meta>, m3: Option<Meta>, cpg: Cpg,
                       isDefault: bool, f: Fpg, ip: Ip)
    requires Locked(m1) == Locked(m0) && InUse(m1) == InUse(m0)
    requires forall c :: DefaultsOf(m1, c) == DefaultsOf(m0, c)
    requires isDefault ==> m1.Some?
    requires m2 == if isDefault then Some(AddDefault(m1.value, cpg, f)) else m1
    requires ip !in Locked(m2) && m3 == Marked(Some(WithLocked(m2, ip)), ip)
    ensures InUse(m3) == InUse(m0) + [ip] && Locked(m3) == Locked(m0)
    ensures forall c :: DefaultsOf(m3, c) == DefaultsOf(m0, c) + if isDefault && c == cpg then [f] else []
  {
    if isDefault {
      AddedDefault(m1.value, cpg, f);
    }
    forall c
      ensures DefaultsOf(m3, c) == DefaultsOf(m0, c) + if isDefault && c == cpg then [f] else []
    {
      MarkedLists(m2, c, ip);
      assert DefaultsOf(m0, c) + [] == DefaultsOf(m0, c);
    }
    MarkedLists(m2, cpg, ip);
  }

  function WithVfs(w: World, cpg: Cpg, f: Fpg, v: Vfs, recorded: bool): World {
    w.(arr := w.arr.(vfs := w.arr.vfs[f := v]),
       fpgMeta := if recorded then w.fpgMeta[(cpg, f) := Some(v)] else w.fpgMeta)
  }

  predicate Furnishes(env: Env) {
    env.vfs.VfsDone? && env.markOk && env.last.share.Some? && env.last.quota.Some?
  }

  /** The state and the undo list when furnishing a new FPG stops, at the end or on the way. */
  function Furnished(w: World, cpg: Cpg, f: Fpg, isDefault: bool, v: Vfs, name: string, mib: nat, env: Env)
    : (World, seq<Cmd>)
  {
    var claimed := [FpgCreated(f, isDefault), IpClaimed(v.ip)];
    var wv := WithVfs(w, cpg, f, v, env.vfs.VfsDone?);
    var wm := wv.(meta := Marked(wv.meta, v.ip));
    if env.vfs.VfsRefused? then (w, claimed)
    else if env.vfs.VfsNotRecorded? then (wv, claimed)
    else if !env.markOk then (wv, claimed + [VfsCreated])
    else if env.last.share.None? then (wm, claimed + [VfsCreated])
    else
      var ws := wm.(arr := AddShare(wm.arr, f, env.last.share.value));
      if env.last.quota.None? then (ws, claimed + [VfsCreated] + [ShareCreated])
      else (ws.(arr := AddQuota(ws.arr, env.last.quota.value, f, name, mib)),
            claimed + [VfsCreated] + [ShareCreated, QuotaSet(env.last.quota.value)])
  }

  lemma FurnishUndone(w0: World, w: World, m: Option<Meta>, cpg: Cpg, args: Share, f: Fpg, isDefault: bool, v: Vfs,
                      name: string, mib: nat, env: Env)
    requires v.ip !in VfsIps(w0.arr) && v.ip !in Locked(w0.meta) && v.ip !in Locked(m)
    requires w.meta == Some(WithLocked(m, v.ip)) && Fresh(env.last, w.arr)
    requires GrownLists(w0.meta, m, cpg, if isDefault then multiset{f} else multiset{}, multiset{}, NoStaleIp(w0),
                        multiset{})
    requires Grown(w0, w, cpg, {f}, if isDefault then multiset{f} else multiset{}, multiset{v.ip}, multiset{})
    requires !Furnishes(env)
    requires env.vfs.VfsDone? && env.markOk && env.last.share.Some? ==> args.id == env.last.share
    ensures var (w', undo) := Furnished(w, cpg, f, isDefault, v, name, mib, env);
            Restored(w0, Undone(cpg, args, undo, w'), cpg)
  {
    var defaults := if isDefault then multiset{f} else multiset{};
    var claimed := [FpgCreated(f, isDefault), IpClaimed(v.ip)];
    var wv := WithVfs(w, cpg, f, v, env.vfs.VfsDone?);
    assert claimed + [VfsCreated] == [FpgCreated(f, isDefault), IpClaimed(v.ip), VfsCreated];
    if env.vfs.VfsRefused? {
      UndoClaimedFpg(w0, w, cpg, args, f, isDefault, v.ip, false);
    } else {
      GrowVfs(w0, w, cpg, f, defaults, multiset{v.ip}, multiset{}, v, env.vfs.VfsDone?);
      if env.vfs.VfsNotRecorded? || !env.markOk {
        UndoClaimedFpg(w0, wv, cpg, args, f, isDefault, v.ip, false);
      } else {
        MarkUndone(w0, wv, m, cpg, args, f, isDefault, v.ip);
        if env.last.share.Some? {
          UndoShare(cpg, args, claimed + [VfsCreated], wv.(meta := Marked(wv.meta, v.ip)), env.last.share.value, f);
        }
      }
    }
  }

  lemma MarkUndone(w0: World, w: World, m: Option<Meta>, cpg: Cpg, args: Share, f: Fpg, isDefault: bool, ip: Ip)
    requires ip !in VfsIps(w0.arr) && ip !in Locked(w0.meta) && ip !in Locked(m)
    requires w.meta == Some(WithLocked(m, ip))
    requires GrownLists(w0.meta, m, cpg, if isDefault then multiset{f} else multiset{}, multiset{}, NoStaleIp(w0),
                        multiset{})
    requires Grown(w0, w, cpg, {f}, if isDefault then multiset{f} else multiset{}, multiset{ip}, multiset{})
    ensures Restored(w0, Undone(cpg, args, [FpgCreated(f, isDefault), IpClaimed(ip), VfsCreated],
                                w.(meta := Marked(w.meta, ip))), cpg)
  {
    GrowMark(w0, w, cpg, f, if isDefault then multiset{f} else multiset{}, m, ip);
    UndoClaimedFpg(w0, w.(meta := Marked(w.meta, ip)), cpg, args, f, isDefault, ip, true);
  }

  /** Undoing the share on top of a new FPG. */
  lemma UndoShare(cpg: Cpg, args: Share, undo: seq<Cmd>, w: World, id: Id, f: Fpg)
    requires args.id == Some(id) && id !in w.arr.shares
    ensures Undone(cpg, args, undo + [ShareCreated], w.(arr := AddShare(w.arr, f, id))) == Undone(cpg, args, undo, w)
  {
    Rollback.UndoPush(Undoer(cpg, args), undo, ShareCreated, w.(arr := AddShare(w.arr, f, id)));
    assert AddShare(w.arr, f, id).shares - {id} == w.arr.shares;
  }

  // ---- other creations between the failure and its undo ----

  /** Something on the FPG belongs to another share: a share with another id, or a quota. */
  predicate OthersOn(a: Arr, f: Fpg, own: Option<Id>) {
    || (exists id :: id in a.shares && a.shares[id] == f && own != Some(id))
    || exists q :: q in a.quotas && a.quotas[q].fpg == f
  }

  lemma UndoFpgStrands(w: World, cpg: Cpg, args: Share, f: Fpg, isDefault: bool)
    requires ArrayOk(w.arr)
    ensures ArrayOk(ApplyUndo(cpg, args, FpgCreated(f, isDefault), w).arr) <==> !OthersOn(w.arr, f, None)
  {
    var a := ApplyUndo(cpg, args, FpgCreated(f, isDefault), w).arr;
    if id :| id in w.arr.shares && w.arr.shares[id] == f {
      assert a.shares[id] !in a.fpgs;
    }
    if q :| q in w.arr.quotas && w.arr.quotas[q].fpg == f {
      assert a.quotas[q].fpg !in a.fpgs;
    }
  }

  lemma UndoTail(w: World, cpg: Cpg, args: Share, f: Fpg, isDefault: bool, ip: Ip)
    requires ArrayOk(w.arr)
    ensures var undo := [FpgCreated(f, isDefault), IpClaimed(ip), VfsCreated];
            ArrayOk(Undone(cpg, args, undo, w).arr) <==> !OthersOn(w.arr, f, None)
  {
    UndoTwo(cpg, args, FpgCreated(f, isDefault), IpClaimed(ip), w);
    UndoFpgStrands(ApplyUndo(cpg, args, IpClaimed(ip), w), cpg, args, f, isDefault);
  }

  /** The CPG's lock is free while the undo list runs. Whatever others have put on the array by then, undoing a new
      FPG, with this creation's share or without it, leaves every share and quota on an FPG that exists if and only
      if no other share has been placed on the new one. */
  lemma UndoStrandsOthers(w: World, cpg: Cpg, args: Share, f: Fpg, isDefault: bool, ip: Ip, placed: bool)
    requires ArrayOk(w.arr) && (placed ==> args.id.Some?)
    ensures var undo := [FpgCreated(f, isDefault), IpClaimed(ip), VfsCreated] + if placed then [ShareCreated] else [];
            ArrayOk(Undone(cpg, args, undo, w).arr) <==> !OthersOn(w.arr, f, if placed then args.id else None)
  {
    var undo := [FpgCreated(f, isDefault), IpClaimed(ip), VfsCreated];
    if placed {
      var w' := ApplyUndo(cpg, args, ShareCreated, w);
      Rollback.UndoPush(Undoer(cpg, args), undo, ShareCreated, w);
      UndoTail(w', cpg, args, f, isDefault, ip);
      if id :| id in w.arr.shares && w.arr.shares[id] == f && args.id != Some(id) {
        assert id in w'.arr.shares && w'.arr.shares[id] == f;
      }
    } else {
      assert undo + [] == undo;
      UndoTail(w, cpg, args, f, isDefault, ip);
    }
  }

  /** Undoing a placed share takes its quota and then the share away. */
  lemma UndoPlaced(cpg: Cpg, args: Share, undo: seq<Cmd>, w: World, f: Fpg, t: Attempt, name: string, mib: nat)
    requires t.share.Some? && t.quota.Some? && Fresh(t, w.arr) && args.id == t.share
    ensures Undone(cpg, args, undo + [ShareCreated, QuotaSet(t.quota.value)],
                   w.(arr := AddQuota(AddShare(w.arr, f, t.share.value), t.quota.value, f, name, mib)))
            == Undone(cpg, args, undo, w)
  {
    var placed := w.(arr := AddQuota(AddShare(w.arr, f, t.share.value), t.quota.value, f, name, mib));
    var unquoted := w.(arr := AddShare(w.arr, f, t.share.value));
    assert undo + [ShareCreated, QuotaSet(t.quota.value)] == undo + [ShareCreated] + [QuotaSet(t.quota.value)];
    Rollback.UndoPush(Undoer(cpg, args), undo + [ShareCreated], QuotaSet(t.quota.value), placed);
    assert ApplyUndo(cpg, args, QuotaSet(t.quota.value), placed).arr.quotas == w.arr.quotas;
    UndoShare(cpg, args, undo, w, t.share.value, f);
  }

  /** The fallback goes through if and only if every step does: the FPG and, for a default one, its entry and metadata,
      an address of the pool that is neither on the array nor locked, the VFS and its record, the mark, share, quota. */
  lemma FallbackGoesThrough(w0: World, isDefault: bool, env: Env)
    ensures NewFpgWorks(w0, isDefault, env) <==>
              && (env.fpg == FpgDone || (!isDefault && env.fpg == DefaultNotSaved))
              && (exists i, ip :: 0 <= i < |env.pool| && ip in env.pool[i].1 && ip !in VfsIps(w0.arr)
                                  && ip !in Locked(w0.meta))
              && env.vfs == VfsDone && env.markOk && env.last.share.Some? && env.last.quota.Some?
  {
    var taken := VfsIps(w0.arr) + Elems(Locked(w0.meta));
    if i :| 0 <= i < |env.pool| && !(env.pool[i].1 <= taken) {
      var ip :| ip in env.pool[i].1 && ip !in taken;
    }
  }

  // ---- deletion ----

  function QuotasOf(a: Arr, f: Fpg, name: string): set<Qid> {
    set q | q in a.quotas && a.quotas[q].fpg == f && a.quotas[q].share == name
  }

  function ShareDropped(a: Arr, f: Fpg, id: Option<Id>, name: string): Arr {
    a.(shares := if id.Some? then a.shares - {id.value} else a.shares, quotas := a.quotas - QuotasOf(a, f, name))
  }

  predicate HasShares(a: Arr, f: Fpg) {
    exists id :: id in a.shares && a.shares[id] == f
  }

  /** Deleting an available share: its file store's quotas go with it, and with the last share of an FPG
      that the plugin created go the FPG, its default entry and its address. */
  function Deleted(w: World, cpg: Cpg, f: Fpg, ip: Ip, id: Option<Id>, name: string): World {
    var a := ShareDropped(w.arr, f, id, name);
    if HasShares(a, f) || (cpg, f) !in w.fpgMeta then w.(arr := a)
    else World(a.(fpgs := a.fpgs - {f}, vfs := a.vfs - {f}),
               if w.meta.Some? && Released(w.meta.value, cpg, f, ip).Some? then Released(w.meta.value, cpg, f, ip)
                 else w.meta,
               w.fpgMeta - {(cpg, f)})
  }

  /** Some share other than the deleted one is on the FPG. */
  ghost predicate OtherShareOn(a: Arr, f: Fpg, id: Option<Id>) {
    exists i :: i in a.shares && a.shares[i] == f && id != Some(i)
  }

  /** What deleting a share does to shares and quotas: only the share, and the quotas on its file store, go. */
  ghost predicate ShareGone(a: Arr, d: Arr, f: Fpg, id: Option<Id>, name: string) {
    && (forall i :: i in d.shares <==> i in a.shares && id != Some(i))
    && (forall i :: i in d.shares ==> d.shares[i] == a.shares[i])
    && (forall q :: q in d.quotas <==> q in a.quotas && !(a.quotas[q].fpg == f && a.quotas[q].share == name))
    && (forall q :: q in d.quotas ==> d.quotas[q] == a.quotas[q])
  }

  /** Everything on FPGs is as before. */
  ghost predicate FpgKept(w: World, d: World) {
    d.arr.fpgs == w.arr.fpgs && d.arr.vfs == w.arr.vfs && d.fpgMeta == w.fpgMeta && d.meta == w.meta
  }

  /** The FPG, its VFS and its metadata are gone, and those of other FPGs are as before. */
  ghost predicate FpgGone(w: World, d: World, cpg: Cpg, f: Fpg) {
    && f !in d.arr.fpgs && f !in d.arr.vfs && (cpg, f) !in d.fpgMeta
    && (forall g :: g != f ==> (g in d.arr.fpgs <==> g in w.arr.fpgs) && (g in d.arr.vfs <==> g in w.arr.vfs))
    && (forall g :: g in d.arr.fpgs ==> d.arr.fpgs[g] == w.arr.fpgs[g])
    && (forall g :: g in d.arr.vfs ==> d.arr.vfs[g] == w.arr.vfs[g])
    && (forall k :: k != (cpg, f) ==> (k in d.fpgMeta <==> k in w.fpgMeta))
    && (forall k :: k in d.fpgMeta ==> d.fpgMeta[k] == w.fpgMeta[k])
  }

  /** The address and the default entry are off their lists; or, when the release raises, nothing is. */
  ghost predicate AddressFreed(w: World, d: World, cpg: Cpg, f: Fpg, ip: Ip) {
    if ip in InUse(w.meta) && NoneOrOwnDefaults(w.meta.value, cpg) then
      && multiset(InUse(d.meta)) == multiset(InUse(w.meta)) - multiset{ip}
      && multiset(DefaultsOf(d.meta, cpg)) == multiset(DefaultsOf(w.meta, cpg)) - multiset{f}
      && Locked(d.meta) == Locked(w.meta) && forall c :: c != cpg ==> DefaultsOf(d.meta, c) == DefaultsOf(w.meta, c)
    else d.meta == w.meta
  }

  /** What deleting a share does: the FPG, its VFS, its metadata, its address and its default entry go if and only if no
      other share is on it and etcd has metadata for it under this CPG. */
  ghost predicate DeletionOk(w: World, d: World, cpg: Cpg, f: Fpg, ip: Ip, id: Option<Id>, name: string) {
    && ShareGone(w.arr, d.arr, f, id, name)
    && if !OtherShareOn(w.arr, f, id) && (cpg, f) in w.fpgMeta
       then FpgGone(w, d, cpg, f) && AddressFreed(w, d, cpg, f, ip)
       else FpgKept(w, d)
  }

  lemma OtherSharesLeft(w: World, f: Fpg, id: Option<Id>, name: string)
    ensures HasShares(ShareDropped(w.arr, f, id, name), f) <==> OtherShareOn(w.arr, f, id)
    ensures ShareGone(w.arr, ShareDropped(w.arr, f, id, name), f, id, name)
  {
    if OtherShareOn(w.arr, f, id) {
      var i :| i in w.arr.shares && w.arr.shares[i] == f && id != Some(i);
      assert i in ShareDropped(w.arr, f, id, name).shares;
    }
  }

  lemma DeleteKeepsOthers(w: World, cpg: Cpg, f: Fpg, ip: Ip, id: Option<Id>, name: string)
    ensures DeletionOk(w, Deleted(w, cpg, f, ip, id, name), cpg, f, ip, id, name)
  {
    OtherSharesLeft(w, f, id, name);
    if !OtherShareOn(w.arr, f, id) && (cpg, f) in w.fpgMeta {
      DeletedFpg(w, cpg, f, ip, id, name);
    }
  }

  lemma DeletedFpg(w: World, cpg: Cpg, f: Fpg, ip: Ip, id: Option<Id>, name: string)
    requires !HasShares(ShareDropped(w.arr, f, id, name), f) && (cpg, f) in w.fpgMeta
    ensures var d := Deleted(w, cpg, f, ip, id, name); FpgGone(w, d, cpg, f) && AddressFreed(w, d, cpg, f, ip)
  {
    if w.meta.Some? {
      ReleasedParts(w.meta.value, cpg, f, ip);
    }
  }

  /** So whatever is deleted, every other share is still there, on an FPG that exists. */
  lemma OtherSharesSurvive(w: World, d: World, cpg: Cpg, f: Fpg, ip: Ip, id: Option<Id>, name: string, other: Id)
    requires ArrayOk(w.arr) && DeletionOk(w, d, cpg, f, ip, id, name)
    requires other in w.arr.shares && id != Some(other)
    ensures other in d.arr.shares && d.arr.shares[other] == w.arr.shares[other]
    ensures d.arr.shares[other] in d.arr.fpgs
  {
    assert w.arr.shares[other] in w.arr.fpgs;
  }

  lemma ReleasedOther(m: Meta, cpg: Cpg, f: Fpg, ip: Ip, c: Cpg)
    requires c != cpg && Released(m, cpg, f, ip).Some?
    ensures DefaultsOf(Released(m, cpg, f, ip), c) == DefaultsOf(Some(m), c)
  {
  }

  lemma ReleasedParts(m: Meta, cpg: Cpg, f: Fpg, ip: Ip)
    ensures var r := Released(m, cpg, f, ip);
            && (r.Some? <==> ip in m.ipsInUse && NoneOrOwnDefaults(m, cpg))
            && (r.Some? ==>
                  && multiset(InUse(r)) == multiset(m.ipsInUse) - multiset{ip}
                  && multiset(DefaultsOf(r, cpg)) == multiset(DefaultsOf(Some(m), cpg)) - multiset{f}
                  && Locked(r) == m.ipsLocked
                  && forall c :: c != cpg ==> DefaultsOf(r, c) == DefaultsOf(Some(m), c))
  {
    if ip in m.ipsInUse {
      RemoveFirstMultiset(m.ipsInUse, ip);
      RemoveFirstMultiset(DefaultsOf(Some(m), cpg), f);
      ReleasedExactly(m, cpg, f, ip);
      if Released(m, cpg, f, ip).Some? {
        forall c | c != cpg
          ensures DefaultsOf(Released(m, cpg, f, ip), c) == DefaultsOf(Some(m), c)
        {
          ReleasedOther(m, cpg, f, ip, c);
        }
      }
    }
  }

  /** No CPG has default FPGs, or this one has an entry. */
  predicate NoneOrOwnDefaults(m: Meta, cpg: Cpg) {
    m.defaultFpgs.None? || m.defaultFpgs.value == map[] || cpg in m.defaultFpgs.value
  }

  /** Deleting the only share of an FPG created for it gives back the array, and the address and default
      lists exactly when this CPG or no CPG has default FPGs; that is so for a default FPG. */
  lemma DeleteUndoesCreate(w0: World, w: World, cpg: Cpg, isDefault: bool, f: Fpg, v: Vfs, t: Attempt, name: string,
                           mib: nat)
    requires ArrayOk(w0.arr) && Fresh(t, w0.arr) && PlacedNew(w0, w, cpg, isDefault, f, v, t, name, mib)
    requires !isDefault ==> f !in DefaultsOf(w0.meta, cpg)
    ensures w.meta.Some?
    ensures var d := Deleted(w, cpg, f, v.ip, t.share, name);
            && d.arr == w0.arr && d.fpgMeta == w0.fpgMeta - {(cpg, f)}
            && (GrownLists(w0.meta, d.meta, cpg, multiset{}, multiset{}, true, multiset{}) <==>
                NoneOrOwnDefaults(w.meta.value, cpg))
            && (isDefault ==> NoneOrOwnDefaults(w.meta.value, cpg))
  {
    DeletedArr(w0.arr, w.arr, cpg, v, mib, f, t, name);
    assert InUse(w.meta)[|InUse(w0.meta)|] == v.ip;
    var d := Deleted(w, cpg, f, v.ip, t.share, name);
    assert d.fpgMeta == w0.fpgMeta - {(cpg, f)};
    ReleasedLists(w0.meta, w.meta, cpg, isDefault, f, v.ip);
  }

  lemma DeletedArr(a0: Arr, a: Arr, cpg: Cpg, v: Vfs, mib: nat, f: Fpg, t: Attempt, name: string)
    requires ArrayOk(a0) && Fresh(t, a0) && t.share.Some? && t.quota.Some?
    requires a == AddQuota(AddShare(a0.(fpgs := a0.fpgs[f := cpg], vfs := a0.vfs[f := v]), f, t.share.value),
                           t.quota.value, f, name, mib)
    requires f !in a0.fpgs
    ensures a.fpgs - {f} == a0.fpgs && a.vfs - {f} == a0.vfs && a.shares - {t.share.value} == a0.shares
    ensures a.quotas - QuotasOf(a, f, name) == a0.quotas
    ensures forall id :: id in a0.shares ==> a0.shares[id] != f
  {
    assert QuotasOf(a, f, name) == {t.quota.value};
  }

  lemma ReleasedExactly(m: Meta, cpg: Cpg, f: Fpg, ip: Ip)
    requires ip in m.ipsInUse
    ensures var r := Released(m, cpg, f, ip);
            && (r.Some? <==> NoneOrOwnDefaults(m, cpg))
            && (r.Some? ==> DefaultsOf(r, cpg) == RemoveFirst(DefaultsOf(Some(m), cpg), f)
                            && InUse(r) == RemoveFirst(m.ipsInUse, ip) && Locked(r) == m.ipsLocked)
  {
    RemoveAbsent(DefaultsOf(Some(m), cpg), f);
  }

  lemma ReleasedLists(m0: Option<Meta>, m: Option<Meta>, cpg: Cpg, isDefault: bool, f: Fpg, ip: Ip)
    requires InUse(m) == InUse(m0) + [ip] && Locked(m) == Locked(m0)
    requires DefaultsOf(m, cpg) == DefaultsOf(m0, cpg) + if isDefault then [f] else []
    requires !isDefault ==> f !in DefaultsOf(m0, cpg)
    ensures m.Some?
    ensures var r := Released(m.value, cpg, f, ip);
            GrownLists(m0, if r.Some? then r else m, cpg, multiset{}, multiset{}, true, multiset{}) <==>
            NoneOrOwnDefaults(m.value, cpg)
    ensures isDefault ==> NoneOrOwnDefaults(m.value, cpg)
  {
    assert InUse(m)[|InUse(m0)|] == ip;
    ReleasedExactly(m.value, cpg, f, ip);
    if Released(m.value, cpg, f, ip).Some? {
      DropAdded(InUse(m0), ip);
      DefaultDropped(DefaultsOf(m0, cpg), DefaultsOf(m, cpg), isDefault, f);
    } else {
      assert |multiset(InUse(m))| == |multiset(InUse(m0))| + 1;
    }
  }

  lemma DefaultDropped(before: seq<Fpg>, after: seq<Fpg>, isDefault: bool, f: Fpg)
    requires after == before + (if isDefault then [f] else []) && (!isDefault ==> f !in before)
    ensures multiset(RemoveFirst(after, f)) == multiset(before)
  {
    if isDefault {
      DropAdded(before, f);
    } else {
      assert after == before;
      RemoveAbsent(before, f);
    }
  }

  lemma DropAdded<T>(s: seq<T>, x: T)
    ensures multiset(RemoveFirst(s + [x], x)) == multiset(s)
  {
    RemoveFirstMultiset(s + [x], x);
    assert multiset(s + [x]) == multiset(s) + multiset{x};
  }

  lemma OnlyShareUndone(cpg: Cpg, args: Share, w: World, id: Id, f: Fpg)
    requires args.id == Some(id) && id !in w.arr.shares
    ensures Undone(cpg, args, [ShareCreated], w.(arr := AddShare(w.arr, f, id))) == w
  {
    UndoOne(cpg, args, ShareCreated, w.(arr := AddShare(w.arr, f, id)));
    assert AddShare(w.arr, f, id).shares - {id} == w.arr.shares;
  }

  class FileManager {
    const backend: BackendStore
    var arr: Arr
    var fpgMeta: map<(Cpg, Fpg), Option<Vfs>>
    var records: map<string, Share>

    constructor (backend: BackendStore, arr: Arr)
      ensures this.backend == backend && this.arr == arr && fpgMeta == map[] && records == map[]
    {
      this.backend := backend;
      this.arr := arr;
      fpgMeta := map[];
      records := map[];
    }

    ghost function W(): World
      reads this, backend
    {
      World(arr, backend.meta, fpgMeta)
    }

    /** _unexecute: last command first. */
    method Unexecute(cpg: Cpg, args: Share, undo: seq<Cmd>)
      modifies this`arr, this`fpgMeta, backend
      ensures W() == Undone(cpg, args, undo, old(W()))
    {
      var k := |undo|;
      assert undo[..k] == undo;
      while k > 0
        invariant 0 <= k <= |undo|
        invariant Undone(cpg, args, undo[..k], W()) == Undone(cpg, args, undo, old(W()))
      {
        k := k - 1;
        Rollback.UndoPush(Undoer(cpg, args), undo[..k], undo[k], W());
        assert undo[..k + 1] == undo[..k] + [undo[k]];
        match undo[k] {
          case FpgCreated(f, isDefault) =>
            arr := arr.(fpgs := arr.fpgs - {f}, vfs := arr.vfs - {f});
            if isDefault {
              backend.RemoveAsDefaultFpg(cpg, f);
            }
            fpgMeta := fpgMeta - {(cpg, f)};
          case IpClaimed(ip) =>
            backend.UnclaimIp(ip);
          case VfsCreated =>
          case ShareCreated =>
            if args.id.Some? {
              arr := arr.(shares := arr.shares - {args.id.value});
            }
          case QuotaSet(q) =>
            arr := arr.(quotas := arr.quotas - {q});
        }
      }
    }

    /** CreateFpgCmd.execute */
    method CreateFpg(cpg: Cpg, f: Fpg, isDefault: bool, outcome: FpgOutcome) returns (ok: bool)
      requires isDefault ==> backend.meta.Some?
      modifies this`arr, this`fpgMeta, backend
      ensures ok <==> FpgMade(outcome, isDefault)
      ensures arr == if outcome.FpgRefused? then old(arr) else old(arr).(fpgs := old(arr).fpgs[f := cpg])
      ensures fpgMeta == if ok then old(fpgMeta)[(cpg, f) := None] else old(fpgMeta)
      ensures backend.meta == if isDefault && (ok || outcome.MetadataNotSaved?)
                              then Some(AddDefault(old(backend.meta).value, cpg, f)) else old(backend.meta)
    {
      if outcome.FpgRefused? {
        return false;
      }
      arr := arr.(fpgs := arr.fpgs[f := cpg]);
      if isDefault {
        if outcome.DefaultNotSaved? {
          return false;
        }
        var added := backend.AddToDefaultFpg(cpg, f);
      }
      if outcome.MetadataNotSaved? {
        return false;
      }
      fpgMeta := fpgMeta[(cpg, f) := None];
      ok := true;
    }

    /** __create_share_and_quota */
    method CreateShareAndQuota(args: Share, name: string, mib: nat, t: Attempt, undo: seq<Cmd>)
      returns (ok: bool, args': Share, undo': seq<Cmd>)
      requires args.fpg.Some?
      modifies this`arr, this`records
      ensures ok <==> t.share.Some? && t.quota.Some?
      ensures args' == if t.share.Some? then args.(id := t.share) else args
      ensures undo' == if t.share.None? then undo else if ok then undo + [ShareCreated, QuotaSet(t.quota.value)]
                       else undo + [ShareCreated]
      ensures arr == if t.share.None? then old(arr)
                     else if ok then AddQuota(AddShare(old(arr), args.fpg.value, t.share.value), t.quota.value,
                                              args.fpg.value, name, mib)
                     else AddShare(old(arr), args.fpg.value, t.share.value)
      ensures records == if t.share.None? then old(records)
                         else old(records)[name := if ok then args'.(status := Available, quota := t.quota) else args']
    {
      args', undo' := args, undo;
      if t.share.None? {
        return false, args', undo';
      }
      arr := arr.(shares := arr.shares[t.share.value := args.fpg.value]);
      args' := args.(id := t.share);
      records := records[name := args'];
      undo' := undo' + [ShareCreated];
      if t.quota.None? {
        return false, args', undo';
      }
      arr := arr.(quotas := arr.quotas[t.quota.value := Quota(args.fpg.value, name, mib)]);
      records := records[name := records[name].(quota := t.quota, status := Available)];
      undo' := undo' + [QuotaSet(t.quota.value)];
      assert undo + [ShareCreated] + [QuotaSet(t.quota.value)] == undo + [ShareCreated, QuotaSet(t.quota.value)];
      ok := true;
    }

    /** CreateVfsCmd.execute */
    method CreateVfs(cpg: Cpg, f: Fpg, v: Vfs, outcome: VfsOutcome) returns (ok: bool)
      modifies this`arr, this`fpgMeta
      ensures ok <==> outcome.VfsDone?
      ensures arr == if outcome.VfsRefused? then old(arr) else old(arr).(vfs := old(arr).vfs[f := v])
      ensures fpgMeta == if ok then old(fpgMeta)[(cpg, f) := Some(v)] else old(fpgMeta)
    {
      if outcome.VfsRefused? {
        return false;
      }
      arr := arr.(vfs := arr.vfs[f := v]);
      if outcome.VfsNotRecorded? {
        return false;
      }
      fpgMeta := fpgMeta[(cpg, f) := Some(v)];
      ok := true;
    }

    /** One attempt on one FPG; unless share and quota are both there, no trace of it is left. */
    method TryOn(cpg: Cpg, f: Fpg, v: Vfs, args: Share, name: string, mib: nat, t: Attempt)
      returns (placed: bool, args': Share)
      requires Fresh(t, arr) && args.status == Creating && args.quota == None
      modifies this`arr, this`fpgMeta, this`records, backend
      ensures placed <==> t.share.Some? && t.quota.Some?
      ensures args'.status == Creating && args'.quota == None
      ensures records - {name} == old(records) - {name}
      ensures !placed ==> W() == old(W())
      ensures placed ==>
                && W() == old(W()).(arr := AddQuota(AddShare(old(arr), f, t.share.value), t.quota.value, f, name, mib))
                && name in records && records[name] == Share(Available, Some(f), Some(v), t.share, t.quota)
    {
      ghost var w := W();
      var undo;
      placed, args', undo := CreateShareAndQuota(args.(fpg := Some(f), vfs := Some(v)), name, mib, t, []);
      if !placed && t.share.Some? {
        OnlyShareUndone(cpg, args', w, t.share.value, f);
        assert undo == [ShareCreated] && W() == w.(arr := AddShare(w.arr, f, t.share.value));
        Unexecute(cpg, args', undo);
      }
    }

    /** The search over default FPGs; a failed quota takes its share back and moves on to the next one. */
    method OnDefaults(cpg: Cpg, args: Share, name: string, mib: nat, tries: nat -> Attempt)
      returns (r: Search, args': Share)
      requires forall k: nat :: Fresh(tries(k), arr)
      requires args.status == Creating && args.quota == None
      modifies this`arr, this`fpgMeta, this`records, backend
      ensures r == SearchDefaults(old(arr), DefaultsOf(old(backend.meta), cpg), 0, tries)
      ensures args'.status == Creating && args'.quota == None
      ensures !r.On? ==> W() == old(W())
      ensures records - {name} == old(records) - {name}
      ensures r.On? ==> PlacedOn(old(W()), W(), r.fpg, r.with, name, mib) && r.fpg in old(arr).vfs
                        && name in records
                        && records[name] == Share(Available, Some(r.fpg), Some(old(arr).vfs[r.fpg]), r.with.share,
                                                  r.with.quota)
    {
      var list := DefaultsOf(backend.meta, cpg);
      args' := args;
      var k := 0;
      while k < |list|
        invariant 0 <= k <= |list| && W() == old(W())
        invariant args'.status == Creating && args'.quota == None
        invariant records - {name} == old(records) - {name}
        invariant SearchDefaults(old(arr), list, k, tries) == SearchDefaults(old(arr), list, 0, tries)
      {
        var f, t := list[k], tries(k);
        assert Fresh(t, arr);
        if f in arr.fpgs && !t.look.Full? {
          if t.look.Unreadable? || f !in arr.vfs {
            return Stuck, args';
          }
          var placed;
          placed, args' := TryOn(cpg, f, arr.vfs[f], args', name, mib, t);
          if placed {
            return On(f, t), args';
          }
          if t.share.None? {
            return Stuck, args';
          }
        }
        k := k + 1;
      }
      r := NeedNew;
    }

    /** An FPG the user named: no second choice when it is full or its quota is refused. */
    method OnExisting(cpg: Cpg, f: Fpg, args: Share, name: string, mib: nat, t: Attempt)
      returns (r: Search, args': Share)
      requires Fresh(t, arr)
      requires args.status == Creating && args.quota == None
      modifies this`arr, this`fpgMeta, this`records, backend
      ensures r == UseExisting(old(arr), old(fpgMeta), cpg, f, t)
      ensures args'.status == Creating && args'.quota == None
      ensures !r.On? ==> W() == old(W())
      ensures records - {name} == old(records) - {name}
      ensures r.On? ==> PlacedOn(old(W()), W(), f, t, name, mib) && name in records
                        && records[name] == Share(Available, Some(f), ExistingVfs(old(arr), old(fpgMeta), cpg, f),
                                                  t.share, t.quota)
    {
      args' := args;
      if f !in arr.fpgs {
        return NeedNew, args';
      }
      if !t.look.Room? {
        return Stuck, args';
      }
      var v;
      if (cpg, f) in fpgMeta {
        v := fpgMeta[(cpg, f)];
      } else {
        if cpg != arr.fpgs[f] || f !in arr.vfs {
          return Stuck, args';
        }
        v := Some(arr.vfs[f]);
      }
      if v.None? {
        return Stuck, args';
      }
      var placed;
      placed, args' := TryOn(cpg, f, v.value, args', name, mib, t);
      if placed {
        return On(f, t), args';
      }
      r := Stuck;
    }

    /** The fallback once FPG and address are there: virtual file server, address in use, share and quota. */
    method Furnish(cpg: Cpg, f: Fpg, isDefault: bool, v: Vfs, args: Share, name: string, mib: nat, env: Env)
      returns (ok: bool, args': Share, undo: seq<Cmd>)
      requires Marked(backend.meta, v.ip).Some?
      requires args == Share(Creating, Some(f), args.vfs, args.id, None)
      modifies this`arr, this`fpgMeta, this`records, backend
      ensures ok <==> Furnishes(env)
      ensures (W(), undo) == Furnished(old(W()), cpg, f, isDefault, v, name, mib, env)
      ensures records - {name} == old(records) - {name}
      ensures args'.status == Creating && args'.quota == None
      ensures env.vfs.VfsDone? && env.markOk && env.last.share.Some? ==> args'.id == env.last.share
      ensures ok ==> name in records && records[name] == Share(Available, Some(f), Some(v), env.last.share,
                                                               env.last.quota)
    {
      args' := args.(vfs := Some(v));
      undo := [FpgCreated(f, isDefault), IpClaimed(v.ip)];
      ok := CreateVfs(cpg, f, v, env.vfs);
      if !ok {
        return;
      }
      undo := undo + [VfsCreated];
      if !env.markOk {
        return false, args', undo;
      }
      ok := backend.MarkIpInUse(v.ip);
      ok, args', undo := CreateShareAndQuota(args', name, mib, env.last, undo);
    }

    /** A named FPG's file server is named after it, a generated one carries the same number. */
    static ghost predicate NamedVfs(fpg: Option<Fpg>, f: Fpg, v: Vfs) {
      if fpg.Some? then f == fpg.value && v.name == fpg.value + "_vfs"
      else exists k: nat :: f == FpgName(k) && v.name == VfsName(k)
    }

    /** The fallback: a new FPG, named by the user or by the next free number, with an address of its own. */
    method OnNew(cpg: Cpg, fpg: Option<Fpg>, args: Share, name: string, mib: nat, env: Env)
      returns (ok: bool, args': Share, undo: seq<Cmd>, ghost w1: World, ghost f: Fpg, ghost claim: Option<Vfs>)
      requires fpg.Some? ==> fpg.value !in arr.fpgs
      requires args.status == Creating && args.quota == None
      modifies this`arr, this`fpgMeta, this`records, backend
      ensures Named(old(W()), w1) && f !in old(arr).fpgs && (fpg.Some? ==> f == fpg.value) &&
                (fpg.None? ==> w1.meta.Some?)
      ensures claim.Some? ==> NamedVfs(fpg, f, claim.value)
      ensures FpgMade(env.fpg, fpg.None?) ==> ClaimOk(old(W()), claim, env)
      ensures (W(), undo) == Fallback(w1, cpg, f, fpg.None?, claim, name, mib, env)
      ensures ok <==> NewFpgWorks(old(W()), fpg.None?, env)
      ensures records - {name} == old(records) - {name}
      ensures args'.status == Creating && args'.quota == None
      ensures (FpgMade(env.fpg, fpg.None?) && env.vfs.VfsDone? && env.markOk && env.last.share.Some? && claim.Some?) ==>
                args'.id == env.last.share
      ensures ok ==> name in records && records[name] == Share(Available, Some(f), claim, env.last.share,
                                                               env.last.quota)
    {
      var fpgName, vfsName := "", "";
      args', undo, claim := args, [], None;
      if fpg.None? {
        ghost var number;
        fpgName, vfsName, number := backend.FindFreshFpg(arr.fpgs.Keys);
      } else {
        fpgName, vfsName := fpg.value, fpg.value + "_vfs";
      }
      f, w1 := fpgName, W();
      ok := CreateFpg(cpg, fpgName, fpg.None?, env.fpg);
      if !ok {
        return;
      }
      undo := [FpgCreated(fpgName, fpg.None?)];
      args' := args'.(fpg := Some(fpgName));
      assert Locked(backend.meta) == Locked(old(backend.meta)) && arr.vfs == old(arr).vfs;
      var found := backend.ClaimIp(VfsIps(arr), env.pool);
      if found.None? {
        return false, args', undo, w1, f, claim;
      }
      var v := Vfs(vfsName, found.value.0);
      claim := Some(v);
      ok, args', undo := Furnish(cpg, fpgName, fpg.None?, v, args', name, mib, env);
    }

    /** _create_share: the search, the fallback, and for a failure the FAILED record and the undo list. A share
        that exists already is left alone. */
    method CreateShare(name: string, cpg: Cpg, fpg: Option<Fpg>, mib: nat, env: Env)
      returns (ok: bool, ghost f: Fpg, ghost v: Option<Vfs>)
      requires ArrayOk(arr) && FreshIds(env, arr)
      modifies this`arr, this`fpgMeta, this`records, backend
      ensures records - {name} == old(records) - {name} && name in records
      ensures name in old(records) ==> ok && W() == old(W()) && records == old(records)
      ensures name !in old(records) ==>
                var r := Sought(old(W()), cpg, fpg, env.tries);
                && (ok <==> r.On? || (r.NeedNew? && NewFpgWorks(old(W()), fpg.None?, env)))
                && (!ok ==> records[name].status == Failed && records[name].quota == None)
                && (ok ==> records[name].status == Available && records[name].fpg == Some(f) && records[name].vfs == v)
                && (r.On? ==> f == r.fpg && PlacedOn(old(W()), W(), f, r.with, name, mib)
                              && records[name].id == r.with.share && records[name].quota == r.with.quota)
                && (r.Stuck? ==> W() == old(W()))
                && (r.NeedNew? && ok ==> v.Some? && PlacedNew(old(W()), W(), cpg, fpg.None?, f, v.value, env.last,
                                                              name, mib)
                                         && NamedVfs(fpg, f, v.value)
                                         && records[name].id == env.last.share && records[name].quota == env.last.quota)
                && (r.NeedNew? && !ok ==> (Restored(old(W()), W(), cpg) <==> !HalfWay(env.fpg, fpg.None?)))
      ensures name !in old(records) && fpg.Some? && fpg.value in old(arr).fpgs ==>
                && (ok <==> exists u :: NamedUsable(old(W()), cpg, fpg.value, env.tries(0), u))
                && (ok ==> v.Some? && NamedUsable(old(W()), cpg, fpg.value, env.tries(0), v.value))
      ensures name !in old(records) && fpg.None? && ok && f in old(arr).fpgs ==>
                exists i: nat ::
                  DefaultUsable(old(W()), cpg, i, env.tries) && f == DefaultsOf(old(backend.meta), cpg)[i]
                            && v == Some(old(arr).vfs[f])
    {
      f, v := "", None;
      if name in records {
        return true, f, v;
      }
      var args, undo, r := Share(Creating, None, None, None, None), [], Stuck;
      records := records[name := args];
      assert records - {name} == old(records) - {name};
      assert Fresh(env.tries(0), arr);
      if fpg.None? {
        DefaultSearch(W(), cpg, env.tries);
        r, args := OnDefaults(cpg, args, name, mib, env.tries);
      } else {
        NamedSearch(W(), cpg, fpg.value, env.tries);
        r, args := OnExisting(cpg, fpg.value, args, name, mib, env.tries(0));
      }
      ok := r.On?;
      if r.NeedNew? {
        ghost var w1, claim;
        ok, args, undo, w1, f, claim := OnNew(cpg, fpg, args, name, mib, env);
        v := claim;
        if ok {
          FallbackPlaces(old(W()), w1, cpg, f, fpg.None?, claim, name, mib, env);
        } else {
          FallbackRestores(old(W()), w1, cpg, args.(status := Failed), f, fpg.None?, claim, name, mib, env);
        }
      } else if ok {
        f, v := r.fpg, records[name].vfs;
      }
      if !ok {
        args := args.(status := Failed);
        assert records[name := args] - {name} == records - {name};
        records := records[name := args];
        Unexecute(cpg, args, undo);
      }
    }

    /** DeleteShareCmd.execute with its child thread; `arrayOk` is whether the array deletes the share. */
    method DeleteShare(name: string, cpg: Cpg, arrayOk: bool) returns (ok: bool)
      requires name in records
      requires records[name].status.Available? ==> records[name].fpg.Some? && records[name].vfs.Some?
      modifies this`arr, this`fpgMeta, this`records, backend
      ensures ok <==> old(records)[name].status.Failed? || (old(records)[name].status.Available? && arrayOk)
      ensures records == if ok then old(records) - {name} else old(records)
      ensures W() == if ok && old(records)[name].status.Available?
                     then Deleted(old(W()), cpg, old(records)[name].fpg.value, old(records)[name].vfs.value.ip,
                                  old(records)[name].id, name)
                     else old(W())
      ensures ok && old(records)[name].status.Available? ==>
                DeletionOk(old(W()), W(), cpg, old(records)[name].fpg.value, old(records)[name].vfs.value.ip,
                           old(records)[name].id, name)
    {
      var share := records[name];
      if share.status == Failed {
        records := records - {name};
        return true;
      }
      if share.status == Creating || !arrayOk {
        return false;
      }
      ok := true;
      var f := share.fpg.value;
      ghost var w := W();
      if share.id.Some? {
        arr := arr.(shares := arr.shares - {share.id.value});
      }
      records := records - {name};
      arr := arr.(quotas := arr.quotas - QuotasOf(arr, f, name));
      if !HasShares(arr, f) && (cpg, f) in fpgMeta {
        arr := arr.(fpgs := arr.fpgs - {f}, vfs := arr.vfs - {f});
        fpgMeta := fpgMeta - {(cpg, f)};
        var released := backend.ReleaseFpg(cpg, f, share.vfs.value.ip);
      }
      assert W() == Deleted(w, cpg, f, share.vfs.value.ip, share.id, name);
      DeleteKeepsOthers(w, cpg, f, share.vfs.value.ip, share.id, name);
    }
  }
}
