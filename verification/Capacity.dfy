/** Hard quotas against the capacity of an FPG (file_manager.py, request_context.py): the capacity check and
    the quota write happen under one CPG lock, while deletions run without it. */
module Capacity {
  import opened Util

  type Fpg = string
  type Cpg = string
  type Qid = nat
  type Thread = nat

  datatype Quota = Quota(fpg: Fpg, mib: nat)

  /** An FPG on the array: its CPG and its capacity in GiB. */
  datatype Space = Space(cpg: Cpg, gib: real)

  function Gib(mib: nat): real {
    mib as real / 1024.0
  }

  /** The sum of a map's values. */
  ghost function Sum<K>(m: map<K, nat>): nat {
    if m == map[] then 0 else var k :| k in m; m[k] + Sum(m - {k})
  }

  lemma {:induction false} SumTake<K>(m: map<K, nat>, k: K)
    requires k in m
    ensures Sum(m) == m[k] + Sum(m - {k})
    decreases |m|
  {
    var p :| p in m && Sum(m) == m[p] + Sum(m - {p});
    if p != k {
      SumTake(m - {p}, k);
      SumTake(m - {k}, p);
      assert m - {p} - {k} == m - {k} - {p};
    }
  }

  /** Adding a key, taking it away, and nothing else, changes the sum by its value. */
  lemma SumAdd<K>(m: map<K, nat>, k: K, v: nat, n: map<K, nat>)
    requires k !in m && n == m[k := v]
    ensures Sum(n) == Sum(m) + v
  {
    SumTake(n, k);
    assert n - {k} == m;
  }

  /** The hard quotas on an FPG. */
  function MibOn(quotas: map<Qid, Quota>, f: Fpg): map<Qid, nat> {
    map q | q in quotas && quotas[q].fpg == f :: quotas[q].mib
  }

  ghost function Used(quotas: map<Qid, Quota>, f: Fpg): real {
    Gib(Sum(MibOn(quotas, f)))
  }

  /** A new quota counts once, on its own FPG only. */
  lemma UsedAdd(quotas: map<Qid, Quota>, q: Qid, quota: Quota, f: Fpg)
    requires q !in quotas
    ensures Sum(MibOn(quotas[q := quota], f)) == Sum(MibOn(quotas, f)) + if quota.fpg == f then quota.mib else 0
  {
    var m, n := MibOn(quotas, f), MibOn(quotas[q := quota], f);
    if quota.fpg == f {
      assert n == m[q := quota.mib];
      SumAdd(m, q, quota.mib, n);
    } else {
      assert n == m;
    }
  }

  lemma UsedDrop(quotas: map<Qid, Quota>, q: Qid, f: Fpg)
    requires q in quotas
    ensures Sum(MibOn(quotas, f)) == Sum(MibOn(quotas - {q}, f)) + if quotas[q].fpg == f then quotas[q].mib else 0
  {
    UsedAdd(quotas - {q}, q, quotas[q], f);
    assert (quotas - {q})[q := quotas[q]] == quotas;
  }

  /** _get_fpg_available_capacity: the loop over the quotas the array lists for the FPG. */
  method AvailableCapacity(quotas: map<Qid, Quota>, f: Fpg, gib: real) returns (available: real)
    ensures available * 1024.0 == gib * 1024.0 - Sum(MibOn(quotas, f)) as real
    ensures available == gib - Used(quotas, f)
  {
    var used, members := 0.0, MibOn(quotas, f);
    while members != map[]
      invariant used + Gib(Sum(members)) == Used(quotas, f)
      decreases |members|
    {
      var q :| q in members;
      SumTake(members, q);
      used := used + members[q] as real / 1024.0;
      members := members - {q};
    }
    available := gib - used;
  }

  // ---- interleaved creations and deletions ----

  /** A creating thread holds its CPG's lock; once Checked it has settled on an FPG. */
  datatype Phase = Holding(cpg: Cpg, mib: nat) | Checked(cpg: Cpg, mib: nat, fpg: Fpg)

  /** What the array holds, and which FPGs etcd lists for a CPG, as default FPGs or with metadata of their own. */
  datatype State = State(spaces: map<Fpg, Space>, listed: set<(Cpg, Fpg)>, quotas: map<Qid, Quota>,
                         threads: map<Thread, Phase>)

  /** An FPG leaves the array before etcd: DeleteFpg, then Unlist. */
  datatype Step =
    | Acquire(t: Thread, cpg: Cpg, mib: nat)
    | CheckRoom(t: Thread, fpg: Fpg)
    | MakeFpg(t: Thread, fpg: Fpg, gib: real, saved: bool)
    | SetQuota(t: Thread, id: Qid)
    | QuotaRefused(t: Thread)
    | ReleaseLock(t: Thread)
    | DeleteStore(id: Qid)
    | DeleteFpg(fpg: Fpg)
    | Unlist(cpg: Cpg, fpg: Fpg)

  /** A check compares CPGs only for an FPG that etcd does not list for the CPG. `limit` is the size of new FPGs
      in GiB, which no requested share may exceed. */
  ghost predicate Enabled(s: State, step: Step, limit: real) {
    match step
    case Acquire(t, cpg, mib) =>
      t !in s.threads && Gib(mib) <= limit && forall u :: u in s.threads ==> s.threads[u].cpg != cpg
    case CheckRoom(t, f) =>
      && t in s.threads && s.threads[t].Holding? && f in s.spaces
      && ((s.threads[t].cpg, f) in s.listed || s.spaces[f].cpg == s.threads[t].cpg)
      && s.spaces[f].gib - Used(s.quotas, f) >= Gib(s.threads[t].mib)
    case MakeFpg(t, f, gib, _) =>
      && t in s.threads && s.threads[t].Holding? && f !in s.spaces && gib >= limit
      && Gib(s.threads[t].mib) <= limit && MibOn(s.quotas, f) == map[]
    case SetQuota(t, q) => t in s.threads && s.threads[t].Checked? && s.threads[t].fpg in s.spaces && q !in s.quotas
    case QuotaRefused(t) => t in s.threads && s.threads[t].Checked?
    case ReleaseLock(t) => t in s.threads
    case DeleteStore(q) => q in s.quotas
    case DeleteFpg(f) => f in s.spaces && MibOn(s.quotas, f) == map[]
    case Unlist(cpg, f) => (cpg, f) in s.listed
  }

  function Settled(p: Phase, f: Fpg): Phase {
    Checked(p.cpg, p.mib, f)
  }

  function Apply(s: State, step: Step): State
    requires step.CheckRoom? || step.MakeFpg? || step.SetQuota? || step.QuotaRefused? ==> step.t in s.threads
    requires step.SetQuota? ==> s.threads[step.t].Checked?
  {
    match step
    case Acquire(t, cpg, mib) => s.(threads := s.threads[t := Holding(cpg, mib)])
    case CheckRoom(t, f) => s.(threads := s.threads[t := Settled(s.threads[t], f)])
    case MakeFpg(t, f, gib, saved) =>
      var made := s.(spaces := s.spaces[f := Space(s.threads[t].cpg, gib)]);
      if saved then made.(listed := s.listed + {(s.threads[t].cpg, f)},
                          threads := s.threads[t := Settled(s.threads[t], f)])
      else made
    case SetQuota(t, q) =>
      s.(quotas := s.quotas[q := Quota(s.threads[t].fpg, s.threads[t].mib)],
         threads := s.threads[t := Holding(s.threads[t].cpg, s.threads[t].mib)])
    case QuotaRefused(t) => s.(threads := s.threads[t := Holding(s.threads[t].cpg, s.threads[t].mib)])
    case ReleaseLock(t) => s.(threads := s.threads - {t})
    case DeleteStore(q) => s.(quotas := s.quotas - {q})
    case DeleteFpg(f) => s.(spaces := s.spaces - {f})
    case Unlist(cpg, f) => s.(listed := s.listed - {(cpg, f)})
  }

  /** In MiB: a check of a known FPG lets a thread go on if and only if its share has room beside the quotas. */
  lemma CheckInMib(s: State, t: Thread, f: Fpg, limit: real)
    requires t in s.threads && s.threads[t].Holding? && f in s.spaces
    requires (s.threads[t].cpg, f) in s.listed || s.spaces[f].cpg == s.threads[t].cpg
    ensures Enabled(s, CheckRoom(t, f), limit) <==>
              (Sum(MibOn(s.quotas, f)) + s.threads[t].mib) as real <= 1024.0 * s.spaces[f].gib
  {
  }

  /** A new FPG has no quotas yet and is large enough for the share it is made for. */
  lemma MadeInMib(s: State, t: Thread, f: Fpg, gib: real, saved: bool, limit: real)
    requires Enabled(s, MakeFpg(t, f, gib, saved), limit)
    ensures t in s.threads && (Sum(MibOn(s.quotas, f)) + s.threads[t].mib) as real <= 1024.0 * gib
  {
    assert Sum(MibOn(s.quotas, f)) == 0;
  }

  // ---- room ----

  /** What threads have settled on an FPG and not yet written. */
  function PendingOn(threads: map<Thread, Phase>, f: Fpg): map<Thread, nat> {
    map t | t in threads && threads[t].Checked? && threads[t].fpg == f :: threads[t].mib
  }

  /** MiB of the quotas on an FPG and of the shares that threads have settled on it. */
  ghost function Load(s: State, f: Fpg): nat {
    Sum(MibOn(s.quotas, f)) + Sum(PendingOn(s.threads, f))
  }

  ghost predicate WithinCapacity(s: State, f: Fpg) {
    f in s.spaces ==> Used(s.quotas, f) <= s.spaces[f].gib
  }

  ghost predicate RoomOn(s: State, f: Fpg) {
    f in s.spaces ==> Gib(Load(s, f)) <= s.spaces[f].gib
  }

  lemma RoomInMib(s: State, f: Fpg)
    requires f in s.spaces
    ensures WithinCapacity(s, f) <==> Sum(MibOn(s.quotas, f)) as real <= 1024.0 * s.spaces[f].gib
    ensures RoomOn(s, f) <==>
              (Sum(MibOn(s.quotas, f)) + Sum(PendingOn(s.threads, f))) as real <= 1024.0 * s.spaces[f].gib
  {
  }

  /** Every FPG has room for all the shares that threads have settled on it. */
  ghost predicate Room(s: State) {
    forall f :: RoomOn(s, f)
  }

  /** A thread that settles on an FPG fits beside the others that have, and a new FPG is large enough for those that
      settled on its name. */
  ghost predicate FitsBeside(s: State, step: Step) {
    match step
    case CheckRoom(t, f) =>
      t in s.threads && f in s.spaces ==> Gib(Load(s, f) + s.threads[t].mib) <= s.spaces[f].gib
    case MakeFpg(t, f, gib, saved) =>
      t in s.threads ==> Gib(Load(s, f) + if saved then s.threads[t].mib else 0) <= gib
    case _ => true
  }

  lemma PendingAdd(threads: map<Thread, Phase>, t: Thread, p: Phase, f: Fpg)
    requires t in threads ==> threads[t].Holding?
    ensures Sum(PendingOn(threads[t := p], f))
         == Sum(PendingOn(threads, f)) + if p.Checked? && p.fpg == f then p.mib else 0
  {
    var m, n := PendingOn(threads, f), PendingOn(threads[t := p], f);
    if p.Checked? && p.fpg == f {
      assert n == m[t := p.mib];
      SumAdd(m, t, p.mib, n);
    } else {
      assert n == m;
    }
  }

  /** A thread that settles no more, or goes, takes its own share with it. */
  lemma PendingDrop(threads: map<Thread, Phase>, t: Thread, after: map<Thread, Phase>, f: Fpg)
    requires t in threads && (after == threads - {t} || exists c, m :: after == threads[t := Holding(c, m)])
    ensures Sum(PendingOn(threads, f))
         == Sum(PendingOn(after, f)) + if threads[t].Checked? && threads[t].fpg == f then threads[t].mib else 0
  {
    PendingAdd(after, t, threads[t], f);
    assert after[t := threads[t]] == threads;
  }

  /** Writing a quota moves its share from the settled ones to the used ones. */
  lemma SetQuotaLoad(s: State, t: Thread, q: Qid, limit: real, f: Fpg)
    requires Enabled(s, SetQuota(t, q), limit)
    ensures Load(Apply(s, SetQuota(t, q)), f) == Load(s, f)
  {
    UsedAdd(s.quotas, q, Quota(s.threads[t].fpg, s.threads[t].mib), f);
    PendingDrop(s.threads, t, Apply(s, SetQuota(t, q)).threads, f);
  }

  /** The share that a thread has settled on the FPG. */
  function Settles(s: State, t: Thread, f: Fpg): nat {
    if t in s.threads && s.threads[t].Checked? && s.threads[t].fpg == f then s.threads[t].mib else 0
  }

  /** What a step adds to the load of an FPG, and what it takes off. */
  function Gains(s: State, step: Step, f: Fpg): nat {
    match step
    case CheckRoom(t, g) => if t in s.threads && g == f then s.threads[t].mib else 0
    case MakeFpg(t, g, _, saved) => if t in s.threads && g == f && saved then s.threads[t].mib else 0
    case _ => 0
  }

  function Loses(s: State, step: Step, f: Fpg): nat {
    match step
    case QuotaRefused(t) => Settles(s, t, f)
    case ReleaseLock(t) => Settles(s, t, f)
    case DeleteStore(q) => if q in s.quotas && s.quotas[q].fpg == f then s.quotas[q].mib else 0
    case _ => 0
  }

  /** The load of an FPG after a step: a share comes when a thread settles on the FPG, and goes when the thread gives up
      or its file store is deleted. */
  lemma StepLoad(s: State, step: Step, limit: real, f: Fpg)
    requires Enabled(s, step, limit)
    ensures Load(Apply(s, step), f) + Loses(s, step, f) == Load(s, f) + Gains(s, step, f)
  {
    var s' := Apply(s, step);
    match step
    case Acquire(t, cpg, mib) => PendingAdd(s.threads, t, Holding(cpg, mib), f);
    case CheckRoom(t, g) => PendingAdd(s.threads, t, s'.threads[t], f);
    case MakeFpg(t, g, _, saved) =>
      if saved {
        PendingAdd(s.threads, t, s'.threads[t], f);
      }
    case SetQuota(t, q) => SetQuotaLoad(s, t, q, limit, f);
    case QuotaRefused(t) => PendingDrop(s.threads, t, s'.threads, f);
    case ReleaseLock(t) => PendingDrop(s.threads, t, s'.threads, f);
    case DeleteStore(q) => UsedDrop(s.quotas, q, f);
    case _ =>
  }

  lemma GibUp(a: nat, b: nat)
    requires a <= b
    ensures Gib(a) <= Gib(b)
  {
  }

  /** A step keeps room for every share settled on if and only if what it settles fits beside the others. */
  lemma StepKeepsRoom(s: State, step: Step, limit: real)
    requires Room(s) && Enabled(s, step, limit)
    ensures Room(Apply(s, step)) <==> FitsBeside(s, step)
  {
    var s' := Apply(s, step);
    if FitsBeside(s, step) {
      forall f
        ensures RoomOn(s', f)
      {
        assert RoomOn(s, f);
        StepLoad(s, step, limit, f);
        if Load(s', f) <= Load(s, f) {
          GibUp(Load(s', f), Load(s, f));
        }
      }
    } else {
      StepLoad(s, step, limit, step.fpg);
      if step.MakeFpg? && !step.saved {
        assert Load(s', step.fpg) == Load(s, step.fpg);
      }
      assert !RoomOn(s', step.fpg);
    }
  }

  lemma RoomIsCapacity(s: State, f: Fpg)
    requires RoomOn(s, f)
    ensures WithinCapacity(s, f)
  {
    GibUp(Sum(MibOn(s.quotas, f)), Load(s, f));
  }

  lemma {:induction false} FreshId(ids: set<Qid>) returns (q: Qid)
    ensures forall i :: i in ids ==> i < q
    decreases |ids|
  {
    if ids == {} {
      q := 0;
    } else {
      var i :| i in ids;
      var p := FreshId(ids - {i});
      q := if i < p then p else i + 1;
      assert ids == (ids - {i}) + {i};
    }
  }

  predicate OnlyQuotas(steps: seq<Step>) {
    forall i :: 0 <= i < |steps| ==> steps[i].SetQuota?
  }

  /** Without room, the threads that have settled on the FPG write their quotas one after the other. */
  lemma {:induction false} AllSet(states: seq<State>, steps: seq<Step>, limit: real, f: Fpg)
    returns (states': seq<State>, steps': seq<Step>)
    requires Run(states, steps, limit) && OnlyQuotas(steps) && !RoomOn(states[|steps|], f)
    ensures Run(states', steps', limit) && OnlyQuotas(steps') && states'[0] == states[0]
    ensures !WithinCapacity(states'[|steps'|], f)
    decreases |PendingOn(states[|steps|].threads, f)|
  {
    var s := states[|steps|];
    if PendingOn(s.threads, f) == map[] {
      states', steps' := states, steps;
    } else {
      var t :| t in PendingOn(s.threads, f);
      var q := FreshId(s.quotas.Keys);
      SetQuotaLoad(s, t, q, limit, f);
      states' := RunOn(states, steps, SetQuota(t, q), limit);
      steps' := steps + [SetQuota(t, q)];
      assert PendingOn(states'[|steps'|].threads, f) == PendingOn(s.threads, f) - {t};
      states', steps' := AllSet(states', steps', limit, f);
    }
  }

  lemma {:induction false} QuotasKeepRoom(states: seq<State>, steps: seq<Step>, limit: real, k: nat)
    requires Run(states, steps, limit) && OnlyQuotas(steps) && k <= |steps| && Room(states[0])
    ensures Room(states[k])
  {
    if k > 0 {
      QuotasKeepRoom(states, steps, limit, k - 1);
      StepKeepsRoom(states[k - 1], steps[k - 1], limit);
    }
  }

  /** Room is exactly what is needed: whatever quotas the settled threads write next, every FPG stays within its
      capacity if and only if there is room for all of them. */
  lemma RoomIsExact(s: State, limit: real)
    ensures Room(s) <==> forall states, steps, f :: Run(states, steps, limit) && OnlyQuotas(steps) && states[0] == s
                                                    ==> WithinCapacity(states[|steps|], f)
  {
    if Room(s) {
      forall states, steps, f | Run(states, steps, limit) && OnlyQuotas(steps) && states[0] == s
        ensures WithinCapacity(states[|steps|], f)
      {
        QuotasKeepRoom(states, steps, limit, |steps|);
        RoomIsCapacity(states[|steps|], f);
      }
    } else {
      var f :| !RoomOn(s, f);
      var states, steps := AllSet([s], [], limit, f);
    }
  }

  // ---- the conditions under which a check suffices ----

  /** No FPG is created under a name that another creation has just settled on. */
  ghost predicate NoReuse(s: State, step: Step) {
    step.MakeFpg? ==> forall u :: u in s.threads && s.threads[u].Checked? ==> s.threads[u].fpg != step.fpg
  }

  /** A check looks only at FPGs of the CPG that the thread has locked. */
  ghost predicate OwnCpg(s: State, step: Step) {
    step.CheckRoom? && step.t in s.threads && step.fpg in s.spaces ==> s.spaces[step.fpg].cpg == s.threads[step.t].cpg
  }

  /** No FPG is created under a name that etcd lists for another CPG. */
  ghost predicate FreshName(s: State, step: Step) {
    step.MakeFpg? && step.t in s.threads ==> forall c :: (c, step.fpg) in s.listed ==> c == s.threads[step.t].cpg
  }

  ghost predicate Exclusive(s: State) {
    forall t, u :: t in s.threads && u in s.threads && t != u ==> s.threads[t].cpg != s.threads[u].cpg
  }

  /** The FPG a thread has settled on belongs to the CPG it has locked, if it is still there. */
  ghost predicate Owned(s: State, t: Thread) {
    t in s.threads && s.threads[t].Checked? && s.threads[t].fpg in s.spaces ==>
      s.spaces[s.threads[t].fpg].cpg == s.threads[t].cpg
  }

  ghost predicate Inv(s: State) {
    Exclusive(s) && Room(s) && forall t :: Owned(s, t)
  }

  /** What etcd lists for a CPG is an FPG of that CPG, or no longer on the array. */
  ghost predicate ListingsOk(s: State) {
    forall c, f :: (c, f) in s.listed && f in s.spaces ==> s.spaces[f].cpg == c
  }

  /** Under those conditions a check, which does not see what others have settled, suffices: they have locked other
      CPGs and so settled on other FPGs. */
  lemma CheckSuffices(s: State, step: Step, limit: real)
    requires Inv(s) && Enabled(s, step, limit) && NoReuse(s, step) && OwnCpg(s, step)
    ensures FitsBeside(s, step)
  {
    if step.CheckRoom? || step.MakeFpg? {
      assert forall u :: Owned(s, u);
      forall u | u in s.threads && u != step.t && s.threads[u].Checked?
        ensures s.threads[u].fpg != step.fpg
      {
        assert Owned(s, u);
      }
      assert PendingOn(s.threads, step.fpg) == map[];
    }
  }

  /** The conditions keep room, and with it that threads settle on their own CPG's FPGs. */
  lemma StepKeepsInv(s: State, step: Step, limit: real)
    requires Inv(s) && Enabled(s, step, limit) && NoReuse(s, step) && OwnCpg(s, step)
    ensures Inv(Apply(s, step))
  {
    CheckSuffices(s, step, limit);
    StepKeepsRoom(s, step, limit);
    forall u
      ensures Owned(Apply(s, step), u)
    {
      assert Owned(s, u);
    }
  }

  /** The listings stay right if and only if no FPG is made under a name listed for another CPG; and while they
      are right every check looks at an FPG of its own CPG. */
  lemma ListingsKept(s: State, step: Step, limit: real)
    requires ListingsOk(s) && Enabled(s, step, limit)
    ensures ListingsOk(Apply(s, step)) <==> FreshName(s, step)
    ensures OwnCpg(s, step)
  {
    if step.MakeFpg? && !FreshName(s, step) {
      var c :| (c, step.fpg) in s.listed && c != s.threads[step.t].cpg;
      assert (c, step.fpg) in Apply(s, step).listed;
    }
  }

  /** Once its entry has left etcd, an FPG that is not of the CPG is no longer checked for it. */
  lemma UnlistStopsChecks(s: State, cpg: Cpg, f: Fpg, t: Thread, limit: real)
    requires Enabled(s, Unlist(cpg, f), limit)
    ensures var s' := Apply(s, Unlist(cpg, f));
            t in s.threads && s.threads[t].cpg == cpg && Enabled(s', CheckRoom(t, f), limit) ==>
              s.spaces[f].cpg == cpg
    ensures s.threads == Apply(s, Unlist(cpg, f)).threads && s.spaces == Apply(s, Unlist(cpg, f)).spaces
  {
  }

  // ---- runs ----

  ghost predicate Run(states: seq<State>, steps: seq<Step>, limit: real) {
    && |states| == |steps| + 1
    && forall i :: 0 <= i < |steps| ==>
         Enabled(states[i], steps[i], limit) && states[i + 1] == Apply(states[i], steps[i])
  }

  /** An array within capacity, and no creation under way. */
  ghost predicate Quiet(s: State) {
    s.threads == map[] && forall f :: WithinCapacity(s, f)
  }

  lemma QuietInv(s: State)
    requires Quiet(s)
    ensures Inv(s)
  {
    forall f
      ensures RoomOn(s, f)
    {
      assert WithinCapacity(s, f) && PendingOn(s.threads, f) == map[];
    }
  }

  /** Every state up to the `k`th has room. */
  ghost predicate RoomUpTo(states: seq<State>, k: nat)
    requires k < |states|
  {
    forall i :: 0 <= i <= k ==> Room(states[i])
  }

  ghost predicate FitsUpTo(states: seq<State>, steps: seq<Step>, k: nat)
    requires k <= |steps| < |states|
  {
    forall i :: 0 <= i < k ==> FitsBeside(states[i], steps[i])
  }

  /** A run of creations and deletions by any number of threads keeps room for all shares settled on at every point
      up to `k` if and only if each of them fits beside the others when it is settled. */
  lemma {:induction false} RunRoom(states: seq<State>, steps: seq<Step>, limit: real, k: nat)
    requires Run(states, steps, limit) && k <= |steps| && Quiet(states[0])
    ensures RoomUpTo(states, k) <==> FitsUpTo(states, steps, k)
  {
    if k == 0 {
      QuietInv(states[0]);
    } else {
      RunRoom(states, steps, limit, k - 1);
      assert RoomUpTo(states, k) <==> RoomUpTo(states, k - 1) && Room(states[k]);
      assert FitsUpTo(states, steps, k) <==> FitsUpTo(states, steps, k - 1) && FitsBeside(states[k - 1], steps[k - 1]);
      if RoomUpTo(states, k - 1) {
        StepKeepsRoom(states[k - 1], steps[k - 1], limit);
      }
    }
  }

  /** No run brings the hard quotas of an FPG above its capacity, as long as no checked name is reused and no FPG of
      another CPG is checked. */
  lemma {:induction false} NeverOvercommitted(states: seq<State>, steps: seq<Step>, limit: real, k: nat)
    requires Run(states, steps, limit) && k < |states| && Quiet(states[0])
    requires forall i :: 0 <= i < k ==> NoReuse(states[i], steps[i]) && OwnCpg(states[i], steps[i])
    ensures Inv(states[k])
    ensures forall f :: f in states[k].spaces ==>
                          Sum(MibOn(states[k].quotas, f)) as real <= 1024.0 * states[k].spaces[f].gib
  {
    if k > 0 {
      NeverOvercommitted(states, steps, limit, k - 1);
      StepKeepsInv(states[k - 1], steps[k - 1], limit);
    } else {
      QuietInv(states[0]);
    }
    forall f | f in states[k].spaces
      ensures Sum(MibOn(states[k].quotas, f)) as real <= 1024.0 * states[k].spaces[f].gib
    {
      assert RoomOn(states[k], f);
      RoomIsCapacity(states[k], f);
    }
  }

  /** Both conditions hold when every FPG gets a name that nobody has checked and that etcd lists for no other
      CPG. A generated name can miss that: a user may have made an FPG of that name before. */
  lemma {:induction false} FreshNamesSuffice(states: seq<State>, steps: seq<Step>, limit: real, k: nat)
    requires Run(states, steps, limit) && k < |states| && Quiet(states[0]) && ListingsOk(states[0])
    requires forall i :: 0 <= i < k ==> NoReuse(states[i], steps[i]) && FreshName(states[i], steps[i])
    ensures ListingsOk(states[k]) && Inv(states[k])
    ensures forall i :: 0 <= i < k ==> OwnCpg(states[i], steps[i])
  {
    if k > 0 {
      FreshNamesSuffice(states, steps, limit, k - 1);
      ListingsKept(states[k - 1], steps[k - 1], limit);
      StepKeepsInv(states[k - 1], steps[k - 1], limit);
    } else {
      QuietInv(states[0]);
    }
  }

  // ---- two runs that go over capacity ----

  lemma RunOn(states: seq<State>, steps: seq<Step>, step: Step, limit: real) returns (more: seq<State>)
    requires Run(states, steps, limit) && Enabled(states[|steps|], step, limit)
    ensures Run(more, steps + [step], limit) && more[0] == states[0]
    ensures more[|steps| + 1] == Apply(states[|steps|], step)
    ensures forall i :: 0 <= i < |states| ==> more[i] == states[i]
  {
    more := states + [Apply(states[|steps|], step)];
  }

  const FULL := 8192

  /** Two threads have settled on "x", which has room for one of them: the rest of both runs. */
  lemma BothSet(states: seq<State>, steps: seq<Step>) returns (states': seq<State>, steps': seq<Step>)
    requires Run(states, steps, 8.0)
    requires var s := states[|steps|];
             && s.quotas == map[] && "x" in s.spaces && s.spaces["x"].gib == 8.0
             && s.threads == map[1 := Checked("a", FULL, "x"), 2 := Checked("b", FULL, "x")]
    ensures Run(states', steps', 8.0) && states'[0] == states[0]
    ensures steps' == steps + [SetQuota(2, 0), SetQuota(1, 1)]
    ensures forall i :: 0 <= i < |states| ==> states'[i] == states[i]
    ensures !WithinCapacity(states'[|steps'|], "x")
  {
    UsedAdd(map[], 0, Quota("x", FULL), "x");
    states' := RunOn(states, steps, SetQuota(2, 0), 8.0);
    steps' := steps + [SetQuota(2, 0)];
    UsedAdd(states'[|steps'|].quotas, 1, Quota("x", FULL), "x");
    states' := RunOn(states', steps', SetQuota(1, 1), 8.0);
    steps' := steps' + [SetQuota(1, 1)];
    assert steps' == steps + [SetQuota(2, 0), SetQuota(1, 1)];
  }

  /** The array holds FPG "x" of CPG "a", known to etcd. */
  function OneFpg(): State {
    State(map["x" := Space("a", 8.0)], {("a", "x")}, map[], map[])
  }

  lemma OneFpgOk()
    ensures Quiet(OneFpg()) && ListingsOk(OneFpg())
    ensures Run([OneFpg()], [], 8.0)
  {
    assert forall f :: MibOn(OneFpg().quotas, f) == map[];
  }

  lemma CheckedThenDeleted() returns (states: seq<State>, steps: seq<Step>)
    ensures Run(states, steps, 8.0) && states[0] == OneFpg()
    ensures forall i :: 0 <= i < |steps| ==> OwnCpg(states[i], steps[i])
    ensures states[|steps|] == State(map[], {("a", "x")}, map[], map[1 := Checked("a", FULL, "x")])
  {
    OneFpgOk();
    states := RunOn([OneFpg()], [], Acquire(1, "a", FULL), 8.0);
    steps := [] + [Acquire(1, "a", FULL)];
    states := RunOn(states, steps, CheckRoom(1, "x"), 8.0);
    steps := steps + [CheckRoom(1, "x")];
    states := RunOn(states, steps, DeleteFpg("x"), 8.0);
    steps := steps + [DeleteFpg("x")];
  }

  /** "x" is deleted after thread 1 has checked it, and made again for CPG "b": OwnCpg holds throughout. */
  lemma ReuseOvercommits() returns (states: seq<State>, steps: seq<Step>)
    ensures Run(states, steps, 8.0) && Quiet(states[0]) && ListingsOk(states[0])
    ensures forall i :: 0 <= i < |steps| ==> OwnCpg(states[i], steps[i])
    ensures !WithinCapacity(states[|steps|], "x")
  {
    OneFpgOk();
    states, steps := CheckedThenDeleted();
    states := RunOn(states, steps, Acquire(2, "b", FULL), 8.0);
    steps := steps + [Acquire(2, "b", FULL)];
    states := RunOn(states, steps, MakeFpg(2, "x", 8.0, true), 8.0);
    steps := steps + [MakeFpg(2, "x", 8.0, true)];
    states, steps := BothSet(states, steps);
  }

  lemma DeletedThenRemade() returns (states: seq<State>, steps: seq<Step>)
    ensures Run(states, steps, 8.0) && states[0] == OneFpg()
    ensures forall i :: 0 <= i < |steps| ==> NoReuse(states[i], steps[i])
    ensures states[|steps|] == State(map["x" := Space("b", 8.0)], {("a", "x"), ("b", "x")}, map[],
                                     map[2 := Checked("b", FULL, "x")])
  {
    OneFpgOk();
    states := RunOn([OneFpg()], [], DeleteFpg("x"), 8.0);
    steps := [] + [DeleteFpg("x")];
    states := RunOn(states, steps, Acquire(2, "b", FULL), 8.0);
    steps := steps + [Acquire(2, "b", FULL)];
    states := RunOn(states, steps, MakeFpg(2, "x", 8.0, true), 8.0);
    steps := steps + [MakeFpg(2, "x", 8.0, true)];
  }

  /** "x" is deleted and made again for CPG "b" before thread 1 checks it by the entry that CPG "a" still has in
      etcd: NoReuse holds throughout. */
  lemma StaleListingOvercommits() returns (states: seq<State>, steps: seq<Step>)
    ensures Run(states, steps, 8.0) && Quiet(states[0]) && ListingsOk(states[0])
    ensures forall i :: 0 <= i < |steps| ==> NoReuse(states[i], steps[i])
    ensures !WithinCapacity(states[|steps|], "x")
  {
    OneFpgOk();
    states, steps := DeletedThenRemade();
    states := RunOn(states, steps, Acquire(1, "a", FULL), 8.0);
    steps := steps + [Acquire(1, "a", FULL)];
    assert MibOn(states[|steps|].quotas, "x") == map[];
    states := RunOn(states, steps, CheckRoom(1, "x"), 8.0);
    steps := steps + [CheckRoom(1, "x")];
    states, steps := BothSet(states, steps);
  }
}
