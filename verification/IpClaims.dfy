/** The IP claim protocol over all interleavings of share-creating commands and delete threads:
    claim, VFS creation, mark, undo, and FPG deletion. Metadata changes are made under the backend
    lock; creating a VFS and deleting an FPG are not. A failed command gives up its CPG's lock before
    it undoes anything, so others can use its FPG meanwhile, and remove it with their last share. */
module IpClaims {
  import opened Util
  import opened BackendMetadata

  type Cmd = nat

  /** Where a command is in the life of its claim. */
  datatype Phase =
    | New
    | Opened                  // holds the lock, has read the metadata
    | Seen(onArray: set<Ip>)  // holds the lock, has also listed the addresses on the array
    | Claimed(ip: Ip)
    | WithVfs(ip: Ip)         // the VFS is there, the claim still in the locked list
    | Live(ip: Ip)            // marked in use
    | Failed(ip: Ip)          // some later command failed, the undo list runs
    | Dropped(ip: Ip)         // the claim is undone, the FPG not yet deleted
    | Freed(ip: Ip)           // the delete thread has removed the FPG, not yet the list entry
    | Gone

  datatype State = State(meta: Option<Meta>, phases: map<Cmd, Phase>, holder: Option<Cmd>,
                         vfs: map<Cmd, Ip>,   // the VFS on the FPG made by each command
                         foreign: set<Ip>)    // addresses of virtual file servers made by others

  datatype Step =
    | OpenClaim | ListArray | Choose(ip: Ip, netmask: string) | GiveUp
    | CreateVfs(made: bool, ok: bool) | Mark | FailLater
    | DropClaim | DeleteFpg | RemoveShare | ReleaseEntry(cpg: Cpg, fpg: Fpg)
    | Robbed                  // a delete thread of other shares removes the failed command's FPG
    | OtherChange(op: Op)     // an operation on the counter or the default FPGs, or another's release

  predicate Enabled(s: State, c: Cmd, step: Step, pool: seq<(string, set<Ip>)>) {
    && c in s.phases
    && var p := s.phases[c];
       match step
       case OpenClaim => p.New? && s.holder.None?
       case ListArray => p.Opened?
       case Choose(ip, netmask) => p.Seen? && Claimable(pool, p.onArray + Elems(Locked(s.meta)), ip, netmask)
       case GiveUp => p.Seen?
       case CreateVfs(made, ok) => p.Claimed? && (ok ==> made)
       case Mark => p.WithVfs? && s.holder.None?
       case FailLater => p.Claimed? || p.WithVfs? || p.Live?
       case DropClaim => p.Failed? && s.holder.None?
       case DeleteFpg => p.Dropped?
       case RemoveShare => p.Live?
       case ReleaseEntry(_, _) => p.Freed? && s.holder.None?
       case Robbed => (p.Failed? || p.Dropped?) && c in s.vfs
      case OtherChange(op) => s.holder.None? && (op.Generate? || op.SetDefault? || op.DropDefault? || op.Release?)
  }

  function OnArray(s: State): set<Ip> {
    s.foreign + s.vfs.Values
  }

  function To(s: State, c: Cmd, p: Phase): State {
    s.(phases := s.phases[c := p])
  }

  function Apply(s: State, c: Cmd, step: Step, pool: seq<(string, set<Ip>)>): State
    requires Enabled(s, c, step, pool)
  {
    var p := s.phases[c];
    match step
    case OpenClaim => To(s, c, Opened).(holder := Some(c), meta := Some(Initialized(s.meta)))
    case ListArray => To(s, c, Seen(OnArray(s)))
    case Choose(ip, _) => To(s, c, Claimed(ip)).(holder := None, meta := Some(WithLocked(s.meta, ip)))
    case GiveUp => To(s, c, Gone).(holder := None)
    case CreateVfs(made, ok) =>
      To(s, c, if ok then WithVfs(p.ip) else Failed(p.ip)).(vfs := if made then s.vfs[c := p.ip] else s.vfs)
    case Mark =>
      if Marked(s.meta, p.ip).Some? then To(s, c, Live(p.ip)).(meta := Marked(s.meta, p.ip)) else To(s, c, Failed(p.ip))
    case FailLater => To(s, c, Failed(p.ip))
    case DropClaim =>
      To(s, c, Dropped(p.ip)).(meta := if s.meta.None? then None else Some(Unclaimed(s.meta.value, p.ip)))
    case DeleteFpg => To(s, c, Gone).(vfs := s.vfs - {c})
    case RemoveShare => To(s, c, Freed(p.ip)).(vfs := s.vfs - {c})
    case ReleaseEntry(cpg, fpg) =>
      To(s, c, Gone).(meta := if s.meta.Some? && Released(s.meta.value, cpg, fpg, p.ip).Some?
                              then Released(s.meta.value, cpg, fpg, p.ip) else s.meta)
    case Robbed => s.(vfs := s.vfs - {c})
    case OtherChange(op) => s.(meta := Perform(s.meta, op))
  }

  /** The command's claim is alive: from the choice until it is undone or its FPG is removed. */
  predicate Alive(p: Phase) {
    p.Claimed? || p.WithVfs? || p.Live? || p.Failed?
  }

  /** The command holds an address: by a live claim, or by a VFS still on the array. */
  predicate Holds(s: State, c: Cmd, ip: Ip) {
    || (c in s.phases && Alive(s.phases[c]) && s.phases[c].ip == ip)
    || (c in s.vfs && s.vfs[c] == ip)
  }

  // ---- invariant ----

  ghost predicate CmdInv(s: State, c: Cmd) {
    && (s.holder == Some(c) <==> c in s.phases && (s.phases[c].Opened? || s.phases[c].Seen?))
    && (c in s.vfs ==>
          && c in s.phases && (s.phases[c].WithVfs? || s.phases[c].Live? || s.phases[c].Failed? || s.phases[c].Dropped?)
          && s.phases[c].ip == s.vfs[c])
    && (c in s.phases && (s.phases[c].Live? || s.phases[c].WithVfs?) ==> c in s.vfs)
    && (c in s.phases && Alive(s.phases[c]) ==> s.phases[c].ip in Locked(s.meta) || c in s.vfs)
    && (c in s.phases && (s.phases[c].Claimed? || s.phases[c].WithVfs?) ==> s.phases[c].ip in Locked(s.meta))
  }

  /** Two commands hold different addresses; and a command about to choose has seen or finds locked
      every address held by another. */
  ghost predicate PairInv(s: State, c: Cmd, d: Cmd) {
    c != d ==>
      && (forall ip :: !(Holds(s, c, ip) && Holds(s, d, ip)))
      && (c in s.phases && s.phases[c].Seen? ==>
            forall ip :: Holds(s, d, ip) ==> ip in s.phases[c].onArray || ip in Locked(s.meta))
  }

  ghost predicate ForeignInv(s: State, c: Cmd) {
    && (c in s.phases && s.phases[c].Seen? ==> s.foreign <= s.phases[c].onArray)
    && (forall ip :: Holds(s, c, ip) ==> ip !in s.foreign)
  }

  ghost predicate Inv(s: State) {
    && (forall c :: CmdInv(s, c) && ForeignInv(s, c))
    && (forall c, d :: PairInv(s, c, d))
  }

  ghost predicate Init(s: State) {
    (forall c :: c in s.phases ==> s.phases[c].New?) && s.holder.None? && s.vfs == map[]
  }

  /** A failed command's FPG is removed by others only when its claim is undone or was never marked. */
  predicate Harmless(s: State, c: Cmd, step: Step) {
    step.Robbed? && c in s.phases && s.phases[c].Failed? ==> s.phases[c].ip in Locked(s.meta)
  }

  /** Removing one address from a list keeps the others. */
  lemma {:induction false} OthersKept(list: seq<Ip>, ip: Ip, other: Ip)
    requires other != ip
    ensures other in RemoveFirst(list, ip) <==> other in list
  {
    if list != [] && list[0] != ip {
      OthersKept(list[1..], ip, other);
    }
  }

  /** A step takes no address but its own command's out of the locked list. */
  lemma LockedKept(s: State, c: Cmd, step: Step, pool: seq<(string, set<Ip>)>, ip: Ip)
    requires Enabled(s, c, step, pool) && ip in Locked(s.meta)
    requires !((step.Mark? || step.DropClaim?) && s.phases[c].ip == ip)
    ensures ip in Locked(Apply(s, c, step, pool).meta)
  {
    if step.Mark? || step.DropClaim? {
      OthersKept(Locked(s.meta), s.phases[c].ip, ip);
    }
  }

  lemma OwnCmd(s: State, c: Cmd, step: Step, pool: seq<(string, set<Ip>)>)
    requires CmdInv(s, c) && Enabled(s, c, step, pool)
    ensures CmdInv(Apply(s, c, step, pool), c) <==> Harmless(s, c, step)
  {
  }

  lemma OtherCmd(s: State, c: Cmd, step: Step, pool: seq<(string, set<Ip>)>, d: Cmd)
    requires CmdInv(s, c) && CmdInv(s, d) && PairInv(s, c, d) && c != d && Enabled(s, c, step, pool)
    ensures CmdInv(Apply(s, c, step, pool), d)
  {
    if d in s.phases && Alive(s.phases[d]) && s.phases[d].ip in Locked(s.meta) {
      assert Holds(s, d, s.phases[d].ip);
      assert (step.Mark? || step.DropClaim?) ==> Holds(s, c, s.phases[c].ip);
      LockedKept(s, c, step, pool, s.phases[d].ip);
    }
  }

  /** Addresses are gained only by choosing them. */
  lemma HoldsBefore(s: State, c: Cmd, step: Step, pool: seq<(string, set<Ip>)>, x: Cmd, ip: Ip)
    requires CmdInv(s, c) && Enabled(s, c, step, pool) && Holds(Apply(s, c, step, pool), x, ip)
    ensures Holds(s, x, ip) || (x == c && step.Choose? && step.ip == ip)
  {
  }

  lemma StepDistinct(s: State, c: Cmd, step: Step, pool: seq<(string, set<Ip>)>, d: Cmd, e: Cmd, ip: Ip)
    requires Inv(s) && Enabled(s, c, step, pool) && d != e
    ensures var s' := Apply(s, c, step, pool); !(Holds(s', d, ip) && Holds(s', e, ip))
  {
    var s' := Apply(s, c, step, pool);
    assert CmdInv(s, c) && PairInv(s, d, e) && PairInv(s, c, d) && PairInv(s, c, e);
    if Holds(s', d, ip) && Holds(s', e, ip) {
      HoldsBefore(s, c, step, pool, d, ip);
      HoldsBefore(s, c, step, pool, e, ip);
    }
  }

  /** Under a chooser's lock, what others hold stays seen or locked. */
  lemma StepSeen(s: State, c: Cmd, step: Step, pool: seq<(string, set<Ip>)>, d: Cmd, e: Cmd, ip: Ip)
    requires Inv(s) && Enabled(s, c, step, pool) && d != e
    requires var s' := Apply(s, c, step, pool);
             d in s'.phases && s'.phases[d].Seen? && Holds(s', e, ip)
    ensures var s' := Apply(s, c, step, pool); ip in s'.phases[d].onArray || ip in Locked(s'.meta)
  {
    var s' := Apply(s, c, step, pool);
    assert CmdInv(s, c) && CmdInv(s, d) && CmdInv(s, e) && PairInv(s, d, e);
    HoldsBefore(s, c, step, pool, e, ip);
    if d == c {
      if e in s.vfs {
        assert s.vfs[e] in s.vfs.Values;
      }
    }
  }

  lemma StepForeign(s: State, c: Cmd, step: Step, pool: seq<(string, set<Ip>)>, d: Cmd)
    requires Inv(s) && Enabled(s, c, step, pool)
    ensures ForeignInv(Apply(s, c, step, pool), d)
  {
    var s' := Apply(s, c, step, pool);
    assert CmdInv(s, c) && ForeignInv(s, c) && ForeignInv(s, d);
    forall ip | Holds(s', d, ip)
      ensures ip !in s'.foreign
    {
      HoldsBefore(s, c, step, pool, d, ip);
    }
  }

  lemma HarmlessKeepsInv(s: State, c: Cmd, step: Step, pool: seq<(string, set<Ip>)>)
    requires Inv(s) && Enabled(s, c, step, pool) && Harmless(s, c, step)
    ensures Inv(Apply(s, c, step, pool))
  {
    var s' := Apply(s, c, step, pool);
    forall d
      ensures CmdInv(s', d) && ForeignInv(s', d)
    {
      assert CmdInv(s, c) && CmdInv(s, d) && PairInv(s, c, d);
      if c == d {
        OwnCmd(s, c, step, pool);
      } else {
        OtherCmd(s, c, step, pool, d);
      }
      StepForeign(s, c, step, pool, d);
    }
    forall d, e
      ensures PairInv(s', d, e)
    {
      if d != e {
        forall ip
          ensures !(Holds(s', d, ip) && Holds(s', e, ip))
        {
          StepDistinct(s, c, step, pool, d, e, ip);
        }
        forall ip | d in s'.phases && s'.phases[d].Seen? && Holds(s', e, ip)
          ensures ip in s'.phases[d].onArray || ip in Locked(s'.meta)
        {
          StepSeen(s, c, step, pool, d, e, ip);
        }
      }
    }
  }

  lemma StepKeepsInv(s: State, c: Cmd, step: Step, pool: seq<(string, set<Ip>)>)
    requires Inv(s) && Enabled(s, c, step, pool)
    ensures Inv(Apply(s, c, step, pool)) <==> Harmless(s, c, step)
  {
    assert CmdInv(s, c);
    OwnCmd(s, c, step, pool);
    if Harmless(s, c, step) {
      HarmlessKeepsInv(s, c, step, pool);
    } else {
      assert !CmdInv(Apply(s, c, step, pool), c);
    }
  }

  // ---- runs ----

  /** The order in which a failed command undoes: its claim before its FPG, as the code does, or the FPG first. */
  datatype Order = ClaimFirst | FpgFirst

  predicate EnabledIn(order: Order, s: State, c: Cmd, step: Step, pool: seq<(string, set<Ip>)>) {
    if order == FpgFirst && step.DeleteFpg? then c in s.phases && s.phases[c].Failed?
    else if order == FpgFirst && step.DropClaim? then c in s.phases && s.phases[c].Dropped? && s.holder.None?
    else Enabled(s, c, step, pool)
  }

  function ApplyIn(order: Order, s: State, c: Cmd, step: Step, pool: seq<(string, set<Ip>)>): State
    requires EnabledIn(order, s, c, step, pool)
  {
    if order == FpgFirst && step.DeleteFpg? then To(s, c, Dropped(s.phases[c].ip)).(vfs := s.vfs - {c})
    else if order == FpgFirst && step.DropClaim? then
      To(s, c, Gone).(meta := if s.meta.None? then None else Some(Unclaimed(s.meta.value, s.phases[c].ip)))
    else Apply(s, c, step, pool)
  }

  datatype Event = Event(c: Cmd, step: Step, pool: seq<(string, set<Ip>)>)

  ghost predicate RunIn(order: Order, states: seq<State>, events: seq<Event>) {
    && |states| == |events| + 1 && Init(states[0])
    && forall i :: 0 <= i < |events| ==>
         && EnabledIn(order, states[i], events[i].c, events[i].step, events[i].pool)
         && states[i + 1] == ApplyIn(order, states[i], events[i].c, events[i].step, events[i].pool)
  }

  ghost predicate Run(states: seq<State>, events: seq<Event>) {
    RunIn(ClaimFirst, states, events)
  }

  /** Nobody removes a failed command's FPG, up to step `k`, while the marked claim is still to be undone. */
  ghost predicate HarmlessRun(states: seq<State>, events: seq<Event>, k: nat)
    requires k <= |events| < |states|
  {
    forall i :: 0 <= i < k ==> Harmless(states[i], events[i].c, events[i].step)
  }

  lemma {:induction false} RunInv(states: seq<State>, events: seq<Event>, k: nat)
    requires Run(states, events) && k <= |events| && HarmlessRun(states, events, k)
    ensures Inv(states[k])
  {
    if k > 0 {
      RunInv(states, events, k - 1);
      StepKeepsInv(states[k - 1], events[k - 1].c, events[k - 1].step, events[k - 1].pool);
    }
  }

  /** At every point of such a run: no two commands hold the same address, none holds a foreign
      one, and a live claim's address is in the locked list or on its VFS. */
  lemma ClaimsAreUnique(states: seq<State>, events: seq<Event>, k: nat, c: Cmd, d: Cmd, ip: Ip)
    requires Run(states, events) && k <= |events| && HarmlessRun(states, events, k) && Holds(states[k], c, ip)
    ensures c != d ==> !Holds(states[k], d, ip)
    ensures ip !in states[k].foreign
    ensures ip in Locked(states[k].meta) || (c in states[k].vfs && states[k].vfs[c] == ip)
  {
    RunInv(states, events, k);
    var s := states[k];
    assert CmdInv(s, c) && ForeignInv(s, c) && PairInv(s, c, d);
  }

  /** In such a run the mark finds its address in the locked list. */
  lemma MarkSucceeds(states: seq<State>, events: seq<Event>, k: nat)
    requires Run(states, events) && k < |events| && HarmlessRun(states, events, k) && events[k].step.Mark?
    ensures states[k + 1].phases[events[k].c].Live?
  {
    RunInv(states, events, k);
    assert CmdInv(states[k], events[k].c);
  }

  // ---- no address stays locked ----

  /** The claim is made and neither marked nor undone. */
  predicate Pending(p: Phase) {
    p.Claimed? || p.WithVfs? || p.Failed?
  }

  ghost predicate PendingOn(s: State, ip: Ip) {
    exists c :: c in s.phases && Pending(s.phases[c]) && s.phases[c].ip == ip
  }

  /** The address is on the list once at most, and only while some command's claim is pending. */
  ghost predicate Accounted(s: State, ip: Ip) {
    multiset(Locked(s.meta))[ip] <= 1 && (ip in Locked(s.meta) ==> PendingOn(s, ip))
  }

  lemma OpKeepsLocked(meta: Option<Meta>, op: Op)
    requires op.Generate? || op.SetDefault? || op.DropDefault? || op.Release?
    ensures Locked(Perform(meta, op)) == Locked(meta)
  {
  }

  lemma QuietLocked(s: State, c: Cmd, step: Step, pool: seq<(string, set<Ip>)>)
    requires Enabled(s, c, step, pool) && !step.Choose? && !step.Mark? && !step.DropClaim?
    ensures Locked(Apply(s, c, step, pool).meta) == Locked(s.meta)
  {
    match step
    case OtherChange(op) => OpKeepsLocked(s.meta, op);
    case ReleaseEntry(cpg, fpg) => OpKeepsLocked(s.meta, Op.Release(cpg, fpg, s.phases[c].ip));
    case _ =>
  }

  /** What a step does to the locked list. */
  lemma StepLocked(s: State, c: Cmd, step: Step, pool: seq<(string, set<Ip>)>)
    requires Enabled(s, c, step, pool)
    ensures multiset(Locked(Apply(s, c, step, pool).meta)) ==
            if step.Choose? then multiset(Locked(s.meta)) + multiset{step.ip}
            else if step.Mark? || step.DropClaim? then multiset(Locked(s.meta)) - multiset{s.phases[c].ip}
            else multiset(Locked(s.meta))
  {
    if step.Choose? {
      assert Locked(Apply(s, c, step, pool).meta) == Locked(s.meta) + [step.ip];
    } else if step.Mark? || step.DropClaim? {
      RemoveFirstMultiset(Locked(s.meta), s.phases[c].ip);
      ClaimLeavesLocked(s, c, step, pool);
    } else {
      QuietLocked(s, c, step, pool);
    }
  }

  lemma ClaimLeavesLocked(s: State, c: Cmd, step: Step, pool: seq<(string, set<Ip>)>)
    requires Enabled(s, c, step, pool) && (step.Mark? || step.DropClaim?)
    ensures Locked(Apply(s, c, step, pool).meta) == RemoveFirst(Locked(s.meta), s.phases[c].ip)
  {
    RemoveAbsent(Locked(s.meta), s.phases[c].ip);
  }

  /** A pending claim stays one until it is marked or undone. */
  lemma StepPending(s: State, c: Cmd, step: Step, pool: seq<(string, set<Ip>)>, ip: Ip)
    requires Enabled(s, c, step, pool) && PendingOn(s, ip)
    requires !((step.Mark? || step.DropClaim?) && s.phases[c].ip == ip)
    ensures PendingOn(Apply(s, c, step, pool), ip)
  {
    var d :| d in s.phases && Pending(s.phases[d]) && s.phases[d].ip == ip;
    var s' := Apply(s, c, step, pool);
    assert d in s'.phases && Pending(s'.phases[d]) && s'.phases[d].ip == ip;
  }

  lemma StepAccounted(s: State, c: Cmd, step: Step, pool: seq<(string, set<Ip>)>, ip: Ip)
    requires Enabled(s, c, step, pool) && Accounted(s, ip)
    ensures Accounted(Apply(s, c, step, pool), ip)
  {
    var s' := Apply(s, c, step, pool);
    StepLocked(s, c, step, pool);
    assert ip in Locked(s'.meta) <==> ip in multiset(Locked(s'.meta));
    assert ip in Locked(s.meta) <==> ip in multiset(Locked(s.meta));
    if step.Choose? && step.ip == ip {
      assert ip !in Locked(s.meta) && Pending(s'.phases[c]);
    } else if ip in Locked(s'.meta) {
      StepPending(s, c, step, pool, ip);
    }
  }

  /** In every run, whatever fails and whatever others remove: an address that was not locked at the start is locked
      once at most, and only while some command's claim is pending. So no address is lost to the pool. */
  lemma {:induction false} NoLockLeaks(states: seq<State>, events: seq<Event>, k: nat, ip: Ip)
    requires Run(states, events) && k <= |events| && ip !in Locked(states[0].meta)
    ensures Accounted(states[k], ip)
  {
    if k == 0 {
      assert multiset(Locked(states[0].meta))[ip] == 0;
    } else {
      NoLockLeaks(states, events, k - 1, ip);
      StepAccounted(states[k - 1], events[k - 1].c, events[k - 1].step, events[k - 1].pool, ip);
    }
  }

  // ---- a harmful removal ends with two holders ----

  lemma Extend(order: Order, states: seq<State>, events: seq<Event>, c: Cmd, step: Step, pool: seq<(string, set<Ip>)>)
    returns (states': seq<State>, events': seq<Event>)
    requires RunIn(order, states, events) && EnabledIn(order, states[|events|], c, step, pool)
    ensures RunIn(order, states', events') && events' == events + [Event(c, step, pool)] && states <= states'
    ensures states'[|events'|] == ApplyIn(order, states[|events|], c, step, pool)
  {
    states' := states + [ApplyIn(order, states[|events|], c, step, pool)];
    events' := events + [Event(c, step, pool)];
  }

  function OneAddress(ip: Ip): seq<(string, set<Ip>)> {
    [("net", {ip})]
  }

  /** A claim of the pool's one address, by a command that has done nothing yet. */
  lemma ClaimOne(order: Order, states: seq<State>, events: seq<Event>, c: Cmd, ip: Ip)
    returns (states': seq<State>, events': seq<Event>)
    requires RunIn(order, states, events)
    requires var s := states[|events|];
             c in s.phases && s.phases[c].New? && s.holder.None? && ip !in OnArray(s) && ip !in Locked(s.meta)
    ensures RunIn(order, states', events') && events <= events' && states <= states'
    ensures forall i :: |events| <= i < |events'| ==> !events'[i].step.Robbed?
    ensures var s := states[|events|];
            states'[|events'|] == To(s, c, Claimed(ip)).(meta := Some(WithLocked(s.meta, ip)))
  {
    var s, pool := states[|events|], OneAddress(ip);
    states', events' := Extend(order, states, events, c, OpenClaim, pool);
    states', events' := Extend(order, states', events', c, ListArray, pool);
    var seen := states'[|events'|];
    assert pool[0].0 == "net" && ip in pool[0].1 && seen.phases[c] == Seen(OnArray(s));
    assert Locked(seen.meta) == Locked(s.meta);
    states', events' := Extend(order, states', events', c, Choose(ip, "net"), pool);
    assert states'[|events'|].phases == s.phases[c := Claimed(ip)];
  }

  /** Whoever holds the backend lock for a claim can give it up. */
  lemma LockGivenUp(states: seq<State>, events: seq<Event>) returns (states': seq<State>, events': seq<Event>)
    requires Run(states, events)
    requires var s := states[|events|];
             s.holder.Some? ==> CmdInv(s, s.holder.value)
    ensures Run(states', events') && events <= events' && states <= states'
    ensures var s, s' := states[|events|], states'[|events'|];
            && s'.holder.None? && s'.meta == s.meta && s'.vfs == s.vfs && s'.foreign == s.foreign
            && s'.phases.Keys == s.phases.Keys
            && forall c :: c in s.phases && !s.phases[c].Opened? && !s.phases[c].Seen? ==> s'.phases[c] == s.phases[c]
  {
    states', events' := states, events;
    var s := states[|events|];
    if s.holder.Some? {
      var x := s.holder.value;
      if s.phases[x].Opened? {
        states', events' := Extend(ClaimFirst, states', events', x, ListArray, []);
      }
      states', events' := Extend(ClaimFirst, states', events', x, GiveUp, []);
    }
  }

  /** The command `c` has failed, its FPG is gone and its address claimable, and two others have yet to start. */
  ghost predicate Exposed(s: State, c: Cmd, d: Cmd, e: Cmd, ip: Ip) {
    && c in s.phases && s.phases[c] == Failed(ip) && ip !in OnArray(s) && ip !in Locked(s.meta)
    && d != e && d in s.phases && s.phases[d].New? && e in s.phases && s.phases[e].New?
  }

  lemma HarmExposes(s: State, c: Cmd, d: Cmd, e: Cmd, pool: seq<(string, set<Ip>)>)
    requires Inv(s) && Enabled(s, c, Robbed, pool) && !Harmless(s, c, Robbed)
    requires d != e && d in s.phases && s.phases[d].New? && e in s.phases && s.phases[e].New?
    ensures Exposed(Apply(s, c, Robbed, pool), c, d, e, s.phases[c].ip)
  {
    var ip := s.phases[c].ip;
    var s' := Apply(s, c, Robbed, pool);
    assert CmdInv(s, c) && ForeignInv(s, c) && Holds(s, c, ip);
    if ip in s'.vfs.Values {
      var x :| x in s'.vfs && s'.vfs[x] == ip;
      assert PairInv(s, c, x) && Holds(s, x, ip);
    }
  }

  /** Another command claims the address, and the late undo of the first one unlocks it. */
  lemma StaleUndo(states: seq<State>, events: seq<Event>, c: Cmd, d: Cmd, e: Cmd, ip: Ip)
    returns (states': seq<State>, events': seq<Event>)
    requires Run(states, events) && Exposed(states[|events|], c, d, e, ip) && states[|events|].holder.None?
    ensures Run(states', events') && events <= events' && states <= states'
    ensures var s := states'[|events'|];
            && s.holder.None? && ip !in OnArray(s) && ip !in Locked(s.meta)
            && d in s.phases && s.phases[d] == Claimed(ip) && e in s.phases && s.phases[e].New?
  {
    var s := states[|events|];
    states', events' := ClaimOne(ClaimFirst, states, events, d, ip);
    states', events' := Extend(ClaimFirst, states', events', c, DropClaim, []);
    RemoveLast(Locked(s.meta), ip);
    assert Locked(states'[|events'|].meta) == Locked(s.meta);
  }

  /** A step that breaks the invariant can be followed by steps after which two commands, which had not even started,
      both hold the address. */
  lemma HarmGivesTwoHolders(states: seq<State>, events: seq<Event>, c: Cmd, d: Cmd, e: Cmd)
    returns (states': seq<State>, events': seq<Event>)
    requires Run(states, events) && HarmlessRun(states, events, |events|)
    requires var s := states[|events|];
             && Enabled(s, c, Robbed, []) && !Harmless(s, c, Robbed)
             && d != e && d in s.phases && s.phases[d].New? && e in s.phases && s.phases[e].New?
    ensures Run(states', events') && events + [Event(c, Robbed, [])] <= events'
    ensures var s, ip := states'[|events'|], states[|events|].phases[c].ip;
            d in s.phases && s.phases[d] == Claimed(ip) && e in s.phases && s.phases[e] == Claimed(ip)
  {
    RunInv(states, events, |events|);
    var s := states[|events|];
    var ip := s.phases[c].ip;
    HarmExposes(s, c, d, e, []);
    states', events' := Extend(ClaimFirst, states, events, c, Robbed, []);
    assert s.holder.Some? ==> CmdInv(s, s.holder.value);
    assert events'[|events|] == Event(c, Robbed, []);
    states', events' := LockGivenUp(states', events');
    states', events' := StaleUndo(states', events', c, d, e, ip);
    states', events' := ClaimOne(ClaimFirst, states', events', e, ip);
  }

  /** Or the claim of the first of them cannot be marked any more. */
  lemma HarmFailsMark(states: seq<State>, events: seq<Event>, c: Cmd, d: Cmd, e: Cmd)
    returns (states': seq<State>, events': seq<Event>)
    requires Run(states, events) && HarmlessRun(states, events, |events|)
    requires var s := states[|events|];
             && Enabled(s, c, Robbed, []) && !Harmless(s, c, Robbed)
             && d != e && d in s.phases && s.phases[d].New? && e in s.phases && s.phases[e].New?
    ensures Run(states', events') && events + [Event(c, Robbed, [])] <= events'
    ensures events' != [] && events'[|events'| - 1] == Event(d, Step.Mark, [])
    ensures var s := states'[|events'|]; d in s.phases && s.phases[d].Failed?
  {
    RunInv(states, events, |events|);
    var s := states[|events|];
    HarmExposes(s, c, d, e, []);
    states', events' := Extend(ClaimFirst, states, events, c, Robbed, []);
    assert s.holder.Some? ==> CmdInv(s, s.holder.value);
    assert events'[|events|] == Event(c, Robbed, []);
    states', events' := LockGivenUp(states', events');
    states', events' := StaleUndo(states', events', c, d, e, s.phases[c].ip);
    states', events' := Extend(ClaimFirst, states', events', d, CreateVfs(true, true), []);
    states', events' := Extend(ClaimFirst, states', events', d, Step.Mark, []);
  }

  /** The lists and the array as they were, but for the claim's command. */
  ghost predicate GivenBack(s: State, s': State, c: Cmd) {
    && multiset(Locked(s'.meta)) == multiset(Locked(s.meta)) && multiset(InUse(s'.meta)) == multiset(InUse(s.meta))
    && s'.vfs == s.vfs - {c} && s'.foreign == s.foreign && s'.holder.None?
    && s'.phases.Keys == s.phases.Keys && c in s'.phases && s'.phases[c] == Gone
    && forall d :: d != c && d in s.phases ==> s'.phases[d] == s.phases[d]
  }

  /** `s1` has the address in use and on a VFS beside what `s` has; `s'` has given it back. */
  lemma Returned(s: State, s1: State, s': State, c: Cmd, ip: Ip)
    requires c in s.phases && s1.phases == s.phases[c := Live(ip)] && s1.vfs == s.vfs[c := ip]
    requires Locked(s1.meta) == Locked(s.meta) && InUse(s1.meta) == InUse(s.meta) + [ip] && s1.foreign == s.foreign
    requires s'.phases == s1.phases[c := Gone] && s'.vfs == s1.vfs - {c} && s'.foreign == s1.foreign
    requires Locked(s'.meta) == Locked(s1.meta) && InUse(s'.meta) == RemoveFirst(InUse(s1.meta), ip)
    requires s'.holder.None?
    ensures GivenBack(s, s', c)
  {
    RemoveFirstMultiset(InUse(s1.meta), ip);
    assert s.vfs[c := ip] - {c} == s.vfs - {c};
  }

  lemma ClaimAndMark(states: seq<State>, events: seq<Event>, c: Cmd, ip: Ip)
    returns (states': seq<State>, events': seq<Event>)
    requires Run(states, events)
    requires var s := states[|events|];
             c in s.phases && s.phases[c].New? && s.holder.None? && ip !in OnArray(s) && ip !in Locked(s.meta)
    ensures Run(states', events') && events <= events'
    ensures var s, s' := states[|events|], states'[|events'|];
            && s'.phases == s.phases[c := Live(ip)] && s'.vfs == s.vfs[c := ip]
            && s'.foreign == s.foreign && s'.holder.None? && s'.meta.Some?
            && Locked(s'.meta) == Locked(s.meta) && InUse(s'.meta) == InUse(s.meta) + [ip]
            && s'.meta.value.defaultFpgs == Initialized(s.meta).defaultFpgs
  {
    var s := states[|events|];
    states', events' := ClaimOne(ClaimFirst, states, events, c, ip);
    states', events' := Extend(ClaimFirst, states', events', c, CreateVfs(true, true), []);
    RemoveLast(Locked(s.meta), ip);
    states', events' := Extend(ClaimFirst, states', events', c, Step.Mark, []);
    assert states'[|events'|].phases == s.phases[c := Live(ip)];
  }

  lemma ReleasedLists(m: Meta, cpg: Cpg, fpg: Fpg, ip: Ip)
    requires ip in m.ipsInUse && (m.defaultFpgs.None? || cpg in m.defaultFpgs.value)
    ensures var r := Released(m, cpg, fpg, ip);
            r.Some? && r.value.ipsLocked == m.ipsLocked && r.value.ipsInUse == RemoveFirst(m.ipsInUse, ip)
  {
  }

  /** The delete thread removes a marked command's FPG and releases its address. */
  lemma RemoveAndRelease(states: seq<State>, events: seq<Event>, c: Cmd, ip: Ip, cpg: Cpg, fpg: Fpg)
    returns (states': seq<State>, events': seq<Event>)
    requires Run(states, events)
    requires var s := states[|events|];
             && c in s.phases && s.phases[c] == Live(ip) && s.holder.None?
             && s.meta.Some? && ip in InUse(s.meta)
             && (s.meta.value.defaultFpgs.None? || cpg in s.meta.value.defaultFpgs.value)
    ensures Run(states', events') && events <= events'
    ensures var s, s' := states[|events|], states'[|events'|];
            && s'.phases == s.phases[c := Gone] && s'.vfs == s.vfs - {c} && s'.foreign == s.foreign && s'.holder.None?
            && Locked(s'.meta) == Locked(s.meta) && InUse(s'.meta) == RemoveFirst(InUse(s.meta), ip)
  {
    var s := states[|events|];
    ReleasedLists(s.meta.value, cpg, fpg, ip);
    states', events' := Extend(ClaimFirst, states, events, c, RemoveShare, []);
    var s1 := states'[|events'|];
    assert s1 == To(s, c, Freed(ip)).(vfs := s.vfs - {c});
    states', events' := Extend(ClaimFirst, states', events', c, ReleaseEntry(cpg, fpg), []);
    assert s1.phases[c := Gone] == s.phases[c := Gone];
  }

  /** The whole life of an address: claimed, used, marked, and released with its FPG, it is as free as before. */
  lemma ReleasedInTheEnd(states: seq<State>, events: seq<Event>, c: Cmd, ip: Ip, cpg: Cpg, fpg: Fpg)
    returns (states': seq<State>, events': seq<Event>)
    requires Run(states, events)
    requires var s := states[|events|];
             && c in s.phases && s.phases[c].New? && s.holder.None? && ip !in OnArray(s) && ip !in Locked(s.meta)
             && (Initialized(s.meta).defaultFpgs.None? || cpg in Initialized(s.meta).defaultFpgs.value)
    ensures Run(states', events') && events <= events' && GivenBack(states[|events|], states'[|events'|], c)
  {
    var s := states[|events|];
    states', events' := ClaimAndMark(states, events, c, ip);
    var s1 := states'[|events'|];
    assert InUse(s1.meta)[|InUse(s.meta)|] == ip;
    states', events' := RemoveAndRelease(states', events', c, ip, cpg, fpg);
    Returned(s, s1, states'[|events'|], c, ip);
  }

  lemma UndoAndDelete(states: seq<State>, events: seq<Event>, c: Cmd, ip: Ip)
    returns (states': seq<State>, events': seq<Event>)
    requires Run(states, events)
    requires var s := states[|events|];
             c in s.phases && s.phases[c] == Failed(ip) && s.holder.None? && s.meta.Some? && ip !in Locked(s.meta)
    ensures Run(states', events') && events <= events'
    ensures var s, s' := states[|events|], states'[|events'|];
            && s'.phases == s.phases[c := Gone] && s'.vfs == s.vfs - {c} && s'.foreign == s.foreign && s'.holder.None?
            && Locked(s'.meta) == Locked(s.meta) && InUse(s'.meta) == RemoveFirst(InUse(s.meta), ip)
  {
    var s := states[|events|];
    RemoveAbsent(Locked(s.meta), ip);
    states', events' := Extend(ClaimFirst, states, events, c, DropClaim, []);
    var s1 := states'[|events'|];
    assert s1 == To(s, c, Dropped(ip)).(meta := Some(Unclaimed(s.meta.value, ip)));
    states', events' := Extend(ClaimFirst, states', events', c, DeleteFpg, []);
    assert s1.phases[c := Gone] == s.phases[c := Gone];
  }

  /** And likewise when the command fails after marking it and undoes its list. */
  lemma UndoneInTheEnd(states: seq<State>, events: seq<Event>, c: Cmd, ip: Ip)
    returns (states': seq<State>, events': seq<Event>)
    requires Run(states, events)
    requires var s := states[|events|];
             c in s.phases && s.phases[c].New? && s.holder.None? && ip !in OnArray(s) && ip !in Locked(s.meta)
    ensures Run(states', events') && events <= events' && GivenBack(states[|events|], states'[|events'|], c)
  {
    var s := states[|events|];
    states', events' := ClaimAndMark(states, events, c, ip);
    var s1 := states'[|events'|];
    states', events' := Extend(ClaimFirst, states', events', c, FailLater, []);
    assert states'[|events'|] == To(s1, c, Failed(ip));
    states', events' := UndoAndDelete(states', events', c, ip);
    assert s1.phases[c := Failed(ip)][c := Gone] == s1.phases[c := Gone];
    Returned(s, s1, states'[|events'|], c, ip);
  }

  lemma ClaimedOnly(order: Order, ip: Ip) returns (states: seq<State>, events: seq<Event>)
    ensures RunIn(order, states, events)
    ensures states[|events|] == State(Some(Meta([], [ip], None, None)), map[1 := Claimed(ip), 2 := New, 3 := New],
                                      None, map[], {})
    ensures forall i :: 0 <= i < |events| ==> !events[i].step.Robbed?
  {
    states, events := [State(None, map[1 := New, 2 := New, 3 := New], None, map[], {})], [];
    states, events := ClaimOne(order, states, events, 1, ip);
    assert [] + [ip] == [ip];
    assert map[1 := New, 2 := New, 3 := New][1 := Claimed(ip)] == map[1 := Claimed(ip), 2 := New, 3 := New];
  }

  lemma ClaimedAndMarked(order: Order, ip: Ip) returns (states: seq<State>, events: seq<Event>)
    ensures RunIn(order, states, events)
    ensures states[|events|] == State(Some(Meta([ip], [], None, None)), map[1 := Live(ip), 2 := New, 3 := New], None,
                                      map[1 := ip], {})
    ensures forall i :: 0 <= i < |events| ==> !events[i].step.Robbed?
  {
    states, events := ClaimedOnly(order, ip);
    states, events := Extend(order, states, events, 1, CreateVfs(true, true), []);
    var phases := map[1 := WithVfs(ip), 2 := New, 3 := New];
    assert states[|events|] == State(Some(Meta([], [ip], None, None)), phases, None, map[1 := ip], {});
    states, events := Extend(order, states, events, 1, Step.Mark, []);
    assert RemoveFirst([ip], ip) == [] && [] + [ip] == [ip];
    assert phases[1 := Live(ip)] == map[1 := Live(ip), 2 := New, 3 := New];
  }

  /** It happens: the command makes its FPG, claims and marks an address, and fails; before it undoes that, others put
      a share on the FPG and remove it, and the FPG with it. */
  lemma TwoHoldersReachable(ip: Ip) returns (states: seq<State>, events: seq<Event>)
    ensures Run(states, events)
    ensures var s := states[|events|];
            2 in s.phases && s.phases[2] == Claimed(ip) && 3 in s.phases && s.phases[3] == Claimed(ip)
  {
    states, events := ClaimedAndMarked(ClaimFirst, ip);
    states, events := Extend(ClaimFirst, states, events, 1, FailLater, []);
    states, events := HarmGivesTwoHolders(states, events, 1, 2, 3);
  }

  // ---- the order of undoing matters ----

  /** A marked claim whose command fails and deletes its FPG: the address is free again, its in-use entry is not. */
  lemma MarkedThenDeleted(ip: Ip) returns (states: seq<State>, events: seq<Event>)
    ensures RunIn(FpgFirst, states, events)
    ensures states[|events|] == State(Some(Meta([ip], [], None, None)), map[1 := Dropped(ip), 2 := New, 3 := New],
                                      None, map[], {})
    ensures forall i :: 0 <= i < |events| ==> !events[i].step.Robbed?
  {
    states, events := ClaimedAndMarked(FpgFirst, ip);
    states, events := Extend(FpgFirst, states, events, 1, FailLater, OneAddress(ip));
    states, events := Extend(FpgFirst, states, events, 1, DeleteFpg, OneAddress(ip));
    assert map[1 := ip] - {1} == map[];
  }

  /** Undoing first to last, two commands can hold one address although nobody removes another's FPG: the second
      claims it once the FPG is gone, the late undo of the first unlocks it, and the third claims it too. */
  lemma WrongOrderUnsafe(ip: Ip) returns (states: seq<State>, events: seq<Event>)
    ensures RunIn(FpgFirst, states, events) && forall i :: 0 <= i < |events| ==> !events[i].step.Robbed?
    ensures Holds(states[|events|], 2, ip) && Holds(states[|events|], 3, ip)
  {
    states, events := MarkedThenDeleted(ip);
    states, events := ClaimOne(FpgFirst, states, events, 2, ip);
    states, events := Extend(FpgFirst, states, events, 1, DropClaim, OneAddress(ip));
    assert Locked(states[|events|].meta) == [];
    states, events := ClaimOne(FpgFirst, states, events, 3, ip);
  }

  // ---- the list of addresses in use ----

  /** Undoing a claim that was never marked takes another holder's entry off the in-use list exactly
      when that list still shows the address: the list is not consulted by claims. */
  lemma UndoTouchesInUse(m: Meta, ip: Ip)
    ensures Unclaimed(WithLocked(Some(m), ip), ip).ipsInUse == m.ipsInUse <==> ip !in m.ipsInUse
    ensures multiset(Unclaimed(Marked(Some(WithLocked(Some(m), ip)), ip).value, ip).ipsInUse) == multiset(m.ipsInUse)
  {
    RemoveAbsent(m.ipsInUse, ip);
    if ip in m.ipsInUse {
      RemoveFirstShrinks(m.ipsInUse, ip);
    }
    RemoveFirstMultiset(m.ipsInUse + [ip], ip);
  }

  lemma {:induction false} RemoveFirstShrinks(s: seq<Ip>, x: Ip)
    requires x in s
    ensures |RemoveFirst(s, x)| == |s| - 1
  {
    if s[0] != x {
      RemoveFirstShrinks(s[1..], x);
    }
  }
}
