/** The nested etcd locks of share creation, undo and deletion (etcdutil.py, synchronization.py, file_manager.py,
    cmd_createfpg.py, cmd_deleteshare.py). EtcdLock passes only the name on, so locks of different kinds with the
    same name are one lock. */
module LockOrder {
  import opened Util

  type Lock = string
  type Tid = nat

  datatype Op = Acquire(lock: Lock) | Release(lock: Lock)

  // ---- lock names ----

  function Slashes(s: string): nat {
    if s == "" then 0 else (if s[0] == '/' then 1 else 0) + Slashes(s[1..])
  }

  lemma {:induction false} SlashesConcat(s: string, t: string)
    ensures Slashes(s + t) == Slashes(s) + Slashes(t)
  {
    if s == "" {
      assert s + t == t;
    } else {
      assert (s + t)[1..] == s[1..] + t;
      SlashesConcat(s[1..], t);
    }
  }

  function CpgLock(backend: string, cpg: string): Lock {
    backend + "/" + cpg
  }

  function FpgLock(backend: string, cpg: string, fpg: string): Lock {
    backend + "/" + cpg + "/" + fpg
  }

  predicate Plain(s: string) {
    Slashes(s) == 0
  }

  lemma LockKinds(backend: string, cpg: string, fpg: string)
    requires Plain(backend) && Plain(cpg) && Plain(fpg)
    ensures Slashes(CpgLock(backend, cpg)) == 1 && Slashes(FpgLock(backend, cpg, fpg)) == 2
  {
    SlashesConcat(backend, "/");
    SlashesConcat(backend + "/", cpg);
    SlashesConcat(backend + "/" + cpg, "/");
    SlashesConcat(backend + "/" + cpg + "/", fpg);
  }

  /** Share, then CPG, then FPG, then backend. */
  function Rank(shares: set<string>, l: Lock): nat {
    if l in shares then 0 else if Slashes(l) == 0 then 3 else if Slashes(l) == 1 then 1 else 2
  }

  // ---- programs ----

  /** A `with lock:` block. */
  function Bracket(l: Lock, inner: seq<Op>): seq<Op> {
    [Acquire(l)] + inner + [Release(l)]
  }

  /** The locked parts of a creation and its undo: commands that take the backend lock, or an FPG lock with the
      backend lock inside when the FPG becomes a default one. */
  datatype Stage = BackendStage | CreateFpg(fpg: string, isDefault: bool) | RecordVfs(fpg: string)

  function StageOps(backend: string, cpg: string, stage: Stage): seq<Op> {
    match stage
    case BackendStage => Bracket(backend, [])
    case CreateFpg(f, isDefault) => Bracket(FpgLock(backend, cpg, f), if isDefault then Bracket(backend, []) else [])
    case RecordVfs(f) => Bracket(FpgLock(backend, cpg, f), [])
  }

  function StagesOps(backend: string, cpg: string, stages: seq<Stage>): seq<Op> {
    if stages == [] then [] else StageOps(backend, cpg, stages[0]) + StagesOps(backend, cpg, stages[1..])
  }

  /** What a thread does: a request that only takes the share's lock; a creation, with the commands it
      gets to and the undo that follows; the child thread of a deletion. */
  datatype Job =
    | Request(share: string)
    | Create(share: string, backend: string, cpg: string, stages: seq<Stage>, undo: seq<Stage>)
    | Delete(backend: string, cpg: string, fpg: string, lastShare: bool)

  function JobOps(t: Job): seq<Op> {
    match t
    case Request(share) => Bracket(share, [])
    case Create(share, b, c, stages, undo) =>
      Bracket(share, Bracket(CpgLock(b, c), StagesOps(b, c, stages)) + StagesOps(b, c, undo))
    case Delete(b, c, f, lastShare) => Bracket(FpgLock(b, c, f), if lastShare then Bracket(b, []) else [])
  }

  predicate PlainStages(stages: seq<Stage>) {
    forall s :: s in stages && !s.BackendStage? ==> Plain(s.fpg)
  }

  predicate PlainJob(t: Job) {
    match t
    case Request(share) => Plain(share)
    case Create(share, b, c, stages, undo) =>
      Plain(share) && Plain(b) && Plain(c) && PlainStages(stages) && PlainStages(undo)
    case Delete(b, c, f, lastShare) => Plain(b) && Plain(c) && Plain(f)
  }

  // ---- acquiring in order ----

  /** The locks held after `ops`, None if a lock is not above all held ones or a release is not of a held one. */
  function After(shares: set<string>, ops: seq<Op>, held: set<Lock>): Option<set<Lock>> {
    if ops == [] then Some(held)
    else match ops[0]
      case Acquire(l) =>
        if forall h :: h in held ==> Rank(shares, h) < Rank(shares, l)
        then After(shares, ops[1..], held + {l}) else None
      case Release(l) => if l in held then After(shares, ops[1..], held - {l}) else None
  }

  lemma {:induction false} AfterConcat(shares: set<string>, a: seq<Op>, b: seq<Op>, held: set<Lock>)
    ensures After(shares, a + b, held) ==
            if After(shares, a, held).None? then None else After(shares, b, After(shares, a, held).value)
  {
    if a == [] {
      assert a + b == b;
    } else {
      assert (a + b)[1..] == a[1..] + b;
      match a[0]
      case Acquire(l) => AfterConcat(shares, a[1..], b, held + {l});
      case Release(l) =>
        if l in held {
          AfterConcat(shares, a[1..], b, held - {l});
        }
    }
  }

  lemma BracketInOrder(shares: set<string>, l: Lock, inner: seq<Op>, held: set<Lock>)
    requires forall h :: h in held ==> Rank(shares, h) < Rank(shares, l)
    requires After(shares, inner, held + {l}) == Some(held + {l})
    ensures After(shares, Bracket(l, inner), held) == Some(held)
  {
    assert Bracket(l, inner) == [Acquire(l)] + (inner + [Release(l)]);
    assert ([Acquire(l)] + (inner + [Release(l)]))[1..] == inner + [Release(l)];
    AfterConcat(shares, inner, [Release(l)], held + {l});
    assert l !in held && held + {l} - {l} == held;
    assert After(shares, [Release(l)], held + {l}) == After(shares, [], held);
  }

  lemma {:induction false} StagesInOrder(shares: set<string>, backend: string, cpg: string, stages: seq<Stage>,
                                         held: set<Lock>)
    requires Plain(backend) && Plain(cpg) && PlainStages(stages) && backend !in shares
    requires forall s :: s in shares ==> Plain(s)
    requires forall h :: h in held ==> Rank(shares, h) <= 1
    ensures After(shares, StagesOps(backend, cpg, stages), held) == Some(held)
  {
    if stages != [] {
      StageInOrder(shares, backend, cpg, stages[0], held);
      AfterConcat(shares, StageOps(backend, cpg, stages[0]), StagesOps(backend, cpg, stages[1..]), held);
      StagesInOrder(shares, backend, cpg, stages[1..], held);
    }
  }

  lemma StageInOrder(shares: set<string>, backend: string, cpg: string, stage: Stage, held: set<Lock>)
    requires Plain(backend) && Plain(cpg) && backend !in shares
    requires !stage.BackendStage? ==> Plain(stage.fpg)
    requires forall s :: s in shares ==> Plain(s)
    requires forall h :: h in held ==> Rank(shares, h) <= 1
    ensures After(shares, StageOps(backend, cpg, stage), held) == Some(held)
  {
    if stage.BackendStage? {
      BracketInOrder(shares, backend, [], held);
    } else {
      FpgInOrder(shares, backend, cpg, stage.fpg, stage.CreateFpg? && stage.isDefault, held);
    }
  }

  lemma FpgInOrder(shares: set<string>, backend: string, cpg: string, fpg: string, nested: bool, held: set<Lock>)
    requires Plain(backend) && Plain(cpg) && Plain(fpg) && backend !in shares
    requires forall s :: s in shares ==> Plain(s)
    requires forall h :: h in held ==> Rank(shares, h) <= 1
    ensures After(shares, Bracket(FpgLock(backend, cpg, fpg), if nested then Bracket(backend, []) else []),
                  held) == Some(held)
  {
    var l := FpgLock(backend, cpg, fpg);
    LockKinds(backend, cpg, fpg);
    if nested {
      BracketInOrder(shares, backend, [], held + {l});
    }
    BracketInOrder(shares, l, if nested then Bracket(backend, []) else [], held);
  }

  /** Names of shares and of backends do not meet. */
  predicate NoClash(shares: set<string>, t: Job) {
    (!t.Delete? ==> t.share in shares) && (!t.Request? ==> t.backend !in shares)
  }

  /** Every kind of thread takes its locks in the order share, CPG, FPG, backend, and gives all of them back. */
  lemma JobInOrder(shares: set<string>, t: Job)
    requires PlainJob(t) && NoClash(shares, t) && forall s :: s in shares ==> Plain(s)
    ensures After(shares, JobOps(t), {}) == Some({})
  {
    match t
    case Request(share) => BracketInOrder(shares, share, [], {});
    case Create(share, b, c, stages, undo) =>
      LockKinds(b, c, "");
      StagesInOrder(shares, b, c, stages, {share} + {CpgLock(b, c)});
      BracketInOrder(shares, CpgLock(b, c), StagesOps(b, c, stages), {share});
      StagesInOrder(shares, b, c, undo, {share});
      AfterConcat(shares, Bracket(CpgLock(b, c), StagesOps(b, c, stages)), StagesOps(b, c, undo), {share});
      assert {} + {share} == {share};
      BracketInOrder(shares, share, Bracket(CpgLock(b, c), StagesOps(b, c, stages)) + StagesOps(b, c, undo), {});
    case Delete(b, c, f, lastShare) => FpgInOrder(shares, b, c, f, lastShare, {});
  }

  // ---- any number of threads ----

  datatype Thread = Thread(held: set<Lock>, todo: seq<Op>)

  type State = map<Tid, Thread>

  /** A release always goes through, an acquisition only when no thread holds the lock. */
  ghost predicate CanStep(s: State, t: Tid) {
    && t in s && s[t].todo != []
    && (s[t].todo[0].Acquire? ==> forall u :: u in s ==> s[t].todo[0].lock !in s[u].held)
  }

  function Advance(s: State, t: Tid): State
    requires t in s && s[t].todo != []
  {
    var op := s[t].todo[0];
    s[t := Thread(if op.Acquire? then s[t].held + {op.lock} else s[t].held - {op.lock}, s[t].todo[1..])]
  }

  ghost predicate InOrder(shares: set<string>, s: State, t: Tid) {
    t in s ==> After(shares, s[t].todo, s[t].held) == Some({})
  }

  ghost predicate Inv(shares: set<string>, s: State) {
    && (forall t :: InOrder(shares, s, t))
    && (forall t, u :: t in s && u in s && t != u ==> s[t].held !! s[u].held)
  }

  lemma StepKeepsInv(shares: set<string>, s: State, t: Tid)
    requires Inv(shares, s) && CanStep(s, t)
    ensures Inv(shares, Advance(s, t))
  {
    var s' := Advance(s, t);
    forall u
      ensures InOrder(shares, s', u)
    {
      assert InOrder(shares, s, u);
    }
  }

  /** From a waiting thread to the holder of the lock it waits for: ranks rise, so the chain ends at a thread
      that can go on. */
  lemma {:induction false} FollowHolders(shares: set<string>, s: State, t: Tid) returns (u: Tid)
    requires Inv(shares, s) && t in s && s[t].todo != []
    ensures CanStep(s, u)
    decreases if s[t].todo[0].Release? then 0 else 4 - Rank(shares, s[t].todo[0].lock)
  {
    u := t;
    assert InOrder(shares, s, t);
    if !CanStep(s, t) {
      var l := s[t].todo[0].lock;
      var h :| h in s && l in s[h].held;
      assert InOrder(shares, s, h);
      u := FollowHolders(shares, s, h);
    }
  }

  function Start(jobs: map<Tid, Job>): State {
    map t | t in jobs :: Thread({}, JobOps(jobs[t]))
  }

  ghost predicate Run(states: seq<State>, who: seq<Tid>) {
    && |states| == |who| + 1
    && forall i :: 0 <= i < |who| ==> CanStep(states[i], who[i]) && states[i + 1] == Advance(states[i], who[i])
  }

  lemma {:induction false} RunInv(shares: set<string>, jobs: map<Tid, Job>, states: seq<State>, who: seq<Tid>, k: nat)
    requires Run(states, who) && states[0] == Start(jobs) && k < |states|
    requires forall s :: s in shares ==> Plain(s)
    requires forall t :: t in jobs ==> PlainJob(jobs[t]) && NoClash(shares, jobs[t])
    ensures Inv(shares, states[k])
  {
    if k == 0 {
      forall t
        ensures InOrder(shares, states[0], t)
      {
        if t in jobs {
          JobInOrder(shares, jobs[t]);
        }
      }
    } else {
      RunInv(shares, jobs, states, who, k - 1);
      StepKeepsInv(shares, states[k - 1], who[k - 1]);
    }
  }

  /** Deadlock freedom: in every reachable state of any set of such threads, as long as one thread is not
      finished some thread can go on. Volume requests, whose locks are in the same name space, are taken to
      use none of these names. */
  lemma NoDeadlock(shares: set<string>, jobs: map<Tid, Job>, states: seq<State>, who: seq<Tid>)
    requires Run(states, who) && states[0] == Start(jobs)
    requires forall s :: s in shares ==> Plain(s)
    requires forall t :: t in jobs ==> PlainJob(jobs[t]) && NoClash(shares, jobs[t])
    ensures (exists t :: t in states[|who|] && states[|who|][t].todo != []) ==> exists u :: CanStep(states[|who|], u)
  {
    RunInv(shares, jobs, states, who, |who|);
    if t :| t in states[|who|] && states[|who|][t].todo != [] {
      var u := FollowHolders(shares, states[|who|], t);
    }
  }

  // ---- what is done under which lock ----

  /** The locks held before the `i`-th operation. */
  function HeldAt(ops: seq<Op>, i: nat): set<Lock>
    requires i <= |ops|
  {
    if i == 0 then {}
    else match ops[i - 1]
      case Acquire(l) => HeldAt(ops, i - 1) + {l}
      case Release(l) => HeldAt(ops, i - 1) - {l}
  }

  /** From its first operation until its last, the program holds `l`. */
  ghost predicate Under(l: Lock, ops: seq<Op>) {
    |ops| >= 2 && forall i :: 0 < i < |ops| ==> l in HeldAt(ops, i)
  }

  lemma {:induction false} HeldOn(l: Lock, ops: seq<Op>, k: nat, i: nat)
    requires k <= i <= |ops| && l in HeldAt(ops, k)
    requires forall j :: k <= j < i ==> ops[j] != Release(l)
    ensures l in HeldAt(ops, i)
    decreases i - k
  {
    if k < i {
      HeldOn(l, ops, k, i - 1);
      assert ops[i - 1] != Release(l);
    }
  }

  lemma BracketUnder(l: Lock, inner: seq<Op>)
    requires Release(l) !in inner
    ensures Under(l, Bracket(l, inner))
  {
    var ops := Bracket(l, inner);
    forall i | 0 < i < |ops|
      ensures l in HeldAt(ops, i)
    {
      assert ops[0] == Acquire(l) && HeldAt(ops, 1) == {l};
      assert forall j :: 1 <= j < i ==> ops[j] == inner[j - 1];
      HeldOn(l, ops, 1, i);
    }
  }

  lemma {:induction false} StagesRelease(backend: string, cpg: string, stages: seq<Stage>, l: Lock)
    requires Plain(backend) && Plain(cpg) && PlainStages(stages) && Slashes(l) <= 1 && l != backend
    ensures Release(l) !in StagesOps(backend, cpg, stages)
  {
    if stages != [] {
      StagesRelease(backend, cpg, stages[1..], l);
      if !stages[0].BackendStage? {
        LockKinds(backend, cpg, stages[0].fpg);
      }
    }
  }

  /** A creation holds the share's lock throughout, and the CPG's lock from before its first command until after its
      last one; a deletion's thread holds the FPG's lock throughout. */
  lemma JobUnder(t: Job)
    requires PlainJob(t) && (t.Create? ==> t.share != t.backend)
    ensures match t
            case Request(share) => Under(share, JobOps(t))
            case Create(share, b, c, stages, undo) =>
              && Under(share, JobOps(t))
              && Under(CpgLock(b, c), Bracket(CpgLock(b, c), StagesOps(b, c, stages)))
            case Delete(b, c, f, lastShare) => Under(FpgLock(b, c, f), JobOps(t))
  {
    match t
    case Request(share) => BracketUnder(share, []);
    case Create(share, b, c, stages, undo) =>
      LockKinds(b, c, "");
      StagesRelease(b, c, stages, share);
      StagesRelease(b, c, undo, share);
      StagesRelease(b, c, stages, CpgLock(b, c));
      BracketUnder(CpgLock(b, c), StagesOps(b, c, stages));
      BracketUnder(share, Bracket(CpgLock(b, c), StagesOps(b, c, stages)) + StagesOps(b, c, undo));
    case Delete(b, c, f, lastShare) =>
      LockKinds(b, c, f);
      BracketUnder(FpgLock(b, c, f), if lastShare then Bracket(b, []) else []);
  }

  /** So while a deletion removes an FPG, no creation is inside a command on the same FPG: whoever holds a lock is the
      only one. */
  lemma OneHolder(shares: set<string>, jobs: map<Tid, Job>, states: seq<State>, who: seq<Tid>, t: Tid, u: Tid, l: Lock)
    requires Run(states, who) && states[0] == Start(jobs)
    requires forall s :: s in shares ==> Plain(s)
    requires forall j :: j in jobs ==> PlainJob(jobs[j]) && NoClash(shares, jobs[j])
    requires t in states[|who|] && u in states[|who|] && l in states[|who|][t].held && l in states[|who|][u].held
    ensures t == u
  {
    RunInv(shares, jobs, states, who, |who|);
  }

  // ---- clashing names ----

  /** A thread that is alone gets to the end of its program. */
  ghost predicate Finishes(s: State, t: Tid)
    requires t in s
    decreases |s[t].todo|
  {
    s[t].todo == [] || (CanStep(s, t) && Finishes(Advance(s, t), t))
  }

  /** The locks a lone thread holds after `ops`, None if it waits for a lock of its own. */
  function Alone(ops: seq<Op>, held: set<Lock>): Option<set<Lock>> {
    if ops == [] then Some(held)
    else match ops[0]
      case Acquire(l) => if l !in held then Alone(ops[1..], held + {l}) else None
      case Release(l) => Alone(ops[1..], held - {l})
  }

  lemma {:induction false} FinishesAlone(t: Tid, th: Thread)
    ensures Finishes(map[t := th], t) <==> Alone(th.todo, th.held).Some?
    decreases |th.todo|
  {
    if th.todo != [] {
      var s: State := map[t := th];
      var next := Advance(s, t)[t];
      assert Advance(s, t) == map[t := next];
      FinishesAlone(t, next);
      assert CanStep(s, t) <==> th.todo[0].Release? || th.todo[0].lock !in th.held;
    }
  }

  lemma {:induction false} AloneConcat(a: seq<Op>, b: seq<Op>, held: set<Lock>)
    ensures Alone(a + b, held) == if Alone(a, held).None? then None else Alone(b, Alone(a, held).value)
  {
    if a == [] {
      assert a + b == b;
    } else {
      assert (a + b)[1..] == a[1..] + b;
      match a[0]
      case Acquire(l) =>
        if l !in held {
          AloneConcat(a[1..], b, held + {l});
        }
      case Release(l) => AloneConcat(a[1..], b, held - {l});
    }
  }

  /** A bracket whose inside, entered with the lock, ends as it began or gets stuck. */
  lemma AloneBracket(l: Lock, inner: seq<Op>, held: set<Lock>)
    requires Alone(inner, held + {l}).Some? ==> Alone(inner, held + {l}).value == held + {l}
    ensures Alone(Bracket(l, inner), held) == if l !in held && Alone(inner, held + {l}).Some? then Some(held) else None
  {
    assert Bracket(l, inner) == [Acquire(l)] + (inner + [Release(l)]);
    assert ([Acquire(l)] + (inner + [Release(l)]))[1..] == inner + [Release(l)];
    if l !in held {
      AloneConcat(inner, [Release(l)], held + {l});
      assert held + {l} - {l} == held;
      assert Alone([Release(l)], held + {l}) == Alone([], held);
    }
  }

  /** The locks a stage takes. */
  function Taken(backend: string, cpg: string, stage: Stage): set<Lock> {
    match stage
    case BackendStage => {backend}
    case CreateFpg(f, isDefault) => {FpgLock(backend, cpg, f)} + if isDefault then {backend} else {}
    case RecordVfs(f) => {FpgLock(backend, cpg, f)}
  }

  function AllTaken(backend: string, cpg: string, stages: seq<Stage>): set<Lock> {
    if stages == [] then {} else Taken(backend, cpg, stages[0]) + AllTaken(backend, cpg, stages[1..])
  }

  lemma StageAlone(backend: string, cpg: string, stage: Stage, held: set<Lock>)
    requires Plain(backend) && Plain(cpg) && (!stage.BackendStage? ==> Plain(stage.fpg))
    ensures Alone(StageOps(backend, cpg, stage), held)
         == if Taken(backend, cpg, stage) !! held then Some(held) else None
  {
    if stage.BackendStage? {
      AloneBracket(backend, [], held);
    } else {
      var l := FpgLock(backend, cpg, stage.fpg);
      LockKinds(backend, cpg, stage.fpg);
      if stage.CreateFpg? && stage.isDefault {
        AloneBracket(backend, [], held + {l});
        AloneBracket(l, Bracket(backend, []), held);
      } else {
        AloneBracket(l, [], held);
      }
    }
  }

  lemma {:induction false} StagesAlone(backend: string, cpg: string, stages: seq<Stage>, held: set<Lock>)
    requires Plain(backend) && Plain(cpg) && PlainStages(stages)
    ensures Alone(StagesOps(backend, cpg, stages), held)
         == if AllTaken(backend, cpg, stages) !! held then Some(held) else None
  {
    if stages != [] {
      StageAlone(backend, cpg, stages[0], held);
      AloneConcat(StageOps(backend, cpg, stages[0]), StagesOps(backend, cpg, stages[1..]), held);
      StagesAlone(backend, cpg, stages[1..], held);
    }
  }

  lemma {:induction false} TakenIsNotCpg(backend: string, cpg: string, stages: seq<Stage>)
    requires Plain(backend) && Plain(cpg) && PlainStages(stages)
    ensures CpgLock(backend, cpg) !in AllTaken(backend, cpg, stages)
  {
    LockKinds(backend, cpg, "");
    if stages != [] {
      if !stages[0].BackendStage? {
        LockKinds(backend, cpg, stages[0].fpg);
      }
      TakenIsNotCpg(backend, cpg, stages[1..]);
    }
  }

  /** A creation with nobody else around gets stuck exactly when the share is named like one of the
      CPG, FPG or backend locks it goes on to take. */
  lemma CreateAlone(t: Tid, share: string, b: string, c: string, stages: seq<Stage>, undo: seq<Stage>)
    requires Plain(b) && Plain(c) && PlainStages(stages) && PlainStages(undo)
    ensures Finishes(map[t := Thread({}, JobOps(Create(share, b, c, stages, undo)))], t) <==>
            share !in {CpgLock(b, c)} + AllTaken(b, c, stages) + AllTaken(b, c, undo)
  {
    var l := CpgLock(b, c);
    var inner := Bracket(l, StagesOps(b, c, stages));
    var after := StagesOps(b, c, undo);
    FinishesAlone(t, Thread({}, JobOps(Create(share, b, c, stages, undo))));
    TakenIsNotCpg(b, c, stages);
    StagesAlone(b, c, stages, {share} + {l});
    AloneBracket(l, StagesOps(b, c, stages), {share});
    StagesAlone(b, c, undo, {share});
    AloneConcat(inner, after, {share});
    assert {} + {share} == {share};
    AloneBracket(share, inner + after, {});
  }
}
