/** Which volume requests can wait for each other for ever (volume_manager.py). Three of them ask for a second lock
    while they hold one: a new snapshot holds its own name's and asks for its parent's, the removal of a snapshot
    likewise, and a clone holds its source's and asks for its own. */
module SnapshotLocks {
  import opened Util
  import opened Snapshots

  /** The lock a request waits for. */
  function Awaited(pc: Pc): Option<Name> {
    match pc
    case WantNew(v) => Some(v)
    case WantSnap(s, _) => Some(s)
    case WantParent(_, p) => Some(p)
    case WantVol(v) => Some(v)
    case WantEdit(_, p) => Some(p)
    case WantSrc(src, _) => Some(src)
    case WantClone(_, c) => Some(c)
    case _ => None
  }

  datatype Kind = Snap | Clone | Remove

  /** A request that waits for the lock of `m` while it holds that of `n`. */
  function Waits(kind: Kind, n: Name, m: Name): Pc {
    match kind
    case Snap => WantParent(n, m)
    case Clone => WantClone(n, m)
    case Remove => WantEdit(n, m)
  }

  function Asked(kind: Kind, n: Name, m: Name): Request {
    match kind
    case Snap => CreateSnapshot(n, m)
    case Clone => CloneVolume(n, m)
    case Remove => RemoveVolume(n)
  }

  /** What such a request has seen of the name it holds. */
  predicate Fits(recs: map<Name, Rec>, kind: Kind, n: Name, m: Name) {
    match kind
    case Snap => n !in recs
    case Clone => n in recs && recs[n].parent.None?
    case Remove => n in recs && recs[n].parent == Some(m) && recs[n].snaps == []
  }

  function KindOf(pc: Pc): Kind {
    if pc.WantClone? then Clone else if pc.WantEdit? then Remove else Snap
  }

  /** The lock that a request holds while it waits for another. */
  function Own(pc: Pc): Option<Name> {
    match pc
    case WantParent(s, _) => Some(s)
    case WantEdit(v, _) => Some(v)
    case WantClone(src, _) => Some(src)
    case _ => None
  }

  predicate Unfinished(st: State, t: Tid) {
    t in st.pcs && !st.pcs[t].Idle?
  }

  predicate CanGo(st: State, t: Tid) {
    Unfinished(st, t) && Enabled(st, t, Proceed(true))
  }

  /** Requests that wait for locks which only they hold. */
  ghost predicate Deadlocked(st: State, ts: set<Tid>) {
    && ts != {}
    && forall t :: t in ts ==> Stuck(st, ts, t)
  }

  ghost predicate Stuck(st: State, ts: set<Tid>, t: Tid) {
    && Unfinished(st, t) && Awaited(st.pcs[t]).Some?
    && var n := Awaited(st.pcs[t]).value; n in st.locks && st.locks[n] in ts
  }

  function Next(i: nat, n: nat): nat
    requires i < n
  {
    if i + 1 == n then 0 else i + 1
  }

  predicate Member(st: State, t: Tid) {
    t in st.pcs && Own(st.pcs[t]).Some?
  }

  /** Each of the requests waits for the lock that the next one holds while it waits itself. */
  predicate Ring(st: State, ring: seq<Tid>) {
    && ring != []
    && (forall i :: 0 <= i < |ring| ==> Member(st, ring[i]))
    && forall i :: 0 <= i < |ring| ==> Awaited(st.pcs[ring[i]]) == Own(st.pcs[ring[Next(i, |ring|)]])
  }

  /** A request waits for a lock that it holds itself if and only if it makes a snapshot or a clone of a name under
      that same name. */
  lemma SelfWaits(states: seq<State>, events: seq<Event>, k: nat, t: Tid)
    requires Run(states, events) && k <= |events| && t in states[k].pcs
    ensures var pc := states[k].pcs[t];
            Awaited(pc).Some? && Awaited(pc).value in Held(pc)
            <==> (pc.WantParent? && pc.s == pc.p) || (pc.WantClone? && pc.src == pc.c)
  {
    RunInv(states, events, k);
    var pc := states[k].pcs[t];
    assert ThreadInv(states[k], t);
    if pc.WantEdit? {
      assert NameInv(states[k], pc.v);
    }
  }

  lemma HeldOrOwn(pc: Pc, n: Name)
    requires Awaited(pc).Some?
    ensures n in Held(pc) <==> Own(pc) == Some(n)
  {
  }

  /** The holder of the lock that a deadlocked request waits for. */
  lemma NextInRing(st: State, ts: set<Tid>, t: Tid) returns (u: Tid)
    requires Inv(st) && Deadlocked(st, ts) && t in ts
    ensures u in ts && Member(st, u) && Awaited(st.pcs[t]) == Own(st.pcs[u])
  {
    assert Stuck(st, ts, t);
    var n := Awaited(st.pcs[t]).value;
    u := st.locks[n];
    assert LockInv(st, n) && Stuck(st, ts, u);
    HeldOrOwn(st.pcs[u], n);
  }

  ghost predicate Chain(st: State, ts: set<Tid>, path: seq<Tid>) {
    && path != [] && NoDup(path)
    && (forall i :: 0 <= i < |path| ==> path[i] in ts && Member(st, path[i]))
    && forall i :: 0 <= i < |path| - 1 ==> Awaited(st.pcs[path[i]]) == Own(st.pcs[path[i + 1]])
  }

  lemma CloseRing(st: State, ts: set<Tid>, path: seq<Tid>, j: nat)
    requires Chain(st, ts, path) && j < |path|
    requires Awaited(st.pcs[path[|path| - 1]]) == Own(st.pcs[path[j]])
    ensures Ring(st, path[j..])
  {
    var ring := path[j..];
    forall i | 0 <= i < |ring|
      ensures Member(st, ring[i]) && Awaited(st.pcs[ring[i]]) == Own(st.pcs[ring[Next(i, |ring|)]])
    {
      assert ring[i] == path[j + i];
      assert i + 1 < |ring| ==> ring[i + 1] == path[j + i + 1];
    }
  }

  lemma {:induction false} Follow(st: State, ts: set<Tid>, path: seq<Tid>) returns (ring: seq<Tid>)
    requires Inv(st) && Deadlocked(st, ts) && Chain(st, ts, path)
    ensures Ring(st, ring)
    decreases |ts - Elems(path)|
  {
    var u := NextInRing(st, ts, path[|path| - 1]);
    if u in path {
      var j :| 0 <= j < |path| && path[j] == u;
      CloseRing(st, ts, path, j);
      ring := path[j..];
    } else {
      Longer(ts, path, u);
      LongerChain(st, ts, path, u);
      ring := Follow(st, ts, path + [u]);
    }
  }

  lemma LongerChain(st: State, ts: set<Tid>, path: seq<Tid>, u: Tid)
    requires Chain(st, ts, path) && u in ts && u !in path && Member(st, u)
    requires Awaited(st.pcs[path[|path| - 1]]) == Own(st.pcs[u])
    ensures Chain(st, ts, path + [u])
  {
  }

  lemma Longer(ts: set<Tid>, path: seq<Tid>, u: Tid)
    requires u in ts && u !in path
    ensures |ts - Elems(path + [u])| < |ts - Elems(path)|
  {
    assert ts - Elems(path + [u]) == ts - Elems(path) - {u};
  }

  lemma RingDeadlocks(st: State, ring: seq<Tid>)
    requires Inv(st) && Ring(st, ring)
    ensures Deadlocked(st, Elems(ring))
  {
    forall t | t in ring
      ensures Stuck(st, Elems(ring), t)
    {
      var i :| 0 <= i < |ring| && ring[i] == t;
      var u := ring[Next(i, |ring|)];
      assert u in ring && Member(st, t) && Member(st, u) && ThreadInv(st, u);
    }
    assert ring[0] in ring;
  }

  /** In every reachable state there is a deadlock if and only if some requests form a ring. */
  lemma DeadlockIsRing(states: seq<State>, events: seq<Event>, k: nat)
    requires Run(states, events) && k <= |events|
    ensures (exists ts :: Deadlocked(states[k], ts)) <==> exists ring :: Ring(states[k], ring)
  {
    var st := states[k];
    RunInv(states, events, k);
    if ts :| Deadlocked(st, ts) {
      var t :| t in ts;
      var u := NextInRing(st, ts, t);
      var ring := Follow(st, ts, [u]);
    }
    if ring :| Ring(st, ring) {
      RingDeadlocks(st, ring);
    }
  }

  /** A deadlock lasts: whatever other requests do, its members never go on. */
  lemma DeadlockLasts(st: State, ts: set<Tid>, t: Tid, a: Action)
    requires Inv(st) && Deadlocked(st, ts) && Enabled(st, t, a)
    ensures t !in ts && Deadlocked(Apply(st, t, a), ts)
  {
    assert t in ts ==> Stuck(st, ts, t);
    forall u | u in ts
      ensures Stuck(Apply(st, t, a), ts, u)
    {
      assert Stuck(st, ts, u) && ThreadInv(st, t);
      OtherPcs(st, t, a, u);
      OtherLocks(st, t, a, Awaited(st.pcs[u]).value);
    }
  }

  /** Without a ring, as long as a request is unfinished some request can go on. */
  lemma Progress(states: seq<State>, events: seq<Event>, k: nat, t: Tid)
    requires Run(states, events) && k <= |events| && Unfinished(states[k], t)
    ensures (exists u :: CanGo(states[k], u)) || exists ring :: Ring(states[k], ring)
  {
    var st := states[k];
    RunInv(states, events, k);
    if forall u :: !CanGo(st, u) {
      var ts := set u | u in st.pcs && !st.pcs[u].Idle?;
      forall u | u in ts
        ensures Stuck(st, ts, u)
      {
        assert !CanGo(st, u);
        var n := Awaited(st.pcs[u]).value;
        assert LockInv(st, n);
      }
      assert t in ts && Deadlocked(st, ts);
      DeadlockIsRing(states, events, k);
    }
  }

  // ---- which requests can end in a ring ----

  /** The request that a thread works on, as long as that can be told from where it is. */
  function Source(pc: Pc): Option<Request> {
    match pc
    case WantSnap(s, p) => Some(CreateSnapshot(s, p))
    case CheckSnap(s, p) => Some(CreateSnapshot(s, p))
    case WantParent(s, p) => Some(CreateSnapshot(s, p))
    case ReadParent(s, p) => Some(CreateSnapshot(s, p))
    case WriteSnap(s, p, _, _) => Some(CreateSnapshot(s, p))
    case WantVol(v) => Some(RemoveVolume(v))
    case ReadVol(v) => Some(RemoveVolume(v))
    case WantEdit(v, _) => Some(RemoveVolume(v))
    case WantSrc(src, c) => Some(CloneVolume(src, c))
    case ReadSrc(src, c) => Some(CloneVolume(src, c))
    case WantClone(src, c) => Some(CloneVolume(src, c))
    case _ => None
  }

  lemma OwnSourceRemoval(st: State, t: Tid, a: Action)
    requires Enabled(st, t, a) && RemovalStep(st.pcs[t]) && Source(Apply(st, t, a).pcs[t]).Some?
    ensures Source(st.pcs[t]) == Source(Apply(st, t, a).pcs[t])
  {
  }

  lemma OwnSourceClone(st: State, t: Tid, a: Action)
    requires Enabled(st, t, a) && CloneStep(st.pcs[t]) && Source(Apply(st, t, a).pcs[t]).Some?
    ensures Source(st.pcs[t]) == Source(Apply(st, t, a).pcs[t])
  {
  }

  lemma OwnSourceCreation(st: State, t: Tid, a: Action)
    requires Enabled(st, t, a) && !RemovalStep(st.pcs[t]) && !CloneStep(st.pcs[t])
    requires Source(Apply(st, t, a).pcs[t]).Some?
    ensures var r := Source(Apply(st, t, a).pcs[t]); Source(st.pcs[t]) == r || a == Start(r.value)
  {
  }

  lemma StepSource(st: State, e: Event, t: Tid)
    requires Enabled(st, e.t, e.a) && t in Apply(st, e.t, e.a).pcs && Source(Apply(st, e.t, e.a).pcs[t]).Some?
    ensures t in st.pcs
    ensures var r := Source(Apply(st, e.t, e.a).pcs[t]); Source(st.pcs[t]) == r || e == Event(t, Start(r.value))
  {
    if e.t == t {
      if RemovalStep(st.pcs[t]) {
        OwnSourceRemoval(st, t, e.a);
      } else if CloneStep(st.pcs[t]) {
        OwnSourceClone(st, t, e.a);
      } else {
        OwnSourceCreation(st, t, e.a);
      }
    } else {
      OtherPcs(st, e.t, e.a, t);
    }
  }

  /** A request that a thread works on was asked for. */
  lemma {:induction false} WasRequested(states: seq<State>, events: seq<Event>, k: nat, t: Tid)
    requires Run(states, events) && k <= |events| && t in states[k].pcs && Source(states[k].pcs[t]).Some?
    ensures Event(t, Start(Source(states[k].pcs[t]).value)) in events[..k]
  {
    if k > 0 {
      var e := events[k - 1];
      assert states[k] == Apply(states[k - 1], e.t, e.a);
      assert events[..k] == events[..k - 1] + [e];
      StepSource(states[k - 1], e, t);
      if Source(states[k - 1].pcs[t]) == Source(states[k].pcs[t]) {
        WasRequested(states, events, k - 1, t);
      }
    }
  }

  /** A member of a ring: what it is, what it was asked for, and what it has seen of the name it holds. */
  ghost predicate MemberOf(st: State, events: seq<Event>, t: Tid, kind: Kind, n: Name, m: Name) {
    && t in st.pcs && st.pcs[t] == Waits(kind, n, m)
    && Event(t, Start(Asked(kind, n, m))) in events
    && Fits(st.recs, kind, n, m)
  }

  lemma WaitingFits(st: State, t: Tid)
    requires Inv(st) && Member(st, t)
    ensures var pc := st.pcs[t];
            && Awaited(pc).Some? && pc == Waits(KindOf(pc), Own(pc).value, Awaited(pc).value)
            && Fits(st.recs, KindOf(pc), Own(pc).value, Awaited(pc).value)
  {
    assert ThreadInv(st, t) && NameInv(st, Own(st.pcs[t]).value);
  }

  /** A ring takes a cycle of requests, each for a missing snapshot of the next one's name, for a clone of a volume
      under the next one's name, or for the removal of a snapshot of the next one's name. */
  lemma RingNeedsCycle(states: seq<State>, events: seq<Event>, k: nat, ring: seq<Tid>)
    requires Run(states, events) && k <= |events| && Ring(states[k], ring)
    ensures forall i :: 0 <= i < |ring| ==>
              MemberOf(states[k], events[..k], ring[i], KindOf(states[k].pcs[ring[i]]),
                       Own(states[k].pcs[ring[i]]).value, Own(states[k].pcs[ring[Next(i, |ring|)]]).value)
  {
    RunInv(states, events, k);
    forall i | 0 <= i < |ring|
      ensures MemberOf(states[k], events[..k], ring[i], KindOf(states[k].pcs[ring[i]]),
                       Own(states[k].pcs[ring[i]]).value, Own(states[k].pcs[ring[Next(i, |ring|)]]).value)
    {
      assert Member(states[k], ring[i]) && Member(states[k], ring[Next(i, |ring|)]);
      WaitingFits(states[k], ring[i]);
      WasRequested(states, events, k, ring[i]);
    }
  }

  // ---- an order of the names that rules rings out ----

  /** A snapshot ranks below its parent, and a volume below its clones. */
  predicate RequestUp(rank: Name -> nat, e: Event) {
    match e.a
    case Start(CreateSnapshot(s, p)) => rank(s) < rank(p)
    case Start(CloneVolume(src, c)) => rank(src) < rank(c)
    case _ => true
  }

  ghost predicate RecordsUp(rank: Name -> nat, recs: map<Name, Rec>) {
    forall s :: s in recs && recs[s].parent.Some? ==> rank(s) < rank(recs[s].parent.value)
  }

  lemma StepRecordsUp(rank: Name -> nat, st: State, e: Event)
    requires Inv(st) && Enabled(st, e.t, e.a) && RecordsUp(rank, st.recs)
    requires Source(st.pcs[e.t]).Some? ==> RequestUp(rank, Event(e.t, Start(Source(st.pcs[e.t]).value)))
    ensures RecordsUp(rank, Apply(st, e.t, e.a).recs)
  {
    assert ThreadInv(st, e.t);
  }

  lemma {:induction false} RunRecordsUp(rank: Name -> nat, states: seq<State>, events: seq<Event>, k: nat)
    requires Run(states, events) && k <= |events| && RecordsUp(rank, states[0].recs)
    requires forall i :: 0 <= i < k ==> RequestUp(rank, events[i])
    ensures RecordsUp(rank, states[k].recs)
  {
    if k > 0 {
      RunRecordsUp(rank, states, events, k - 1);
      RunInv(states, events, k - 1);
      var st, e := states[k - 1], events[k - 1];
      if Source(st.pcs[e.t]).Some? {
        WasRequested(states, events, k - 1, e.t);
      }
      StepRecordsUp(rank, st, e);
    }
  }

  predicate MemberUp(rank: Name -> nat, st: State, t: Tid) {
    && Member(st, t) && Awaited(st.pcs[t]).Some?
    && rank(Own(st.pcs[t]).value) < rank(Awaited(st.pcs[t]).value)
  }

  lemma WaitsUp(rank: Name -> nat, states: seq<State>, events: seq<Event>, k: nat, t: Tid)
    requires Run(states, events) && k <= |events| && RecordsUp(rank, states[k].recs)
    requires forall i :: 0 <= i < k ==> RequestUp(rank, events[i])
    requires Member(states[k], t)
    ensures MemberUp(rank, states[k], t)
  {
    RunInv(states, events, k);
    WaitingFits(states[k], t);
    WasRequested(states, events, k, t);
  }

  lemma {:induction false} RankClimbs(rank: Name -> nat, st: State, ring: seq<Tid>, i: nat)
    requires Ring(st, ring) && i < |ring| && forall j :: 0 <= j < |ring| ==> MemberUp(rank, st, ring[j])
    ensures rank(Own(st.pcs[ring[0]]).value) < rank(Awaited(st.pcs[ring[i]]).value)
  {
    assert MemberUp(rank, st, ring[i]);
    if i > 0 {
      RankClimbs(rank, st, ring, i - 1);
      assert MemberUp(rank, st, ring[0]) && MemberUp(rank, st, ring[i - 1]);
      assert Next(i - 1, |ring|) == i && Awaited(st.pcs[ring[i - 1]]) == Own(st.pcs[ring[i]]);
    }
  }

  /** So if the names can be ranked such that every requested or existing snapshot is below its parent and every
      requested clone above its source, then nothing ever deadlocks. */
  lemma RankedProgress(rank: Name -> nat, states: seq<State>, events: seq<Event>, k: nat, t: Tid)
    requires Run(states, events) && k <= |events| && Unfinished(states[k], t)
    requires RecordsUp(rank, states[0].recs) && forall i :: 0 <= i < k ==> RequestUp(rank, events[i])
    ensures exists u :: CanGo(states[k], u)
  {
    Progress(states, events, k, t);
    RunRecordsUp(rank, states, events, k);
    forall ring | Ring(states[k], ring)
      ensures false
    {
      forall j | 0 <= j < |ring|
        ensures MemberUp(rank, states[k], ring[j])
      {
        assert Member(states[k], ring[j]);
        WaitsUp(rank, states, events, k, ring[j]);
      }
      assert MemberUp(rank, states[k], ring[0]);
      RankClimbs(rank, states[k], ring, |ring| - 1);
    }
  }

  // ---- every fitting cycle of requests can end in a ring ----

  datatype Edge = Edge(kind: Kind, own: Name)

  function Target(edges: seq<Edge>, i: nat): Name
    requires i < |edges|
  {
    edges[Next(i, |edges|)].own
  }

  function AskedAt(edges: seq<Edge>, i: nat): Request
    requires i < |edges|
  {
    Asked(edges[i].kind, edges[i].own, Target(edges, i))
  }

  ghost predicate DistinctOwn(edges: seq<Edge>) {
    forall i, j :: 0 <= i < |edges| && 0 <= j < |edges| && edges[i].own == edges[j].own ==> i == j
  }

  predicate FitsAt(recs: map<Name, Rec>, edges: seq<Edge>, i: nat)
    requires i < |edges|
  {
    Fits(recs, edges[i].kind, edges[i].own, Target(edges, i))
  }

  /** The names are distinct, and every request sees what it must. */
  ghost predicate Cycle(recs: map<Name, Rec>, edges: seq<Edge>) {
    edges != [] && DistinctOwn(edges) && forall i :: 0 <= i < |edges| ==> FitsAt(recs, edges, i)
  }

  /** Waiting for its first lock, with the lookup of a new name behind it. */
  function First(kind: Kind, n: Name, m: Name): Pc {
    match kind
    case Snap => WantSnap(n, m)
    case Clone => WantSrc(n, m)
    case Remove => WantVol(n)
  }

  /** The first `i` requests wait for their second locks, and the others can take their first ones. */
  ghost predicate Gathered(st: State, edges: seq<Edge>, i: nat) {
    forall j :: 0 <= j < |edges| ==> GatheredAt(st, edges, i, j)
  }

  ghost predicate GatheredAt(st: State, edges: seq<Edge>, i: nat, j: nat)
    requires j < |edges|
  {
    && j in st.pcs && st.pcs[j] == (if j < i then SecondAt(edges, j) else FirstAt(edges, j))
    && (j >= i ==> Free(st, edges[j].own))
  }

  function FirstAt(edges: seq<Edge>, j: nat): Pc
    requires j < |edges|
  {
    First(edges[j].kind, edges[j].own, Target(edges, j))
  }

  function SecondAt(edges: seq<Edge>, j: nat): Pc
    requires j < |edges|
  {
    Waits(edges[j].kind, edges[j].own, Target(edges, j))
  }

  /** The request takes its first lock and sees what it must. */
  lemma TwoSteps(st: State, t: Tid, kind: Kind, n: Name, m: Name) returns (mid: State, st': State)
    requires t in st.pcs && st.pcs[t] == First(kind, n, m) && Free(st, n) && Fits(st.recs, kind, n, m)
    ensures Enabled(st, t, Proceed(true)) && mid == Apply(st, t, Proceed(true))
    ensures Enabled(mid, t, Proceed(true)) && st' == Apply(mid, t, Proceed(true))
    ensures st' == State(st.recs, st.doubled, st.locks[n := t], st.pcs[t := Waits(kind, n, m)], st.nextId)
  {
    mid := Apply(st, t, Proceed(true));
    st' := Apply(mid, t, Proceed(true));
    match kind {
      case Snap =>
        assert mid.pcs[t] == CheckSnap(n, m);
        assert st'.pcs == st.pcs[t := WantParent(n, m)];
      case Clone =>
        assert mid.pcs[t] == ReadSrc(n, m);
        assert st'.pcs == st.pcs[t := WantClone(n, m)];
      case Remove =>
        assert mid.pcs[t] == ReadVol(n);
        assert st'.pcs == st.pcs[t := WantEdit(n, m)];
    }
  }

  lemma GatherOne(st: State, edges: seq<Edge>, i: nat, j: nat, st': State, pc: Pc)
    requires i < |edges| && j < |edges| && DistinctOwn(edges) && GatheredAt(st, edges, i, j)
    requires st'.locks == st.locks[edges[i].own := i] && st'.pcs == st.pcs[i := pc] && pc == SecondAt(edges, i)
    ensures GatheredAt(st', edges, i + 1, j)
  {
    if j != i {
      assert edges[i].own != edges[j].own;
    }
  }

  lemma Gather(st: State, edges: seq<Edge>, i: nat) returns (mid: State, st': State)
    requires Cycle(st.recs, edges) && i < |edges| && Gathered(st, edges, i)
    ensures Enabled(st, i, Proceed(true)) && mid == Apply(st, i, Proceed(true))
    ensures Enabled(mid, i, Proceed(true)) && st' == Apply(mid, i, Proceed(true))
    ensures st'.recs == st.recs && Gathered(st', edges, i + 1)
  {
    assert GatheredAt(st, edges, i, i) && FitsAt(st.recs, edges, i);
    mid, st' := TwoSteps(st, i, edges[i].kind, edges[i].own, Target(edges, i));
    var k := i + 1;
    forall j | 0 <= j < |edges|
      ensures GatheredAt(st', edges, k, j)
    {
      assert GatheredAt(st, edges, i, j);
      GatherOne(st, edges, i, j, st', SecondAt(edges, i));
    }
  }

  predicate NoStart(events: seq<Event>) {
    forall e :: e in events ==> e.a.Proceed?
  }

  lemma {:induction false} GatherAll(states: seq<State>, events: seq<Event>, edges: seq<Edge>, i: nat)
    returns (states': seq<State>, more: seq<Event>)
    requires Run(states, events) && Cycle(states[|events|].recs, edges) && i <= |edges|
    requires Gathered(states[|events|], edges, i)
    ensures Run(states', events + more) && NoStart(more) && states'[0] == states[0]
    ensures var st := states'[|events + more|]; st.recs == states[|events|].recs && Gathered(st, edges, |edges|)
    decreases |edges| - i
  {
    if i == |edges| {
      states', more := states, [];
      assert events + [] == events;
    } else {
      var mid, st' := Gather(states[|events|], edges, i);
      var states1, events1 := RunOn(states, events, i, Proceed(true));
      var states2, events2 := RunOn(states1, events1, i, Proceed(true));
      states', more := GatherAll(states2, events2, edges, i + 1);
      var two := [Event(i, Proceed(true)), Event(i, Proceed(true))];
      assert events2 == events + two;
      assert events2 + more == events + (two + more);
      more := two + more;
    }
  }

  lemma GatheredIsRing(st: State, edges: seq<Edge>) returns (ring: seq<Tid>)
    requires edges != [] && Gathered(st, edges, |edges|)
    ensures Ring(st, ring) && |ring| == |edges| && forall i :: 0 <= i < |ring| ==> ring[i] == i
  {
    ring := seq(|edges|, j => j);
    forall i | 0 <= i < |ring|
      ensures Member(st, ring[i]) && Member(st, ring[Next(i, |ring|)])
      ensures Awaited(st.pcs[ring[i]]) == Own(st.pcs[ring[Next(i, |ring|)]])
    {
      assert GatheredAt(st, edges, |edges|, i) && GatheredAt(st, edges, |edges|, Next(i, |edges|));
    }
  }

  /** In any run, requests that form such a cycle, wait for their first locks and can take them can all get as far as
      the second: the run goes on to a deadlock. */
  lemma RingFollows(states: seq<State>, events: seq<Event>, edges: seq<Edge>)
    returns (states': seq<State>, more: seq<Event>, ring: seq<Tid>)
    requires Run(states, events) && Cycle(states[|events|].recs, edges) && Gathered(states[|events|], edges, 0)
    ensures Run(states', events + more) && NoStart(more) && states'[0] == states[0]
    ensures Ring(states'[|events + more|], ring) && Deadlocked(states'[|events + more|], Elems(ring))
    ensures |ring| == |edges| && Gathered(states'[|events + more|], edges, |edges|)
    ensures forall i :: 0 <= i < |ring| ==> ring[i] == i
  {
    states', more := GatherAll(states, events, edges, 0);
    ring := GatheredIsRing(states'[|events + more|], edges);
    RunInv(states', events + more, |events + more|);
    RingDeadlocks(states'[|events + more|], ring);
  }

  /** The first `i` requests have been made. */
  function Started(recs: map<Name, Rec>, edges: seq<Edge>, i: nat): State
    requires i <= |edges|
  {
    State(recs, {}, map[],
          map j: nat | 0 <= j < |edges| ::
            if j < i then FirstAt(edges, j) else Idle, 0)
  }

  lemma BeginAt(recs: map<Name, Rec>, kind: Kind, n: Name, m: Name)
    requires Fits(recs, kind, n, m) && (kind.Clone? ==> m !in recs)
    ensures Begin(recs, Asked(kind, n, m)) == First(kind, n, m)
  {
  }

  lemma StartOne(recs: map<Name, Rec>, edges: seq<Edge>, i: nat)
    requires i < |edges| && FitsAt(recs, edges, i) && (edges[i].kind.Clone? ==> Target(edges, i) !in recs)
    ensures var st := Started(recs, edges, i);
            && Enabled(st, i, Start(AskedAt(edges, i)))
            && Apply(st, i, Start(AskedAt(edges, i))) == Started(recs, edges, i + 1)
  {
    BeginAt(recs, edges[i].kind, edges[i].own, Target(edges, i));
    var st, k := Started(recs, edges, i), i + 1;
    assert st.pcs[i] == Idle;
    assert Apply(st, i, Start(AskedAt(edges, i))) == Go(st, i, FirstAt(edges, i));
    assert st.pcs[i := FirstAt(edges, i)] == Started(recs, edges, k).pcs;
  }

  lemma {:induction false} StartAll(recs: map<Name, Rec>, edges: seq<Edge>, i: nat)
    returns (states: seq<State>, events: seq<Event>)
    requires (forall n :: Settled(recs, n)) && Cycle(recs, edges) && i <= |edges|
    requires forall j :: 0 <= j < |edges| && edges[j].kind.Clone? ==> Target(edges, j) !in recs
    ensures Run(states, events) && states[0].recs == recs && states[|events|] == Started(recs, edges, i)
    ensures |events| == i && forall j :: 0 <= j < i ==> events[j] == Event(j, Start(AskedAt(edges, j)))
  {
    if i == 0 {
      states, events := [Started(recs, edges, 0)], [];
    } else {
      states, events := StartAll(recs, edges, i - 1);
      StartOne(recs, edges, i - 1);
      states, events := RunOn(states, events, i - 1, Start(AskedAt(edges, i - 1)));
    }
  }

  /** From any records, every cycle in which no clone's name is taken yet: these requests, and no others, can end in
      a deadlock. One name asks for a snapshot of itself, two for snapshots of each other; or B is asked for both as
      a snapshot and as a clone of A. */
  lemma RingReachable(recs: map<Name, Rec>, edges: seq<Edge>)
    returns (states: seq<State>, events: seq<Event>, ring: seq<Tid>)
    requires (forall n :: Settled(recs, n)) && Cycle(recs, edges)
    requires forall j :: 0 <= j < |edges| && edges[j].kind.Clone? ==> Target(edges, j) !in recs
    ensures Run(states, events) && states[0].recs == recs
    ensures forall e :: e in events && e.a.Start? ==> exists j :: 0 <= j < |edges| && e.a.r == AskedAt(edges, j)
    ensures Ring(states[|events|], ring) && Deadlocked(states[|events|], Elems(ring)) && |ring| == |edges|
  {
    var states0, events0 := StartAll(recs, edges, |edges|);
    assert Gathered(states0[|events0|], edges, 0);
    var more;
    states, more, ring := RingFollows(states0, events0, edges);
    events := events0 + more;
  }

  /** A exists and B does not: a snapshot and a clone of A, both asked for under the name B. */
  lemma SnapshotAgainstClone(recs: map<Name, Rec>, a: Name, b: Name)
    returns (states: seq<State>, events: seq<Event>, ring: seq<Tid>)
    requires (forall n :: Settled(recs, n)) && a in recs && recs[a].parent.None? && b !in recs
    ensures Run(states, events) && states[0].recs == recs && Deadlocked(states[|events|], Elems(ring)) && |ring| == 2
    ensures forall e :: e in events && e.a.Start? ==> e.a.r in {CreateSnapshot(b, a), CloneVolume(a, b)}
  {
    var edges := [Edge(Snap, b), Edge(Clone, a)];
    states, events, ring := RingReachable(recs, edges);
    assert AskedAt(edges, 0) == CreateSnapshot(b, a) && AskedAt(edges, 1) == CloneVolume(a, b);
  }

  lemma CloneAsked(recs: map<Name, Rec>, a: Name, b: Name) returns (states: seq<State>, events: seq<Event>)
    requires (forall n :: Settled(recs, n)) && a in recs && recs[a].parent.None? && b !in recs
    ensures Run(states, events) && states[0].recs == recs
    ensures states[|events|] == State(recs, {}, map[], map[0 := WantSrc(a, b), 1 := WantSnap(b, a)], 0)
  {
    states := [State(recs, {}, map[], map[0 := Idle, 1 := Idle], 0)];
    assert Run(states, []);
    states, events := RunOn(states, [], 0, Start(CloneVolume(a, b)));
    states, events := RunOn(states, events, 1, Start(CreateSnapshot(b, a)));
    assert states[|events|].pcs == map[0 := WantSrc(a, b), 1 := WantSnap(b, a)];
  }

  lemma SnapshotSaved(recs: map<Name, Rec>, a: Name, b: Name) returns (states: seq<State>, events: seq<Event>)
    requires (forall n :: Settled(recs, n)) && a in recs && recs[a].parent.None? && b !in recs
    ensures Run(states, events) && states[0].recs == recs
    ensures var copy := recs[a].(snaps := recs[a].snaps + [Entry(b, 0)]);
            states[|events|] == State(recs[b := Rec(0, Some(a), [])], {}, map[b := 1, a := 1],
                                      map[0 := WantSrc(a, b), 1 := WriteParent(b, a, 0, copy)], 1)
  {
    states, events := CloneAsked(recs, a, b);
    states, events := RunOn(states, events, 1, Proceed(true));
    states, events := RunOn(states, events, 1, Proceed(true));
    assert states[|events|] == State(recs, {}, map[b := 1], map[0 := WantSrc(a, b), 1 := WantParent(b, a)], 0);
    states, events := RunOn(states, events, 1, Proceed(true));
    states, events := RunOn(states, events, 1, Proceed(true));
    states, events := RunOn(states, events, 1, Proceed(true));
    var copy := recs[a].(snaps := recs[a].snaps + [Entry(b, 0)]);
    assert states[|events|].pcs == map[0 := WantSrc(a, b), 1 := WriteParent(b, a, 0, copy)];
  }

  lemma RemovalAsked(recs: map<Name, Rec>, a: Name, b: Name) returns (states: seq<State>, events: seq<Event>)
    requires (forall n :: Settled(recs, n)) && a in recs && recs[a].parent.None? && b !in recs
    ensures Run(states, events) && states[0].recs == recs
    ensures var copy := recs[a].(snaps := recs[a].snaps + [Entry(b, 0)]);
            states[|events|] == State(recs[b := Rec(0, Some(a), [])][a := copy], {}, map[],
                                      map[0 := WantSrc(a, b), 1 := WantVol(b)], 1)
  {
    states, events := SnapshotSaved(recs, a, b);
    states, events := RunOn(states, events, 1, Proceed(true));
    states, events := RunOn(states, events, 1, Proceed(true));
    states, events := RunOn(states, events, 1, Proceed(true));
    assert states[|events|].locks == map[] && states[|events|].pcs == map[0 := WantSrc(a, b), 1 := Idle];
    states, events := RunOn(states, events, 1, Start(RemoveVolume(b)));
    assert states[|events|].pcs == map[0 := WantSrc(a, b), 1 := WantVol(b)];
  }

  /** And a clone of A under the name B, of which there was no record when it was asked for, against the removal of a
      snapshot of A that has got this name since. */
  lemma RemovalAgainstClone(recs: map<Name, Rec>, a: Name, b: Name)
    returns (states: seq<State>, events: seq<Event>, ring: seq<Tid>)
    requires (forall n :: Settled(recs, n)) && a in recs && recs[a].parent.None? && b !in recs
    ensures Run(states, events) && states[0].recs == recs && Deadlocked(states[|events|], Elems(ring))
    ensures |ring| == 2 && ring[0] in states[|events|].pcs && ring[1] in states[|events|].pcs
    ensures states[|events|].pcs[ring[0]] == WantClone(a, b) && states[|events|].pcs[ring[1]] == WantEdit(b, a)
  {
    var states0, events0 := RemovalAsked(recs, a, b);
    var edges := [Edge(Clone, a), Edge(Remove, b)];
    var st := states0[|events0|];
    assert GatheredAt(st, edges, 0, 0) && GatheredAt(st, edges, 0, 1);
    var more;
    states, more, ring := RingFollows(states0, events0, edges);
    events := events0 + more;
    assert GatheredAt(states[|events|], edges, 2, 0) && GatheredAt(states[|events|], edges, 2, 1);
  }
}
