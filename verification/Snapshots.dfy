/** The snapshot forest (volume_manager.py): a snapshot's record and its entry in the parent's list, created and
    removed by concurrent requests under per-name locks, with volumes created and cloned beside them. */
module Snapshots {
  import opened Util

  type Name = string
  type Tid = nat

  datatype Entry = Entry(name: Name, id: nat)

  /** A volume's record; `parent` is set for snapshots. */
  datatype Rec = Rec(id: nat, parent: Option<Name>, snaps: seq<Entry>)

  /** Where a request is. "Want" waits for a lock, "Drop" is about to release one. */
  datatype Pc =
    | Idle
    | WantNew(v: Name) | NewVol(v: Name)
    | WantSnap(s: Name, p: Name) | CheckSnap(s: Name, p: Name) | WantParent(s: Name, p: Name)
    | ReadParent(s: Name, p: Name) | WriteSnap(s: Name, p: Name, id: nat, copy: Rec)
    | WriteParent(s: Name, p: Name, id: nat, copy: Rec) | UndoSnap(s: Name, p: Name) | DropParent(s: Name, p: Name)
    | WantVol(v: Name) | ReadVol(v: Name) | WantEdit(v: Name, p: Name) | EditParent(v: Name, p: Name)
    | DropEdited(v: Name, p: Name) | DeleteRec(v: Name)
    | WantSrc(src: Name, c: Name) | ReadSrc(src: Name, c: Name) | WantClone(src: Name, c: Name)
    | MakeClone(src: Name, c: Name) | DropClone(src: Name, c: Name)
    | DropOwn(v: Name)

  /** `doubled` are the names under which a clone was saved beside a record that was there; `recs` keeps the older. */
  datatype State = State(recs: map<Name, Rec>, doubled: set<Name>, locks: map<Name, Tid>, pcs: map<Tid, Pc>,
                         nextId: nat)

  /** A request: a new volume, a new snapshot, the removal of either, or a clone `c` of `src`. */
  datatype Request =
    | CreateVolume(v: Name) | CreateSnapshot(s: Name, p: Name) | RemoveVolume(v: Name) | CloneVolume(src: Name, c: Name)

  /** What the thread does next: a new request, or its next step with the array and etcd answering ok or not. */
  datatype Action = Start(r: Request) | Proceed(ok: bool)

  // ---- entries ----

  function Count(snaps: seq<Entry>, s: Name): nat {
    if snaps == [] then 0 else (if snaps[0].name == s then 1 else 0) + Count(snaps[1..], s)
  }

  /** Deletes the first entry of that name, as remove_snapshot does. */
  function DropEntry(snaps: seq<Entry>, s: Name): seq<Entry> {
    if snaps == [] then [] else if snaps[0].name == s then snaps[1..] else [snaps[0]] + DropEntry(snaps[1..], s)
  }

  lemma {:induction false} CountAppend(snaps: seq<Entry>, e: Entry, s: Name)
    ensures Count(snaps + [e], s) == Count(snaps, s) + (if e.name == s then 1 else 0)
  {
    if snaps == [] {
      assert [] + [e] == [e];
    } else {
      CountAppend(snaps[1..], e, s);
      assert (snaps + [e])[1..] == snaps[1..] + [e];
    }
  }

  lemma {:induction false} CountDrop(snaps: seq<Entry>, x: Name, s: Name)
    ensures Count(DropEntry(snaps, x), s)
         == if s == x && Count(snaps, s) > 0 then Count(snaps, s) - 1 else Count(snaps, s)
  {
    if snaps != [] && snaps[0].name != x {
      CountDrop(snaps[1..], x, s);
    }
  }

  lemma {:induction false} CountIn(snaps: seq<Entry>, s: Name)
    ensures Count(snaps, s) > 0 <==> exists i :: 0 <= i < |snaps| && snaps[i].name == s
  {
    if snaps != [] {
      CountIn(snaps[1..], s);
      if i :| 0 <= i < |snaps[1..]| && snaps[1..][i].name == s {
        assert snaps[i + 1].name == s;
      }
    }
  }

  lemma {:induction false} DropKeeps(snaps: seq<Entry>, x: Name, e: Entry)
    requires e.name != x
    ensures e in DropEntry(snaps, x) <==> e in snaps
  {
    if snaps != [] {
      DropKeeps(snaps[1..], x, e);
      assert snaps == [snaps[0]] + snaps[1..];
    }
  }

  // ---- steps ----

  predicate Free(st: State, n: Name) {
    n !in st.locks
  }

  predicate Enabled(st: State, t: Tid, a: Action) {
    && t in st.pcs
    && match st.pcs[t]
       case Idle => a.Start?
       case WantNew(v) => a.Proceed? && Free(st, v)
       case WantSnap(s, _) => a.Proceed? && Free(st, s)
       case WantParent(_, p) => a.Proceed? && Free(st, p)
       case WantVol(v) => a.Proceed? && Free(st, v)
       case WantEdit(_, p) => a.Proceed? && Free(st, p)
       case WantSrc(src, _) => a.Proceed? && Free(st, src)
       case WantClone(_, c) => a.Proceed? && Free(st, c)
       case _ => a.Proceed?
  }

  function Go(st: State, t: Tid, pc: Pc): State {
    st.(pcs := st.pcs[t := pc])
  }

  function Lock(st: State, t: Tid, n: Name, pc: Pc): State {
    st.(locks := st.locks[n := t], pcs := st.pcs[t := pc])
  }

  function Unlock(st: State, t: Tid, n: Name, pc: Pc): State {
    st.(locks := st.locks - {n}, pcs := st.pcs[t := pc])
  }

  /** A request for a new name looks first, without a lock, whether the name is there, and then ends at once. */
  function Begin(recs: map<Name, Rec>, r: Request): Pc {
    match r
    case CreateVolume(v) => if v in recs then Idle else WantNew(v)
    case CreateSnapshot(s, p) => if s in recs then Idle else WantSnap(s, p)
    case RemoveVolume(v) => WantVol(v)
    case CloneVolume(src, c) => if c in recs then Idle else WantSrc(src, c)
  }

  /** The parent's record without the snapshot's entry, if there is a parent. */
  function Edited(recs: map<Name, Rec>, v: Name, p: Name): map<Name, Rec> {
    if p in recs then recs[p := recs[p].(snaps := DropEntry(recs[p].snaps, v))] else recs
  }

  function Apply(st: State, t: Tid, a: Action): State
    requires Enabled(st, t, a)
  {
    match st.pcs[t]
    case Idle => Go(st, t, Begin(st.recs, a.r))
    case WantNew(v) => Lock(st, t, v, NewVol(v))
    case NewVol(v) =>
      if v in st.recs || !a.ok then Go(st, t, DropOwn(v))
      else Go(st, t, DropOwn(v)).(recs := st.recs[v := Rec(st.nextId, None, [])], nextId := st.nextId + 1)
    case WantSnap(s, p) => Lock(st, t, s, CheckSnap(s, p))
    case CheckSnap(s, p) => Go(st, t, if s in st.recs then DropOwn(s) else WantParent(s, p))
    case WantParent(s, p) => Lock(st, t, p, ReadParent(s, p))
    case ReadParent(s, p) =>
      if p !in st.recs || st.recs[p].parent.Some? || !a.ok then Go(st, t, DropParent(s, p))
      else
        var copy := st.recs[p].(snaps := st.recs[p].snaps + [Entry(s, st.nextId)]);
        Go(st, t, WriteSnap(s, p, st.nextId, copy)).(nextId := st.nextId + 1)
    case WriteSnap(s, p, id, copy) =>
      if !a.ok then Go(st, t, DropParent(s, p))
      else Go(st, t, WriteParent(s, p, id, copy)).(recs := st.recs[s := Rec(id, Some(p), [])])
    case WriteParent(s, p, id, copy) =>
      if !a.ok then Go(st, t, UndoSnap(s, p))
      else Go(st, t, DropParent(s, p)).(recs := st.recs[p := copy])
    case UndoSnap(s, p) => Go(st, t, DropParent(s, p)).(recs := st.recs - {s})
    case DropParent(s, p) => Unlock(st, t, p, DropOwn(s))
    case WantVol(v) => Lock(st, t, v, ReadVol(v))
    case ReadVol(v) =>
      if v !in st.recs || st.recs[v].snaps != [] || !a.ok then Go(st, t, DropOwn(v))
      else Go(st, t, match st.recs[v].parent case Some(p) => WantEdit(v, p) case None => DeleteRec(v))
    case WantEdit(v, p) => Lock(st, t, p, EditParent(v, p))
    case EditParent(v, p) => Go(st, t, DropEdited(v, p)).(recs := Edited(st.recs, v, p))
    case DropEdited(v, p) => Unlock(st, t, p, DeleteRec(v))
    case DeleteRec(v) => Go(st, t, DropOwn(v)).(recs := st.recs - {v})
    case WantSrc(src, c) => Lock(st, t, src, ReadSrc(src, c))
    case ReadSrc(src, c) =>
      Go(st, t, if src !in st.recs || st.recs[src].parent.Some? || !a.ok then DropOwn(src) else WantClone(src, c))
    case WantClone(src, c) => Lock(st, t, c, MakeClone(src, c))
    case MakeClone(src, c) =>  // whether the name has a record is not looked up again
      if !a.ok then Go(st, t, DropClone(src, c))
      else if c in st.recs then Go(st, t, DropClone(src, c)).(doubled := st.doubled + {c})
      else Go(st, t, DropClone(src, c)).(recs := st.recs[c := Rec(st.nextId, None, [])], nextId := st.nextId + 1)
    case DropClone(src, c) => Unlock(st, t, c, DropOwn(src))
    case DropOwn(v) => Unlock(st, t, v, Idle)
  }

  // ---- invariant ----

  /** No volume lists `s`. */
  ghost predicate Unlisted(recs: map<Name, Rec>, s: Name) {
    forall q :: q in recs ==> Count(recs[q].snaps, s) == 0
  }

  /** `s`'s record and its listing agree: a snapshot is listed once, with its id, by its parent, which
      is there and is no snapshot; anything else is not listed at all. */
  ghost predicate Settled(recs: map<Name, Rec>, s: Name) {
    if s in recs && recs[s].parent.Some? then
      var p := recs[s].parent.value;
      && p in recs && recs[p].parent.None?
      && Count(recs[p].snaps, s) == 1 && Entry(s, recs[s].id) in recs[p].snaps
      && (forall q :: q in recs && q != p ==> Count(recs[q].snaps, s) == 0)
      && recs[s].snaps == []
    else Unlisted(recs, s)
  }

  /** The name whose record a request is in the middle of changing. */
  function Midway(pc: Pc): Option<Name> {
    match pc
    case WriteParent(s, _, _, _) => Some(s)
    case UndoSnap(s, _) => Some(s)
    case DropEdited(v, _) => Some(v)
    case DeleteRec(v) => Some(v)
    case _ => None
  }

  ghost predicate NameInv(st: State, s: Name) {
    if s in st.locks && st.locks[s] in st.pcs && Midway(st.pcs[st.locks[s]]) == Some(s)
    then Unlisted(st.recs, s) && s in st.recs && st.recs[s].snaps == []
    else Settled(st.recs, s)
  }

  /** The locks a request holds. */
  function Held(pc: Pc): set<Name> {
    match pc
    case NewVol(v) => {v}
    case CheckSnap(s, _) => {s}
    case WantParent(s, _) => {s}
    case ReadParent(s, p) => {s, p}
    case WriteSnap(s, p, _, _) => {s, p}
    case WriteParent(s, p, _, _) => {s, p}
    case UndoSnap(s, p) => {s, p}
    case DropParent(s, p) => {s, p}
    case ReadVol(v) => {v}
    case WantEdit(v, _) => {v}
    case EditParent(v, p) => {v, p}
    case DropEdited(v, p) => {v, p}
    case DeleteRec(v) => {v}
    case ReadSrc(src, _) => {src}
    case WantClone(src, _) => {src}
    case MakeClone(src, c) => {src, c}
    case DropClone(src, c) => {src, c}
    case DropOwn(v) => {v}
    case _ => {}
  }

  /** What a request knows of the records it has locked. */
  ghost predicate Knows(recs: map<Name, Rec>, pc: Pc) {
    match pc
    case WantParent(s, p) => s !in recs
    case ReadParent(s, p) => s !in recs && s != p
    case WriteSnap(s, p, id, copy) => s !in recs && s != p && Copied(recs, s, p, id, copy)
    case WriteParent(s, p, id, copy) =>
      s in recs && s != p && recs[s] == Rec(id, Some(p), []) && Copied(recs, s, p, id, copy)
    case UndoSnap(s, p) => s in recs && s != p && recs[s].parent == Some(p)
    case DropParent(s, p) => s != p
    case WantEdit(v, p) => v in recs && recs[v].parent == Some(p)
    case EditParent(v, p) => v in recs && recs[v].parent == Some(p) && v != p
    case DropEdited(v, p) => v in recs && recs[v].parent == Some(p) && v != p
    case DeleteRec(v) => v in recs
    case WantClone(src, _) => src in recs && recs[src].parent.None?
    case MakeClone(src, c) => src != c
    case DropClone(src, c) => src != c
    case _ => true
  }

  ghost predicate Copied(recs: map<Name, Rec>, s: Name, p: Name, id: nat, copy: Rec) {
    p in recs && recs[p].parent.None? && copy == recs[p].(snaps := recs[p].snaps + [Entry(s, id)])
  }

  ghost predicate ThreadInv(st: State, t: Tid) {
    t in st.pcs ==>
      && (forall n :: n in Held(st.pcs[t]) ==> n in st.locks && st.locks[n] == t)
      && Knows(st.recs, st.pcs[t])
  }

  /** A lock that is taken has a holder that knows it. */
  ghost predicate LockInv(st: State, n: Name) {
    n in st.locks ==> st.locks[n] in st.pcs && n in Held(st.pcs[st.locks[n]])
  }

  ghost predicate Inv(st: State) {
    (forall t :: ThreadInv(st, t)) && (forall s :: NameInv(st, s)) && (forall n :: LockInv(st, n))
  }

  ghost predicate Init(st: State) {
    && (forall s :: Settled(st.recs, s))
    && st.doubled == {} && st.locks == map[] && forall t :: t in st.pcs ==> st.pcs[t] == Idle
  }

  // ---- changes to the records ----

  lemma AddRec(recs: map<Name, Rec>, n: Name, r: Rec, x: Name)
    requires n !in recs && r.snaps == []
    ensures Unlisted(recs, x) ==> Unlisted(recs[n := r], x)
    ensures Settled(recs, x) && x != n ==> Settled(recs[n := r], x)
  {
  }

  lemma RemoveRec(recs: map<Name, Rec>, n: Name, x: Name)
    requires n in recs && recs[n].snaps == []
    ensures Unlisted(recs, x) ==> Unlisted(recs - {n}, x)
    ensures Settled(recs, x) && x != n ==> Settled(recs - {n}, x)
  {
  }

  lemma ListSnap(recs: map<Name, Rec>, p: Name, e: Entry, x: Name)
    requires p in recs && recs[p].parent.None?
    ensures var recs' := recs[p := recs[p].(snaps := recs[p].snaps + [e])];
            && (x != e.name && Unlisted(recs, x) ==> Unlisted(recs', x))
            && (x != e.name && Settled(recs, x) ==> Settled(recs', x))
            && (x == e.name && Unlisted(recs, x) && x in recs && x != p && recs[x] == Rec(e.id, Some(p), []) ==>
                Settled(recs', x))
  {
    CountAppend(recs[p].snaps, e, x);
  }

  lemma UnlistSnap(recs: map<Name, Rec>, p: Name, v: Name, x: Name)
    requires p in recs && v in recs && recs[v].parent == Some(p) && Settled(recs, v)
    ensures var recs' := Edited(recs, v, p);
            && (x != v && Unlisted(recs, x) ==> Unlisted(recs', x))
            && (x != v && Settled(recs, x) ==> Settled(recs', x))
            && Unlisted(recs', v)
  {
    CountDrop(recs[p].snaps, v, x);
    CountDrop(recs[p].snaps, v, v);
    if x in recs {
      if x != v {
        DropKeeps(recs[p].snaps, v, Entry(x, recs[x].id));
      }
    }
  }

  // ---- one step ----

  /** What a request knows depends only on the records it has locked. */
  lemma KnowsLocally(recs: map<Name, Rec>, recs': map<Name, Rec>, pc: Pc)
    requires Knows(recs, pc)
    requires forall n :: n in Held(pc) ==> (n in recs <==> n in recs') && (n in recs ==> recs[n] == recs'[n])
    ensures Knows(recs', pc)
  {
  }

  /** A step changes only records its request has locked. */
  lemma ChangesLocked(st: State, t: Tid, a: Action, n: Name)
    requires Enabled(st, t, a) && n !in Held(st.pcs[t]) && Knows(st.recs, st.pcs[t])
    ensures n in st.recs <==> n in Apply(st, t, a).recs
    ensures n in st.recs ==> Apply(st, t, a).recs[n] == st.recs[n]
  {
  }

  predicate CloneStep(pc: Pc) {
    pc.WantSrc? || pc.ReadSrc? || pc.WantClone? || pc.MakeClone? || pc.DropClone?
  }

  predicate RemovalStep(pc: Pc) {
    pc.WantVol? || pc.ReadVol? || pc.WantEdit? || pc.EditParent? || pc.DropEdited? || pc.DeleteRec? || pc.DropOwn?
  }

  lemma OtherLocksRemoval(st: State, t: Tid, a: Action, n: Name)
    requires ThreadInv(st, t) && Enabled(st, t, a) && n in st.locks && st.locks[n] != t && RemovalStep(st.pcs[t])
    ensures n in Apply(st, t, a).locks && Apply(st, t, a).locks[n] == st.locks[n]
  {
  }

  lemma OtherLocksClone(st: State, t: Tid, a: Action, n: Name)
    requires ThreadInv(st, t) && Enabled(st, t, a) && n in st.locks && st.locks[n] != t && CloneStep(st.pcs[t])
    ensures n in Apply(st, t, a).locks && Apply(st, t, a).locks[n] == st.locks[n]
  {
  }

  lemma OtherLocksCreation(st: State, t: Tid, a: Action, n: Name)
    requires ThreadInv(st, t) && Enabled(st, t, a) && n in st.locks && st.locks[n] != t
    requires !RemovalStep(st.pcs[t]) && !CloneStep(st.pcs[t])
    ensures n in Apply(st, t, a).locks && Apply(st, t, a).locks[n] == st.locks[n]
  {
  }

  /** A step changes no lock that another request holds. */
  lemma OtherLocks(st: State, t: Tid, a: Action, n: Name)
    requires ThreadInv(st, t) && Enabled(st, t, a) && n in st.locks && st.locks[n] != t
    ensures n in Apply(st, t, a).locks && Apply(st, t, a).locks[n] == st.locks[n]
  {
    if RemovalStep(st.pcs[t]) {
      OtherLocksRemoval(st, t, a, n);
    } else if CloneStep(st.pcs[t]) {
      OtherLocksClone(st, t, a, n);
    } else {
      OtherLocksCreation(st, t, a, n);
    }
  }

  /** A step moves its own request only. */
  lemma OtherPcs(st: State, t: Tid, a: Action, u: Tid)
    requires Enabled(st, t, a) && u != t
    ensures u in Apply(st, t, a).pcs <==> u in st.pcs
    ensures u in st.pcs ==> Apply(st, t, a).pcs[u] == st.pcs[u]
  {
  }

  lemma OtherThread(st: State, t: Tid, a: Action, u: Tid)
    requires ThreadInv(st, t) && ThreadInv(st, u) && t != u && Enabled(st, t, a)
    ensures ThreadInv(Apply(st, t, a), u)
  {
    OtherPcs(st, t, a, u);
    if u in st.pcs {
      forall n | n in Held(st.pcs[u])
        ensures n in Apply(st, t, a).locks && Apply(st, t, a).locks[n] == u
        ensures n in st.recs <==> n in Apply(st, t, a).recs
        ensures (n in st.recs ==> st.recs[n] == Apply(st, t, a).recs[n])
      {
        OtherLocks(st, t, a, n);
        ChangesLocked(st, t, a, n);
      }
      KnowsLocally(st.recs, Apply(st, t, a).recs, st.pcs[u]);
    }
  }

  lemma OwnRemovalThread(st: State, t: Tid, a: Action)
    requires ThreadInv(st, t) && Enabled(st, t, a) && RemovalStep(st.pcs[t])
    ensures ThreadInv(Apply(st, t, a), t)
  {
  }

  lemma OwnCloneThread(st: State, t: Tid, a: Action)
    requires ThreadInv(st, t) && Enabled(st, t, a) && CloneStep(st.pcs[t])
    ensures ThreadInv(Apply(st, t, a), t)
  {
  }

  lemma OwnCreationThread(st: State, t: Tid, a: Action)
    requires ThreadInv(st, t) && Enabled(st, t, a) && !RemovalStep(st.pcs[t]) && !CloneStep(st.pcs[t])
    ensures ThreadInv(Apply(st, t, a), t)
  {
  }

  lemma OwnThread(st: State, t: Tid, a: Action)
    requires ThreadInv(st, t) && Enabled(st, t, a)
    ensures ThreadInv(Apply(st, t, a), t)
  {
    if RemovalStep(st.pcs[t]) {
      OwnRemovalThread(st, t, a);
    } else if CloneStep(st.pcs[t]) {
      OwnCloneThread(st, t, a);
    } else {
      OwnCreationThread(st, t, a);
    }
  }

  /** The steps that write records, for any name. */
  lemma NewVolumeName(st: State, t: Tid, a: Action, x: Name)
    requires Inv(st) && Enabled(st, t, a)
    requires st.pcs[t].NewVol? || st.pcs[t].MakeClone?
    ensures NameInv(Apply(st, t, a), x)
  {
    var n := if st.pcs[t].NewVol? then st.pcs[t].v else st.pcs[t].c;
    assert ThreadInv(st, t) && NameInv(st, x);
    if n !in st.recs {
      AddRec(st.recs, n, Rec(st.nextId, None, []), x);
    }
  }

  lemma NewSnapName(st: State, t: Tid, a: Action, x: Name)
    requires Inv(st) && Enabled(st, t, a) && st.pcs[t].WriteSnap?
    ensures NameInv(Apply(st, t, a), x)
  {
    var WriteSnap(s, p, id, _) := st.pcs[t];
    assert ThreadInv(st, t) && NameInv(st, x);
    AddRec(st.recs, s, Rec(id, Some(p), []), x);
  }

  lemma ListingStepName(st: State, t: Tid, a: Action, x: Name)
    requires Inv(st) && Enabled(st, t, a) && st.pcs[t].WriteParent?
    ensures NameInv(Apply(st, t, a), x)
  {
    var WriteParent(s, p, id, _) := st.pcs[t];
    assert ThreadInv(st, t) && NameInv(st, x) && NameInv(st, s);
    ListSnap(st.recs, p, Entry(s, id), x);
  }

  lemma UnlistingStepName(st: State, t: Tid, a: Action, x: Name)
    requires Inv(st) && Enabled(st, t, a) && st.pcs[t].EditParent?
    ensures NameInv(Apply(st, t, a), x)
  {
    var EditParent(v, p) := st.pcs[t];
    assert ThreadInv(st, t) && NameInv(st, x) && NameInv(st, v);
    UnlistSnap(st.recs, p, v, x);
  }

  lemma RemovingStepName(st: State, t: Tid, a: Action, x: Name)
    requires Inv(st) && Enabled(st, t, a) && (st.pcs[t].UndoSnap? || st.pcs[t].DeleteRec?)
    ensures NameInv(Apply(st, t, a), x)
  {
    var n := Midway(st.pcs[t]).value;
    assert ThreadInv(st, t) && NameInv(st, x) && NameInv(st, n);
    RemoveRec(st.recs, n, x);
  }

  /** The steps that only take, release or inspect. */
  lemma QuietStepName(st: State, t: Tid, a: Action, x: Name)
    requires Inv(st) && Enabled(st, t, a) && Apply(st, t, a).recs == st.recs
    requires !(st.pcs[t].NewVol? || st.pcs[t].MakeClone? || st.pcs[t].WriteSnap? || st.pcs[t].WriteParent?
               || st.pcs[t].EditParent? || st.pcs[t].UndoSnap? || st.pcs[t].DeleteRec?)
    ensures NameInv(Apply(st, t, a), x)
  {
    assert ThreadInv(st, t) && NameInv(st, x);
  }

  lemma StepName(st: State, t: Tid, a: Action, x: Name)
    requires Inv(st) && Enabled(st, t, a)
    ensures NameInv(Apply(st, t, a), x)
  {
    match st.pcs[t]
    case NewVol(_) => NewVolumeName(st, t, a, x);
    case MakeClone(_, _) => NewVolumeName(st, t, a, x);
    case WriteSnap(_, _, _, _) => NewSnapName(st, t, a, x);
    case WriteParent(_, _, _, _) => ListingStepName(st, t, a, x);
    case EditParent(_, _) => UnlistingStepName(st, t, a, x);
    case UndoSnap(_, _) => RemovingStepName(st, t, a, x);
    case DeleteRec(_) => RemovingStepName(st, t, a, x);
    case _ => QuietStepName(st, t, a, x);
  }

  predicate Owns(st: State, t: Tid, n: Name) {
    t in st.pcs && (n in st.locks && st.locks[n] == t ==> n in Held(st.pcs[t]))
  }

  lemma OwnLockRemoval(st: State, t: Tid, a: Action, n: Name)
    requires ThreadInv(st, t) && Enabled(st, t, a) && RemovalStep(st.pcs[t])
    ensures Owns(st, t, n) && n in Apply(st, t, a).locks && Apply(st, t, a).locks[n] == t ==>
              n in Held(Apply(st, t, a).pcs[t])
    ensures n in Apply(st, t, a).locks && Apply(st, t, a).locks[n] != t ==>
              n in st.locks && st.locks[n] == Apply(st, t, a).locks[n]
  {
  }

  lemma OwnLockClone(st: State, t: Tid, a: Action, n: Name)
    requires ThreadInv(st, t) && Enabled(st, t, a) && CloneStep(st.pcs[t])
    ensures Owns(st, t, n) && n in Apply(st, t, a).locks && Apply(st, t, a).locks[n] == t ==>
              n in Held(Apply(st, t, a).pcs[t])
    ensures n in Apply(st, t, a).locks && Apply(st, t, a).locks[n] != t ==>
              n in st.locks && st.locks[n] == Apply(st, t, a).locks[n]
  {
  }

  lemma OwnLockCreation(st: State, t: Tid, a: Action, n: Name)
    requires ThreadInv(st, t) && Enabled(st, t, a) && !RemovalStep(st.pcs[t]) && !CloneStep(st.pcs[t])
    ensures Owns(st, t, n) && n in Apply(st, t, a).locks && Apply(st, t, a).locks[n] == t ==>
              n in Held(Apply(st, t, a).pcs[t])
    ensures n in Apply(st, t, a).locks && Apply(st, t, a).locks[n] != t ==>
              n in st.locks && st.locks[n] == Apply(st, t, a).locks[n]
  {
  }

  lemma StepLock(st: State, t: Tid, a: Action, n: Name)
    requires ThreadInv(st, t) && LockInv(st, n) && Enabled(st, t, a)
    ensures LockInv(Apply(st, t, a), n)
  {
    if RemovalStep(st.pcs[t]) {
      OwnLockRemoval(st, t, a, n);
    } else if CloneStep(st.pcs[t]) {
      OwnLockClone(st, t, a, n);
    } else {
      OwnLockCreation(st, t, a, n);
    }
    if n in Apply(st, t, a).locks && Apply(st, t, a).locks[n] != t {
      OtherPcs(st, t, a, st.locks[n]);
    }
  }

  lemma StepKeepsInv(st: State, t: Tid, a: Action)
    requires Inv(st) && Enabled(st, t, a)
    ensures Inv(Apply(st, t, a))
  {
    var st' := Apply(st, t, a);
    forall n
      ensures LockInv(st', n)
    {
      assert ThreadInv(st, t) && LockInv(st, n);
      StepLock(st, t, a, n);
    }
    forall u
      ensures ThreadInv(st', u)
    {
      assert ThreadInv(st, t) && ThreadInv(st, u);
      if u == t {
        OwnThread(st, t, a);
      } else {
        OtherThread(st, t, a, u);
      }
    }
    forall x
      ensures NameInv(st', x)
    {
      StepName(st, t, a, x);
    }
  }

  // ---- runs ----

  datatype Event = Event(t: Tid, a: Action)

  ghost predicate Run(states: seq<State>, events: seq<Event>) {
    && |states| == |events| + 1 && Init(states[0])
    && forall i :: 0 <= i < |events| ==>
         Enabled(states[i], events[i].t, events[i].a) && states[i + 1] == Apply(states[i], events[i].t, events[i].a)
  }

  lemma {:induction false} RunInv(states: seq<State>, events: seq<Event>, k: nat)
    requires Run(states, events) && k <= |events|
    ensures Inv(states[k])
  {
    if k > 0 {
      RunInv(states, events, k - 1);
      StepKeepsInv(states[k - 1], events[k - 1].t, events[k - 1].a);
    }
  }

  /** A clone is saved under a name that has a record by now: _clone_volume does not look. */
  predicate Doubles(st: State, e: Event) {
    e.t in st.pcs && st.pcs[e.t].MakeClone? && e.a == Proceed(true) && st.pcs[e.t].c in st.recs
  }

  lemma StepDoubled(st: State, e: Event)
    requires Enabled(st, e.t, e.a)
    ensures Apply(st, e.t, e.a).doubled == st.doubled + if Doubles(st, e) then {st.pcs[e.t].c} else {}
  {
  }

  /** Every name has at most one record if and only if no clone was saved under a name that had one. */
  lemma {:induction false} UniqueNames(states: seq<State>, events: seq<Event>, k: nat)
    requires Run(states, events) && k <= |events|
    ensures states[k].doubled == {} <==> forall i :: 0 <= i < k ==> !Doubles(states[i], events[i])
  {
    if k > 0 {
      UniqueNames(states, events, k - 1);
      StepDoubled(states[k - 1], events[k - 1]);
    }
  }

  lemma RunOn(states: seq<State>, events: seq<Event>, t: Tid, a: Action)
    returns (states': seq<State>, events': seq<Event>)
    requires Run(states, events) && Enabled(states[|events|], t, a)
    ensures Run(states', events') && events' == events + [Event(t, a)] && states'[0] == states[0]
    ensures states'[|events'|] == Apply(states[|events|], t, a)
  {
    states', events' := states + [Apply(states[|events|], t, a)], events + [Event(t, a)];
  }

  lemma WaitingClone(recs: map<Name, Rec>, a: Name, b: Name) returns (states: seq<State>, events: seq<Event>)
    requires (forall n :: Settled(recs, n)) && a in recs && recs[a].parent.None? && b !in recs
    ensures Run(states, events) && states[0].recs == recs
    ensures states[|events|] == State(recs, {}, map[a := 0], map[0 := WantClone(a, b), 1 := Idle], 0)
  {
    states := [State(recs, {}, map[], map[0 := Idle, 1 := Idle], 0)];
    assert Run(states, []);
    states, events := RunOn(states, [], 0, Start(CloneVolume(a, b)));
    states, events := RunOn(states, events, 0, Proceed(true));
    states, events := RunOn(states, events, 0, Proceed(true));
    assert states[|events|].pcs == map[0 := WantClone(a, b), 1 := Idle];
  }

  /** That happens: the volume is created while the clone waits for the lock of its name. */
  lemma CloneDoubles(recs: map<Name, Rec>, a: Name, b: Name) returns (states: seq<State>, events: seq<Event>)
    requires (forall n :: Settled(recs, n)) && a in recs && recs[a].parent.None? && b !in recs
    ensures Run(states, events) && states[0].recs == recs && states[|events|].doubled == {b}
  {
    states, events := WaitingClone(recs, a, b);
    states, events := RunOn(states, events, 1, Start(CreateVolume(b)));
    states, events := RunOn(states, events, 1, Proceed(true));
    states, events := RunOn(states, events, 1, Proceed(true));
    states, events := RunOn(states, events, 1, Proceed(true));
    var st := states[|events|];
    assert st.locks == map[a := 0] && st.pcs[0] == WantClone(a, b) && b in st.recs;
    states, events := RunOn(states, events, 0, Proceed(true));
    states, events := RunOn(states, events, 0, Proceed(true));
  }

  /** As long as names are unique, whenever a name's lock is free: if it is a snapshot, its parent is there, is no
      snapshot, and is the one volume that lists it, once and with its id, and it has no snapshots itself; if it
      is not, nothing lists it. So every listed snapshot exists, with the lister as its parent. */
  lemma ForestConsistent(states: seq<State>, events: seq<Event>, k: nat, s: Name)
    requires Run(states, events) && k <= |events| && states[k].doubled == {} && Free(states[k], s)
    ensures Settled(states[k].recs, s)
    ensures forall q, i ::
              q in states[k].recs && 0 <= i < |states[k].recs[q].snaps| && states[k].recs[q].snaps[i].name == s
              ==> s in states[k].recs && states[k].recs[s].parent == Some(q)
  {
    RunInv(states, events, k);
    var recs := states[k].recs;
    assert NameInv(states[k], s);
    forall q, i | q in recs && 0 <= i < |recs[q].snaps| && recs[q].snaps[i].name == s
      ensures s in recs && recs[s].parent == Some(q)
    {
      CountIn(recs[q].snaps, s);
    }
  }

  /** A removal always finds its snapshot in the parent's list, and the parent is there. */
  lemma RemovalFindsEntry(states: seq<State>, events: seq<Event>, k: nat, t: Tid)
    requires Run(states, events) && k <= |events| && states[k].doubled == {}
    requires t in states[k].pcs && states[k].pcs[t].EditParent?
    ensures var EditParent(v, p) := states[k].pcs[t];
            p in states[k].recs && Count(states[k].recs[p].snaps, v) == 1
  {
    RunInv(states, events, k);
    assert ThreadInv(states[k], t) && NameInv(states[k], states[k].pcs[t].v);
  }

  /** When a volume's record is about to be deleted, a snapshot that still names it as its parent is no longer
      listed and about to be deleted itself. */
  lemma DeletedVolumeHasNoSnapshots(states: seq<State>, events: seq<Event>, k: nat, t: Tid, s: Name)
    requires Run(states, events) && k <= |events| && states[k].doubled == {}
    requires t in states[k].pcs && states[k].pcs[t].DeleteRec?
    requires s in states[k].recs && states[k].recs[s].parent == Some(states[k].pcs[t].v)
    ensures var st := states[k];
            s in st.locks && st.locks[s] in st.pcs && st.pcs[st.locks[s]] == DeleteRec(s) && Unlisted(st.recs, s)
  {
    RunInv(states, events, k);
    var st := states[k];
    var v := st.pcs[t].v;
    assert ThreadInv(st, t) && NameInv(st, v) && NameInv(st, s);
    if s in st.locks {
      assert ThreadInv(st, st.locks[s]);
    }
  }

  // ---- the operations under their locks, on the records in etcd ----

  class Catalog {
    var recs: map<Name, Rec>
    var doubled: set<Name>
    var nextId: nat

    constructor ()
      ensures recs == map[] && doubled == {} && nextId == 0
    {
      recs, doubled, nextId := map[], {}, 0;
    }

    /** _get_snapshot_by_name: the index of the first entry with that name. */
    method GetSnapshotByName(snaps: seq<Entry>, s: Name) returns (idx: Option<nat>)
      ensures idx.None? <==> forall i :: 0 <= i < |snaps| ==> snaps[i].name != s
      ensures idx.Some? ==> idx.value < |snaps| && snaps[idx.value].name == s
                            && forall i :: 0 <= i < idx.value ==> snaps[i].name != s
    {
      var i := 0;
      while i < |snaps|
        invariant 0 <= i <= |snaps| && forall j :: 0 <= j < i ==> snaps[j].name != s
      {
        if snaps[i].name == s {
          return Some(i);
        }
        i := i + 1;
      }
      idx := None;
    }

    /** remove_snapshot: takes the snapshot out of its parent's list. */
    method RemoveSnapshot(p: Name, s: Name) returns (ok: bool)
      modifies this`recs
      ensures recs == Edited(old(recs), s, p)
      ensures ok <==> p in old(recs) && Count(old(recs)[p].snaps, s) > 0
    {
      if p !in recs {
        return false;
      }
      var snaps := recs[p].snaps;
      var idx := GetSnapshotByName(snaps, s);
      CountIn(snaps, s);
      if idx.None? {
        NothingToDrop(snaps, s);
        return false;
      }
      DropAt(snaps, s, idx.value);
      snaps := snaps[..idx.value] + snaps[idx.value + 1..];
      recs := recs[p := recs[p].(snaps := snaps)];
      ok := true;
    }

    /** create_snapshot and _create_snapshot, uninterrupted; the flags say whether the array made the
        snapshot and whether the two saves went through. */
    method CreateSnapshot(s: Name, p: Name, made: bool, snapSaved: bool, parentSaved: bool) returns (ok: bool)
      modifies this`recs, this`nextId
      ensures ok <==> s !in old(recs) && p in old(recs) && old(recs)[p].parent.None? && made && snapSaved && parentSaved
      ensures !ok ==> recs == old(recs)
      ensures ok ==>
                && old(recs).Keys + {s} == recs.Keys
                && recs[s] == Rec(old(nextId), Some(p), [])
                && recs[p] == old(recs)[p].(snaps := old(recs)[p].snaps + [Entry(s, old(nextId))])
                && forall q :: q in old(recs) && q != p ==> recs[q] == old(recs)[q]
    {
      if s in recs || p !in recs || recs[p].parent.Some? || !made {
        return false;
      }
      var id := nextId;
      nextId := nextId + 1;
      var copy := recs[p].(snaps := recs[p].snaps + [Entry(s, id)]);
      if !snapSaved {
        return false;
      }
      recs := recs[s := Rec(id, Some(p), [])];
      if !parentSaved {
        recs := recs - {s};
        return false;
      }
      recs := recs[p := copy];
      ok := true;
    }

    /** clone_volume and _clone_volume, uninterrupted: a source that is missing or a snapshot is refused, but a
        clone's name that has a record is not. */
    method CloneVolume(src: Name, c: Name, made: bool, saved: bool) returns (ok: bool)
      modifies this
      ensures ok <==> src in old(recs) && old(recs)[src].parent.None? && made && saved
      ensures recs == if ok && c !in old(recs) then old(recs)[c := Rec(old(nextId), None, [])] else old(recs)
      ensures doubled == if ok && c in old(recs) then old(doubled) + {c} else old(doubled)
    {
      if src !in recs || recs[src].parent.Some? {
        return false;
      }
      var id := nextId;
      nextId := nextId + 1;
      if !made || !saved {
        return false;
      }
      if c in recs {
        doubled := doubled + {c};
      } else {
        recs := recs[c := Rec(id, None, [])];
      }
      ok := true;
    }

    /** remove_volume, uninterrupted: refuses a volume with snapshots, and unlists a snapshot. */
    method RemoveVolume(v: Name, deleted: bool) returns (ok: bool)
      modifies this`recs
      ensures ok <==> v in old(recs) && old(recs)[v].snaps == [] && deleted
      ensures !ok ==> recs == old(recs)
      ensures ok ==> recs == (match old(recs)[v].parent
                              case Some(p) => Edited(old(recs), v, p) - {v}
                              case None => old(recs) - {v})
    {
      if v !in recs || recs[v].snaps != [] || !deleted {
        return false;
      }
      if recs[v].parent.Some? {
        var listed := RemoveSnapshot(recs[v].parent.value, v);
      }
      recs := recs - {v};
      ok := true;
    }
  }

  lemma {:induction false} NothingToDrop(snaps: seq<Entry>, s: Name)
    requires forall i :: 0 <= i < |snaps| ==> snaps[i].name != s
    ensures DropEntry(snaps, s) == snaps
  {
    if snaps != [] {
      NothingToDrop(snaps[1..], s);
    }
  }

  lemma {:induction false} DropAt(snaps: seq<Entry>, s: Name, k: nat)
    requires k < |snaps| && snaps[k].name == s && forall i :: 0 <= i < k ==> snaps[i].name != s
    ensures DropEntry(snaps, s) == snaps[..k] + snaps[k + 1..]
  {
    if k > 0 {
      DropAt(snaps[1..], s, k - 1);
      assert snaps[1..][..k - 1] == snaps[1..k] && snaps[1..][k..] == snaps[k + 1..];
    }
  }
}
