/** What each volume request does by the time it ends, when nobody else uses its names meanwhile: the step by step
    form against the operations as a whole (volume_manager.py). */
module SnapshotRequests {
  import opened Util
  import opened Snapshots

  /** How array and etcd answer: what is read and made on the array first, the first save, and the second one. */
  datatype Answers = Answers(made: bool, saved: bool, linked: bool)

  function AnswerAt(ans: Answers, pc: Pc): bool {
    match pc
    case WriteSnap(_, _, _, _) => ans.saved
    case MakeClone(_, _) => ans.saved
    case WriteParent(_, _, _, _) => ans.linked
    case _ => ans.made
  }

  /** More than the steps that are left. */
  function StepsLeft(pc: Pc): nat {
    match pc
    case Idle => 0
    case DropOwn(_) => 1
    case NewVol(_) => 2
    case WantNew(_) => 3
    case DropParent(_, _) => 2
    case UndoSnap(_, _) => 3
    case WriteParent(_, _, _, _) => 4
    case WriteSnap(_, _, _, _) => 5
    case ReadParent(_, _) => 6
    case WantParent(_, _) => 7
    case CheckSnap(_, _) => 8
    case WantSnap(_, _) => 9
    case DeleteRec(_) => 2
    case DropEdited(_, _) => 3
    case EditParent(_, _) => 4
    case WantEdit(_, _) => 5
    case ReadVol(_) => 6
    case WantVol(_) => 7
    case DropClone(_, _) => 2
    case MakeClone(_, _) => 3
    case WantClone(_, _) => 4
    case ReadSrc(_, _) => 5
    case WantSrc(_, _) => 6
  }

  lemma FewerLeftRemoval(st: State, t: Tid, ok: bool)
    requires Enabled(st, t, Proceed(ok)) && RemovalStep(st.pcs[t])
    ensures t in Apply(st, t, Proceed(ok)).pcs
    ensures StepsLeft(Apply(st, t, Proceed(ok)).pcs[t]) < StepsLeft(st.pcs[t])
  {
  }

  lemma FewerLeftClone(st: State, t: Tid, ok: bool)
    requires Enabled(st, t, Proceed(ok)) && CloneStep(st.pcs[t])
    ensures t in Apply(st, t, Proceed(ok)).pcs
    ensures StepsLeft(Apply(st, t, Proceed(ok)).pcs[t]) < StepsLeft(st.pcs[t])
  {
  }

  lemma FewerLeftCreation(st: State, t: Tid, ok: bool)
    requires Enabled(st, t, Proceed(ok)) && !RemovalStep(st.pcs[t]) && !CloneStep(st.pcs[t])
    ensures t in Apply(st, t, Proceed(ok)).pcs
    ensures StepsLeft(Apply(st, t, Proceed(ok)).pcs[t]) < StepsLeft(st.pcs[t])
  {
  }

  lemma FewerLeft(st: State, t: Tid, ok: bool)
    requires Enabled(st, t, Proceed(ok))
    ensures t in Apply(st, t, Proceed(ok)).pcs
    ensures StepsLeft(Apply(st, t, Proceed(ok)).pcs[t]) < StepsLeft(st.pcs[t])
  {
    if RemovalStep(st.pcs[t]) {
      FewerLeftRemoval(st, t, ok);
    } else if CloneStep(st.pcs[t]) {
      FewerLeftClone(st, t, ok);
    } else {
      FewerLeftCreation(st, t, ok);
    }
  }

  /** The request goes on alone until it ends, or waits for a lock that is taken. */
  function Finished(st: State, t: Tid, ans: Answers): State
    requires t in st.pcs
    decreases StepsLeft(st.pcs[t])
  {
    var a := Proceed(AnswerAt(ans, st.pcs[t]));
    if !Enabled(st, t, a) then st
    else
      FewerLeft(st, t, a.ok);
      Finished(Apply(st, t, a), t, ans)
  }

  lemma OneMore(st: State, t: Tid, ans: Answers, pc: Pc, next: State)
    requires t in st.pcs && st.pcs[t] == pc && Enabled(st, t, Proceed(AnswerAt(ans, pc)))
    requires next == Apply(st, t, Proceed(AnswerAt(ans, pc)))
    ensures t in next.pcs && Finished(st, t, ans) == Finished(next, t, ans)
  {
    FewerLeft(st, t, AnswerAt(ans, pc));
  }

  // ---- the last steps ----

  lemma FromDropOwn(st: State, t: Tid, ans: Answers, v: Name)
    requires t in st.pcs && st.pcs[t] == DropOwn(v)
    ensures Finished(st, t, ans) == Unlock(st, t, v, Idle)
  {
    OneMore(st, t, ans, DropOwn(v), Unlock(st, t, v, Idle));
  }

  lemma FromDropParent(st: State, t: Tid, ans: Answers, s: Name, p: Name)
    requires t in st.pcs && st.pcs[t] == DropParent(s, p)
    ensures Finished(st, t, ans) == st.(locks := st.locks - {p} - {s}, pcs := st.pcs[t := Idle])
  {
    var next := Unlock(st, t, p, DropOwn(s));
    OneMore(st, t, ans, DropParent(s, p), next);
    FromDropOwn(next, t, ans, s);
    assert next.pcs[t := Idle] == st.pcs[t := Idle];
  }

  lemma FromDropClone(st: State, t: Tid, ans: Answers, src: Name, c: Name)
    requires t in st.pcs && st.pcs[t] == DropClone(src, c)
    ensures Finished(st, t, ans) == st.(locks := st.locks - {c} - {src}, pcs := st.pcs[t := Idle])
  {
    var next := Unlock(st, t, c, DropOwn(src));
    OneMore(st, t, ans, DropClone(src, c), next);
    FromDropOwn(next, t, ans, src);
    assert next.pcs[t := Idle] == st.pcs[t := Idle];
  }

  lemma FromDeleteRec(st: State, t: Tid, ans: Answers, v: Name)
    requires t in st.pcs && st.pcs[t] == DeleteRec(v)
    ensures Finished(st, t, ans) == st.(recs := st.recs - {v}, locks := st.locks - {v}, pcs := st.pcs[t := Idle])
  {
    var next := Go(st, t, DropOwn(v)).(recs := st.recs - {v});
    OneMore(st, t, ans, DeleteRec(v), next);
    FromDropOwn(next, t, ans, v);
    assert next.pcs[t := Idle] == st.pcs[t := Idle];
  }

  // ---- a new volume ----

  /** The state when a request has ended: its locks are free again. */
  predicate EndsWith(st: State, t: Tid, end: State, recs: map<Name, Rec>) {
    end.recs == recs && end.locks == st.locks && end.pcs == st.pcs[t := Idle]
  }

  lemma CreateVolumeAlone(st: State, t: Tid, ans: Answers, v: Name)
    requires t in st.pcs && st.pcs[t] == WantNew(v) && Free(st, v)
    ensures EndsWith(st, t, Finished(st, t, ans),
                     if v !in st.recs && ans.made then st.recs[v := Rec(st.nextId, None, [])] else st.recs)
    ensures Finished(st, t, ans).doubled == st.doubled
  {
    var st1 := Lock(st, t, v, NewVol(v));
    OneMore(st, t, ans, WantNew(v), st1);
    var st2 := Apply(st1, t, Proceed(ans.made));
    OneMore(st1, t, ans, NewVol(v), st2);
    FromDropOwn(st2, t, ans, v);
    assert st1.locks - {v} == st.locks;
    assert st2.pcs[t := Idle] == st.pcs[t := Idle];
  }

  // ---- a new snapshot ----

  lemma FromReadParent(st: State, t: Tid, ans: Answers, s: Name, p: Name)
    requires t in st.pcs && st.pcs[t] == ReadParent(s, p) && s != p && s !in st.recs
    ensures var end := Finished(st, t, ans);
            && end.locks == st.locks - {p} - {s} && end.pcs == st.pcs[t := Idle] && end.doubled == st.doubled
            && end.recs == if p in st.recs && st.recs[p].parent.None? && ans.made && ans.saved && ans.linked
                           then st.recs[s := Rec(st.nextId, Some(p), [])]
                                       [p := st.recs[p].(snaps := st.recs[p].snaps + [Entry(s, st.nextId)])]
                           else st.recs
  {
    var st1 := Apply(st, t, Proceed(ans.made));
    OneMore(st, t, ans, ReadParent(s, p), st1);
    if p !in st.recs || st.recs[p].parent.Some? || !ans.made {
      FromDropParent(st1, t, ans, s, p);
      assert st1.pcs[t := Idle] == st.pcs[t := Idle];
    } else {
      var copy := st.recs[p].(snaps := st.recs[p].snaps + [Entry(s, st.nextId)]);
      FromWriteSnap(st1, t, ans, s, p, st.nextId, copy);
      assert st1.pcs[t := Idle] == st.pcs[t := Idle];
    }
  }

  lemma FromWriteSnap(st: State, t: Tid, ans: Answers, s: Name, p: Name, id: nat, copy: Rec)
    requires t in st.pcs && st.pcs[t] == WriteSnap(s, p, id, copy) && s != p && s !in st.recs
    ensures var end := Finished(st, t, ans);
            && end.locks == st.locks - {p} - {s} && end.pcs == st.pcs[t := Idle] && end.doubled == st.doubled
            && end.recs == if ans.saved && ans.linked then st.recs[s := Rec(id, Some(p), [])][p := copy] else st.recs
  {
    var st1 := Apply(st, t, Proceed(ans.saved));
    OneMore(st, t, ans, WriteSnap(s, p, id, copy), st1);
    if ans.saved {
      FromWriteParent(st1, t, ans, s, p, id, copy);
      assert st.recs[s := Rec(id, Some(p), [])] - {s} == st.recs;
    } else {
      FromDropParent(st1, t, ans, s, p);
    }
    assert st1.pcs[t := Idle] == st.pcs[t := Idle];
  }

  lemma FromWriteParent(st: State, t: Tid, ans: Answers, s: Name, p: Name, id: nat, copy: Rec)
    requires t in st.pcs && st.pcs[t] == WriteParent(s, p, id, copy)
    ensures var end := Finished(st, t, ans);
            && end.locks == st.locks - {p} - {s} && end.pcs == st.pcs[t := Idle] && end.doubled == st.doubled
            && end.recs == if ans.linked then st.recs[p := copy] else st.recs - {s}
  {
    var st1 := Apply(st, t, Proceed(ans.linked));
    OneMore(st, t, ans, WriteParent(s, p, id, copy), st1);
    if ans.linked {
      FromDropParent(st1, t, ans, s, p);
    } else {
      var st2 := Go(st1, t, DropParent(s, p)).(recs := st.recs - {s});
      OneMore(st1, t, ans, UndoSnap(s, p), st2);
      FromDropParent(st2, t, ans, s, p);
      assert st2.pcs[t := Idle] == st.pcs[t := Idle];
    }
    assert st1.pcs[t := Idle] == st.pcs[t := Idle];
  }

  /** The records with a new snapshot and its entry in its parent. */
  function WithSnapshot(recs: map<Name, Rec>, s: Name, p: Name, id: nat): map<Name, Rec>
    requires p in recs
  {
    recs[s := Rec(id, Some(p), [])][p := recs[p].(snaps := recs[p].snaps + [Entry(s, id)])]
  }

  lemma FromCheckSnap(st: State, t: Tid, ans: Answers, s: Name, p: Name)
    requires t in st.pcs && st.pcs[t] == CheckSnap(s, p) && Free(st, p) && s != p
    ensures var end := Finished(st, t, ans);
            && end.locks == st.locks - {s} && end.pcs == st.pcs[t := Idle] && end.doubled == st.doubled
            && end.recs == if s !in st.recs && p in st.recs && st.recs[p].parent.None?
                              && ans.made && ans.saved && ans.linked
                           then WithSnapshot(st.recs, s, p, st.nextId) else st.recs
  {
    var st1 := Apply(st, t, Proceed(ans.made));
    OneMore(st, t, ans, CheckSnap(s, p), st1);
    assert st1.pcs[t := Idle] == st.pcs[t := Idle];
    if s in st.recs {
      FromDropOwn(st1, t, ans, s);
    } else {
      var st2 := Lock(st1, t, p, ReadParent(s, p));
      OneMore(st1, t, ans, WantParent(s, p), st2);
      FromReadParent(st2, t, ans, s, p);
      assert st2.pcs[t := Idle] == st.pcs[t := Idle];
      assert st2.locks - {p} == st.locks;
    }
  }

  /** The record and its entry in the parent are both there, with one id, or nothing has changed. */
  lemma CreateSnapshotAlone(st: State, t: Tid, ans: Answers, s: Name, p: Name)
    requires t in st.pcs && st.pcs[t] == WantSnap(s, p) && Free(st, s) && Free(st, p) && s != p
    ensures EndsWith(st, t, Finished(st, t, ans),
                     if s !in st.recs && p in st.recs && st.recs[p].parent.None?
                        && ans.made && ans.saved && ans.linked
                     then WithSnapshot(st.recs, s, p, st.nextId) else st.recs)
    ensures Finished(st, t, ans).doubled == st.doubled
  {
    var st1 := Lock(st, t, s, CheckSnap(s, p));
    OneMore(st, t, ans, WantSnap(s, p), st1);
    FromCheckSnap(st1, t, ans, s, p);
    assert st1.pcs[t := Idle] == st.pcs[t := Idle];
    assert st1.locks - {s} == st.locks;
  }

  // ---- a clone ----

  lemma FromWantClone(st: State, t: Tid, ans: Answers, src: Name, c: Name)
    requires t in st.pcs && st.pcs[t] == WantClone(src, c) && Free(st, c)
    ensures var end := Finished(st, t, ans);
            && end.recs == (if ans.saved && c !in st.recs then st.recs[c := Rec(st.nextId, None, [])] else st.recs)
            && end.locks == st.locks - {src} && end.pcs == st.pcs[t := Idle]
            && end.doubled == if ans.saved && c in st.recs then st.doubled + {c} else st.doubled
  {
    var st1 := Lock(st, t, c, MakeClone(src, c));
    OneMore(st, t, ans, WantClone(src, c), st1);
    FromMakeClone(st1, t, ans, src, c);
    assert st1.pcs[t := Idle] == st.pcs[t := Idle];
    assert st1.locks - {c} == st.locks;
  }

  lemma FromMakeClone(st: State, t: Tid, ans: Answers, src: Name, c: Name)
    requires t in st.pcs && st.pcs[t] == MakeClone(src, c)
    ensures var end := Finished(st, t, ans);
            && end.recs == (if ans.saved && c !in st.recs then st.recs[c := Rec(st.nextId, None, [])] else st.recs)
            && end.locks == st.locks - {c} - {src} && end.pcs == st.pcs[t := Idle]
            && end.doubled == if ans.saved && c in st.recs then st.doubled + {c} else st.doubled
  {
    var st1 := Apply(st, t, Proceed(ans.saved));
    OneMore(st, t, ans, MakeClone(src, c), st1);
    FromDropClone(st1, t, ans, src, c);
    assert st1.pcs[t := Idle] == st.pcs[t := Idle];
  }

  lemma FromReadSrc(st: State, t: Tid, ans: Answers, src: Name, c: Name)
    requires t in st.pcs && st.pcs[t] == ReadSrc(src, c) && Free(st, c)
    ensures var made := src in st.recs && st.recs[src].parent.None? && ans.made && ans.saved;
            var end := Finished(st, t, ans);
            && end.recs == (if made && c !in st.recs then st.recs[c := Rec(st.nextId, None, [])] else st.recs)
            && end.locks == st.locks - {src} && end.pcs == st.pcs[t := Idle]
            && end.doubled == if made && c in st.recs then st.doubled + {c} else st.doubled
  {
    var st1 := Apply(st, t, Proceed(ans.made));
    OneMore(st, t, ans, ReadSrc(src, c), st1);
    assert st1.pcs[t := Idle] == st.pcs[t := Idle];
    if src !in st.recs || st.recs[src].parent.Some? || !ans.made {
      FromDropOwn(st1, t, ans, src);
    } else {
      FromWantClone(st1, t, ans, src, c);
    }
  }

  /** The clone is there, beside any record of that name, or nothing has changed. */
  lemma CloneVolumeAlone(st: State, t: Tid, ans: Answers, src: Name, c: Name)
    requires t in st.pcs && st.pcs[t] == WantSrc(src, c) && Free(st, src) && Free(st, c) && src != c
    ensures var made := src in st.recs && st.recs[src].parent.None? && ans.made && ans.saved;
            && EndsWith(st, t, Finished(st, t, ans),
                        if made && c !in st.recs then st.recs[c := Rec(st.nextId, None, [])] else st.recs)
            && Finished(st, t, ans).doubled == if made && c in st.recs then st.doubled + {c} else st.doubled
  {
    var st1 := Lock(st, t, src, ReadSrc(src, c));
    OneMore(st, t, ans, WantSrc(src, c), st1);
    FromReadSrc(st1, t, ans, src, c);
    assert st1.pcs[t := Idle] == st.pcs[t := Idle];
    assert st1.locks - {src} == st.locks;
  }

  // ---- a removal ----

  lemma FromDropEdited(st: State, t: Tid, ans: Answers, v: Name, p: Name)
    requires t in st.pcs && st.pcs[t] == DropEdited(v, p)
    ensures var end := Finished(st, t, ans);
            && end.recs == st.recs - {v} && end.doubled == st.doubled
            && end.locks == st.locks - {p} - {v} && end.pcs == st.pcs[t := Idle]
  {
    var st1 := Unlock(st, t, p, DeleteRec(v));
    OneMore(st, t, ans, DropEdited(v, p), st1);
    FromDeleteRec(st1, t, ans, v);
    assert st1.pcs[t := Idle] == st.pcs[t := Idle];
  }

  lemma FromEditParent(st: State, t: Tid, ans: Answers, v: Name, p: Name)
    requires t in st.pcs && st.pcs[t] == EditParent(v, p) && p in st.recs
    ensures var end := Finished(st, t, ans);
            && end.recs == st.recs[p := st.recs[p].(snaps := DropEntry(st.recs[p].snaps, v))] - {v}
            && end.doubled == st.doubled && end.locks == st.locks - {p} - {v} && end.pcs == st.pcs[t := Idle]
  {
    var st1 := Go(st, t, DropEdited(v, p)).(recs := Edited(st.recs, v, p));
    OneMore(st, t, ans, EditParent(v, p), st1);
    FromDropEdited(st1, t, ans, v, p);
    assert st1.pcs[t := Idle] == st.pcs[t := Idle];
  }

  lemma FromWantEdit(st: State, t: Tid, ans: Answers, v: Name, p: Name)
    requires t in st.pcs && st.pcs[t] == WantEdit(v, p) && Free(st, p) && p in st.recs
    ensures var end := Finished(st, t, ans);
            && end.recs == st.recs[p := st.recs[p].(snaps := DropEntry(st.recs[p].snaps, v))] - {v}
            && end.locks == st.locks - {v} && end.pcs == st.pcs[t := Idle] && end.doubled == st.doubled
  {
    var st1 := Lock(st, t, p, EditParent(v, p));
    OneMore(st, t, ans, WantEdit(v, p), st1);
    FromEditParent(st1, t, ans, v, p);
    assert st1.pcs[t := Idle] == st.pcs[t := Idle];
    assert st1.locks - {p} == st.locks;
  }

  /** The records without the volume, and without its entry in its parent. */
  function Without(recs: map<Name, Rec>, v: Name): map<Name, Rec>
    requires v in recs && (recs[v].parent.Some? ==> recs[v].parent.value in recs)
  {
    match recs[v].parent
    case None => recs - {v}
    case Some(p) => recs[p := recs[p].(snaps := DropEntry(recs[p].snaps, v))] - {v}
  }

  lemma FromReadVol(st: State, t: Tid, ans: Answers, v: Name)
    requires t in st.pcs && st.pcs[t] == ReadVol(v) && Settled(st.recs, v)
    requires v in st.recs && st.recs[v].parent.Some? ==> Free(st, st.recs[v].parent.value)
    ensures var end := Finished(st, t, ans);
            && end.recs == (if v !in st.recs || st.recs[v].snaps != [] || !ans.made then st.recs
                            else Without(st.recs, v))
            && end.locks == st.locks - {v} && end.pcs == st.pcs[t := Idle] && end.doubled == st.doubled
  {
    var st1 := Apply(st, t, Proceed(ans.made));
    OneMore(st, t, ans, ReadVol(v), st1);
    assert st1.pcs[t := Idle] == st.pcs[t := Idle];
    if v !in st.recs || st.recs[v].snaps != [] || !ans.made {
      FromDropOwn(st1, t, ans, v);
    } else if st.recs[v].parent.None? {
      FromDeleteRec(st1, t, ans, v);
    } else {
      FromWantEdit(st1, t, ans, v, st.recs[v].parent.value);
    }
  }

  /** A volume without snapshots is gone, and a snapshot is gone and off its parent's list, or nothing has changed. */
  lemma RemoveVolumeAlone(st: State, t: Tid, ans: Answers, v: Name)
    requires t in st.pcs && st.pcs[t] == WantVol(v) && Free(st, v) && Settled(st.recs, v)
    requires v in st.recs && st.recs[v].parent.Some? ==> Free(st, st.recs[v].parent.value)
    ensures EndsWith(st, t, Finished(st, t, ans),
                     if v !in st.recs || st.recs[v].snaps != [] || !ans.made then st.recs else Without(st.recs, v))
    ensures Finished(st, t, ans).doubled == st.doubled
  {
    var st1 := Lock(st, t, v, ReadVol(v));
    OneMore(st, t, ans, WantVol(v), st1);
    FromReadVol(st1, t, ans, v);
    assert st1.pcs[t := Idle] == st.pcs[t := Idle];
    assert st1.locks - {v} == st.locks;
  }

  // ---- from the request on ----

  /** The record operations of Catalog, as relations between the records before and after. */
  ghost predicate Done(r: Request, ans: Answers, st: State, end: State) {
    match r
    case CreateVolume(v) =>
      end.recs == if v !in st.recs && ans.made then st.recs[v := Rec(st.nextId, None, [])] else st.recs
    case CreateSnapshot(s, p) =>
      if s !in st.recs && p in st.recs && st.recs[p].parent.None? && ans.made && ans.saved && ans.linked then
        && s in end.recs && end.recs[s] == Rec(st.nextId, Some(p), []) && p in end.recs
        && end.recs[p] == st.recs[p].(snaps := st.recs[p].snaps + [Entry(s, st.nextId)])
        && end.recs.Keys == st.recs.Keys + {s}
        && forall q :: q in st.recs && q != p && q != s ==> q in end.recs && end.recs[q] == st.recs[q]
      else end.recs == st.recs
    case RemoveVolume(v) =>
      if v in st.recs && st.recs[v].snaps == [] && ans.made then
        && end.recs.Keys == st.recs.Keys - {v}
        && forall q :: q in end.recs ==>
             && end.recs[q].id == st.recs[q].id && end.recs[q].parent == st.recs[q].parent
             && end.recs[q].snaps == if st.recs[v].parent == Some(q) then DropEntry(st.recs[q].snaps, v)
                                     else st.recs[q].snaps
      else end.recs == st.recs
    case CloneVolume(src, c) =>
      end.recs == if c !in st.recs && src in st.recs && st.recs[src].parent.None? && ans.made && ans.saved
                  then st.recs[c := Rec(st.nextId, None, [])] else st.recs
  }

  /** The names whose locks a request takes, and that they are different where it takes two. */
  predicate AloneOn(st: State, r: Request) {
    match r
    case CreateVolume(v) => Free(st, v)
    case CreateSnapshot(s, p) => Free(st, s) && Free(st, p) && s != p
    case RemoveVolume(v) =>
      Free(st, v) && (v in st.recs && st.recs[v].parent.Some? ==> Free(st, st.recs[v].parent.value))
    case CloneVolume(src, c) => Free(st, src) && Free(st, c) && src != c
  }

  /** Every request that nobody gets in the way of ends, has given its locks back, and has done exactly what it was
      asked for, or nothing if it was refused or any answer was bad. */
  lemma RequestAlone(st: State, t: Tid, ans: Answers, r: Request)
    requires t in st.pcs && st.pcs[t] == Idle && AloneOn(st, r) && forall n :: Settled(st.recs, n)
    ensures var end := Finished(Apply(st, t, Start(r)), t, ans);
            && end.pcs == st.pcs && end.locks == st.locks && end.doubled == st.doubled && Done(r, ans, st, end)
  {
    var st1 := Apply(st, t, Start(r));
    assert st1.pcs[t := Idle] == st.pcs;
    match r
    case CreateVolume(v) =>
      if v !in st.recs {
        CreateVolumeAlone(st1, t, ans, v);
      }
    case CreateSnapshot(s, p) =>
      if s !in st.recs {
        CreateSnapshotAlone(st1, t, ans, s, p);
      }
    case RemoveVolume(v) =>
      assert Settled(st.recs, v);
      RemoveVolumeAlone(st1, t, ans, v);
    case CloneVolume(src, c) =>
      if c !in st.recs {
        CloneVolumeAlone(st1, t, ans, src, c);
      }
  }
}
