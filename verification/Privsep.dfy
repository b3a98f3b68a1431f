/** The privsep request/reply multiplexer (oslo/comm.py): any number of caller threads, one reader
    thread, one lock, a condition variable per call, and a server that may answer in any order. */
module Privsep {
  import opened Util

  type Tid = nat

  /** A request or its reply: the caller's thread id, and the number of the call it belongs to. */
  datatype Msg = Msg(tid: Tid, no: nat)

  /** The mailbox of one call. */
  datatype Future = Future(no: nat, data: Option<nat>, error: bool)

  /** send_recv returns what its mailbox holds, or raises. */
  datatype Result = Returned(data: Option<nat>) | IOError

  /** Where a caller is in send_recv. From Locked to Sent, in SendFailed and in Woken it holds the lock. */
  datatype Pc = Idle | WantLock | Locked | Registered | Sent | SendFailed | Parked | Notified | Woken

  datatype Caller = Caller(pc: Pc, no: nat)

  datatype Reader = Reading | Received(msg: Msg) | Delivering(msg: Msg) | EofSeen | EofLocked | Stopped

  datatype Lock = Unlocked | ByCaller(tid: Tid) | ByReader

  datatype State = State(callers: map<Tid, Caller>, outstanding: map<Tid, Future>, lock: Lock, reader: Reader,
                         serverUp: bool, requests: set<Msg>, replies: seq<Msg>,
                         nextCall: nat,
                         results: map<nat, Result>,  // what each finished call returned or raised
                         late: set<nat>)             // calls registered after the reader had stopped

  datatype Label =
    | Begin(t: Tid) | Acquire(t: Tid) | Register(t: Tid) | Send(t: Tid, ok: bool) | Abort(t: Tid)
    | Wait(t: Tid) | Reacquire(t: Tid) | Finish(t: Tid)
    | Answer(m: Msg) | ServerExit
    | Receive | ReaderAcquire | Deliver | SeeEof | NotifyEof

  predicate At(s: State, t: Tid, pc: Pc) {
    t in s.callers && s.callers[t].pc == pc
  }

  predicate Enabled(s: State, l: Label) {
    match l
    case Begin(t) => At(s, t, Idle)
    case Acquire(t) => At(s, t, WantLock) && s.lock.Unlocked?
    case Register(t) => At(s, t, Locked) && t !in s.outstanding
    case Send(t, _) => At(s, t, Registered)
    case Abort(t) => At(s, t, SendFailed) && t in s.outstanding
    case Wait(t) => At(s, t, Sent)
    case Reacquire(t) => At(s, t, Notified) && s.lock.Unlocked?
    case Finish(t) => At(s, t, Woken) && t in s.outstanding
    case Answer(m) => s.serverUp && m in s.requests
    case ServerExit => s.serverUp
    case Receive => s.reader.Reading? && s.replies != []
    case ReaderAcquire => (s.reader.Received? || s.reader.EofSeen?) && s.lock.Unlocked?
    case Deliver => s.reader.Delivering? && s.reader.msg.tid in s.outstanding
    case SeeEof => s.reader.Reading? && s.replies == [] && !s.serverUp
    case NotifyEof => s.reader.EofLocked?
  }

  function Move(s: State, t: Tid, pc: Pc): map<Tid, Caller>
    requires t in s.callers
  {
    s.callers[t := s.callers[t].(pc := pc)]
  }

  /** set_result: fill the mailbox and wake its waiter. */
  function Filled(out: map<Tid, Future>, m: Msg): map<Tid, Future>
    requires m.tid in out
  {
    out[m.tid := out[m.tid].(data := Some(m.no))]
  }

  /** set_exception on every outstanding mailbox. */
  function AllFailed(out: map<Tid, Future>): map<Tid, Future> {
    map t | t in out :: out[t].(error := true)
  }

  function WakeAll(callers: map<Tid, Caller>): map<Tid, Caller> {
    map t | t in callers :: if callers[t].pc == Parked then callers[t].(pc := Notified) else callers[t]
  }

  /** What `future.result()` gives once it wakes. */
  function ResultOf(f: Future): Result {
    if f.error then IOError else Returned(f.data)
  }

  function Apply(s: State, l: Label): State
    requires Enabled(s, l)
  {
    match l
    case Begin(t) => s.(callers := s.callers[t := Caller(WantLock, s.nextCall)], nextCall := s.nextCall + 1)
    case Acquire(t) => s.(callers := Move(s, t, Locked), lock := ByCaller(t))
    case Register(t) =>
      s.(callers := Move(s, t, Registered),
         outstanding := s.outstanding[t := Future(s.callers[t].no, None, false)],
         late := if s.reader.Stopped? then s.late + {s.callers[t].no} else s.late)
    case Send(t, ok) =>
      if !ok then s.(callers := Move(s, t, SendFailed))
      else s.(callers := Move(s, t, Sent),
              requests := if s.serverUp then s.requests + {Msg(t, s.callers[t].no)} else s.requests)
    case Abort(t) =>
      s.(callers := Move(s, t, Idle), outstanding := s.outstanding - {t}, lock := Unlocked,
         results := s.results[s.callers[t].no := IOError])
    case Wait(t) => s.(callers := Move(s, t, Parked), lock := Unlocked)
    case Reacquire(t) => s.(callers := Move(s, t, Woken), lock := ByCaller(t))
    case Finish(t) =>
      s.(callers := Move(s, t, Idle), outstanding := s.outstanding - {t}, lock := Unlocked,
         results := s.results[s.callers[t].no := ResultOf(s.outstanding[t])])
    case Answer(m) => s.(requests := s.requests - {m}, replies := s.replies + [m])
    case ServerExit => s.(serverUp := false, requests := {})
    case Receive => s.(reader := Received(s.replies[0]), replies := s.replies[1..])
    case ReaderAcquire =>
      s.(reader := if s.reader.Received? then Delivering(s.reader.msg) else EofLocked, lock := ByReader)
    case Deliver =>
      var m := s.reader.msg;
      s.(outstanding := Filled(s.outstanding, m),
         callers := if At(s, m.tid, Parked) then Move(s, m.tid, Notified) else s.callers,
         reader := Reading, lock := Unlocked)
    case SeeEof => s.(reader := EofSeen)
    case NotifyEof =>
      s.(outstanding := AllFailed(s.outstanding), callers := WakeAll(s.callers), reader := Stopped, lock := Unlocked)
  }

  // ---- the two assertions of the code ----

  /** "myid shoudn't be in outstanding_msgs", or "msgid should in outstanding_msgs". */
  ghost predicate AssertionFails(s: State) {
    || (exists t :: At(s, t, Locked) && t in s.outstanding)
    || (s.reader.Delivering? && s.reader.msg.tid !in s.outstanding)
  }

  // ---- invariant ----

  predicate HoldsLock(pc: Pc) {
    pc.Locked? || pc.Registered? || pc.Sent? || pc.SendFailed? || pc.Woken?
  }

  predicate HasEntry(pc: Pc) {
    pc.Registered? || pc.Sent? || pc.SendFailed? || pc.Parked? || pc.Notified? || pc.Woken?
  }

  predicate Awake(s: State, t: Tid) {
    At(s, t, Notified) || At(s, t, Woken)
  }

  predicate Waiting(s: State, t: Tid) {
    At(s, t, Sent) || At(s, t, Parked)
  }

  /** What holds of one thread: it has a mailbox exactly inside send_recv, for its current call; the
      mailbox is filled only with the reply to that call; and once it is filled the thread is awake. */
  ghost predicate ThreadInv(s: State, t: Tid) {
    && (t in s.outstanding <==> t in s.callers && HasEntry(s.callers[t].pc))
    && (t in s.callers && HoldsLock(s.callers[t].pc) ==> s.lock == ByCaller(t))
    && (t in s.callers && s.callers[t].pc != Idle ==> s.callers[t].no < s.nextCall && s.callers[t].no !in s.results)
    && (t in s.outstanding ==>
          && s.outstanding[t].no == s.callers[t].no
          && (s.outstanding[t].data.Some? ==> s.outstanding[t].data.value == s.outstanding[t].no)
          && (s.outstanding[t].data.Some? || s.outstanding[t].error <==> Awake(s, t)))
    && (s.reader.Stopped? && (At(s, t, Registered) || Waiting(s, t)) ==> s.callers[t].no in s.late)
  }

  /** Two calls under way have different numbers. */
  ghost predicate DistinctCalls(s: State, t: Tid, u: Tid) {
    (t in s.callers && u in s.callers && t != u && s.callers[t].pc != Idle && s.callers[u].pc != Idle)
    ==> s.callers[t].no != s.callers[u].no
  }

  /** A message still on its way: asked, answered, or in the reader's hands. */
  ghost predicate InFlight(s: State, m: Msg) {
    m in s.requests || m in s.replies || InHand(s, m)
  }

  ghost predicate InHand(s: State, m: Msg) {
    (s.reader.Received? || s.reader.Delivering?) && s.reader.msg == m
  }

  /** A message on its way has a caller waiting for it, and is in one place only. */
  ghost predicate MsgInv(s: State, m: Msg) {
    && (InFlight(s, m) ==> m.tid in s.outstanding && s.outstanding[m.tid].no == m.no && Waiting(s, m.tid))
    && multiset(s.replies)[m] + (if m in s.requests then 1 else 0) + (if InHand(s, m) then 1 else 0) <= 1
  }

  ghost predicate GlobalInv(s: State) {
    && (s.reader.Delivering? || s.reader.EofLocked? ==> s.lock == ByReader)
    && (!s.serverUp ==> s.requests == {})
    && (s.reader.EofSeen? || s.reader.EofLocked? || s.reader.Stopped? ==> !s.serverUp && s.replies == [])
    && (forall c :: c in s.results ==> c < s.nextCall && (s.results[c].Returned? ==> s.results[c].data == Some(c)))
  }

  ghost predicate Inv(s: State) {
    && (forall t :: ThreadInv(s, t))
    && (forall t, u :: DistinctCalls(s, t, u))
    && (forall m :: MsgInv(s, m))
    && GlobalInv(s)
  }

  ghost predicate Init(s: State) {
    && (forall t :: t in s.callers ==> s.callers[t].pc == Idle)
    && s.outstanding == map[] && s.lock == Unlocked && s.reader == Reading && s.serverUp
    && s.requests == {} && s.replies == [] && s.results == map[] && s.late == {}
  }

  lemma InitInv(s: State)
    requires Init(s)
    ensures Inv(s)
  {
  }

  /** The thread a step belongs to; a delivery belongs to the thread it answers. */
  function Actor(s: State, l: Label): Option<Tid> {
    match l
    case Begin(t) => Some(t)
    case Acquire(t) => Some(t)
    case Register(t) => Some(t)
    case Send(t, _) => Some(t)
    case Abort(t) => Some(t)
    case Wait(t) => Some(t)
    case Reacquire(t) => Some(t)
    case Finish(t) => Some(t)
    case Deliver => if s.reader.Delivering? then Some(s.reader.msg.tid) else None
    case _ => None
  }

  lemma OwnMailboxStep(s: State, l: Label, t: Tid)
    requires GlobalInv(s) && ThreadInv(s, t)
    requires Enabled(s, l) && Actor(s, l) == Some(t) && (l.Register? || l.Abort? || l.Finish?)
    ensures ThreadInv(Apply(s, l), t)
  {
  }

  lemma OwnMove(s: State, l: Label, t: Tid)
    requires GlobalInv(s) && ThreadInv(s, t)
    requires Enabled(s, l) && Actor(s, l) == Some(t) && !(l.Register? || l.Abort? || l.Finish? || l.Deliver?)
    ensures ThreadInv(Apply(s, l), t)
  {
  }

  /** A caller's step, for that caller. */
  lemma OwnStepThread(s: State, l: Label, t: Tid)
    requires GlobalInv(s) && ThreadInv(s, t)
    requires Enabled(s, l) && Actor(s, l) == Some(t) && !l.Deliver?
    ensures ThreadInv(Apply(s, l), t)
  {
    if l.Register? || l.Abort? || l.Finish? {
      OwnMailboxStep(s, l, t);
    } else {
      OwnMove(s, l, t);
    }
  }

  /** A caller's step, for any other thread: it moves no one else, and takes the lock only when free. */
  lemma BystanderThread(s: State, l: Label, t: Tid, u: Tid)
    requires GlobalInv(s) && ThreadInv(s, t) && ThreadInv(s, u) && DistinctCalls(s, t, u) && t != u
    requires Enabled(s, l) && Actor(s, l) == Some(t) && !l.Deliver?
    ensures ThreadInv(Apply(s, l), u)
  {
    var s' := Apply(s, l);
    assert u in s'.callers <==> u in s.callers;
    assert u in s.callers ==> s'.callers[u] == s.callers[u];
    assert u in s'.outstanding <==> u in s.outstanding;
    assert u in s.outstanding ==> s'.outstanding[u] == s.outstanding[u];
  }

  lemma DeliverThread(s: State, u: Tid)
    requires GlobalInv(s) && Enabled(s, Deliver) && ThreadInv(s, s.reader.msg.tid) && ThreadInv(s, u)
    requires MsgInv(s, s.reader.msg)
    ensures ThreadInv(Apply(s, Deliver), u)
  {
  }

  lemma OtherStepThread(s: State, l: Label, u: Tid)
    requires GlobalInv(s) && ThreadInv(s, u)
    requires Enabled(s, l) && Actor(s, l) == None
    ensures ThreadInv(Apply(s, l), u)
  {
  }

  lemma StepThread(s: State, l: Label, u: Tid)
    requires Inv(s) && Enabled(s, l)
    ensures ThreadInv(Apply(s, l), u)
  {
    assert ThreadInv(s, u);
    match Actor(s, l)
    case None => OtherStepThread(s, l, u);
    case Some(t) =>
      assert ThreadInv(s, t) && DistinctCalls(s, t, u);
      if l.Deliver? {
        assert MsgInv(s, s.reader.msg);
        DeliverThread(s, u);
      } else if t == u {
        OwnStepThread(s, l, t);
      } else {
        BystanderThread(s, l, t, u);
      }
  }

  /** Only Begin gives a caller a call number, which nobody has. */
  lemma CallKept(s: State, l: Label, t: Tid)
    requires Inv(s) && Enabled(s, l) && t in Apply(s, l).callers && Apply(s, l).callers[t].pc != Idle
    ensures t in s.callers
    ensures Apply(s, l).callers[t].no == (if l == Begin(t) then s.nextCall else s.callers[t].no)
    ensures l == Begin(t) || s.callers[t].pc != Idle
  {
    if Actor(s, l).Some? {
      assert ThreadInv(s, Actor(s, l).value);
    }
  }

  lemma StepDistinct(s: State, l: Label, t: Tid, u: Tid)
    requires Inv(s) && Enabled(s, l)
    ensures DistinctCalls(Apply(s, l), t, u)
  {
    var s' := Apply(s, l);
    if t in s'.callers && u in s'.callers && t != u && s'.callers[t].pc != Idle && s'.callers[u].pc != Idle {
      CallKept(s, l, t);
      CallKept(s, l, u);
      assert DistinctCalls(s, t, u) && ThreadInv(s, t) && ThreadInv(s, u);
    }
  }

  lemma AnsweredMsg(s: State, a: Msg, m: Msg)
    requires Inv(s) && Enabled(s, Answer(a))
    ensures MsgInv(Apply(s, Answer(a)), m)
  {
    assert MsgInv(s, m) && MsgInv(s, a);
  }

  lemma ReceivedMsg(s: State, m: Msg)
    requires Inv(s) && Enabled(s, Receive)
    ensures MsgInv(Apply(s, Receive), m)
  {
    assert MsgInv(s, m) && MsgInv(s, s.replies[0]);
    assert s.replies == [s.replies[0]] + s.replies[1..];
    assert multiset(s.replies)[m] == (if m == s.replies[0] then 1 else 0) + multiset(s.replies[1..])[m];
  }

  lemma QuietMsg(s: State, l: Label, m: Msg)
    requires Inv(s) && Enabled(s, l) && (l.ServerExit? || l.ReaderAcquire? || l.SeeEof?)
    ensures MsgInv(Apply(s, l), m)
  {
    assert MsgInv(s, m);
  }

  lemma DeliveredMsg(s: State, m: Msg)
    requires Inv(s) && Enabled(s, Deliver)
    ensures MsgInv(Apply(s, Deliver), m)
  {
    assert MsgInv(s, m) && MsgInv(s, s.reader.msg);
    assert ThreadInv(s, m.tid) && ThreadInv(s, s.reader.msg.tid);
    assert DistinctCalls(s, m.tid, s.reader.msg.tid);
  }

  lemma EofMsg(s: State, m: Msg)
    requires Inv(s) && Enabled(s, NotifyEof)
    ensures MsgInv(Apply(s, NotifyEof), m)
  {
    assert MsgInv(s, m);
  }

  lemma SendMsg(s: State, t: Tid, ok: bool, m: Msg)
    requires Inv(s) && Enabled(s, Send(t, ok))
    ensures MsgInv(Apply(s, Send(t, ok)), m)
  {
    assert MsgInv(s, m) && ThreadInv(s, t) && ThreadInv(s, m.tid);
    if ok && m == Msg(t, s.callers[t].no) {
      assert !InFlight(s, m);
    }
  }

  lemma CallerMsg(s: State, l: Label, t: Tid, m: Msg)
    requires Inv(s) && Enabled(s, l) && Actor(s, l) == Some(t) && !l.Deliver?
    ensures MsgInv(Apply(s, l), m)
  {
    if l.Send? {
      SendMsg(s, t, l.ok, m);
    } else {
      assert MsgInv(s, m) && ThreadInv(s, t) && ThreadInv(s, m.tid);
    }
  }

  lemma StepMsg(s: State, l: Label, m: Msg)
    requires Inv(s) && Enabled(s, l)
    ensures MsgInv(Apply(s, l), m)
  {
    if l.Deliver? {
      DeliveredMsg(s, m);
    } else if l.NotifyEof? {
      EofMsg(s, m);
    } else if Actor(s, l).Some? {
      CallerMsg(s, l, Actor(s, l).value, m);
    } else if l.Answer? {
      AnsweredMsg(s, l.m, m);
    } else if l.Receive? {
      ReceivedMsg(s, m);
    } else {
      QuietMsg(s, l, m);
    }
  }

  lemma StepGlobal(s: State, l: Label)
    requires Inv(s) && Enabled(s, l)
    ensures GlobalInv(Apply(s, l))
  {
    if Actor(s, l).Some? {
      assert ThreadInv(s, Actor(s, l).value);
    }
  }

  lemma StepKeepsInv(s: State, l: Label)
    requires Inv(s) && Enabled(s, l)
    ensures Inv(Apply(s, l))
  {
    var s' := Apply(s, l);
    forall t
      ensures ThreadInv(s', t)
    {
      StepThread(s, l, t);
    }
    forall t, u
      ensures DistinctCalls(s', t, u)
    {
      StepDistinct(s, l, t, u);
    }
    forall m
      ensures MsgInv(s', m)
    {
      StepMsg(s, l, m);
    }
    StepGlobal(s, l);
  }

  // ---- what the invariant gives ----

  /** Neither assertion of the code can fire. */
  lemma NoAssertionFails(s: State)
    requires Inv(s)
    ensures !AssertionFails(s)
  {
    forall t | At(s, t, Locked)
      ensures t !in s.outstanding
    {
      assert ThreadInv(s, t);
    }
    if s.reader.Delivering? {
      assert MsgInv(s, s.reader.msg);
    }
  }

  /** When the lock is free, every caller with a mailbox is parked or already notified. */
  lemma NoLostWakeup(s: State)
    requires Inv(s) && s.lock.Unlocked?
    ensures forall t :: t in s.outstanding ==> At(s, t, Parked) || At(s, t, Notified)
    ensures forall t :: At(s, t, Parked) ==>
              t in s.outstanding && s.outstanding[t].data.None? && !s.outstanding[t].error
  {
    forall t | t in s.outstanding || At(s, t, Parked)
      ensures At(s, t, Parked) || At(s, t, Notified)
      ensures t in s.outstanding
      ensures At(s, t, Parked) ==> s.outstanding[t].data.None? && !s.outstanding[t].error
    {
      assert ThreadInv(s, t);
    }
  }

  /** Each reply finds its caller parked, wakes it, and puts that very call's answer in its mailbox. */
  lemma DeliveryWakes(s: State)
    requires Inv(s) && s.reader.Delivering?
    ensures Enabled(s, Deliver)
    ensures var m, s' := s.reader.msg, Apply(s, Deliver);
            && At(s, m.tid, Parked) && At(s', m.tid, Notified)
            && s'.callers[m.tid].no == m.no && ResultOf(s'.outstanding[m.tid]) == Returned(Some(m.no))
  {
    assert MsgInv(s, s.reader.msg) && ThreadInv(s, s.reader.msg.tid);
  }

  /** End of file leaves no caller parked. */
  lemma EofWakesAll(s: State)
    requires Inv(s) && Enabled(s, NotifyEof)
    ensures forall t :: t in s.outstanding ==> At(Apply(s, NotifyEof), t, Notified)
  {
    forall t | t in s.outstanding
      ensures At(Apply(s, NotifyEof), t, Notified)
    {
      assert ThreadInv(s, t);
    }
  }

  // ---- runs ----

  ghost predicate Run(states: seq<State>, labels: seq<Label>) {
    && |states| == |labels| + 1 && Init(states[0])
    && forall i :: 0 <= i < |labels| ==> Enabled(states[i], labels[i]) && states[i + 1] == Apply(states[i], labels[i])
  }

  lemma {:induction false} RunInv(states: seq<State>, labels: seq<Label>, k: nat)
    requires Run(states, labels) && k <= |labels|
    ensures Inv(states[k])
  {
    if k == 0 {
      InitInv(states[0]);
    } else {
      RunInv(states, labels, k - 1);
      StepKeepsInv(states[k - 1], labels[k - 1]);
    }
  }

  /** In every interleaving: no assertion fires, a call returns only its own reply, no waiter is
      missed, and once the reader has stopped only callers that registered after that are parked. */
  lemma RunCorrect(states: seq<State>, labels: seq<Label>, k: nat)
    requires Run(states, labels) && k <= |labels|
    ensures var s := states[k];
            && !AssertionFails(s)
            && (forall c :: c in s.results && s.results[c].Returned? ==> s.results[c].data == Some(c))
            && (s.lock.Unlocked? ==> forall t :: t in s.outstanding ==> At(s, t, Parked) || At(s, t, Notified))
            && (s.reader.Stopped? ==> forall t :: At(s, t, Parked) ==> s.callers[t].no in s.late)
  {
    RunInv(states, labels, k);
    var s := states[k];
    NoAssertionFails(s);
    if s.lock.Unlocked? {
      NoLostWakeup(s);
    }
    forall t | At(s, t, Parked) && s.reader.Stopped?
      ensures s.callers[t].no in s.late
    {
      assert ThreadInv(s, t);
    }
  }

  /** A result is fixed once the call has finished: later steps never change it. */
  lemma ResultsAreFinal(s: State, l: Label)
    requires Inv(s) && Enabled(s, l)
    ensures forall c :: c in s.results ==> c in Apply(s, l).results && Apply(s, l).results[c] == s.results[c]
  {
    if Actor(s, l).Some? {
      assert ThreadInv(s, Actor(s, l).value);
    }
  }

  // ---- nobody gets stuck ----

  /** A lock that is taken has a holder that is about to go on. */
  ghost predicate LockHeld(s: State) {
    && (s.lock.ByCaller? ==> s.lock.tid in s.callers && HoldsLock(s.callers[s.lock.tid].pc))
    && (s.lock.ByReader? ==> s.reader.Delivering? || s.reader.EofLocked?)
  }

  /** As long as the server is up, the request of a waiting caller or its reply is on its way. */
  ghost predicate OnItsWay(s: State, t: Tid) {
    Waiting(s, t) && s.serverUp ==> InFlight(s, Msg(t, s.callers[t].no))
  }

  lemma StepLockHeld(s: State, l: Label)
    requires Inv(s) && LockHeld(s) && Enabled(s, l)
    ensures LockHeld(Apply(s, l))
  {
    if Actor(s, l).Some? {
      assert ThreadInv(s, Actor(s, l).value);
    }
  }

  lemma OwnRequest(s: State, l: Label, t: Tid)
    requires Inv(s) && OnItsWay(s, t) && Enabled(s, l) && Actor(s, l) == Some(t)
    ensures OnItsWay(Apply(s, l), t)
  {
    if l.Deliver? {
      DeliveryWakes(s);
    } else if l.Wait? {
      assert InFlight(s, Msg(t, s.callers[t].no)) || !s.serverUp;
    }
  }

  lemma ReplyMoves(s: State, l: Label, m: Msg)
    requires InFlight(s, m) && Enabled(s, l) && (l.Answer? || l.Receive? || l.ReaderAcquire?)
    ensures InFlight(Apply(s, l), m)
  {
    if l.Receive? && m in s.replies {
      assert s.replies == [s.replies[0]] + s.replies[1..];
    }
  }

  lemma OthersRequest(s: State, l: Label, t: Tid)
    requires Inv(s) && OnItsWay(s, t) && Enabled(s, l) && Actor(s, l) != Some(t)
    ensures OnItsWay(Apply(s, l), t)
  {
    if Waiting(s, t) && s.serverUp {
      var m := Msg(t, s.callers[t].no);
      if l.Answer? || l.Receive? || l.ReaderAcquire? {
        ReplyMoves(s, l, m);
      } else if l.Deliver? {
        assert s.reader.msg != m;
      }
    }
  }

  lemma StepOnItsWay(s: State, l: Label, t: Tid)
    requires Inv(s) && OnItsWay(s, t) && Enabled(s, l)
    ensures OnItsWay(Apply(s, l), t)
  {
    if Actor(s, l) == Some(t) {
      OwnRequest(s, l, t);
    } else {
      OthersRequest(s, l, t);
    }
  }

  /** The step of the thread that has the lock, if any. */
  lemma HolderMoves(s: State) returns (l: Label)
    requires Inv(s) && LockHeld(s) && !s.lock.Unlocked?
    ensures Enabled(s, l) && !l.Begin? && !l.ServerExit?
  {
    if s.lock.ByReader? {
      l := if s.reader.Delivering? then Deliver else NotifyEof;
      if s.reader.Delivering? {
        DeliveryWakes(s);
      }
    } else {
      var u := s.lock.tid;
      assert ThreadInv(s, u);
      match s.callers[u].pc
      case Locked => l := Label.Register(u);
      case Registered => l := Send(u, true);
      case Sent => l := Wait(u);
      case SendFailed => l := Abort(u);
      case Woken => l := Finish(u);
    }
  }

  /** The step of the reader or the server that a parked caller waits for. */
  lemma ReplyComes(s: State, t: Tid) returns (l: Label)
    requires Inv(s) && s.lock.Unlocked? && OnItsWay(s, t)
    requires At(s, t, Parked) && s.callers[t].no !in s.late
    ensures Enabled(s, l) && !l.Begin? && !l.ServerExit?
  {
    assert ThreadInv(s, t);
    if s.reader.Received? || s.reader.EofSeen? {
      l := ReaderAcquire;
    } else if s.replies != [] {
      l := Receive;
    } else if !s.serverUp {
      l := SeeEof;
    } else {
      l := Answer(Msg(t, s.callers[t].no));
    }
  }

  /** In every run, as long as a call is under way that was not sent after the reader had stopped, some thread that is
      in a call, the reader or the server can go on: no reply and no lock is ever lost. */
  lemma NeverStuck(states: seq<State>, labels: seq<Label>, k: nat, t: Tid) returns (l: Label)
    requires Run(states, labels) && k <= |labels|
    requires t in states[k].callers && states[k].callers[t].pc != Idle && states[k].callers[t].no !in states[k].late
    ensures Enabled(states[k], l) && !l.Begin? && !l.ServerExit?
  {
    RunInv(states, labels, k);
    RunLive(states, labels, k, t);
    var s := states[k];
    if !s.lock.Unlocked? {
      l := HolderMoves(s);
    } else {
      assert ThreadInv(s, t);
      match s.callers[t].pc
      case WantLock => l := Label.Acquire(t);
      case Notified => l := Reacquire(t);
      case Parked => l := ReplyComes(s, t);
    }
  }

  lemma {:induction false} RunLive(states: seq<State>, labels: seq<Label>, k: nat, t: Tid)
    requires Run(states, labels) && k <= |labels|
    ensures LockHeld(states[k]) && OnItsWay(states[k], t)
  {
    if k > 0 {
      RunLive(states, labels, k - 1, t);
      RunInv(states, labels, k - 1);
      StepLockHeld(states[k - 1], labels[k - 1]);
      StepOnItsWay(states[k - 1], labels[k - 1], t);
    }
  }

  predicate InCall(s: State, t: Tid, c: nat) {
    t in s.callers && s.callers[t].pc != Idle && s.callers[t].no == c
  }

  /** In every run each call that was begun either is still under way or has a result. */
  lemma {:induction false} EveryCallEnds(states: seq<State>, labels: seq<Label>, k: nat, c: nat)
    requires Run(states, labels) && k <= |labels| && states[0].nextCall <= c < states[k].nextCall
    ensures c in states[k].results || exists t :: InCall(states[k], t, c)
  {
    if k > 0 {
      var s, l, s' := states[k - 1], labels[k - 1], states[k];
      RunInv(states, labels, k - 1);
      if c < s.nextCall {
        EveryCallEnds(states, labels, k - 1, c);
        if c !in s.results {
          var t :| InCall(s, t, c);
          CallGoesOn(s, l, t, c);
        } else {
          ResultsAreFinal(s, l);
        }
      } else {
        assert l.Begin? && InCall(s', l.t, c);
      }
    }
  }

  lemma CallGoesOn(s: State, l: Label, t: Tid, c: nat)
    requires Inv(s) && Enabled(s, l) && InCall(s, t, c)
    ensures InCall(Apply(s, l), t, c) || c in Apply(s, l).results
  {
    if Actor(s, l).Some? {
      assert ThreadInv(s, Actor(s, l).value);
    }
  }

  /** A late call is one that was registered after the reader had stopped, and no other. */
  lemma {:induction false} LateMeans(states: seq<State>, labels: seq<Label>, k: nat, c: nat)
    requires Run(states, labels) && k <= |labels|
    ensures c in states[k].late <==>
              exists i :: 0 <= i < k && RegistersLate(states[i], labels[i], c)
  {
    if k > 0 {
      LateMeans(states, labels, k - 1, c);
      assert c in states[k].late <==> c in states[k - 1].late || RegistersLate(states[k - 1], labels[k - 1], c);
    }
  }

  predicate RegistersLate(s: State, l: Label, c: nat) {
    l.Register? && l.t in s.callers && s.reader.Stopped? && s.callers[l.t].no == c
  }

  // ---- calls after the end of file ----

  /** The reader has stopped, and the call's request has gone out: it waits, or is about to. */
  predicate Lost(s: State, t: Tid, c: nat) {
    s.reader.Stopped? && (At(s, t, Sent) || At(s, t, Parked)) && s.callers[t].no == c
  }

  /** The exception to waking everyone: such a call is never woken, whatever happens next. */
  lemma LateCallerStaysParked(s: State, l: Label, t: Tid, c: nat)
    requires Inv(s) && Lost(s, t, c) && Enabled(s, l)
    ensures Lost(Apply(s, l), t, c) && (At(s, t, Parked) ==> At(Apply(s, l), t, Parked))
  {
    if Actor(s, l) == Some(t) {
      assert l == Wait(t);
    }
  }

  lemma SentLate(s: State, t: Tid)
    requires Inv(s) && s.reader.Stopped? && Enabled(s, Send(t, true))
    ensures var c := s.callers[t].no; c in s.late && Lost(Apply(s, Send(t, true)), t, c)
  {
    assert ThreadInv(s, t);
  }

  lemma {:induction false} LostForGood(states: seq<State>, labels: seq<Label>, i: nat, j: nat, t: Tid, c: nat)
    requires Run(states, labels) && i <= j <= |labels| && Lost(states[i], t, c)
    ensures Lost(states[j], t, c)
  {
    if i < j {
      LostForGood(states, labels, i, j - 1, t, c);
      RunInv(states, labels, j - 1);
      LateCallerStaysParked(states[j - 1], labels[j - 1], t, c);
    }
  }

  /** In every run, a request that is sent after the reader has stopped never gets a result. */
  lemma LateCallNeverReturns(states: seq<State>, labels: seq<Label>, i: nat, j: nat, t: Tid)
    requires Run(states, labels) && i < j <= |labels|
    requires labels[i] == Send(t, true) && states[i].reader.Stopped?
    ensures var c := states[i].callers[t].no;
            c in states[i].late && Lost(states[j], t, c) && c !in states[j].results
  {
    RunInv(states, labels, i);
    SentLate(states[i], t);
    LostForGood(states, labels, i + 1, j, t, states[i].callers[t].no);
    RunInv(states, labels, j);
    assert ThreadInv(states[j], t);
  }

  lemma RunOn(states: seq<State>, labels: seq<Label>, l: Label) returns (more: seq<State>)
    requires Run(states, labels) && Enabled(states[|labels|], l)
    ensures Run(more, labels + [l]) && more[|labels| + 1] == Apply(states[|labels|], l)
  {
    more := states + [Apply(states[|labels|], l)];
  }

  /** One idle caller, nothing on its way, and no call so far. */
  function QuietState(reader: Reader, lock: Lock, serverUp: bool): State {
    State(map[0 := Caller(Idle, 0)], map[], lock, reader, serverUp, {}, [], 0, map[], {})
  }

  lemma EofSeenAlone() returns (states: seq<State>, labels: seq<Label>)
    ensures Run(states, labels) && states[|labels|] == QuietState(EofSeen, Unlocked, false)
  {
    states := [QuietState(Reading, Unlocked, true)];
    assert Run(states, []);
    states := RunOn(states, [], ServerExit);
    labels := [] + [ServerExit];
    states := RunOn(states, labels, SeeEof);
    labels := labels + [SeeEof];
  }

  /** The server exits, and the reader sees the end of file and stops. */
  lemma Stopping() returns (states: seq<State>, labels: seq<Label>)
    ensures Run(states, labels) && states[|labels|] == QuietState(Stopped, Unlocked, false)
  {
    states, labels := EofSeenAlone();
    states := RunOn(states, labels, ReaderAcquire);
    labels := labels + [ReaderAcquire];
    assert states[|labels|] == QuietState(EofLocked, ByReader, false);
    states := RunOn(states, labels, NotifyEof);
    labels := labels + [NotifyEof];
    assert WakeAll(map[0 := Caller(Idle, 0)]) == map[0 := Caller(Idle, 0)] && AllFailed(map[]) == map[];
  }

  /** Such a call exists: it begins after the reader has stopped, and its request still goes out. */
  lemma LateCallReachable() returns (states: seq<State>, labels: seq<Label>)
    ensures Run(states, labels) && Lost(states[|labels|], 0, 0) && At(states[|labels|], 0, Parked)
  {
    states, labels := Stopping();
    states := RunOn(states, labels, Begin(0));
    labels := labels + [Begin(0)];
    states := RunOn(states, labels, Acquire(0));
    labels := labels + [Acquire(0)];
    states := RunOn(states, labels, Register(0));
    labels := labels + [Register(0)];
    states := RunOn(states, labels, Send(0, true));
    labels := labels + [Send(0, true)];
    states := RunOn(states, labels, Wait(0));
    labels := labels + [Wait(0)];
  }

  // ---- the channel's own data ----

  /** The callers whose condition variable was notified and that have not returned yet. */
  function Notifieds(s: State): set<Tid> {
    set t | t in s.callers && Awake(s, t)
  }

  lemma EofIsReadEof(s: State)
    requires Inv(s) && Enabled(s, NotifyEof)
    ensures Notifieds(Apply(s, NotifyEof)) == Notifieds(s) + s.outstanding.Keys
  {
    var s' := Apply(s, NotifyEof);
    forall t | t in s.callers
      ensures t in Notifieds(s') <==> t in Notifieds(s) || t in s.outstanding
    {
      assert ThreadInv(s, t);
    }
    forall t | t in s.outstanding
      ensures t in s.callers
    {
      assert ThreadInv(s, t);
    }
  }

  /** A caller's step changes whether it counts as notified only when it finishes. */
  lemma CallerNotifieds(s: State, l: Label, t: Tid)
    requires Enabled(s, l) && Actor(s, l) == Some(t) && !l.Deliver?
    ensures Notifieds(Apply(s, l)) == if l.Finish? then Notifieds(s) - {t} else Notifieds(s)
  {
    assert forall u :: u != t ==> (u in Notifieds(Apply(s, l)) <==> u in Notifieds(s));
  }

  /** Each step does to the mailboxes and the notified callers what the channel's method of that step does: Register,
      ReadReply for Deliver, ReadEof for NotifyEof, TakeResult for Finish; a failed send drops its mailbox, and
      no other step touches them. */
  lemma StepsAreChannelCalls(s: State, l: Label)
    requires Inv(s) && Enabled(s, l)
    ensures var s' := Apply(s, l);
            match l
            case Register(t) =>
              && s'.outstanding == s.outstanding[t := Future(s.callers[t].no, None, false)]
              && Notifieds(s') == Notifieds(s)
            case Deliver =>
              && s'.outstanding == Filled(s.outstanding, s.reader.msg)
              && Notifieds(s') == Notifieds(s) + {s.reader.msg.tid}
            case NotifyEof =>
              s'.outstanding == AllFailed(s.outstanding) && Notifieds(s') == Notifieds(s) + s.outstanding.Keys
            case Finish(t) =>
              && s'.outstanding == s.outstanding - {t} && Notifieds(s') == Notifieds(s) - {t}
              && s'.results == s.results[s.callers[t].no := ResultOf(s.outstanding[t])]
            case Abort(t) =>
              && s'.outstanding == s.outstanding - {t} && Notifieds(s') == Notifieds(s)
              && s'.results == s.results[s.callers[t].no := IOError]
            case _ => s'.outstanding == s.outstanding && Notifieds(s') == Notifieds(s)
  {
    if l.Deliver? {
      DeliveryWakes(s);
    } else if l.NotifyEof? {
      EofIsReadEof(s);
    } else if Actor(s, l).Some? {
      CallerNotifieds(s, l, Actor(s, l).value);
    }
  }

  class ClientChannel {
    var outstanding: map<Tid, Future>
    var awake: set<Tid>  // callers whose condition variable was notified

    constructor ()
      ensures outstanding == map[] && awake == {}
    {
      outstanding, awake := map[], {};
    }

    /** The first half of send_recv: refuses a thread that is already in it. */
    method Register(tid: Tid, no: nat) returns (ok: bool)
      modifies this`outstanding
      ensures ok <==> tid !in old(outstanding)
      ensures outstanding == if ok then old(outstanding)[tid := Future(no, None, false)] else old(outstanding)
    {
      if tid in outstanding {
        return false;
      }
      outstanding := outstanding[tid := Future(no, None, false)];
      ok := true;
    }

    /** One reply in _reader_main: the thread in the reply gets the answer, and no other; a reply nobody is
        waiting for is refused. */
    method ReadReply(m: Msg) returns (ok: bool)
      modifies this
      ensures ok <==> m.tid in old(outstanding)
      ensures !ok ==> outstanding == old(outstanding) && awake == old(awake)
      ensures ok ==>
                && outstanding == Filled(old(outstanding), m) && awake == old(awake) + {m.tid}
                && outstanding.Keys == old(outstanding).Keys
                && (!old(outstanding)[m.tid].error ==> ResultOf(outstanding[m.tid]) == Returned(Some(m.no)))
                && forall t :: t in outstanding && t != m.tid ==> outstanding[t] == old(outstanding)[t]
    {
      if m.tid !in outstanding {
        return false;
      }
      var future := outstanding[m.tid];
      future := future.(data := Some(m.no));
      awake := awake + {m.tid};
      outstanding := outstanding[m.tid := future];
      ok := true;
    }

    /** End of file in _reader_main: an exception for every outstanding mailbox. */
    method ReadEof()
      modifies this
      ensures outstanding == AllFailed(old(outstanding))
      ensures awake == old(awake) + old(outstanding).Keys
    {
      var rest := outstanding.Keys;
      while rest != {}
        invariant rest <= outstanding.Keys == old(outstanding).Keys
        invariant forall t :: t in outstanding ==>
                    outstanding[t] == if t in rest then old(outstanding)[t] else old(outstanding)[t].(error := true)
        invariant awake == old(awake) + (old(outstanding).Keys - rest)
        decreases |rest|
      {
        var t :| t in rest;
        outstanding := outstanding[t := outstanding[t].(error := true)];
        awake, rest := awake + {t}, rest - {t};
      }
    }

    /** The second half of send_recv: the result of a woken caller, whose mailbox is then dropped. */
    method TakeResult(tid: Tid) returns (r: Result)
      requires tid in outstanding
      modifies this
      ensures r == ResultOf(old(outstanding)[tid])
      ensures outstanding == old(outstanding) - {tid} && awake == old(awake) - {tid}
    {
      var f := outstanding[tid];
      if f.error {
        r := IOError;
      } else {
        r := Returned(f.data);
      }
      outstanding, awake := outstanding - {tid}, awake - {tid};
    }
  }
}
