/**
 The message queue under concurrent calls (src/utils/pending_messages_queue.rs).

 Every call is cut at its shared accesses: taking and releasing the lock, the map, the
 cached minimum, the counter and the channels. `update` reads the minimum before taking
 the lock. The theorem: whatever the schedule, the calls take effect one at a time on the
 reference queue that has no cache at all, each exactly once and between its own first
 and last step.
 */
module QueueInterleaving {
  import opened Maps
  import opened Words
  import opened Wrappers
  import opened ShardUtils
  import opened PendingMessagesQueue

  type ThreadId = nat
  type Outcome = Option<Result<Ticket, QueueError>>

  datatype Pc =
    | AddWaiting(id: MessageId, expireAt: U32)
    | AddLocked(id: MessageId, expireAt: U32)
    | AddInserted(id: MessageId, message: PendingMessage)
    | AddMinned(message: PendingMessage)
    | DeliverWaiting(id: MessageId)
    | DeliverLocked(id: MessageId)
    | DeliverRemoved(id: MessageId, message: PendingMessage)
    | DeliverCounted(id: MessageId, message: PendingMessage)
    | DeliverSent(message: PendingMessage)
    | DeliverRescan
    | UpdateReading(owns: Membership, utime: U32)
    | UpdateWaiting(owns: Membership, utime: U32)
    | UpdateLocked(owns: Membership, utime: U32)
    | UpdateScanned(minimum: U32)
    | UpdateStored
    | Unlocking(outcome: Outcome)
    | Finished(outcome: Outcome)

  /** The shared memory of the queue. */
  datatype Shared = Shared(
    entries: Entries,
    minExpireAt: U32,
    entryCount: int,
    accepted: nat,
    answers: map<Ticket, MessageStatus>)

  datatype Thread = Thread(op: QueueOp, pc: Pc)

  datatype State = State(q: Shared, lock: Option<ThreadId>, threads: map<ThreadId, Thread>, nextThread: ThreadId)

  const INITIAL: State := State(Shared(map[], U32_MAX, 0, 0, map[]), None, map[], 0)

  ghost function TheMinimum(entries: Entries): (m: U32)
    ensures IsMinimum(m, entries)
  {
    if entries == map[] then U32_MAX
    else
      var id :| id in entries;
      MinimumOfRest(entries, id, TheMinimum(entries - {id}));
      var rest := TheMinimum(entries - {id});
      if entries[id].expireAt < rest then entries[id].expireAt else rest
  }

  lemma MinimumOfRest(entries: Entries, id: MessageId, rest: U32)
    requires id in entries && IsMinimum(rest, entries - {id})
    ensures IsMinimum(if entries[id].expireAt < rest then entries[id].expireAt else rest, entries)
  {
    MinimumAfterInsert(rest, entries - {id}, id, entries[id]);
    assert (entries - {id})[id := entries[id]] == entries;
  }

  function FirstPc(op: QueueOp): Pc {
    match op
    case Add(id, expireAt) => AddWaiting(id, expireAt)
    case Deliver(id) => DeliverWaiting(id)
    case Update(owns, utime) => UpdateReading(owns, utime)
  }

  // ---------------------------------------------------------------------------
  // The steps of a call
  // ---------------------------------------------------------------------------

  predicate Waits(pc: Pc) {
    pc.AddWaiting? || pc.DeliverWaiting? || pc.UpdateWaiting?
  }

  function WithLock(pc: Pc): Pc
    requires Waits(pc)
  {
    match pc
    case AddWaiting(id, expireAt) => AddLocked(id, expireAt)
    case DeliverWaiting(id) => DeliverLocked(id)
    case UpdateWaiting(owns, utime) => UpdateLocked(owns, utime)
  }

  /** The pc belongs to a stretch in which the thread holds the lock. */
  predicate Holds(pc: Pc) {
    !Waits(pc) && !pc.UpdateReading? && !pc.Finished?
  }

  predicate Adding(pc: Pc) {
    pc.AddLocked? || pc.AddInserted? || pc.AddMinned?
  }

  function AddWork(q: Shared, pc: Pc): (Shared, Pc)
    requires Adding(pc)
  {
    match pc
    case AddLocked(id, expireAt) =>
      if id in q.entries then (q, Unlocking(Some(Err(AlreadyExists))))
      else
        var message := PendingMessage(q.accepted, expireAt);
        (q.(entries := q.entries[id := message], accepted := q.accepted + 1), AddInserted(id, message))
    case AddInserted(id, message) =>
      (q.(minExpireAt := if message.expireAt < q.minExpireAt then message.expireAt else q.minExpireAt),
       AddMinned(message))
    case AddMinned(message) => (q.(entryCount := q.entryCount + 1), Unlocking(Some(Ok(message.tx))))
  }

  predicate Delivering(pc: Pc) {
    pc.DeliverLocked? || pc.DeliverRemoved? || pc.DeliverCounted? || pc.DeliverSent? || pc.DeliverRescan?
  }

  ghost function DeliverWork(q: Shared, pc: Pc): (Shared, Pc)
    requires Delivering(pc)
  {
    match pc
    case DeliverLocked(id) =>
      if id !in q.entries then (q, Unlocking(None))
      else (q.(entries := q.entries - {id}), DeliverRemoved(id, q.entries[id]))
    case DeliverRemoved(id, message) => (q.(entryCount := q.entryCount - 1), DeliverCounted(id, message))
    case DeliverCounted(id, message) => (q.(answers := q.answers[message.tx := Delivered]), DeliverSent(message))
    case DeliverSent(message) => (q, if q.minExpireAt != message.expireAt then Unlocking(None) else DeliverRescan)
    case DeliverRescan => (q.(minExpireAt := TheMinimum(q.entries)), Unlocking(None))
  }

  predicate Updating(pc: Pc) {
    pc.UpdateLocked? || pc.UpdateScanned? || pc.UpdateStored?
  }

  ghost function UpdateWork(q: Shared, pc: Pc): (Shared, Pc)
    requires Updating(pc)
  {
    match pc
    case UpdateLocked(owns, utime) =>
      var kept := NotDue(q.entries, owns, utime);
      (q.(entries := kept, answers := WithExpired(q.answers, DueTickets(q.entries, owns, utime))),
       UpdateScanned(TheMinimum(kept)))
    case UpdateScanned(minimum) => (q.(minExpireAt := minimum), UpdateStored)
    case UpdateStored => (q.(entryCount := |q.entries|), Unlocking(None))
  }

  /** A step on the shared memory by the thread holding the lock. */
  ghost function Work(q: Shared, pc: Pc): (Shared, Pc)
    requires Holds(pc) && !pc.Unlocking?
  {
    if Adding(pc) then AddWork(q, pc)
    else if Delivering(pc) then DeliverWork(q, pc)
    else UpdateWork(q, pc)
  }

  function Goto(s: State, t: ThreadId, pc: Pc): State
    requires t in s.threads
  {
    s.(threads := s.threads[t := s.threads[t].(pc := pc)])
  }

  /** The next atomic step of a thread; one that has to wait for the lock does nothing. */
  ghost function Step(s: State, t: ThreadId): State
    requires t in s.threads
  {
    var pc := s.threads[t].pc;
    if pc.Finished? then s
    else if Waits(pc) then
      if s.lock == None then Goto(s, t, WithLock(pc)).(lock := Some(t)) else s
    else if pc.UpdateReading? then
      Goto(s, t, if pc.utime <= s.q.minExpireAt then Finished(None) else UpdateWaiting(pc.owns, pc.utime))
    else if pc.Unlocking? then Goto(s, t, Finished(pc.outcome)).(lock := None)
    else
      var (q, next) := Work(s.q, pc);
      Goto(s, t, next).(q := q)
  }

  /** The steps at which a call takes effect. For an early exit that is the read of the
      minimum, for a delivery the answer, for an addition the update of the minimum. */
  predicate TakesEffect(q: Shared, pc: Pc) {
    match pc
    case AddLocked(id, _) => id in q.entries
    case AddInserted(_, _) => true
    case DeliverLocked(id) => id !in q.entries
    case DeliverCounted(_, _) => true
    case UpdateReading(_, utime) => utime <= q.minExpireAt
    case UpdateLocked(_, _) => true
    case _ => false
  }

  /** The reference queue while a thread at `pc` holds the lock: a half-done addition has
      not happened yet, and neither has a delivery whose answer is not yet sent. */
  function Behind(q: Shared, pc: Pc): Queue {
    match pc
    case AddInserted(id, message) =>
      Queue(q.entries - {id}, if q.accepted == 0 then 0 else q.accepted - 1, q.answers)
    case DeliverRemoved(id, message) => Queue(q.entries[id := message], q.accepted, q.answers)
    case DeliverCounted(id, message) => Queue(q.entries[id := message], q.accepted, q.answers)
    case _ => Queue(q.entries, q.accepted, q.answers)
  }

  function Reference(s: State): Queue {
    if s.lock.Some? && s.lock.value in s.threads then Behind(s.q, s.threads[s.lock.value].pc)
    else Queue(s.q.entries, s.q.accepted, s.q.answers)
  }

  function OutcomeOf(q: Queue, op: QueueOp): Outcome {
    match op
    case Add(id, expireAt) => Some(Added(q, id, expireAt).1)
    case Deliver(_) => None
    case Update(_, _) => None
  }

  // ---------------------------------------------------------------------------
  // Invariant
  // ---------------------------------------------------------------------------

  /** The counter and the minimum agree with the map. */
  ghost predicate Exact(q: Shared) {
    IsMinimum(q.minExpireAt, q.entries) && q.entryCount == |q.entries|
  }

  /** What the holder of the lock has already changed. */
  ghost predicate Progress(q: Shared, pc: Pc) {
    match pc
    case AddInserted(id, message) =>
      && id in q.entries && q.entries[id] == message && q.accepted == message.tx + 1
      && IsMinimum(q.minExpireAt, q.entries - {id}) && q.entryCount == |q.entries| - 1
    case AddMinned(_) => IsMinimum(q.minExpireAt, q.entries) && q.entryCount == |q.entries| - 1
    case DeliverRemoved(id, message) =>
      && id !in q.entries
      && IsMinimum(q.minExpireAt, q.entries[id := message]) && q.entryCount == |q.entries| + 1
    case DeliverCounted(id, message) =>
      && id !in q.entries
      && IsMinimum(q.minExpireAt, q.entries[id := message]) && q.entryCount == |q.entries|
    case DeliverSent(message) =>
      && IsLowerBound(q.minExpireAt, q.entries) && q.entryCount == |q.entries|
      && (q.minExpireAt != message.expireAt ==> IsMinimum(q.minExpireAt, q.entries))
    case DeliverRescan => IsLowerBound(q.minExpireAt, q.entries) && q.entryCount == |q.entries|
    case UpdateScanned(minimum) => IsLowerBound(q.minExpireAt, q.entries) && IsMinimum(minimum, q.entries)
    case UpdateStored => IsMinimum(q.minExpireAt, q.entries)
    case _ => Exact(q)
  }

  /** A thread is inside the call it was started for. */
  ghost predicate InCall(op: QueueOp, pc: Pc) {
    match pc
    case AddWaiting(id, expireAt) => op == Add(id, expireAt)
    case AddLocked(id, expireAt) => op == Add(id, expireAt)
    case AddInserted(id, message) => op == Add(id, message.expireAt)
    case AddMinned(_) => op.Add?
    case DeliverWaiting(id) => op == Deliver(id)
    case DeliverLocked(id) => op == Deliver(id)
    case DeliverRemoved(id, _) => op == Deliver(id)
    case DeliverCounted(id, _) => op == Deliver(id)
    case DeliverSent(_) => op.Deliver?
    case DeliverRescan => op.Deliver?
    case UpdateReading(owns, utime) => op == Update(owns, utime)
    case UpdateWaiting(owns, utime) => op == Update(owns, utime)
    case UpdateLocked(owns, utime) => op == Update(owns, utime)
    case UpdateScanned(_) => op.Update?
    case UpdateStored => op.Update?
    case Unlocking(_) => true
    case Finished(_) => true
  }

  ghost predicate LockInv(s: State) {
    && (s.lock.Some? ==> s.lock.value in s.threads)
    && (forall t :: t in s.threads ==> (Holds(s.threads[t].pc) <==> s.lock == Some(t)))
  }

  ghost predicate CacheInv(s: State) {
    if s.lock.Some? then s.lock.value in s.threads && Progress(s.q, s.threads[s.lock.value].pc)
    else Exact(s.q)
  }

  ghost predicate CallInv(s: State) {
    forall t :: t in s.threads ==> InCall(s.threads[t].op, s.threads[t].pc) && t < s.nextThread
  }

  ghost predicate Inv(s: State) {
    LockInv(s) && CacheInv(s) && CallInv(s)
  }

  // ---------------------------------------------------------------------------
  // One step
  // ---------------------------------------------------------------------------

  lemma InsertThenRemove(entries: Entries, id: MessageId, message: PendingMessage)
    requires id !in entries
    ensures |entries[id := message]| == |entries| + 1
    ensures entries[id := message] - {id} == entries
  {
    SizeAfterUpdate(entries, id, message);
    assert entries[id := message] - {id} == entries;
  }

  lemma FewerEntriesBound(m: U32, entries: Entries, fewer: Entries)
    requires IsLowerBound(m, entries)
    requires forall id :: id in fewer ==> id in entries && fewer[id] == entries[id]
    ensures IsLowerBound(m, fewer)
  {
  }

  /** What the holder's step has to keep, for a thread that runs the call `op`. */
  ghost predicate GoodWork(q: Shared, pc: Pc, q': Shared, pc': Pc, op: QueueOp) {
    && Holds(pc')
    && Progress(q', pc')
    && InCall(op, pc')
    && Behind(q', pc') == if TakesEffect(q, pc) then Apply(Behind(q, pc), op) else Behind(q, pc)
  }

  lemma InsertGood(q: Shared, pc: Pc, op: QueueOp)
    requires pc.AddLocked? && Progress(q, pc) && InCall(op, pc)
    ensures var (q', pc') := AddWork(q, pc); GoodWork(q, pc, q', pc', op)
  {
    if pc.id !in q.entries {
      InsertThenRemove(q.entries, pc.id, PendingMessage(q.accepted, pc.expireAt));
    }
  }

  lemma LowerMinimumGood(q: Shared, pc: Pc, op: QueueOp)
    requires pc.AddInserted? && Progress(q, pc) && InCall(op, pc)
    ensures var (q', pc') := AddWork(q, pc); GoodWork(q, pc, q', pc', op)
  {
    MinimumOfRest(q.entries, pc.id, q.minExpireAt);
    assert (q.entries - {pc.id})[pc.id := pc.message] == q.entries;
  }

  lemma RemoveGood(q: Shared, pc: Pc, op: QueueOp)
    requires pc.DeliverLocked? && Progress(q, pc) && InCall(op, pc)
    ensures var (q', pc') := DeliverWork(q, pc); GoodWork(q, pc, q', pc', op)
  {
    if pc.id in q.entries {
      SizeAfterRemoval(q.entries, pc.id);
      assert (q.entries - {pc.id})[pc.id := q.entries[pc.id]] == q.entries;
    }
  }

  lemma AnswerGood(q: Shared, pc: Pc, op: QueueOp)
    requires pc.DeliverCounted? && Progress(q, pc) && InCall(op, pc)
    ensures var (q', pc') := DeliverWork(q, pc); GoodWork(q, pc, q', pc', op)
  {
    var before := q.entries[pc.id := pc.message];
    InsertThenRemove(q.entries, pc.id, pc.message);
    FewerEntriesBound(q.minExpireAt, before, q.entries);
    if q.minExpireAt != pc.message.expireAt {
      MinimumAfterRemoval(q.minExpireAt, before, pc.id);
    }
  }

  lemma AddWorkGood(q: Shared, pc: Pc, op: QueueOp)
    requires Adding(pc) && Progress(q, pc) && InCall(op, pc)
    ensures var (q', pc') := AddWork(q, pc); GoodWork(q, pc, q', pc', op)
  {
    if pc.AddLocked? {
      InsertGood(q, pc, op);
    } else if pc.AddInserted? {
      LowerMinimumGood(q, pc, op);
    }
  }

  lemma DeliverWorkGood(q: Shared, pc: Pc, op: QueueOp)
    requires Delivering(pc) && Progress(q, pc) && InCall(op, pc)
    ensures var (q', pc') := DeliverWork(q, pc); GoodWork(q, pc, q', pc', op)
  {
    if pc.DeliverLocked? {
      RemoveGood(q, pc, op);
    } else if pc.DeliverCounted? {
      AnswerGood(q, pc, op);
    }
  }

  lemma RetainGood(q: Shared, pc: Pc, op: QueueOp)
    requires pc.UpdateLocked? && Progress(q, pc) && InCall(op, pc)
    ensures var (q', pc') := UpdateWork(q, pc); GoodWork(q, pc, q', pc', op)
  {
    FewerEntriesBound(q.minExpireAt, q.entries, NotDue(q.entries, pc.owns, pc.utime));
  }

  lemma UpdateWorkGood(q: Shared, pc: Pc, op: QueueOp)
    requires Updating(pc) && Progress(q, pc) && InCall(op, pc)
    ensures var (q', pc') := UpdateWork(q, pc); GoodWork(q, pc, q', pc', op)
  {
    if pc.UpdateLocked? {
      RetainGood(q, pc, op);
    }
  }

  lemma WorkGood(q: Shared, pc: Pc, op: QueueOp)
    requires Holds(pc) && !pc.Unlocking? && Progress(q, pc) && InCall(op, pc)
    ensures var (q', pc') := Work(q, pc); GoodWork(q, pc, q', pc', op)
  {
    if Adding(pc) {
      AddWorkGood(q, pc, op);
    } else if Delivering(pc) {
      DeliverWorkGood(q, pc, op);
    } else {
      UpdateWorkGood(q, pc, op);
    }
  }

  /** The cached minimum bounds the expiries of the reference queue at every moment. */
  lemma ReferenceBound(q: Shared, pc: Pc)
    requires Progress(q, pc)
    ensures IsLowerBound(q.minExpireAt, Behind(q, pc).entries)
  {
  }

  lemma TakingTheLock(q: Shared, pc: Pc, op: QueueOp)
    requires Waits(pc) && Exact(q) && InCall(op, pc)
    ensures Holds(WithLock(pc)) && Progress(q, WithLock(pc)) && InCall(op, WithLock(pc))
    ensures Behind(q, WithLock(pc)) == Queue(q.entries, q.accepted, q.answers)
    ensures !TakesEffect(q, pc)
  {
  }

  /** A thread that moves outside the locked stretches leaves the rest alone. */
  lemma MoveOutsideLock(s: State, t: ThreadId, pc: Pc)
    requires Inv(s) && t in s.threads && !Holds(s.threads[t].pc) && !Holds(pc) && InCall(s.threads[t].op, pc)
    ensures Inv(Goto(s, t, pc)) && Reference(Goto(s, t, pc)) == Reference(s)
  {
    var s' := Goto(s, t, pc);
    assert s.lock != Some(t);
    assert s'.q == s.q && s'.lock == s.lock;
    if s.lock.Some? {
      assert s'.threads[s.lock.value] == s.threads[s.lock.value];
    }
  }

  lemma ReadingTheMinimum(s: State, t: ThreadId)
    requires Inv(s) && t in s.threads && s.threads[t].pc.UpdateReading?
    ensures Inv(Step(s, t))
    ensures Reference(Step(s, t)) == Reference(s)
    ensures TakesEffect(s.q, s.threads[t].pc) ==> Apply(Reference(s), s.threads[t].op) == Reference(s)
  {
    var pc := s.threads[t].pc;
    if TakesEffect(s.q, pc) {
      EarlyExitEffect(s, t);
      MoveOutsideLock(s, t, Finished(None));
    } else {
      MoveOutsideLock(s, t, UpdateWaiting(pc.owns, pc.utime));
    }
  }

  lemma EarlyExitEffect(s: State, t: ThreadId)
    requires Inv(s) && t in s.threads
    requires s.threads[t].pc.UpdateReading? && TakesEffect(s.q, s.threads[t].pc)
    ensures Apply(Reference(s), s.threads[t].op) == Reference(s)
  {
    var pc := s.threads[t].pc;
    if s.lock.Some? {
      ReferenceBound(s.q, s.threads[s.lock.value].pc);
    }
    EarlyExitIsScan(Reference(s), s.q.minExpireAt, pc.owns, pc.utime);
  }

  /** The step keeps the invariant, and has its effect on the reference queue, if any. */
  ghost predicate GoodStep(s: State, t: ThreadId)
    requires t in s.threads
  {
    && Inv(Step(s, t))
    && Reference(Step(s, t))
       == if TakesEffect(s.q, s.threads[t].pc) then Apply(Reference(s), s.threads[t].op) else Reference(s)
  }

  lemma LockStepGood(s: State, t: ThreadId)
    requires Inv(s) && t in s.threads && Waits(s.threads[t].pc)
    ensures GoodStep(s, t)
  {
    if s.lock == None {
      TakingTheLock(s.q, s.threads[t].pc, s.threads[t].op);
    }
  }

  lemma UnlockStepGood(s: State, t: ThreadId)
    requires Inv(s) && t in s.threads && s.threads[t].pc.Unlocking?
    ensures GoodStep(s, t)
  {
    assert s.lock == Some(t);
  }

  lemma WorkStepGood(s: State, t: ThreadId)
    requires Inv(s) && t in s.threads && Holds(s.threads[t].pc) && !s.threads[t].pc.Unlocking?
    ensures GoodStep(s, t)
  {
    assert s.lock == Some(t);
    WorkGood(s.q, s.threads[t].pc, s.threads[t].op);
  }

  /** Each step either leaves the reference queue alone or applies the thread's call to it. */
  lemma StepRefines(s: State, t: ThreadId)
    requires Inv(s) && t in s.threads
    ensures Inv(Step(s, t))
    ensures Reference(Step(s, t)) ==
            if TakesEffect(s.q, s.threads[t].pc) then Apply(Reference(s), s.threads[t].op) else Reference(s)
  {
    var pc := s.threads[t].pc;
    assert GoodStep(s, t) by {
      if Waits(pc) {
        LockStepGood(s, t);
      } else if pc.UpdateReading? {
        ReadingTheMinimum(s, t);
      } else if pc.Unlocking? {
        UnlockStepGood(s, t);
      } else if Holds(pc) {
        WorkStepGood(s, t);
      }
    }
  }

  // ---------------------------------------------------------------------------
  // Whole executions
  // ---------------------------------------------------------------------------

  /** A schedule: calls are started at any time, and any thread makes the next step. */
  datatype Action = Start(op: QueueOp) | Advance(thread: ThreadId)

  datatype Effect = Effect(thread: ThreadId, op: QueueOp, outcome: Outcome)

  /** The state after a schedule and the calls in the order in which they took effect. */
  ghost function Execute(actions: seq<Action>): (State, seq<Effect>) {
    if actions == [] then (INITIAL, [])
    else
      var (s, trace) := Execute(actions[..|actions| - 1]);
      match actions[|actions| - 1]
      case Start(op) =>
        (s.(threads := s.threads[s.nextThread := Thread(op, FirstPc(op))], nextThread := s.nextThread + 1), trace)
      case Advance(t) =>
        if t !in s.threads then (s, trace)
        else if TakesEffect(s.q, s.threads[t].pc) then
          (Step(s, t), trace + [Effect(t, s.threads[t].op, OutcomeOf(Reference(s), s.threads[t].op))])
        else (Step(s, t), trace)
  }

  function OpsOf(trace: seq<Effect>): seq<QueueOp> {
    seq(|trace|, i requires 0 <= i < |trace| => trace[i].op)
  }

  /** The thread has passed the point where its call takes effect. */
  predicate Passed(pc: Pc) {
    pc.AddMinned? || pc.DeliverSent? || pc.DeliverRescan? || pc.UpdateScanned? || pc.UpdateStored? ||
    pc.Unlocking? || pc.Finished?
  }

  /** The outcome the thread is going to return, once it is decided. */
  predicate Returns(pc: Pc, outcome: Outcome) {
    match pc
    case AddMinned(message) => outcome == Some(Ok(message.tx))
    case Unlocking(o) => o == outcome
    case Finished(o) => o == outcome
    case _ => outcome == None
  }

  ghost predicate InTrace(trace: seq<Effect>, t: ThreadId) {
    exists i :: 0 <= i < |trace| && trace[i].thread == t
  }

  /** The thread is past its effect point and returns the outcome of this effect. */
  ghost predicate IsEffectOf(s: State, e: Effect) {
    && e.thread in s.threads && e.op == s.threads[e.thread].op
    && Passed(s.threads[e.thread].pc) && Returns(s.threads[e.thread].pc, e.outcome)
  }

  /** The trace holds one effect for each thread past its effect point, with the outcome it returns. */
  ghost predicate TraceInv(s: State, trace: seq<Effect>) {
    && (forall i, j :: 0 <= i < j < |trace| ==> trace[i].thread != trace[j].thread)
    && (forall i :: 0 <= i < |trace| ==> IsEffectOf(s, trace[i]))
    && (forall t :: t in s.threads && Passed(s.threads[t].pc) ==> InTrace(trace, t))
  }

  /** The effect point is passed once, and fixes the outcome. */
  ghost predicate PassesOnce(pc: Pc, pc': Pc, takes: bool, outcome: Outcome) {
    && (Passed(pc') <==> Passed(pc) || takes)
    && !(Passed(pc) && takes)
    && (forall o :: Passed(pc) && Returns(pc, o) ==> Returns(pc', o))
    && (takes ==> Returns(pc', outcome))
  }

  lemma AddWorkPassed(q: Shared, pc: Pc, op: QueueOp)
    requires Adding(pc) && Progress(q, pc) && InCall(op, pc)
    ensures PassesOnce(pc, AddWork(q, pc).1, TakesEffect(q, pc), OutcomeOf(Behind(q, pc), op))
  {
  }

  lemma DeliverWorkPassed(q: Shared, pc: Pc, op: QueueOp)
    requires Delivering(pc) && Progress(q, pc) && InCall(op, pc)
    ensures PassesOnce(pc, DeliverWork(q, pc).1, TakesEffect(q, pc), OutcomeOf(Behind(q, pc), op))
  {
  }

  lemma UpdateWorkPassed(q: Shared, pc: Pc, op: QueueOp)
    requires Updating(pc) && Progress(q, pc) && InCall(op, pc)
    ensures PassesOnce(pc, UpdateWork(q, pc).1, TakesEffect(q, pc), OutcomeOf(Behind(q, pc), op))
  {
  }

  lemma WorkPassed(q: Shared, pc: Pc, op: QueueOp)
    requires Holds(pc) && !pc.Unlocking? && Progress(q, pc) && InCall(op, pc)
    ensures PassesOnce(pc, Work(q, pc).1, TakesEffect(q, pc), OutcomeOf(Behind(q, pc), op))
  {
    if Adding(pc) {
      AddWorkPassed(q, pc, op);
    } else if Delivering(pc) {
      DeliverWorkPassed(q, pc, op);
    } else {
      UpdateWorkPassed(q, pc, op);
    }
  }

  lemma OtherPassed(s: State, t: ThreadId)
    requires Inv(s) && t in s.threads && (!Holds(s.threads[t].pc) || s.threads[t].pc.Unlocking?)
    ensures PassesOnce(s.threads[t].pc, Step(s, t).threads[t].pc, TakesEffect(s.q, s.threads[t].pc),
                       OutcomeOf(Reference(s), s.threads[t].op))
  {
    assert InCall(s.threads[t].op, s.threads[t].pc);
  }

  /** Only thread `t` moves, and goes on with its call. */
  ghost predicate OnlyMoves(s: State, s': State, t: ThreadId) {
    && t in s.threads && s'.threads.Keys == s.threads.Keys
    && s'.threads[t].op == s.threads[t].op
    && (forall u :: u in s.threads && u != t ==> s'.threads[u] == s.threads[u])
  }

  lemma StepPassed(s: State, t: ThreadId)
    requires Inv(s) && t in s.threads
    ensures PassesOnce(s.threads[t].pc, Step(s, t).threads[t].pc, TakesEffect(s.q, s.threads[t].pc),
                       OutcomeOf(Reference(s), s.threads[t].op))
  {
    var pc := s.threads[t].pc;
    if Holds(pc) && !pc.Unlocking? {
      assert s.lock == Some(t);
      WorkPassed(s.q, pc, s.threads[t].op);
    } else {
      OtherPassed(s, t);
    }
  }

  lemma StepMovesOne(s: State, t: ThreadId)
    requires t in s.threads
    ensures OnlyMoves(s, Step(s, t), t)
  {
  }

  /** A step that takes no effect. */
  lemma QuietKeepsTrace(s: State, s': State, trace: seq<Effect>, t: ThreadId)
    requires TraceInv(s, trace) && OnlyMoves(s, s', t)
    requires Passed(s'.threads[t].pc) <==> Passed(s.threads[t].pc)
    requires forall o :: Passed(s.threads[t].pc) && Returns(s.threads[t].pc, o) ==> Returns(s'.threads[t].pc, o)
    ensures TraceInv(s', trace)
  {
    forall i | 0 <= i < |trace| ensures IsEffectOf(s', trace[i]) {
      assert IsEffectOf(s, trace[i]);
    }
  }

  lemma InLongerTrace(trace: seq<Effect>, e: Effect, t: ThreadId)
    requires InTrace(trace, t) || e.thread == t
    ensures InTrace(trace + [e], t)
  {
    if InTrace(trace, t) {
      var i :| 0 <= i < |trace| && trace[i].thread == t;
      assert (trace + [e])[i].thread == t;
    } else {
      assert (trace + [e])[|trace|].thread == t;
    }
  }

  /** The step in which the thread's call takes effect. */
  lemma EffectKeepsTrace(s: State, s': State, trace: seq<Effect>, e: Effect)
    requires TraceInv(s, trace) && OnlyMoves(s, s', e.thread)
    requires !Passed(s.threads[e.thread].pc) && IsEffectOf(s', e)
    ensures TraceInv(s', trace + [e])
  {
    forall i | 0 <= i < |trace| ensures IsEffectOf(s', trace[i]) && trace[i].thread != e.thread {
      assert IsEffectOf(s, trace[i]);
    }
    forall u | u in s'.threads && Passed(s'.threads[u].pc) ensures InTrace(trace + [e], u) {
      InLongerTrace(trace, e, u);
    }
  }

  lemma StepKeepsTrace(s: State, trace: seq<Effect>, t: ThreadId)
    requires Inv(s) && TraceInv(s, trace) && t in s.threads
    ensures var effect := Effect(t, s.threads[t].op, OutcomeOf(Reference(s), s.threads[t].op));
            TraceInv(Step(s, t), if TakesEffect(s.q, s.threads[t].pc) then trace + [effect] else trace)
  {
    StepPassed(s, t);
    StepMovesOne(s, t);
    if TakesEffect(s.q, s.threads[t].pc) {
      EffectKeepsTrace(s, Step(s, t), trace, Effect(t, s.threads[t].op, OutcomeOf(Reference(s), s.threads[t].op)));
    } else {
      QuietKeepsTrace(s, Step(s, t), trace, t);
    }
  }

  lemma StartKeepsInv(s: State, trace: seq<Effect>, op: QueueOp)
    requires Inv(s) && TraceInv(s, trace)
    ensures var s' := s.(threads := s.threads[s.nextThread := Thread(op, FirstPc(op))], nextThread := s.nextThread + 1);
            Inv(s') && TraceInv(s', trace) && Reference(s') == Reference(s)
  {
  }

  lemma OneMoreOp(trace: seq<Effect>, effect: Effect)
    ensures ApplyAll(EMPTY, OpsOf(trace + [effect])) == Apply(ApplyAll(EMPTY, OpsOf(trace)), effect.op)
  {
    assert OpsOf(trace + [effect])[..|trace|] == OpsOf(trace);
  }

  /** In every execution the queue behaves like the reference queue on which the calls are
      made one after the other: the calls that took effect, in their order, produce the
      reference state; each call takes effect once, with the outcome it returns; and
      whenever nobody holds the lock, the minimum and the counter are exact. */
  lemma {:induction false} ExecutionsRefineReference(actions: seq<Action>)
    ensures var (s, trace) := Execute(actions);
            && Inv(s) && TraceInv(s, trace)
            && Reference(s) == ApplyAll(EMPTY, OpsOf(trace))
  {
    if actions == [] {
      assert OpsOf([]) == [];
    } else {
      var front := actions[..|actions| - 1];
      ExecutionsRefineReference(front);
      var (s, trace) := Execute(front);
      match actions[|actions| - 1]
      case Start(op) =>
        StartKeepsInv(s, trace, op);
      case Advance(t) =>
        if t in s.threads {
          StepRefines(s, t);
          StepKeepsTrace(s, trace, t);
          OneMoreOp(trace, Effect(t, s.threads[t].op, OutcomeOf(Reference(s), s.threads[t].op)));
        }
    }
  }

  /** The outcome a finished call returned is the one the reference queue gives at the
      moment the call took effect. */
  lemma {:induction false} OutcomesAreReferenceOutcomes(actions: seq<Action>, i: nat)
    requires i < |Execute(actions).1|
    ensures var trace := Execute(actions).1;
            trace[i].outcome == OutcomeOf(ApplyAll(EMPTY, OpsOf(trace[..i])), trace[i].op)
  {
    var front := actions[..|actions| - 1];
    var (s, trace) := Execute(front);
    var trace' := Execute(actions).1;
    if i < |trace| {
      OutcomesAreReferenceOutcomes(front, i);
      assert trace'[..i] == trace[..i];
    } else {
      ExecutionsRefineReference(front);
      assert trace'[..i] == trace;
    }
  }

  /** Whenever nobody holds the lock, the cached minimum and the counter are exact. */
  lemma CacheExactWhenUnlocked(actions: seq<Action>)
    requires Execute(actions).0.lock == None
    ensures var q := Execute(actions).0.q;
            IsMinimum(q.minExpireAt, q.entries) && q.entryCount == |q.entries|
  {
    ExecutionsRefineReference(actions);
  }

  /** Conservation carries over: in every execution each accepted message is pending in the
      reference queue or answered, and answers are never changed. */
  lemma ExecutionsConserve(actions: seq<Action>)
    ensures Conserved(Reference(Execute(actions).0))
  {
    ExecutionsRefineReference(actions);
    RunConserves(OpsOf(Execute(actions).1));
  }

  // ---------------------------------------------------------------------------
  // Calls finish
  // ---------------------------------------------------------------------------

  /** An upper bound of the steps that a call still has to make. */
  function StepsLeft(pc: Pc): nat {
    match pc
    case AddWaiting(_, _) => 5
    case AddLocked(_, _) => 4
    case AddInserted(_, _) => 3
    case AddMinned(_) => 2
    case DeliverWaiting(_) => 7
    case DeliverLocked(_) => 6
    case DeliverRemoved(_, _) => 5
    case DeliverCounted(_, _) => 4
    case DeliverSent(_) => 3
    case DeliverRescan => 2
    case UpdateReading(_, _) => 6
    case UpdateWaiting(_, _) => 5
    case UpdateLocked(_, _) => 4
    case UpdateScanned(_) => 3
    case UpdateStored => 2
    case Unlocking(_) => 1
    case Finished(_) => 0
  }

  /** The lock is free for this thread. */
  predicate MayLock(s: State, t: ThreadId) {
    s.lock == None || s.lock == Some(t)
  }

  lemma WorkMovesOn(q: Shared, pc: Pc)
    requires Holds(pc) && !pc.Unlocking?
    ensures StepsLeft(Work(q, pc).1) < StepsLeft(pc)
  {
  }

  /** From `s` on the thread has moved `n` steps, or is done; the lock is still its to take. */
  ghost predicate CountsDown(s: State, s': State, t: ThreadId, n: nat) {
    && t in s.threads && t in s'.threads && MayLock(s', t)
    && (StepsLeft(s'.threads[t].pc) == 0 || StepsLeft(s'.threads[t].pc) + n <= StepsLeft(s.threads[t].pc))
  }

  lemma StepMovesOn(s: State, t: ThreadId)
    requires Inv(s) && t in s.threads && MayLock(s, t)
    ensures CountsDown(s, Step(s, t), t, 1)
  {
    var pc := s.threads[t].pc;
    if Holds(pc) && !pc.Unlocking? {
      WorkMovesOn(s.q, pc);
    }
  }

  lemma CountOneMore(s: State, mid: State, t: ThreadId, n: nat)
    requires CountsDown(s, mid, t, n) && Inv(mid)
    ensures CountsDown(s, Step(mid, t), t, n + 1)
  {
    StepMovesOn(mid, t);
  }

  function Advances(t: ThreadId, n: nat): seq<Action> {
    if n == 0 then [] else Advances(t, n - 1) + [Advance(t)]
  }

  lemma OneMoreAdvance(actions: seq<Action>, t: ThreadId)
    requires t in Execute(actions).0.threads
    ensures Execute(actions + [Advance(t)]).0 == Step(Execute(actions).0, t)
  {
    assert (actions + [Advance(t)])[..|actions|] == actions;
  }

  lemma AdvanceCounts(s: State, actions: seq<Action>, t: ThreadId, n: nat)
    requires CountsDown(s, Execute(actions).0, t, n)
    ensures CountsDown(s, Execute(actions + [Advance(t)]).0, t, n + 1)
  {
    ExecutionsRefineReference(actions);
    CountOneMore(s, Execute(actions).0, t, n);
    OneMoreAdvance(actions, t);
  }

  lemma {:induction false} AdvancesCountDown(s: State, actions: seq<Action>, t: ThreadId, n: nat)
    requires CountsDown(s, Execute(actions).0, t, 0)
    ensures CountsDown(s, Execute(actions + Advances(t, n)).0, t, n)
    decreases n
  {
    if n == 0 {
      assert actions + Advances(t, n) == actions;
    } else {
      AdvancesCountDown(s, actions, t, n - 1);
      AdvanceCounts(s, actions + Advances(t, n - 1), t, n - 1);
      assert actions + Advances(t, n) == actions + Advances(t, n - 1) + [Advance(t)];
    }
  }

  lemma NoStepsLeft(s: State, s': State, t: ThreadId)
    requires CountsDown(s, s', t, 7)
    ensures s'.threads[t].pc.Finished?
  {
  }

  /** No call gets stuck: in every execution a call that finds the lock free, or holds it, is
      over after seven steps of its own. */
  lemma CallFinishes(actions: seq<Action>, t: ThreadId)
    requires t in Execute(actions).0.threads && MayLock(Execute(actions).0, t)
    ensures var s' := Execute(actions + Advances(t, 7)).0;
            t in s'.threads && s'.threads[t].pc.Finished?
  {
    AdvancesCountDown(Execute(actions).0, actions, t, 7);
    NoStepsLeft(Execute(actions).0, Execute(actions + Advances(t, 7)).0, t);
  }
}
