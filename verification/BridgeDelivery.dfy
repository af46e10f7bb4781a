/**
 Votes on their way to the chain: bridge runs together with message delivery
 (src/engine/bridge/mod.rs and src/engine/mod.rs).

 A voting task that takes the observer starts a resend loop, and its messages, answers and
 checks are those of the loop. Pending events are what observers are kept for on both
 sides.
 */
module BridgeDelivery {
  import opened Wrappers
  import opened ShardUtils
  import opened PendingMessagesQueue
  import BridgeEvents
  import BridgeOutcomes
  import BridgeRuns
  import TonSubscriber
  import M = MessageDelivery

  type TaskId = BridgeRuns.TaskId
  type Task = BridgeRuns.Task
  type Environment = BridgeRuns.Environment

  /** The delivery side is the list of its actions; `loops` are the loops of voting tasks. */
  datatype State = State(bridge: BridgeRuns.State, delivery: seq<M.Action>, loops: map<TaskId, M.LoopId>)

  datatype Action =
    | OnBridge(bridgeAction: BridgeRuns.Action)
    | OnDelivery(deliveryAction: M.Action)
    | Broadcast(task: TaskId, hash: Hash, expireAt: U32)
    | Wake(task: TaskId)

  ghost function DeliveryOf(s: State): M.State {
    M.Run(s.delivery)
  }

  /** Receivers of account states, blocks, scans and expiry passes. */
  predicate IsEnvironment(a: M.Action) {
    a.AddReceiver? || a.DropReceiver? || a.BeginScan? || a.Turn? || a.EndScan? || a.Expire?
  }

  /** The task runs a resend loop. */
  predicate IsSender(task: Task) {
    task.Checking? || task.Sending? || task.Delivering?
  }

  /** Sending and the two answers have actions of their own; an event is not added while a
      scan holds the lock of the subscriptions. */
  ghost predicate IsEnabled(env: Environment, s: State, a: BridgeRuns.Action) {
    && (BridgeRuns.EffectOf(env, s.bridge, a).change.Insert? ==> DeliveryOf(s).scan.None?)
    && (a.Step? && a.task in s.bridge.tasks ==>
          && (s.bridge.tasks[a.task].Sending? ==> a.input == BridgeRuns.Failure)
          && (s.bridge.tasks[a.task].Delivering? ==> a.input == BridgeRuns.Failure))
  }

  function TaskOf(s: State, a: BridgeRuns.Action): Option<Task> {
    if a.Step? then BridgeRuns.TaskAt(s.bridge, a.task) else None
  }

  /** What a step of the bridge means on the delivery side. */
  function Accompanying(env: Environment, s: State, a: BridgeRuns.Action): seq<M.Action> {
    var e := BridgeRuns.EffectOf(env, s.bridge, a);
    match e.change
    case Insert(account) => [M.AddPending(account)]
    case Erase(account) => [M.RemovePending(account)]
    case _ =>
      match TaskOf(s, a)
      case None => []
      case Some(task) =>
        if task.TakingObserver? && e.next.Some? then [M.StartLoop(task.account)]
        else if IsSender(task) && e.next.None? && a.task in s.loops then [M.EndLoop(s.loops[a.task])]
        else []
  }

  /** The queue accepts the message of the task's loop. */
  ghost predicate IsAccepted(s: State, t: TaskId, hash: Hash, expireAt: U32)
    requires t in s.bridge.tasks
  {
    Added(DeliveryOf(s).q, MessageId(s.bridge.tasks[t].account, hash), expireAt).1.Ok?
  }

  /** The answer that the loop of the task waits for has come. */
  ghost predicate HasAnswer(s: State, t: TaskId) {
    && t in s.loops && s.loops[t] in DeliveryOf(s).loops
    && DeliveryOf(s).loops[s.loops[t]].waiting.Some?
    && DeliveryOf(s).loops[s.loops[t]].waiting.value in DeliveryOf(s).q.answers
  }

  ghost function AnswerOf(s: State, t: TaskId): MessageStatus
    requires HasAnswer(s, t)
  {
    DeliveryOf(s).q.answers[DeliveryOf(s).loops[s.loops[t]].waiting.value]
  }

  function Stepped(env: Environment, s: State, t: TaskId, input: BridgeRuns.Input): BridgeRuns.State {
    BridgeRuns.AfterAction(env, s.bridge, BridgeRuns.Step(t, input))
  }

  ghost function AfterAction(env: Environment, s: State, a: Action): State {
    match a
    case OnDelivery(d) => if IsEnvironment(d) then s.(delivery := s.delivery + [d]) else s
    case OnBridge(b) =>
      if !IsEnabled(env, s, b) then s
      else
        State(BridgeRuns.AfterAction(env, s.bridge, b), s.delivery + Accompanying(env, s, b),
              if TaskOf(s, b).Some? && TaskOf(s, b).value.TakingObserver?
              then s.loops[b.task := DeliveryOf(s).nextLoop] else s.loops)
    case Broadcast(t, hash, expireAt) =>
      if t in s.bridge.tasks && s.bridge.tasks[t].Sending? && t in s.loops then
        var input := if IsAccepted(s, t, hash, expireAt) then BridgeRuns.Proceed else BridgeRuns.Failure;
        State(Stepped(env, s, t, input), s.delivery + [M.Send(s.loops[t], hash, expireAt)], s.loops)
      else s
    case Wake(t) =>
      if t in s.bridge.tasks && s.bridge.tasks[t].Delivering? && HasAnswer(s, t) then
        var input := if AnswerOf(s, t) == Delivered then BridgeRuns.Delivered else BridgeRuns.Expired;
        State(Stepped(env, s, t, input), s.delivery + [M.Resume(s.loops[t])], s.loops)
      else s
  }

  ghost function Run(env: Environment, actions: seq<Action>): State {
    if actions == [] then State(BridgeRuns.Begun(env), [], map[])
    else AfterAction(env, Run(env, actions[..|actions| - 1]), actions[|actions| - 1])
  }

  /** A message that the queue takes is on its way, and its task waits for the answer; otherwise
      the task ends. */
  lemma BroadcastOutcome(env: Environment, s: State, t: TaskId, hash: Hash, expireAt: U32)
    requires t in s.bridge.tasks && s.bridge.tasks[t].Sending? && t in s.loops
    ensures var s', task := AfterAction(env, s, Broadcast(t, hash, expireAt)), s.bridge.tasks[t];
            && s'.delivery == s.delivery + [M.Send(s.loops[t], hash, expireAt)]
            && BridgeRuns.TaskAt(s'.bridge, t)
               == if MessageId(task.account, hash) in DeliveryOf(s).q.entries then None
                  else Some(BridgeRuns.Delivering(task.account, task.ballot))
  {
    BridgeOutcomes.StepNext(env, s.bridge, t, BridgeRuns.Proceed);
    BridgeOutcomes.StepNext(env, s.bridge, t, BridgeRuns.Failure);
  }

  /** A task whose message is answered ends with the delivered one, and checks again after an
      expired one. */
  lemma WakeOutcome(env: Environment, s: State, t: TaskId)
    requires t in s.bridge.tasks && s.bridge.tasks[t].Delivering? && HasAnswer(s, t)
    ensures var s', task := AfterAction(env, s, Wake(t)), s.bridge.tasks[t];
            && s'.delivery == s.delivery + [M.Resume(s.loops[t])]
            && BridgeRuns.TaskAt(s'.bridge, t)
               == match AnswerOf(s, t)
                  case Delivered => None
                  case Expired => Some(BridgeRuns.Checking(task.account, task.ballot))
  {
    BridgeOutcomes.StepNext(env, s.bridge, t, BridgeRuns.Delivered);
    BridgeOutcomes.StepNext(env, s.bridge, t, BridgeRuns.Expired);
  }

  // ---------------------------------------------------------------------------
  // Both sides agree
  // ---------------------------------------------------------------------------

  /** The loop of the task is there, for its account, and waits while the task does. */
  ghost predicate IsServed(d: M.State, loops: map<TaskId, M.LoopId>, t: TaskId, task: Task) {
    && t in loops && loops[t] in d.loops && loops[t] < d.nextLoop
    && d.loops[loops[t]].account == task.account
    && (d.loops[loops[t]].waiting.Some? <==> task.Delivering?)
  }

  ghost predicate IsSenderAt(s: State, t: TaskId) {
    t in s.bridge.tasks && IsSender(s.bridge.tasks[t])
  }

  ghost predicate SendersServed(s: State) {
    forall t :: IsSenderAt(s, t) ==> IsServed(DeliveryOf(s), s.loops, t, s.bridge.tasks[t])
  }

  /** Each sender has a loop of its own. */
  ghost predicate LoopsApart(s: State) {
    forall t, u :: IsSenderAt(s, t) && IsSenderAt(s, u) && t in s.loops && u in s.loops && s.loops[t] == s.loops[u]
      ==> t == u
  }

  ghost predicate PendingAgree(s: State) {
    s.bridge.shared.events.pending.Keys == DeliveryOf(s).pending.Keys
  }

  ghost predicate Inv(s: State) {
    BridgeRuns.TasksNumbered(s.bridge) && SendersServed(s) && LoopsApart(s) && PendingAgree(s)
  }

  lemma DeliveryActs(delivery: seq<M.Action>, a: M.Action)
    ensures M.Run(delivery + [a]) == M.AfterAction(M.Run(delivery), a)
  {
    assert (delivery + [a])[..|delivery|] == delivery;
  }

  /** Loops other than `l` stay as they are. */
  ghost predicate OthersKept(d: M.State, d': M.State, l: M.LoopId) {
    && d.nextLoop <= d'.nextLoop
    && (forall m :: m != l && m in d.loops ==> m in d'.loops && d'.loops[m] == d.loops[m])
  }

  /** A step of the bridge moves one task; new tasks do not send. */
  ghost predicate OthersUnmoved(b: BridgeRuns.State, b': BridgeRuns.State, actor: TaskId) {
    forall t :: t != actor && t in b'.tasks ==>
      (t in b.tasks && b'.tasks[t] == b.tasks[t]) || !IsSender(b'.tasks[t])
  }

  ghost predicate OtherLoops(s: State, s': State, actor: TaskId, l: M.LoopId) {
    forall t :: t != actor && IsSenderAt(s, t) ==>
      t in s.loops && t in s'.loops && s'.loops[t] == s.loops[t] && s.loops[t] != l
  }

  ghost predicate ActorServed(s': State, actor: TaskId, l: M.LoopId) {
    IsSenderAt(s', actor) ==>
      IsServed(DeliveryOf(s'), s'.loops, actor, s'.bridge.tasks[actor]) && s'.loops[actor] == l
  }

  /** What keeps the invariant: the actor and its loop move, and nobody else. */
  lemma InvKept(s: State, s': State, actor: TaskId, l: M.LoopId)
    requires Inv(s) && BridgeRuns.TasksNumbered(s'.bridge) && PendingAgree(s')
    requires OthersKept(DeliveryOf(s), DeliveryOf(s'), l)
    requires OthersUnmoved(s.bridge, s'.bridge, actor) && OtherLoops(s, s', actor, l) && ActorServed(s', actor, l)
    ensures Inv(s')
  {
    forall t | IsSenderAt(s', t) ensures IsServed(DeliveryOf(s'), s'.loops, t, s'.bridge.tasks[t]) {
      if t != actor {
        assert IsSenderAt(s, t) && IsServed(DeliveryOf(s), s.loops, t, s.bridge.tasks[t]);
      }
    }
    forall t, u | IsSenderAt(s', t) && IsSenderAt(s', u) && t in s'.loops && u in s'.loops && s'.loops[t] == s'.loops[u]
      ensures t == u
    {
      assert t != actor ==> IsSenderAt(s, t);
      assert u != actor ==> IsSenderAt(s, u);
    }
  }

  lemma BridgeMoves(env: Environment, b: BridgeRuns.State, a: BridgeRuns.Action, actor: TaskId)
    requires BridgeRuns.TasksNumbered(b) && (a.Step? ==> actor == a.task)
    ensures OthersUnmoved(b, BridgeRuns.AfterAction(env, b, a), actor)
    ensures BridgeRuns.TasksNumbered(BridgeRuns.AfterAction(env, b, a))
  {
    var b' := BridgeRuns.AfterAction(env, b, a);
    BridgeRuns.EffectPossible(env, b, a);
    BridgeRuns.AppliedNumbered(b, BridgeRuns.TaskOf(b, a), BridgeRuns.EffectOf(env, b, a));
    forall t | t != actor && t in b'.tasks
      ensures (t in b.tasks && b'.tasks[t] == b.tasks[t]) || !IsSender(b'.tasks[t])
    {
      BridgeRuns.OthersUnmoved(env, b, a, t);
    }
  }

  lemma PendingAfter(env: Environment, b: BridgeRuns.State, a: BridgeRuns.Action)
    ensures BridgeRuns.Possible(b.shared, BridgeRuns.EffectOf(env, b, a).change)
    ensures var c := BridgeRuns.EffectOf(env, b, a).change;
            var pending, pending' := b.shared.events.pending, BridgeRuns.AfterAction(env, b, a).shared.events.pending;
            && (c.Insert? ==> c.account !in pending && pending'.Keys == pending.Keys + {c.account})
            && (c.Erase? ==> pending'.Keys == pending.Keys - {c.account})
            && (!c.Insert? && !c.Erase? ==> pending'.Keys == pending.Keys)
  {
    BridgeRuns.EffectPossible(env, b, a);
    var e := BridgeRuns.EffectOf(env, b, a);
    assert BridgeRuns.AfterAction(env, b, a).shared
        == BridgeRuns.AfterChange(b.shared, BridgeRuns.TaskOf(b, a), e.change);
    ChangeKeepsKeys(b.shared, BridgeRuns.TaskOf(b, a), e.change);
  }

  lemma ChangeKeepsKeys(s: BridgeRuns.Shared, t: TaskId, c: BridgeRuns.Change)
    requires BridgeRuns.Possible(s, c)
    ensures var pending' := BridgeRuns.AfterChange(s, t, c).events.pending;
            && (c.Insert? ==> pending'.Keys == s.events.pending.Keys + {c.account})
            && (c.Erase? ==> pending'.Keys == s.events.pending.Keys - {c.account})
            && (!c.Insert? && !c.Erase? ==> pending'.Keys == s.events.pending.Keys)
  {
    match c
    case Start(account) =>
      assert BridgeRuns.AfterChange(s, t, c).events.pending.Keys == s.events.pending.Keys + {account};
    case _ =>
  }

  // ---------------------------------------------------------------------------
  // Steps
  // ---------------------------------------------------------------------------

  lemma EnvironmentStep(env: Environment, s: State, d: M.Action)
    requires Inv(s)
    ensures Inv(AfterAction(env, s, OnDelivery(d)))
  {
    if IsEnvironment(d) {
      DeliveryActs(s.delivery, d);
      EnvironmentKeepsLoops(DeliveryOf(s), d);
    }
  }

  lemma EnvironmentKeepsLoops(d: M.State, a: M.Action)
    requires IsEnvironment(a)
    ensures M.AfterAction(d, a).loops == d.loops && M.AfterAction(d, a).nextLoop == d.nextLoop
    ensures M.AfterAction(d, a).pending == d.pending
  {
  }

  lemma BroadcastStep(env: Environment, s: State, t: TaskId, hash: Hash, expireAt: U32)
    requires Inv(s)
    ensures Inv(AfterAction(env, s, Broadcast(t, hash, expireAt)))
  {
    var s' := AfterAction(env, s, Broadcast(t, hash, expireAt));
    if t in s.bridge.tasks && s.bridge.tasks[t].Sending? && t in s.loops {
      var l, d := s.loops[t], DeliveryOf(s);
      assert IsSenderAt(s, t) && IsServed(d, s.loops, t, s.bridge.tasks[t]);
      var input := if IsAccepted(s, t, hash, expireAt) then BridgeRuns.Proceed else BridgeRuns.Failure;
      var a := BridgeRuns.Step(t, input);
      DeliveryActs(s.delivery, M.Send(l, hash, expireAt));
      BridgeMoves(env, s.bridge, a, t);
      PendingAfter(env, s.bridge, a);
      SendMoves(d, l, hash, expireAt);
      SendingLeadsTo(env, s.bridge, t, input);
      InvKept(s, s', t, l);
    }
  }

  lemma SendMoves(d: M.State, l: M.LoopId, hash: Hash, expireAt: U32)
    requires l in d.loops && d.loops[l].waiting.None?
    ensures var d' := M.AfterAction(d, M.Send(l, hash, expireAt));
            && OthersKept(d, d', l) && d'.pending == d.pending && d'.nextLoop == d.nextLoop
            && (Added(d.q, MessageId(d.loops[l].account, hash), expireAt).1.Ok? ==>
                  l in d'.loops && d'.loops[l].account == d.loops[l].account && d'.loops[l].waiting.Some?)
  {
  }

  lemma SendingLeadsTo(env: Environment, b: BridgeRuns.State, t: TaskId, input: BridgeRuns.Input)
    requires t in b.tasks && b.tasks[t].Sending?
    ensures BridgeRuns.EffectOf(env, b, BridgeRuns.Step(t, input)).change == BridgeRuns.Nothing
    ensures BridgeRuns.TaskAt(BridgeRuns.AfterAction(env, b, BridgeRuns.Step(t, input)), t)
         == if input == BridgeRuns.Failure then None
            else Some(BridgeRuns.Delivering(b.tasks[t].account, b.tasks[t].ballot))
  {
    BridgeRuns.EffectPossible(env, b, BridgeRuns.Step(t, input));
    BridgeRuns.AppliedAt(b, t, BridgeRuns.EffectOf(env, b, BridgeRuns.Step(t, input)));
  }

  lemma WakeStep(env: Environment, s: State, t: TaskId)
    requires Inv(s)
    ensures Inv(AfterAction(env, s, Wake(t)))
  {
    var s' := AfterAction(env, s, Wake(t));
    if t in s.bridge.tasks && s.bridge.tasks[t].Delivering? && HasAnswer(s, t) {
      var l, d := s.loops[t], DeliveryOf(s);
      assert IsSenderAt(s, t) && IsServed(d, s.loops, t, s.bridge.tasks[t]);
      var input := if AnswerOf(s, t) == Delivered then BridgeRuns.Delivered else BridgeRuns.Expired;
      var a := BridgeRuns.Step(t, input);
      DeliveryActs(s.delivery, M.Resume(l));
      BridgeMoves(env, s.bridge, a, t);
      PendingAfter(env, s.bridge, a);
      ResumeMoves(d, l);
      DeliveringLeadsTo(env, s.bridge, t, input);
      InvKept(s, s', t, l);
    }
  }

  lemma ResumeMoves(d: M.State, l: M.LoopId)
    requires l in d.loops && d.loops[l].waiting.Some? && d.loops[l].waiting.value in d.q.answers
    ensures var d' := M.AfterAction(d, M.Resume(l));
            && OthersKept(d, d', l) && d'.pending == d.pending && d'.nextLoop == d.nextLoop
            && (d.q.answers[d.loops[l].waiting.value] == Expired ==>
                  l in d'.loops && d'.loops[l].account == d.loops[l].account && d'.loops[l].waiting.None?)
  {
  }

  lemma DeliveringLeadsTo(env: Environment, b: BridgeRuns.State, t: TaskId, input: BridgeRuns.Input)
    requires t in b.tasks && b.tasks[t].Delivering?
    requires input == BridgeRuns.Delivered || input == BridgeRuns.Expired || input == BridgeRuns.Failure
    ensures BridgeRuns.EffectOf(env, b, BridgeRuns.Step(t, input)).change == BridgeRuns.Nothing
    ensures BridgeRuns.TaskAt(BridgeRuns.AfterAction(env, b, BridgeRuns.Step(t, input)), t)
         == if input == BridgeRuns.Expired then Some(BridgeRuns.Checking(b.tasks[t].account, b.tasks[t].ballot))
            else None
  {
    BridgeRuns.EffectPossible(env, b, BridgeRuns.Step(t, input));
    BridgeRuns.AppliedAt(b, t, BridgeRuns.EffectOf(env, b, BridgeRuns.Step(t, input)));
  }

  /** The task that an action of the bridge is about. */
  function ActorOf(s: State, b: BridgeRuns.Action): TaskId {
    BridgeRuns.TaskOf(s.bridge, b)
  }

  lemma ActorAfter(env: Environment, s: State, b: BridgeRuns.Action)
    ensures BridgeRuns.TaskAt(BridgeRuns.AfterAction(env, s.bridge, b), ActorOf(s, b))
         == BridgeRuns.EffectOf(env, s.bridge, b).next
  {
    BridgeRuns.EffectPossible(env, s.bridge, b);
    BridgeRuns.AppliedAt(s.bridge, ActorOf(s, b), BridgeRuns.EffectOf(env, s.bridge, b));
  }

  /** Only a task that takes the observer, or sends already, sends afterwards. */
  lemma OthersDoNotSend(env: Environment, s: State, b: BridgeRuns.Action)
    requires TaskOf(s, b).None? || (!TaskOf(s, b).value.TakingObserver? && !IsSender(TaskOf(s, b).value))
    ensures var next := BridgeRuns.EffectOf(env, s.bridge, b).next; next.Some? ==> !IsSender(next.value)
  {
  }

  /** Changing the pending events takes a task that neither takes the observer nor sends. */
  lemma PendingChangers(env: Environment, s: State, b: BridgeRuns.Action)
    requires TaskOf(s, b).Some? && (TaskOf(s, b).value.TakingObserver? || IsSender(TaskOf(s, b).value))
    ensures BridgeRuns.EffectOf(env, s.bridge, b).change == BridgeRuns.Nothing
  {
  }

  lemma FreshLoop(s: State, s': State, actor: TaskId)
    requires Inv(s) && forall t :: t != actor && t in s.loops ==> t in s'.loops && s'.loops[t] == s.loops[t]
    ensures OtherLoops(s, s', actor, DeliveryOf(s).nextLoop)
  {
    forall t | t != actor && IsSenderAt(s, t)
      ensures t in s.loops && t in s'.loops && s'.loops[t] == s.loops[t] && s.loops[t] != DeliveryOf(s).nextLoop
    {
      assert IsServed(DeliveryOf(s), s.loops, t, s.bridge.tasks[t]);
    }
  }

  /** Events come and go. */
  lemma PendingStep(env: Environment, s: State, b: BridgeRuns.Action)
    requires Inv(s) && IsEnabled(env, s, b)
    requires var c := BridgeRuns.EffectOf(env, s.bridge, b).change; c.Insert? || c.Erase?
    ensures Inv(AfterAction(env, s, OnBridge(b)))
  {
    var s', e, d := AfterAction(env, s, OnBridge(b)), BridgeRuns.EffectOf(env, s.bridge, b), DeliveryOf(s);
    if TaskOf(s, b).Some? && (TaskOf(s, b).value.TakingObserver? || IsSender(TaskOf(s, b).value)) {
      PendingChangers(env, s, b);
    }
    BridgeMoves(env, s.bridge, b, ActorOf(s, b));
    PendingAfter(env, s.bridge, b);
    ActorAfter(env, s, b);
    OthersDoNotSend(env, s, b);
    var x := if e.change.Insert? then M.AddPending(e.change.account) else M.RemovePending(e.change.account);
    DeliveryActs(s.delivery, x);
    PendingMoves(d, x);
    FreshLoop(s, s', ActorOf(s, b));
    InvKept(s, s', ActorOf(s, b), d.nextLoop);
  }

  lemma PendingMoves(d: M.State, x: M.Action)
    requires x.RemovePending? || (x.AddPending? && d.scan.None?)
    ensures M.AfterAction(d, x).loops == d.loops && M.AfterAction(d, x).nextLoop == d.nextLoop
    ensures M.AfterAction(d, x).pending.Keys
         == if x.AddPending? then d.pending.Keys + {x.account} else d.pending.Keys - {x.account}
  {
  }

  /** The observer of a pending event starts a loop. */
  lemma ObserverTaken(env: Environment, s: State, b: BridgeRuns.Action)
    requires Inv(s) && IsEnabled(env, s, b) && TaskOf(s, b).Some? && TaskOf(s, b).value.TakingObserver?
    requires TaskOf(s, b).value.account in s.bridge.shared.events.pending
    ensures Inv(AfterAction(env, s, OnBridge(b)))
  {
    var s', d := AfterAction(env, s, OnBridge(b)), DeliveryOf(s);
    var account := TaskOf(s, b).value.account;
    BridgeMoves(env, s.bridge, b, b.task);
    PendingAfter(env, s.bridge, b);
    PendingChangers(env, s, b);
    ActorAfter(env, s, b);
    DeliveryActs(s.delivery, M.StartLoop(account));
    assert account in d.pending.Keys;
    LoopStarts(d, account);
    FreshLoop(s, s', b.task);
    InvKept(s, s', b.task, d.nextLoop);
  }

  lemma ObserverGone(env: Environment, s: State, b: BridgeRuns.Action)
    requires Inv(s) && IsEnabled(env, s, b) && TaskOf(s, b).Some? && TaskOf(s, b).value.TakingObserver?
    requires TaskOf(s, b).value.account !in s.bridge.shared.events.pending
    ensures Inv(AfterAction(env, s, OnBridge(b)))
  {
    var s' := AfterAction(env, s, OnBridge(b));
    BridgeMoves(env, s.bridge, b, b.task);
    PendingAfter(env, s.bridge, b);
    PendingChangers(env, s, b);
    ActorAfter(env, s, b);
    assert s'.delivery == s.delivery;
    FreshLoop(s, s', b.task);
    InvKept(s, s', b.task, DeliveryOf(s).nextLoop);
  }

  lemma LoopStarts(d: M.State, account: Account)
    requires account in d.pending
    ensures var d' := M.AfterAction(d, M.StartLoop(account));
            && OthersKept(d, d', d.nextLoop) && d'.pending == d.pending && d'.nextLoop == d.nextLoop + 1
            && d.nextLoop in d'.loops
            && d'.loops[d.nextLoop].account == account && d'.loops[d.nextLoop].waiting.None?
  {
  }

  lemma SenderLeadsTo(env: Environment, s: State, b: BridgeRuns.Action)
    requires IsEnabled(env, s, b) && TaskOf(s, b).Some? && IsSender(TaskOf(s, b).value)
    ensures var task, e := TaskOf(s, b).value, BridgeRuns.EffectOf(env, s.bridge, b);
            && e.change == BridgeRuns.Nothing
            && (e.next.Some? ==> task.Checking? && e.next.value == BridgeRuns.Sending(task.account, task.ballot))
  {
  }

  lemma LoopEnds(d: M.State, l: M.LoopId)
    ensures var d' := M.AfterAction(d, M.EndLoop(l));
            OthersKept(d, d', l) && d'.pending == d.pending && d'.nextLoop == d.nextLoop
  {
  }

  /** A loop ends with its task. */
  lemma SenderEnds(env: Environment, s: State, b: BridgeRuns.Action)
    requires Inv(s) && IsEnabled(env, s, b) && TaskOf(s, b).Some? && IsSender(TaskOf(s, b).value)
    requires BridgeRuns.EffectOf(env, s.bridge, b).next.None? && b.task in s.loops
    ensures Inv(AfterAction(env, s, OnBridge(b)))
  {
    var s', d, l := AfterAction(env, s, OnBridge(b)), DeliveryOf(s), s.loops[b.task];
    SenderLeadsTo(env, s, b);
    BridgeMoves(env, s.bridge, b, b.task);
    PendingAfter(env, s.bridge, b);
    ActorAfter(env, s, b);
    DeliveryActs(s.delivery, M.EndLoop(l));
    LoopEnds(d, l);
    OwnLoop(s, s', b.task);
    InvKept(s, s', b.task, l);
  }

  /** A check that finds the event pending. */
  lemma SenderGoesOn(env: Environment, s: State, b: BridgeRuns.Action)
    requires Inv(s) && IsEnabled(env, s, b) && TaskOf(s, b).Some? && IsSender(TaskOf(s, b).value)
    requires BridgeRuns.EffectOf(env, s.bridge, b).next.Some? && b.task in s.loops
    ensures Inv(AfterAction(env, s, OnBridge(b)))
  {
    var s' := AfterAction(env, s, OnBridge(b));
    SenderLeadsTo(env, s, b);
    BridgeMoves(env, s.bridge, b, b.task);
    PendingAfter(env, s.bridge, b);
    ActorAfter(env, s, b);
    assert s'.delivery == s.delivery && s'.loops == s.loops;
    assert IsSenderAt(s, b.task) && IsServed(DeliveryOf(s), s.loops, b.task, s.bridge.tasks[b.task]);
    OwnLoop(s, s', b.task);
    InvKept(s, s', b.task, s.loops[b.task]);
  }

  lemma SenderStep(env: Environment, s: State, b: BridgeRuns.Action)
    requires Inv(s) && IsEnabled(env, s, b) && TaskOf(s, b).Some? && IsSender(TaskOf(s, b).value)
    ensures Inv(AfterAction(env, s, OnBridge(b)))
  {
    assert IsSenderAt(s, b.task) && IsServed(DeliveryOf(s), s.loops, b.task, s.bridge.tasks[b.task]);
    if BridgeRuns.EffectOf(env, s.bridge, b).next.None? {
      SenderEnds(env, s, b);
    } else {
      SenderGoesOn(env, s, b);
    }
  }

  lemma OwnLoop(s: State, s': State, t: TaskId)
    requires Inv(s) && IsSenderAt(s, t) && t in s.loops && s'.loops == s.loops
    ensures OtherLoops(s, s', t, s.loops[t])
  {
    forall u | u != t && IsSenderAt(s, u) ensures u in s.loops && s.loops[u] != s.loops[t] {
      assert IsServed(DeliveryOf(s), s.loops, u, s.bridge.tasks[u]);
    }
  }

  /** Everything else is the bridge's own business. */
  lemma InnerStep(env: Environment, s: State, b: BridgeRuns.Action)
    requires Inv(s) && IsEnabled(env, s, b)
    requires TaskOf(s, b).None? || (!TaskOf(s, b).value.TakingObserver? && !IsSender(TaskOf(s, b).value))
    requires var c := BridgeRuns.EffectOf(env, s.bridge, b).change; !c.Insert? && !c.Erase?
    ensures Inv(AfterAction(env, s, OnBridge(b)))
  {
    var s', d := AfterAction(env, s, OnBridge(b)), DeliveryOf(s);
    BridgeMoves(env, s.bridge, b, ActorOf(s, b));
    PendingAfter(env, s.bridge, b);
    ActorAfter(env, s, b);
    OthersDoNotSend(env, s, b);
    assert s'.delivery == s.delivery && s'.loops == s.loops;
    FreshLoop(s, s', ActorOf(s, b));
    InvKept(s, s', ActorOf(s, b), d.nextLoop);
  }

  lemma StepKeepsInv(env: Environment, s: State, a: Action)
    requires Inv(s)
    ensures Inv(AfterAction(env, s, a))
  {
    match a
    case OnDelivery(d) => EnvironmentStep(env, s, d);
    case Broadcast(t, hash, expireAt) => BroadcastStep(env, s, t, hash, expireAt);
    case Wake(t) => WakeStep(env, s, t);
    case OnBridge(b) =>
      if IsEnabled(env, s, b) {
        var c := BridgeRuns.EffectOf(env, s.bridge, b).change;
        if c.Insert? || c.Erase? {
          PendingStep(env, s, b);
        } else if TaskOf(s, b).Some? && TaskOf(s, b).value.TakingObserver? {
          if TaskOf(s, b).value.account in s.bridge.shared.events.pending {
            ObserverTaken(env, s, b);
          } else {
            ObserverGone(env, s, b);
          }
        } else if TaskOf(s, b).Some? && IsSender(TaskOf(s, b).value) {
          SenderStep(env, s, b);
        } else {
          InnerStep(env, s, b);
        }
      }
  }

  lemma {:induction false} RunKeepsInv(env: Environment, actions: seq<Action>)
    ensures Inv(Run(env, actions))
  {
    if actions != [] {
      RunKeepsInv(env, actions[..|actions| - 1]);
      StepKeepsInv(env, Run(env, actions[..|actions| - 1]), actions[|actions| - 1]);
    }
  }

  /** The bridge side of a joint run is a bridge run, so all that holds of those holds here. */
  lemma {:induction false} BridgeSideIsRun(env: Environment, actions: seq<Action>) returns (b: seq<BridgeRuns.Action>)
    ensures Run(env, actions).bridge == BridgeRuns.Run(env, b)
  {
    if actions == [] {
      b := [];
    } else {
      var front := BridgeSideIsRun(env, actions[..|actions| - 1]);
      var more := BridgeSideMoves(env, Run(env, actions[..|actions| - 1]), actions[|actions| - 1]);
      b := front + more;
      if more == [] {
        assert b == front;
      } else {
        assert b[..|front|] == front;
      }
    }
  }

  lemma BridgeSideMoves(env: Environment, s: State, a: Action) returns (more: seq<BridgeRuns.Action>)
    ensures |more| <= 1
    ensures AfterAction(env, s, a).bridge
         == if more == [] then s.bridge else BridgeRuns.AfterAction(env, s.bridge, more[0])
  {
    more := [];
    match a
    case OnDelivery(_) =>
    case OnBridge(b) =>
      if IsEnabled(env, s, b) {
        more := [b];
      }
    case Broadcast(t, hash, expireAt) =>
      if t in s.bridge.tasks && s.bridge.tasks[t].Sending? && t in s.loops {
        var input := if IsAccepted(s, t, hash, expireAt) then BridgeRuns.Proceed else BridgeRuns.Failure;
        more := [BridgeRuns.Step(t, input)];
      }
    case Wake(t) =>
      if t in s.bridge.tasks && s.bridge.tasks[t].Delivering? && HasAnswer(s, t) {
        var input := if AnswerOf(s, t) == Delivered then BridgeRuns.Delivered else BridgeRuns.Expired;
        more := [BridgeRuns.Step(t, input)];
      }
  }

  // ---------------------------------------------------------------------------
  // Votes are resent only after a genuine expiry
  // ---------------------------------------------------------------------------

  /** The step takes a voting task from its sent message back to the next check. */
  ghost predicate Resends(env: Environment, s: State, a: Action, t: TaskId) {
    && t in s.bridge.tasks && s.bridge.tasks[t].Delivering?
    && t in AfterAction(env, s, a).bridge.tasks && AfterAction(env, s, a).bridge.tasks[t].Checking?
  }

  lemma OnlyWakeResends(env: Environment, s: State, a: Action, t: TaskId)
    requires Inv(s) && Resends(env, s, a, t)
    ensures a == Wake(t) && HasAnswer(s, t) && AnswerOf(s, t) == Expired
  {
    match a
    case OnDelivery(_) =>
    case OnBridge(b) =>
      if IsEnabled(env, s, b) {
        BridgeStaysDelivering(env, s, b, t);
      }
    case Broadcast(u, hash, expireAt) =>
      if u in s.bridge.tasks && s.bridge.tasks[u].Sending? && u in s.loops {
        var input := if IsAccepted(s, u, hash, expireAt) then BridgeRuns.Proceed else BridgeRuns.Failure;
        TasksUntouched(env, s, BridgeRuns.Step(u, input), t);
      }
    case Wake(u) =>
      if u in s.bridge.tasks && s.bridge.tasks[u].Delivering? && HasAnswer(s, u) {
        var input := if AnswerOf(s, u) == Delivered then BridgeRuns.Delivered else BridgeRuns.Expired;
        if u != t {
          TasksUntouched(env, s, BridgeRuns.Step(u, input), t);
        } else {
          DeliveringLeadsTo(env, s.bridge, t, input);
        }
      }
  }

  lemma TasksUntouched(env: Environment, s: State, b: BridgeRuns.Action, t: TaskId)
    requires BridgeRuns.TasksNumbered(s.bridge) && t in s.bridge.tasks && ActorOf(s, b) != t
    ensures var b' := BridgeRuns.AfterAction(env, s.bridge, b); t in b'.tasks && b'.tasks[t] == s.bridge.tasks[t]
  {
    BridgeRuns.EffectPossible(env, s.bridge, b);
  }

  lemma BridgeStaysDelivering(env: Environment, s: State, b: BridgeRuns.Action, t: TaskId)
    requires Inv(s) && IsEnabled(env, s, b) && t in s.bridge.tasks && s.bridge.tasks[t].Delivering?
    ensures var b' := BridgeRuns.AfterAction(env, s.bridge, b); t in b'.tasks ==> !b'.tasks[t].Checking?
  {
    if ActorOf(s, b) != t {
      TasksUntouched(env, s, b, t);
    } else {
      DeliveringLeadsTo(env, s.bridge, t, BridgeRuns.Failure);
    }
  }

  /** No scan that got to the account while the loop was waiting met the message. */
  ghost predicate NotMet(delivery: seq<M.Action>, l: M.LoopId, ticket: Ticket) {
    forall j, id :: 0 <= j < |delivery| && M.WaitsAtTurn(M.Run(delivery[..j]), delivery[j], l, ticket, id) ==>
      !TonSubscriber.Counted(M.Run(delivery[..j]).scan.value.block, id)
  }

  /** What a resend rests on: the task's message expired in a block of a shard of its event
      account, later than its expiry, while the loop was waiting for it; and no scan that got
      to the account while the loop was waiting met a counted transaction of the message. */
  ghost predicate ExpiredGenuinely(s: State, t: TaskId, ticket: Ticket, k: nat, id: MessageId) {
    && t in s.loops && t in s.bridge.tasks && id.account == s.bridge.tasks[t].account
    && M.WaitsFor(DeliveryOf(s), s.loops[t], ticket)
    && M.ExpiredAt(s.delivery, ticket, k, id) && M.Awaits(M.Run(s.delivery[..k]), s.loops[t], id)
    && NotMet(s.delivery, s.loops[t], ticket)
  }

  /** In every run of bridge and delivery a voting task resends only after a genuine expiry. */
  lemma VoteResentAfterExpiry(env: Environment, actions: seq<Action>, a: Action, t: TaskId)
    returns (ticket: Ticket, k: nat, id: MessageId)
    requires Resends(env, Run(env, actions), a, t)
    ensures ExpiredGenuinely(Run(env, actions), t, ticket, k, id)
  {
    var s := Run(env, actions);
    RunKeepsInv(env, actions);
    OnlyWakeResends(env, s, a, t);
    assert IsSenderAt(s, t) && IsServed(DeliveryOf(s), s.loops, t, s.bridge.tasks[t]);
    ticket := DeliveryOf(s).loops[s.loops[t]].waiting.value;
    k, id := M.ExpiryOfAwaited(s.delivery, s.loops[t], ticket);
    M.ResendIsSafe(s.delivery, s.loops[t], ticket);
  }
}
