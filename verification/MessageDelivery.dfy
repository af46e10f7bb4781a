/**
 Message delivery over whole runs: the queue, the shard blocks and the resend loop
 together (src/engine/mod.rs, src/engine/ton_subscriber/mod.rs,
 src/utils/pending_messages_queue.rs).

 A run interleaves new and removed pending events, resend loops, and shard blocks. A block
 is cut into the turns of its scan, in any order of accounts, and the later expiry pass;
 everything else may happen in between, except what needs the subscriptions lock while a
 scan holds it.
 */
module MessageDelivery {
  import opened Words
  import opened Wrappers
  import opened ShardUtils
  import opened PendingMessagesQueue
  import opened TonSubscriber

  type LoopId = nat

  /** A resend loop holds the observer it was started with for as long as it runs. */
  datatype SendLoop = SendLoop(account: Account, observer: ObserverId, waiting: Option<Ticket>)

  /** A scan in progress: accounts still to come, and the tickets given out before it. */
  datatype Scan = Scan(block: Block, todo: set<Account>, since: Ticket)

  datatype ScannedBlock = ScannedBlock(block: Block, since: Ticket)

  datatype State = State(
    q: Queue,
    subs: Subscriptions,
    pending: map<Account, ObserverId>,
    nextObserver: ObserverId,
    loops: map<LoopId, SendLoop>,
    nextLoop: LoopId,
    scan: Option<Scan>,
    scanned: seq<ScannedBlock>)

  const INITIAL: State := State(EMPTY, map[], map[], 0, map[], 0, None, [])

  datatype Action =
    | AddPending(account: Account)
    | RemovePending(account: Account)
    | AddReceiver(account: Account)
    | DropReceiver(account: Account)
    | StartLoop(account: Account)
    | Send(loop: LoopId, hash: Hash, expireAt: U32)
    | Resume(loop: LoopId)
    | EndLoop(loop: LoopId)
    | BeginScan(block: Block)
    | Turn(account: Account)
    | EndScan
    | Expire(index: nat)

  /** Observers with a strong reference: those of pending events and of running loops. */
  ghost function AliveObservers(s: State): set<ObserverId> {
    s.pending.Values + set l | l in s.loops :: s.loops[l].observer
  }

  ghost function AfterAction(s: State, a: Action): State {
    match a
    case AddPending(account) =>
      // The observer is subscribed before anybody can see the new entry.
      if account in s.pending || s.scan.Some? then s
      else s.(pending := s.pending[account := s.nextObserver],
              subs := Subscribed(s.subs, account, s.nextObserver),
              nextObserver := s.nextObserver + 1)
    case RemovePending(account) => s.(pending := s.pending - {account})
    case AddReceiver(account) =>
      if s.scan.Some? then s
      else if account in s.subs then
        s.(subs := s.subs[account := s.subs[account].(receivers := s.subs[account].receivers + 1)])
      else s.(subs := s.subs[account := StateSubscription(2, [])])
    case DropReceiver(account) =>
      if account in s.subs && s.subs[account].receivers > 1 then
        s.(subs := s.subs[account := s.subs[account].(receivers := s.subs[account].receivers - 1)])
      else s
    case StartLoop(account) =>
      if account !in s.pending then s
      else s.(loops := s.loops[s.nextLoop := SendLoop(account, s.pending[account], None)], nextLoop := s.nextLoop + 1)
    case Send(l, hash, expireAt) =>
      if l !in s.loops || s.loops[l].waiting.Some? then s
      else
        var (q, r) := Added(s.q, MessageId(s.loops[l].account, hash), expireAt);
        if r.Ok? then s.(q := q, loops := s.loops[l := s.loops[l].(waiting := Some(r.value))])
        else s.(loops := s.loops - {l})
    case Resume(l) =>
      if l !in s.loops || s.loops[l].waiting.None? || s.loops[l].waiting.value !in s.q.answers then s
      else if s.q.answers[s.loops[l].waiting.value] == Delivered then s.(loops := s.loops - {l})
      else s.(loops := s.loops[l := s.loops[l].(waiting := None)])
    case EndLoop(l) =>
      // The condition does not hold any more, or signing, queueing or broadcasting failed.
      s.(loops := s.loops - {l})
    case BeginScan(block) =>
      if s.scan.Some? then s else s.(scan := Some(Scan(block, s.subs.Keys, s.q.accepted)))
    case Turn(account) =>
      if s.scan.None? || account !in s.scan.value.todo || account !in s.subs then s
      else
        var scan := s.scan.value;
        var alive := AliveObservers(s);
        s.(q := AfterDeliveries(s.q, TurnDeliveries(s.subs[account], alive, scan.block, account)),
           subs := AfterTurn(s.subs, account, alive),
           scan := Some(scan.(todo := scan.todo - {account})))
    case EndScan =>
      if s.scan.Some? && s.scan.value.todo == {}
      then s.(scan := None, scanned := s.scanned + [ScannedBlock(s.scan.value.block, s.scan.value.since)])
      else s
    case Expire(i) =>
      if i >= |s.scanned| then s
      else s.(q := AfterFullScan(s.q, s.scanned[i].block.owns, s.scanned[i].block.utime),
              scanned := s.scanned[..i] + s.scanned[i + 1..])
  }

  ghost function Run(actions: seq<Action>): State {
    if actions == [] then INITIAL else AfterAction(Run(actions[..|actions| - 1]), actions[|actions| - 1])
  }

  // ---------------------------------------------------------------------------
  // Invariants
  // ---------------------------------------------------------------------------

  ghost predicate Observed(s: State, account: Account, observer: ObserverId) {
    account in s.subs && observer in s.subs[account].transactionSubscriptions
  }

  /** A living observer stays subscribed. */
  ghost predicate ObserversSubscribed(s: State) {
    && (forall a :: a in s.pending ==> Observed(s, a, s.pending[a]))
    && (forall l :: l in s.loops ==> Observed(s, s.loops[l].account, s.loops[l].observer))
  }

  /** The message of this id is what the loop waits for. */
  ghost predicate Awaits(s: State, l: LoopId, id: MessageId) {
    l in s.loops && id in s.q.entries && s.loops[l].waiting == Some(s.q.entries[id].tx)
  }

  ghost predicate LoopsOwnAccounts(s: State) {
    && (forall l, id :: Awaits(s, l, id) ==> id.account == s.loops[l].account)
    && (forall l :: l in s.loops && s.loops[l].waiting.Some? ==> s.loops[l].waiting.value < s.q.accepted)
    && (forall l :: l in s.loops ==> l < s.nextLoop)
  }

  /** A message that was awaited before the scan began and is counted in the block is still
      pending only while the turn of its account is to come. */
  ghost predicate ScanProgress(s: State) {
    s.scan.Some? ==>
      && s.scan.value.todo <= s.subs.Keys
      && s.scan.value.since <= s.q.accepted
      && forall l, id :: Awaits(s, l, id) && s.q.entries[id].tx < s.scan.value.since
           && s.scan.value.block.owns(id.account) && Counted(s.scan.value.block, id)
           ==> id.account in s.scan.value.todo
  }

  /** What a finished scan leaves for the expiry pass: no awaited message counted in the block. */
  ghost predicate NothingMissed(s: State, b: ScannedBlock) {
    && b.since <= s.q.accepted
    && forall l, id :: Awaits(s, l, id) && s.q.entries[id].tx < b.since && b.block.owns(id.account)
         ==> !Counted(b.block, id)
  }

  ghost predicate ScannedComplete(s: State) {
    forall i :: 0 <= i < |s.scanned| ==> NothingMissed(s, s.scanned[i])
  }

  ghost predicate Inv(s: State) {
    && SendersUnused(s.q)
    && ObserversSubscribed(s)
    && LoopsOwnAccounts(s)
    && ScanProgress(s)
    && ScannedComplete(s)
  }

  // ---------------------------------------------------------------------------
  // The queue part of a step
  // ---------------------------------------------------------------------------

  /** The queue after a step only lost entries, or gained one with a new ticket. */
  ghost predicate QueueShape(q: Queue, q': Queue) {
    && SendersUnused(q')
    && AnswersExtend(q, q')
    && (forall id :: id in q'.entries ==>
          || (id in q.entries && q'.entries[id] == q.entries[id])
          || q'.entries[id].tx == q.accepted)
  }

  lemma QueueStep(s: State, a: Action)
    requires SendersUnused(s.q)
    ensures QueueShape(s.q, AfterAction(s, a).q)
  {
    match a
    case Expire(i) =>
      if i < |s.scanned| {
        ExpiryKeepsSenders(s.q, s.scanned[i].block.owns, s.scanned[i].block.utime);
      }
    case Turn(account) =>
      if s.scan.Some? && account in s.scan.value.todo && account in s.subs {
        DeliveriesKeepSenders(s.q, TurnDeliveries(s.subs[account], AliveObservers(s), s.scan.value.block, account));
      }
    case Send(l, hash, expireAt) =>
      if l in s.loops && s.loops[l].waiting.None? {
        AdditionKeepsSenders(s.q, MessageId(s.loops[l].account, hash), expireAt);
      }
    case _ =>
      assert AfterAction(s, a).q == s.q;
  }

  /** A ticket of a message that a scan leaves is not among those it answers. */
  lemma LeftIsNotDue(entries: Entries, owns: Membership, utime: U32, id: MessageId)
    requires id in NotDue(entries, owns, utime)
    requires forall a, b :: a in entries && b in entries && entries[a].tx == entries[b].tx ==> a == b
    ensures id in entries && entries[id].tx !in DueTickets(entries, owns, utime)
  {
  }

  /** Fewer entries, none of them answered, keep their own senders. */
  lemma FewerKeepUnused(q: Queue, q': Queue)
    requires SendersUnused(q) && q'.accepted == q.accepted
    requires forall id :: id in q'.entries ==>
               id in q.entries && q'.entries[id] == q.entries[id] && q'.entries[id].tx !in q'.answers
    requires forall t :: t in q'.answers ==> t < q'.accepted
    ensures SendersUnused(q')
  {
  }

  lemma DueWereAccepted(q: Queue, owns: Membership, utime: U32, t: Ticket)
    requires SendersUnused(q) && t in AfterFullScan(q, owns, utime).answers
    ensures t < q.accepted
  {
    assert t in q.answers || t in DueTickets(q.entries, owns, utime);
  }

  lemma ExpiryKeepsSenders(q: Queue, owns: Membership, utime: U32)
    requires SendersUnused(q)
    ensures QueueShape(q, AfterFullScan(q, owns, utime))
  {
    var q' := AfterFullScan(q, owns, utime);
    ScanExpiresLate(q, owns, utime);
    forall id | id in q'.entries ensures id in q.entries && q'.entries[id].tx !in q'.answers {
      LeftIsNotDue(q.entries, owns, utime, id);
    }
    forall t | t in q'.answers ensures t < q'.accepted {
      DueWereAccepted(q, owns, utime, t);
    }
    FewerKeepUnused(q, q');
  }

  lemma DeliveriesKeepSenders(q: Queue, ids: set<MessageId>)
    requires SendersUnused(q)
    ensures QueueShape(q, AfterDeliveries(q, ids))
  {
    var q' := AfterDeliveries(q, ids);
    forall id | id in q'.entries ensures q'.entries[id].tx !in q'.answers {
      assert id in q.entries;
    }
  }

  lemma AdditionKeepsSenders(q: Queue, id: MessageId, expireAt: U32)
    requires SendersUnused(q)
    ensures QueueShape(q, Added(q, id, expireAt).0)
  {
  }

  // ---------------------------------------------------------------------------
  // Subscriptions stay
  // ---------------------------------------------------------------------------

  lemma TurnKeepsObserved(s: State, turn: Account, account: Account, observer: ObserverId)
    requires turn in s.subs && Observed(s, account, observer) && observer in AliveObservers(s)
    ensures var subs := AfterTurn(s.subs, turn, AliveObservers(s));
            account in subs && observer in subs[account].transactionSubscriptions
  {
    if account == turn {
      var living := Living(s.subs[turn].transactionSubscriptions, AliveObservers(s));
      assert observer in living;
    }
  }

  lemma TurnKeepsSubscribed(s: State, account: Account)
    requires ObserversSubscribed(s)
    requires s.scan.Some? && account in s.scan.value.todo && account in s.subs
    ensures ObserversSubscribed(AfterAction(s, Turn(account)))
  {
    var s' := AfterAction(s, Turn(account));
    forall b | b in s'.pending ensures Observed(s', b, s'.pending[b]) {
      TurnKeepsObserved(s, account, b, s.pending[b]);
    }
    forall l | l in s'.loops ensures Observed(s', s'.loops[l].account, s'.loops[l].observer) {
      TurnKeepsObserved(s, account, s.loops[l].account, s.loops[l].observer);
    }
  }

  lemma OthersKeepObserved(s: State, a: Action, account: Account, observer: ObserverId)
    requires !a.Turn? && Observed(s, account, observer)
    ensures Observed(AfterAction(s, a), account, observer)
  {
  }

  lemma AddKeepsSubscribed(s: State, account: Account)
    requires ObserversSubscribed(s)
    ensures ObserversSubscribed(AfterAction(s, AddPending(account)))
  {
    var s' := AfterAction(s, AddPending(account));
    forall b | b in s'.pending ensures Observed(s', b, s'.pending[b]) {
      if b in s.pending {
        OthersKeepObserved(s, AddPending(account), b, s.pending[b]);
      }
    }
  }

  /** Other steps add no pending event, and loops take their observer over from one. */
  lemma OthersPending(s: State, a: Action, account: Account)
    requires !a.AddPending? && account in AfterAction(s, a).pending
    ensures account in s.pending && AfterAction(s, a).pending[account] == s.pending[account]
  {
  }

  lemma OthersLoops(s: State, a: Action, l: LoopId)
    requires ObserversSubscribed(s) && l in AfterAction(s, a).loops
    ensures Observed(s, AfterAction(s, a).loops[l].account, AfterAction(s, a).loops[l].observer)
  {
    if a.StartLoop? && l !in s.loops {
      assert Observed(s, a.account, s.pending[a.account]);
    }
  }

  lemma OthersKeepSubscribed(s: State, a: Action)
    requires ObserversSubscribed(s) && !a.Turn? && !a.AddPending?
    ensures ObserversSubscribed(AfterAction(s, a))
  {
    var s' := AfterAction(s, a);
    forall b | b in s'.pending ensures Observed(s', b, s'.pending[b]) {
      OthersPending(s, a, b);
      OthersKeepObserved(s, a, b, s.pending[b]);
    }
    forall l | l in s'.loops ensures Observed(s', s'.loops[l].account, s'.loops[l].observer) {
      OthersLoops(s, a, l);
      OthersKeepObserved(s, a, s'.loops[l].account, s'.loops[l].observer);
    }
  }

  lemma StepKeepsSubscribed(s: State, a: Action)
    requires ObserversSubscribed(s)
    ensures ObserversSubscribed(AfterAction(s, a))
  {
    match a
    case Turn(account) =>
      if s.scan.Some? && account in s.scan.value.todo && account in s.subs {
        TurnKeepsSubscribed(s, account);
      }
    case AddPending(account) => AddKeepsSubscribed(s, account);
    case _ => OthersKeepSubscribed(s, a);
  }

  // ---------------------------------------------------------------------------
  // Awaited messages
  // ---------------------------------------------------------------------------

  /** A loop after a step waits for what it waited for, or for nothing, or for the message
      just added to its account. */
  ghost predicate LoopShape(s: State, s': State) {
    && s.nextLoop <= s'.nextLoop
    && forall l :: l in s'.loops ==>
         || (l in s.loops && s'.loops[l] == s.loops[l])
         || (s'.loops[l].waiting == None && l < s'.nextLoop)
         || (&& s'.loops[l].waiting == Some(s.q.accepted) && s.q.accepted < s'.q.accepted && l < s'.nextLoop
             && forall id :: id in s'.q.entries && s'.q.entries[id].tx == s.q.accepted ==>
                  id.account == s'.loops[l].account)
  }

  lemma LoopStep(s: State, a: Action)
    requires SendersUnused(s.q) && LoopsOwnAccounts(s)
    ensures LoopShape(s, AfterAction(s, a))
  {
  }

  /** A message awaited after the step was awaited before it, or is brand new. */
  lemma AwaitedBefore(s: State, s': State, l: LoopId, id: MessageId)
    requires LoopsOwnAccounts(s) && QueueShape(s.q, s'.q) && LoopShape(s, s')
    requires Awaits(s', l, id)
    ensures || (&& Awaits(s, l, id) && s.q.entries[id] == s'.q.entries[id]
                && s.loops[l].account == s'.loops[l].account)
            || (s'.q.entries[id].tx == s.q.accepted && id.account == s'.loops[l].account)
  {
  }

  lemma LoopsKept(s: State, s': State)
    requires LoopsOwnAccounts(s) && QueueShape(s.q, s'.q) && LoopShape(s, s')
    ensures LoopsOwnAccounts(s')
  {
    forall l, id | Awaits(s', l, id) ensures id.account == s'.loops[l].account {
      AwaitedBefore(s, s', l, id);
    }
  }

  // ---------------------------------------------------------------------------
  // Scans
  // ---------------------------------------------------------------------------

  /** The turn of an account delivers every counted message of it that a loop awaits. */
  lemma TurnDelivers(s: State, account: Account, l: LoopId, id: MessageId)
    requires Inv(s) && Awaits(s, l, id) && id.account == account
    requires s.scan.Some? && account in s.scan.value.todo
    requires s.scan.value.block.owns(account) && Counted(s.scan.value.block, id)
    ensures var s' := AfterAction(s, Turn(account));
            var t := s.q.entries[id].tx;
            id !in s'.q.entries && t in s'.q.answers && s'.q.answers[t] == Delivered
  {
    var alive := AliveObservers(s);
    assert s.loops[l].observer in Living(s.subs[account].transactionSubscriptions, alive);
    CountedIffDelivered(s.scan.value.block, account, id);
    var ids := TurnDeliveries(s.subs[account], alive, s.scan.value.block, account);
    assert id in ids;
    assert s.q.entries[id].tx in TicketsOf(s.q.entries, ids);
  }

  lemma StepKeepsTodo(s: State, a: Action)
    requires ScanProgress(s) && s.q.accepted <= AfterAction(s, a).q.accepted
    ensures var s' := AfterAction(s, a);
            s'.scan.Some? ==> s'.scan.value.todo <= s'.subs.Keys && s'.scan.value.since <= s'.q.accepted
  {
  }

  /** What a scan still has to do can only be done by the turn of the account. */
  lemma TodoUnlessTurn(s: State, a: Action, account: Account)
    requires s.scan.Some? && AfterAction(s, a).scan.Some?
    requires account in s.scan.value.todo && account in s.subs && a != Turn(account)
    ensures account in AfterAction(s, a).scan.value.todo
    ensures AfterAction(s, a).scan.value.block == s.scan.value.block
    ensures AfterAction(s, a).scan.value.since == s.scan.value.since
  {
  }

  /** A scan that has just begun has every subscribed account still to come. */
  lemma ScanBegins(s: State, a: Action, account: Account, observer: ObserverId)
    requires s.scan.None? && AfterAction(s, a).scan.Some? && Observed(s, account, observer)
    ensures account in AfterAction(s, a).scan.value.todo
    ensures AfterAction(s, a).scan.value.since == s.q.accepted
  {
  }

  lemma AwaitedStillToCome(s: State, a: Action, l: LoopId, id: MessageId)
    requires Inv(s) && Awaits(s, l, id) && Awaits(AfterAction(s, a), l, id)
    requires AfterAction(s, a).scan.Some?
    requires var scan := AfterAction(s, a).scan.value;
             s.q.entries[id].tx < scan.since && scan.block.owns(id.account) && Counted(scan.block, id)
    ensures id.account in AfterAction(s, a).scan.value.todo
  {
    assert id.account == s.loops[l].account;
    assert Observed(s, s.loops[l].account, s.loops[l].observer);
    if s.scan.None? {
      ScanBegins(s, a, s.loops[l].account, s.loops[l].observer);
    } else {
      ScanGoesOn(s, a);
      if a == Turn(id.account) {
        TurnDelivers(s, id.account, l, id);
      } else {
        TodoUnlessTurn(s, a, id.account);
      }
    }
  }

  lemma ScanGoesOn(s: State, a: Action)
    requires s.scan.Some? && AfterAction(s, a).scan.Some?
    ensures AfterAction(s, a).scan.value.block == s.scan.value.block
    ensures AfterAction(s, a).scan.value.since == s.scan.value.since
  {
  }

  lemma SinceIsOld(s: State, a: Action)
    requires ScanProgress(s) && AfterAction(s, a).scan.Some?
    ensures AfterAction(s, a).scan.value.since <= s.q.accepted
  {
  }

  lemma StepKeepsScan(s: State, a: Action)
    requires Inv(s)
    ensures ScanProgress(AfterAction(s, a))
  {
    var s' := AfterAction(s, a);
    QueueStep(s, a);
    LoopStep(s, a);
    StepKeepsTodo(s, a);
    if s'.scan.Some? {
      SinceIsOld(s, a);
      forall l, id | Awaits(s', l, id) && s'.q.entries[id].tx < s'.scan.value.since
                     && s'.scan.value.block.owns(id.account) && Counted(s'.scan.value.block, id)
        ensures id.account in s'.scan.value.todo
      {
        AwaitedBefore(s, s', l, id);
        AwaitedStillToCome(s, a, l, id);
      }
    }
  }

  lemma MissedKept(s: State, s': State, b: ScannedBlock)
    requires LoopsOwnAccounts(s) && QueueShape(s.q, s'.q) && LoopShape(s, s')
    requires NothingMissed(s, b)
    ensures NothingMissed(s', b)
  {
    forall l, id | Awaits(s', l, id) && s'.q.entries[id].tx < b.since && b.block.owns(id.account)
      ensures !Counted(b.block, id)
    {
      AwaitedBefore(s, s', l, id);
    }
  }

  /** A scanned block was scanned before, or its scan has just ended. */
  lemma ScannedBefore(s: State, a: Action, i: nat)
    requires i < |AfterAction(s, a).scanned|
    ensures var b := AfterAction(s, a).scanned[i];
            || b in s.scanned
            || (s.scan.Some? && s.scan.value.todo == {} && b == ScannedBlock(s.scan.value.block, s.scan.value.since))
  {
  }

  lemma ScannedKept(s: State, a: Action, i: nat)
    requires Inv(s) && i < |AfterAction(s, a).scanned|
    ensures NothingMissed(AfterAction(s, a), AfterAction(s, a).scanned[i])
  {
    var b := AfterAction(s, a).scanned[i];
    ScannedBefore(s, a, i);
    assert NothingMissed(s, b);
    QueueStep(s, a);
    LoopStep(s, a);
    MissedKept(s, AfterAction(s, a), b);
  }

  lemma StepKeepsScanned(s: State, a: Action)
    requires Inv(s)
    ensures ScannedComplete(AfterAction(s, a))
  {
    forall i | 0 <= i < |AfterAction(s, a).scanned|
      ensures NothingMissed(AfterAction(s, a), AfterAction(s, a).scanned[i])
    {
      ScannedKept(s, a, i);
    }
  }

  lemma StepKeepsInv(s: State, a: Action)
    requires Inv(s)
    ensures Inv(AfterAction(s, a))
  {
    QueueStep(s, a);
    StepKeepsSubscribed(s, a);
    LoopStep(s, a);
    LoopsKept(s, AfterAction(s, a));
    StepKeepsScan(s, a);
    StepKeepsScanned(s, a);
  }

  lemma {:induction false} RunKeepsInv(actions: seq<Action>)
    ensures Inv(Run(actions))
  {
    if actions != [] {
      RunKeepsInv(actions[..|actions| - 1]);
      StepKeepsInv(Run(actions[..|actions| - 1]), actions[|actions| - 1]);
    }
  }

  // ---------------------------------------------------------------------------
  // Theorems about runs
  // ---------------------------------------------------------------------------

  ghost predicate PendingAs(s: State, id: MessageId, t: Ticket) {
    id in s.q.entries && s.q.entries[id].tx == t
  }

  /** A scan reaches the account of the message while an observer of it lives, in a block of
      its shard that holds a counted transaction for it. */
  ghost predicate MeetsTransaction(s: State, a: Action, id: MessageId) {
    && a == Turn(id.account)
    && s.scan.Some? && id.account in s.scan.value.todo && id.account in s.subs
    && s.scan.value.block.owns(id.account) && Counted(s.scan.value.block, id)
    && exists o :: o in s.subs[id.account].transactionSubscriptions && o in AliveObservers(s)
  }

  lemma MeetingDelivers(s: State, a: Action, id: MessageId)
    requires id in s.q.entries && MeetsTransaction(s, a, id)
    ensures var t := s.q.entries[id].tx;
            t in AfterAction(s, a).q.answers && AfterAction(s, a).q.answers[t] == Delivered
  {
    var alive := AliveObservers(s);
    var o :| o in s.subs[id.account].transactionSubscriptions && o in alive;
    assert o in Living(s.subs[id.account].transactionSubscriptions, alive);
    CountedIffDelivered(s.scan.value.block, id.account, id);
    var ids := TurnDeliveries(s.subs[id.account], alive, s.scan.value.block, id.account);
    assert id in ids;
    assert s.q.entries[id].tx in TicketsOf(s.q.entries, ids);
  }

  lemma AnswerPersists(actions: seq<Action>, n: nat, t: Ticket, status: MessageStatus)
    requires n <= |actions| && IsAnswered(Run(actions[..n]).q, t, status)
    ensures IsAnswered(Run(actions).q, t, status)
  {
    AnswersPersist(actions, n);
  }

  lemma MetThen(actions: seq<Action>, j: nat, id: MessageId, t: Ticket)
    requires j < |actions| && PendingAs(Run(actions[..j]), id, t)
    requires MeetsTransaction(Run(actions[..j]), actions[j], id)
    ensures IsAnswered(Run(actions[..j + 1]).q, t, Delivered)
  {
    MeetingDelivers(Run(actions[..j]), actions[j], id);
    assert actions[..j + 1][..j] == actions[..j];
  }

  /** A message that a scan meets is answered Delivered for good. */
  lemma MeetingIsFinal(actions: seq<Action>, j: nat, id: MessageId, t: Ticket)
    requires j < |actions| && PendingAs(Run(actions[..j]), id, t)
    requires MeetsTransaction(Run(actions[..j]), actions[j], id)
    ensures IsAnswered(Run(actions).q, t, Delivered)
  {
    MetThen(actions, j, id, t);
    AnswerPersists(actions, j + 1, t, Delivered);
  }

  lemma {:induction false} AnswersPersist(actions: seq<Action>, j: nat)
    requires j <= |actions|
    ensures AnswersExtend(Run(actions[..j]).q, Run(actions).q)
    decreases |actions|
  {
    if j == |actions| {
      assert actions[..j] == actions;
    } else {
      var front := actions[..|actions| - 1];
      AnswersPersist(front, j);
      assert front[..j] == actions[..j];
      RunKeepsInv(front);
      QueueStep(Run(front), actions[|actions| - 1]);
    }
  }

  ghost predicate MetAt(actions: seq<Action>, t: Ticket, k: nat, id: MessageId) {
    && k < |actions| && PendingAs(Run(actions[..k]), id, t)
    && MeetsTransaction(Run(actions[..k]), actions[k], id)
  }

  lemma TurnDeliversOnlyMet(s: State, a: Action, t: Ticket) returns (id: MessageId)
    requires Inv(s) && t !in s.q.answers && IsAnswered(AfterAction(s, a).q, t, Delivered)
    ensures PendingAs(s, id, t) && MeetsTransaction(s, a, id)
  {
    assert a.Turn?;
    var alive := AliveObservers(s);
    var ids := TurnDeliveries(s.subs[a.account], alive, s.scan.value.block, a.account);
    id :| id in ids && id in s.q.entries && s.q.entries[id].tx == t;
    CountedIffDelivered(s.scan.value.block, a.account, id);
    var living := Living(s.subs[a.account].transactionSubscriptions, alive);
    assert living[0] in living;
  }

  /** Delivered is sound as well: whatever is answered so was met, while pending, by the scan of
      a block of its shard with a counted transaction, when an observer of its account lived. */
  lemma {:induction false} DeliveredIsSound(actions: seq<Action>, t: Ticket) returns (k: nat, id: MessageId)
    requires IsAnswered(Run(actions).q, t, Delivered)
    ensures MetAt(actions, t, k, id)
  {
    var front, a := actions[..|actions| - 1], actions[|actions| - 1];
    RunKeepsInv(front);
    QueueStep(Run(front), a);
    if t in Run(front).q.answers {
      k, id := DeliveredIsSound(front, t);
      assert front[..k] == actions[..k];
    } else {
      k := |front|;
      id := TurnDeliversOnlyMet(Run(front), a, t);
    }
  }

  ghost predicate AnsweredExpired(s: State, t: Ticket) {
    t in s.q.answers && s.q.answers[t] == Expired
  }

  /** The step is the expiry pass of a block of the message's shard, generated after the
      message expired, and finds the message pending under this ticket. */
  ghost predicate PassExpires(s: State, a: Action, t: Ticket, id: MessageId) {
    && a.Expire? && a.index < |s.scanned| && PendingAs(s, id, t)
    && IsDue(id, s.q.entries[id], s.scanned[a.index].block.owns, s.scanned[a.index].block.utime)
  }

  ghost predicate ExpiredAt(actions: seq<Action>, t: Ticket, k: nat, id: MessageId) {
    k < |actions| && PassExpires(Run(actions[..k]), actions[k], t, id)
  }

  lemma ExpiredAtLater(actions: seq<Action>, a: Action, t: Ticket, k: nat, id: MessageId)
    requires ExpiredAt(actions, t, k, id)
    ensures ExpiredAt(actions + [a], t, k, id)
  {
    assert (actions + [a])[..k] == actions[..k];
  }

  lemma ExpiredNow(actions: seq<Action>, a: Action, t: Ticket, id: MessageId)
    requires PassExpires(Run(actions), a, t, id)
    ensures ExpiredAt(actions + [a], t, |actions|, id)
  {
    assert (actions + [a])[..|actions|] == actions;
  }

  /** Whatever answers Expired is such a pass. */
  lemma {:induction false} ExpiredByPass(actions: seq<Action>, t: Ticket) returns (k: nat, id: MessageId)
    requires AnsweredExpired(Run(actions), t)
    ensures ExpiredAt(actions, t, k, id)
  {
    var front, a := actions[..|actions| - 1], actions[|actions| - 1];
    var s := Run(front);
    assert actions == front + [a];
    RunKeepsInv(front);
    QueueStep(s, a);
    if t in s.q.answers {
      k, id := ExpiredByPass(front, t);
      ExpiredAtLater(front, a, t, k, id);
    } else {
      k := |front|;
      id := OnlyPassesExpire(s, a, t);
      ExpiredNow(front, a, t, id);
    }
  }

  lemma OnlyPassesExpire(s: State, a: Action, t: Ticket) returns (id: MessageId)
    requires Inv(s) && t !in s.q.answers && AnsweredExpired(AfterAction(s, a), t)
    ensures PassExpires(s, a, t, id)
  {
    assert a.Expire?;
    var b := s.scanned[a.index].block;
    assert t in DueTickets(s.q.entries, b.owns, b.utime);
    id :| id in s.q.entries && IsDue(id, s.q.entries[id], b.owns, b.utime) && s.q.entries[id].tx == t;
  }

  /** Expired is sound: it is answered only by a late block of the message's shard, and in
      the whole run no scan met a counted transaction of the message while it was pending
      and an observer of its account lived. */
  lemma ExpiredIsSound(actions: seq<Action>, t: Ticket) returns (k: nat, id: MessageId)
    requires AnsweredExpired(Run(actions), t)
    ensures ExpiredAt(actions, t, k, id)
    ensures forall j, other :: 0 <= j < |actions| && PendingAs(Run(actions[..j]), other, t) ==>
              !MeetsTransaction(Run(actions[..j]), actions[j], other)
  {
    k, id := ExpiredByPass(actions, t);
    forall j, other | 0 <= j < |actions| && PendingAs(Run(actions[..j]), other, t)
      ensures !MeetsTransaction(Run(actions[..j]), actions[j], other)
    {
      if MeetsTransaction(Run(actions[..j]), actions[j], other) {
        MeetingIsFinal(actions, j, other, t);
      }
    }
  }

  /** A scan has its turn on the account of the message in a block of its shard. */
  ghost predicate TurnOf(s: State, a: Action, id: MessageId) {
    && a == Turn(id.account)
    && s.scan.Some? && id.account in s.scan.value.todo
    && s.scan.value.block.owns(id.account)
  }

  /** The loop waits for this message, under this ticket, when a scan gets to its account. */
  ghost predicate WaitsAtTurn(s: State, a: Action, l: LoopId, t: Ticket, id: MessageId) {
    Awaits(s, l, id) && PendingAs(s, id, t) && TurnOf(s, a, id)
  }

  /** A resend follows a genuine expiry. The loop itself keeps the observer and with it the
      subscription alive, so no scan of the account's shard met a counted transaction of the
      message while the loop was waiting for it. */
  lemma ResendIsSafe(actions: seq<Action>, l: LoopId, t: Ticket)
    requires AnsweredExpired(Run(actions), t)
    ensures forall j, id :: 0 <= j < |actions| && WaitsAtTurn(Run(actions[..j]), actions[j], l, t, id) ==>
              !Counted(Run(actions[..j]).scan.value.block, id)
  {
    var k, _ := ExpiredIsSound(actions, t);
    forall j, id | 0 <= j < |actions| && WaitsAtTurn(Run(actions[..j]), actions[j], l, t, id)
      ensures !Counted(Run(actions[..j]).scan.value.block, id)
    {
      var s := Run(actions[..j]);
      RunKeepsInv(actions[..j]);
      assert Observed(s, s.loops[l].account, s.loops[l].observer) && s.loops[l].observer in AliveObservers(s);
      assert !MeetsTransaction(s, actions[j], id);
    }
  }

  /** Delivery beats expiry across a block: when the expiry pass of a block runs, none of the
      messages that loops awaited since before its scan is counted in it. */
  lemma PassFindsNothingDelivered(actions: seq<Action>, i: nat, l: LoopId, id: MessageId)
    requires var s := Run(actions);
             i < |s.scanned| && Awaits(s, l, id) && s.q.entries[id].tx < s.scanned[i].since
             && s.scanned[i].block.owns(id.account)
    ensures !Counted(Run(actions).scanned[i].block, id)
  {
    RunKeepsInv(actions);
    assert NothingMissed(Run(actions), Run(actions).scanned[i]);
  }

  // ---------------------------------------------------------------------------
  // The loop that waits
  // ---------------------------------------------------------------------------

  ghost predicate WaitsFor(s: State, l: LoopId, t: Ticket) {
    l in s.loops && s.loops[l].waiting == Some(t)
  }

  /** A loop that waits for an old ticket waited for it before the step. */
  lemma WaitedBefore(s: State, a: Action, l: LoopId, t: Ticket)
    requires Inv(s) && WaitsFor(AfterAction(s, a), l, t) && t < s.q.accepted
    ensures WaitsFor(s, l, t) && s.loops[l].account == AfterAction(s, a).loops[l].account
  {
    LoopStep(s, a);
  }

  /** It did so ever since the ticket was pending. */
  lemma {:induction false} WaitedSince(actions: seq<Action>, k: nat, l: LoopId, t: Ticket)
    requires k <= |actions| && WaitsFor(Run(actions), l, t) && t < Run(actions[..k]).q.accepted
    ensures WaitsFor(Run(actions[..k]), l, t)
    ensures Run(actions[..k]).loops[l].account == Run(actions).loops[l].account
    decreases |actions|
  {
    if k == |actions| {
      assert actions[..k] == actions;
    } else {
      var front := actions[..|actions| - 1];
      assert front[..k] == actions[..k];
      RunKeepsInv(front);
      AnswersPersist(front, k);
      WaitedBefore(Run(front), actions[|actions| - 1], l, t);
      WaitedSince(front, k, l, t);
    }
  }

  /** The message that expired is one of the loop's account, which it was waiting for when
      the expiry pass found it due. */
  lemma ExpiryOfAwaited(actions: seq<Action>, l: LoopId, t: Ticket) returns (k: nat, id: MessageId)
    requires WaitsFor(Run(actions), l, t) && AnsweredExpired(Run(actions), t)
    ensures ExpiredAt(actions, t, k, id) && Awaits(Run(actions[..k]), l, id)
    ensures id.account == Run(actions).loops[l].account
  {
    k, id := ExpiredByPass(actions, t);
    RunKeepsInv(actions[..k]);
    assert t < Run(actions[..k]).q.accepted;
    WaitedSince(actions, k, l, t);
    assert Awaits(Run(actions[..k]), l, id);
  }

  // ---------------------------------------------------------------------------
  // What expires, and what the loop does then
  // ---------------------------------------------------------------------------

  /** What an expiry pass makes of a pending message. */
  ghost predicate ExpiresIfLate(q: Queue, q': Queue, block: Block, id: MessageId)
    requires id in q.entries
  {
    && (id in q'.entries <==>
          block.utime <= q.entries[id].expireAt || !ContainsAccount(block.shard, id.account))
    && (id in q'.entries ==> q'.entries[id] == q.entries[id])
    && (id !in q'.entries ==> IsAnswered(q', q.entries[id].tx, Expired))
  }

  lemma ScanIsLate(q: Queue, block: Block, id: MessageId)
    requires SendersUnused(q) && id in q.entries
    ensures ExpiresIfLate(q, AfterFullScan(q, block.owns, block.utime), block, id)
  {
    ScanExpiresLate(q, block.owns, block.utime);
  }

  /** In every run the expiry pass of a block answers Expired whatever is late in its shard, and
      takes it out of the queue; everything else stays. */
  lemma PassExpiresLate(actions: seq<Action>, i: nat, id: MessageId)
    requires i < |Run(actions).scanned| && id in Run(actions).q.entries
    ensures ExpiresIfLate(Run(actions).q, Run(actions + [Expire(i)]).q, Run(actions).scanned[i].block, id)
  {
    RunKeepsInv(actions);
    ScanIsLate(Run(actions).q, Run(actions).scanned[i].block, id);
    RunOneMore(actions, Expire(i));
  }

  /** A loop starts for a pending event, with the observer of that event, and is gone once it
      ends; other loops are left alone. */
  lemma LoopsStartAndEnd(s: State, account: Account, l: LoopId)
    ensures AfterAction(s, StartLoop(account)).loops
         == if account in s.pending then s.loops[s.nextLoop := SendLoop(account, s.pending[account], None)] else s.loops
    ensures l !in AfterAction(s, EndLoop(l)).loops
    ensures forall k :: k in s.loops && k != l ==>
              k in AfterAction(s, EndLoop(l)).loops && AfterAction(s, EndLoop(l)).loops[k] == s.loops[k]
  {
  }

  /** A loop waits until its message is answered, ends when it was delivered, and sends again
      when it expired. */
  lemma ResumeFollowsAnswer(s: State, l: LoopId)
    requires l in s.loops && s.loops[l].waiting.Some?
    ensures var s', t := AfterAction(s, Resume(l)), s.loops[l].waiting.value;
            && (l !in s'.loops <==> t in s.q.answers && s.q.answers[t] == Delivered)
            && (t in s.q.answers && s.q.answers[t] == Expired ==> s'.loops[l] == s.loops[l].(waiting := None))
            && (t !in s.q.answers ==> s' == s)
  {
  }

  /** Somebody who waits for a state holds one receiver besides that of the subscription, which
      is opened for it if need be; dropping it takes back just that. */
  lemma ReceiversFollow(s: State, account: Account)
    requires s.scan.None?
    ensures var s' := AfterAction(s, AddReceiver(account));
            var before := if account in s.subs then s.subs[account] else StateSubscription(1, []);
            && s'.subs == s.subs[account := before.(receivers := before.receivers + 1)]
            && (before.receivers > 0 ==>
                  AfterAction(s', DropReceiver(account)).subs == s.subs[account := before])
  {
  }

  /** What it sends is queued under a ticket of its own, which it waits for, unless such a message
      is pending, which ends the loop. */
  lemma SendIsQueued(s: State, l: LoopId, hash: Hash, expireAt: U32)
    requires l in s.loops && s.loops[l].waiting.None?
    ensures var s', id := AfterAction(s, Send(l, hash, expireAt)), MessageId(s.loops[l].account, hash);
            && (id in s.q.entries ==> l !in s'.loops && s'.q == s.q)
            && (id !in s.q.entries ==>
                  && Awaits(s', l, id) && s'.q.entries == s.q.entries[id := PendingMessage(s.q.accepted, expireAt)]
                  && s'.loops[l].account == s.loops[l].account)
  {
  }

  // ---------------------------------------------------------------------------
  // The shard behind an expiry
  // ---------------------------------------------------------------------------

  /** The block whose expiry pass is step `k`. */
  ghost function ExpiringBlock(actions: seq<Action>, k: nat): Block
    requires k < |actions| && actions[k].Expire? && actions[k].index < |Run(actions[..k]).scanned|
  {
    Run(actions[..k]).scanned[actions[k].index].block
  }

  /** Expired comes from a block whose shard prefix the top bits of the account agree with. */
  lemma ExpiredInOwnShard(actions: seq<Action>, t: Ticket) returns (k: nat, id: MessageId)
    requires AnsweredExpired(Run(actions), t)
    ensures ExpiredAt(actions, t, k, id)
    ensures var shard := ExpiringBlock(actions, k).shard; TopBits(id.account, PrefixLen(shard)) == PrefixBits(shard)
  {
    k, id := ExpiredByPass(actions, t);
    ContainsIffTopBits(ExpiringBlock(actions, k).shard, id.account);
  }

  /** The workchain that all messages are addressed to. */
  const BASE_WORKCHAIN: int := 0

  ghost predicate IsWithin(block: Block, workchains: set<int>) {
    block.shard.workchain in workchains
  }

  /** The node hands over blocks of these workchains. */
  ghost predicate BlocksWithin(actions: seq<Action>, workchains: set<int>) {
    forall i :: 0 <= i < |actions| && actions[i].BeginScan? ==> IsWithin(actions[i].block, workchains)
  }

  ghost predicate StateWithin(s: State, workchains: set<int>) {
    && (s.scan.Some? ==> IsWithin(s.scan.value.block, workchains))
    && (forall i :: 0 <= i < |s.scanned| ==> IsWithin(s.scanned[i].block, workchains))
  }

  lemma StepStaysWithin(s: State, a: Action, workchains: set<int>)
    requires StateWithin(s, workchains) && (a.BeginScan? ==> IsWithin(a.block, workchains))
    ensures StateWithin(AfterAction(s, a), workchains)
  {
    forall i | 0 <= i < |AfterAction(s, a).scanned| ensures IsWithin(AfterAction(s, a).scanned[i].block, workchains) {
      ScannedBefore(s, a, i);
    }
  }

  lemma {:induction false} RunStaysWithin(actions: seq<Action>, workchains: set<int>)
    requires BlocksWithin(actions, workchains)
    ensures StateWithin(Run(actions), workchains)
  {
    if actions != [] {
      RunStaysWithin(actions[..|actions| - 1], workchains);
      StepStaysWithin(Run(actions[..|actions| - 1]), actions[|actions| - 1], workchains);
    }
  }

  /** Whatever expires in the run expires by a block of the workchain it was sent to. */
  ghost predicate ExpiresAtHome(actions: seq<Action>) {
    forall t, k, id :: ExpiredAt(actions, t, k, id) ==> ExpiringBlock(actions, k).shard.workchain == BASE_WORKCHAIN
  }

  lemma RunOneMore(actions: seq<Action>, a: Action)
    ensures Run(actions + [a]) == AfterAction(Run(actions), a)
  {
    assert (actions + [a])[..|actions|] == actions;
  }

  /** An empty block of the only shard of its workchain, generated at second 1. */
  function EmptyBlock(workchain: int): Block {
    Block(ShardIdent(workchain, SHARD_FULL), 1, _ => NoTransactions, _ => true)
  }

  /** A message that expires at second 0 is sent, and such a block is scanned. */
  function ForeignActions(account: Account, hash: Hash, workchain: int): seq<Action> {
    [AddPending(account), StartLoop(account), Send(0, hash, 0),
     BeginScan(EmptyBlock(workchain)), Turn(account), EndScan]
  }

  /** Before the scan: one loop that waits for the first message. */
  ghost predicate IsSent(s: State, account: Account, hash: Hash) {
    && s.q == Queue(map[MessageId(account, hash) := PendingMessage(0, 0)], 1, map[])
    && s.subs.Keys == {account} && s.scan == None && s.scanned == []
  }

  lemma MessageSent(account: Account, hash: Hash)
    ensures IsSent(Run([AddPending(account), StartLoop(account), Send(0, hash, 0)]), account, hash)
  {
    var a, b, c := AddPending(account), StartLoop(account), Send(0, hash, 0);
    assert [a] == [] + [a] && [a, b] == [a] + [b] && [a, b, c] == [a, b] + [c];
    RunOneMore([], a);
    RunOneMore([a], b);
    RunOneMore([a, b], c);
  }

  lemma EmptyScan(s: State, account: Account, hash: Hash, workchain: int)
    requires IsSent(s, account, hash)
    ensures var block := EmptyBlock(workchain);
            var s' := AfterAction(AfterAction(AfterAction(s, BeginScan(block)), Turn(account)), EndScan);
            s'.q == s.q && s'.scanned == [ScannedBlock(block, 1)]
  {
    var block := EmptyBlock(workchain);
    var turned := AfterAction(AfterAction(s, BeginScan(block)), Turn(account));
    assert BlockDeliveries(block, account) == {};
    assert turned.scan.value.todo == {};
    assert turned.q == s.q;
  }

  /** Its expiry pass takes the message, whatever the workchain is. */
  lemma ForeignBlockExpires(account: Account, hash: Hash, workchain: int)
    ensures var actions := ForeignActions(account, hash, workchain) + [Expire(0)];
            && ExpiredAt(actions, 0, 6, MessageId(account, hash))
            && ExpiringBlock(actions, 6).shard.workchain == workchain
  {
    var sent := [AddPending(account), StartLoop(account), Send(0, hash, 0)];
    var block := EmptyBlock(workchain);
    var actions := ForeignActions(account, hash, workchain);
    MessageSent(account, hash);
    EmptyScan(Run(sent), account, hash, workchain);
    RunOneMore(sent, BeginScan(block));
    RunOneMore(sent + [BeginScan(block)], Turn(account));
    RunOneMore(sent + [BeginScan(block)] + [Turn(account)], EndScan);
    assert actions == sent + [BeginScan(block)] + [Turn(account)] + [EndScan];
    FullPrefixLen(block.shard);
    assert PendingAs(Run(actions), MessageId(account, hash), 0);
    ExpiredNow(actions, Expire(0), 0, MessageId(account, hash));
    assert (actions + [Expire(0)])[..6] == actions;
  }

  /** A message expires only by blocks of its own workchain, in every run over blocks of the
      given workchains, exactly when these are no others than its own. */
  lemma ExpiryAtHomeIff(workchains: set<int>)
    ensures (forall actions :: BlocksWithin(actions, workchains) ==> ExpiresAtHome(actions))
       <==> workchains <= {BASE_WORKCHAIN}
  {
    if w :| w in workchains && w != BASE_WORKCHAIN {
      var account: Account := seq(32, _ => 0);
      var actions := ForeignActions(account, 0, w) + [Expire(0)];
      ForeignBlockExpires(account, 0, w);
      assert BlocksWithin(actions, workchains);
      assert !ExpiresAtHome(actions);
    } else {
      assert workchains <= {BASE_WORKCHAIN} by {
        forall w | w in workchains ensures w in {BASE_WORKCHAIN} {
        }
      }
      forall actions | BlocksWithin(actions, workchains) ensures ExpiresAtHome(actions) {
        forall t, k, id | ExpiredAt(actions, t, k, id)
          ensures ExpiringBlock(actions, k).shard.workchain == BASE_WORKCHAIN
        {
          RunStaysWithin(actions[..k], workchains);
        }
      }
    }
  }
}
