/**
 Queue of external messages waiting for delivery (src/utils/pending_messages_queue.rs).

 The reference is a queue without any cache: a map and the answers sent so far. The
 class keeps the cached minimum expiry and the entry counter beside the map.
 A oneshot channel is a ticket number; sending on it is an entry of `answers`.
 */
module PendingMessagesQueue {
  import opened Maps
  import opened Words
  import opened Wrappers
  import opened ShardUtils

  type U32 = x: nat | x <= U32_MAX
  type Hash = nat
  type Ticket = nat

  datatype MessageStatus = Delivered | Expired

  datatype MessageId = MessageId(account: Account, messageHash: Hash)

  datatype PendingMessage = PendingMessage(tx: Ticket, expireAt: U32)

  datatype QueueError = AlreadyExists

  type Entries = map<MessageId, PendingMessage>

  // ---------------------------------------------------------------------------
  // The reference queue
  // ---------------------------------------------------------------------------

  datatype Queue = Queue(entries: Entries, accepted: nat, answers: map<Ticket, MessageStatus>)

  const EMPTY: Queue := Queue(map[], 0, map[])

  function Added(q: Queue, id: MessageId, expireAt: U32): (Queue, Result<Ticket, QueueError>) {
    if id in q.entries then (q, Err(AlreadyExists))
    else
      (q.(entries := q.entries[id := PendingMessage(q.accepted, expireAt)], accepted := q.accepted + 1),
       Ok(q.accepted))
  }

  function AfterDelivery(q: Queue, id: MessageId): Queue {
    if id !in q.entries then q
    else q.(entries := q.entries - {id}, answers := q.answers[q.entries[id].tx := Delivered])
  }

  /** The message is due in a block of this time whose shard passes the membership test. */
  predicate IsDue(id: MessageId, m: PendingMessage, owns: Membership, utime: U32) {
    utime > m.expireAt && owns(id.account)
  }

  function DueTickets(entries: Entries, owns: Membership, utime: U32): set<Ticket> {
    set id | id in entries && IsDue(id, entries[id], owns, utime) :: entries[id].tx
  }

  function NotDue(entries: Entries, owns: Membership, utime: U32): Entries {
    map id | id in entries && !IsDue(id, entries[id], owns, utime) :: entries[id]
  }

  /** Every entry is looked at; the due ones are answered and dropped. */
  function AfterFullScan(q: Queue, owns: Membership, utime: U32): Queue {
    q.(entries := NotDue(q.entries, owns, utime),
       answers := WithExpired(q.answers, DueTickets(q.entries, owns, utime)))
  }

  function WithExpired(answers: map<Ticket, MessageStatus>, tickets: set<Ticket>): map<Ticket, MessageStatus> {
    answers + map t | t in tickets :: Expired
  }

  // ---------------------------------------------------------------------------
  // Conservation
  // ---------------------------------------------------------------------------

  /** A pending message owns a sender nobody else has and nobody has used. */
  ghost predicate SendersUnused(q: Queue) {
    && (forall id :: id in q.entries ==> q.entries[id].tx < q.accepted && q.entries[id].tx !in q.answers)
    && (forall a, b :: a in q.entries && b in q.entries && q.entries[a].tx == q.entries[b].tx ==> a == b)
    && (forall t :: t in q.answers ==> t < q.accepted)
  }

  ghost predicate IsPending(q: Queue, t: Ticket) {
    exists id :: id in q.entries && q.entries[id].tx == t
  }

  /** Every accepted ticket is pending under one id or answered, never both. */
  ghost predicate Conserved(q: Queue) {
    && SendersUnused(q)
    && (forall t: Ticket :: t < q.accepted ==> t in q.answers || IsPending(q, t))
  }

  datatype QueueOp =
    | Add(id: MessageId, expireAt: U32)
    | Deliver(id: MessageId)
    | Update(owns: Membership, utime: U32)

  function Apply(q: Queue, op: QueueOp): Queue {
    match op
    case Add(id, expireAt) => Added(q, id, expireAt).0
    case Deliver(id) => AfterDelivery(q, id)
    case Update(owns, utime) => AfterFullScan(q, owns, utime)
  }

  function ApplyAll(q: Queue, ops: seq<QueueOp>): Queue {
    if ops == [] then q else Apply(ApplyAll(q, ops[..|ops| - 1]), ops[|ops| - 1])
  }

  lemma AddConserves(q: Queue, id: MessageId, expireAt: U32)
    requires Conserved(q)
    ensures Conserved(Added(q, id, expireAt).0)
  {
    var q' := Added(q, id, expireAt).0;
    if id !in q.entries {
      forall t: Ticket | t < q'.accepted
        ensures t in q'.answers || IsPending(q', t)
      {
        if t == q.accepted {
          assert q'.entries[id].tx == t;
        } else if t !in q.answers {
          var k :| k in q.entries && q.entries[k].tx == t;
          assert q'.entries[k].tx == t;
        }
      }
    }
  }

  lemma DeliveryConserves(q: Queue, id: MessageId)
    requires Conserved(q)
    ensures Conserved(AfterDelivery(q, id))
  {
    var q' := AfterDelivery(q, id);
    forall t: Ticket | t < q'.accepted
      ensures t in q'.answers || IsPending(q', t)
    {
      if t !in q.answers {
        var k :| k in q.entries && q.entries[k].tx == t;
        assert k != id ==> k in q'.entries && q'.entries[k].tx == t;
      }
    }
  }

  lemma ScanConserves(q: Queue, owns: Membership, utime: U32)
    requires Conserved(q)
    ensures Conserved(AfterFullScan(q, owns, utime))
  {
    var q' := AfterFullScan(q, owns, utime);
    forall t: Ticket | t < q'.accepted
      ensures t in q'.answers || IsPending(q', t)
    {
      if t !in q.answers {
        var k :| k in q.entries && q.entries[k].tx == t;
        assert k in q'.entries || t in DueTickets(q.entries, owns, utime);
      }
    }
  }

  /** An answer, once sent, is never sent again or changed, and only pending messages get one. */
  ghost predicate AnswersExtend(q: Queue, q': Queue) {
    && q.accepted <= q'.accepted
    && (forall t :: t in q.answers ==> t in q'.answers && q'.answers[t] == q.answers[t])
  }

  lemma StepConserves(q: Queue, op: QueueOp)
    requires Conserved(q)
    ensures Conserved(Apply(q, op)) && AnswersExtend(q, Apply(q, op))
  {
    match op
    case Add(id, expireAt) => AddConserves(q, id, expireAt);
    case Deliver(id) => DeliveryConserves(q, id);
    case Update(owns, utime) => ScanConserves(q, owns, utime);
  }

  /** Conservation over every sequence of operations. */
  lemma {:induction false} RunConserves(ops: seq<QueueOp>)
    ensures Conserved(ApplyAll(EMPTY, ops))
  {
    if ops != [] {
      RunConserves(ops[..|ops| - 1]);
      StepConserves(ApplyAll(EMPTY, ops[..|ops| - 1]), ops[|ops| - 1]);
    }
  }

  lemma {:induction false} AnswersAreFinal(ops: seq<QueueOp>, more: seq<QueueOp>)
    ensures AnswersExtend(ApplyAll(EMPTY, ops), ApplyAll(EMPTY, ops + more))
  {
    if more == [] {
      assert ops + more == ops;
    } else {
      var front := more[..|more| - 1];
      assert (ops + more)[..|ops + more| - 1] == ops + front;
      AnswersAreFinal(ops, front);
      RunConserves(ops + front);
      StepConserves(ApplyAll(EMPTY, ops + front), more[|more| - 1]);
    }
  }

  /** What each answer means: a ticket becomes Expired only by an update that finds its
      message due, and Delivered only by a delivery of its id. */
  lemma AnswerMeaning(q: Queue, op: QueueOp, t: Ticket)
    requires Conserved(q)
    requires t !in q.answers && t in Apply(q, op).answers
    ensures exists id :: id in q.entries && q.entries[id].tx == t &&
              match Apply(q, op).answers[t]
              case Delivered => op == Deliver(id)
              case Expired => op.Update? && IsDue(id, q.entries[id], op.owns, op.utime)
  {
    match op
    case Add(_, _) =>
      assert false;
    case Deliver(id) =>
      assert id in q.entries && q.entries[id].tx == t;
    case Update(owns, utime) =>
      assert t in DueTickets(q.entries, owns, utime);
  }

  // ---------------------------------------------------------------------------
  // The fate of a message
  // ---------------------------------------------------------------------------

  /** A scan leaves a message alone until the time is past its expiry in its shard; a late one
      is answered Expired and gone. Nothing else changes. */
  lemma ScanExpiresLate(q: Queue, owns: Membership, utime: U32)
    requires SendersUnused(q)
    ensures var q' := AfterFullScan(q, owns, utime);
            && q'.accepted == q.accepted
            && (forall id :: id in q'.entries <==>
                  id in q.entries && (utime <= q.entries[id].expireAt || !owns(id.account)))
            && (forall id :: id in q'.entries ==> q'.entries[id] == q.entries[id])
            && (forall id :: id in q.entries && id !in q'.entries ==> IsAnswered(q', q.entries[id].tx, Expired))
            && (forall t :: t in q.answers ==> IsAnswered(q', t, q.answers[t]))
  {
    var q' := AfterFullScan(q, owns, utime);
    forall id | id in q.entries && id !in q'.entries ensures IsAnswered(q', q.entries[id].tx, Expired) {
      assert q.entries[id].tx in DueTickets(q.entries, owns, utime);
    }
    forall t | t in q.answers ensures t !in DueTickets(q.entries, owns, utime) {
    }
  }

  ghost predicate IsAnswered(q: Queue, t: Ticket, status: MessageStatus) {
    t in q.answers && q.answers[t] == status
  }

  /** Operation `i` took this message in: its id was not pending then. */
  ghost predicate AcceptedAt(ops: seq<QueueOp>, i: nat, id: MessageId, expireAt: U32) {
    i < |ops| && ops[i] == Add(id, expireAt) && id !in ApplyAll(EMPTY, ops[..i]).entries
  }

  /** The operation decides the message: its delivery, or a block of its shard past its expiry. */
  predicate Decides(op: QueueOp, id: MessageId, expireAt: U32) {
    match op
    case Add(_, _) => false
    case Deliver(delivered) => delivered == id
    case Update(owns, utime) => utime > expireAt && owns(id.account)
  }

  lemma ApplyOneMore(ops: seq<QueueOp>, op: QueueOp)
    ensures ApplyAll(EMPTY, ops + [op]) == Apply(ApplyAll(EMPTY, ops), op)
  {
    assert (ops + [op])[..|ops|] == ops;
  }

  ghost predicate IsHeld(q: Queue, id: MessageId, m: PendingMessage) {
    id in q.entries && q.entries[id] == m
  }

  lemma StepKeepsUndecided(q: Queue, op: QueueOp, id: MessageId, m: PendingMessage)
    requires Conserved(q) && IsHeld(q, id, m) && !Decides(op, id, m.expireAt)
    ensures IsHeld(Apply(q, op), id, m)
  {
    if op.Update? {
      ScanExpiresLate(q, op.owns, op.utime);
    }
  }

  lemma StepDecides(q: Queue, op: QueueOp, id: MessageId, m: PendingMessage)
    requires Conserved(q) && IsHeld(q, id, m) && Decides(op, id, m.expireAt)
    ensures id !in Apply(q, op).entries
    ensures IsAnswered(Apply(q, op), m.tx, if op.Deliver? then Delivered else Expired)
  {
    if op.Update? {
      ScanExpiresLate(q, op.owns, op.utime);
    }
  }

  lemma UndecidedThen(ops: seq<QueueOp>, op: QueueOp, id: MessageId, m: PendingMessage)
    requires IsHeld(ApplyAll(EMPTY, ops), id, m) && !Decides(op, id, m.expireAt)
    ensures IsHeld(ApplyAll(EMPTY, ops + [op]), id, m)
  {
    RunConserves(ops);
    StepKeepsUndecided(ApplyAll(EMPTY, ops), op, id, m);
    ApplyOneMore(ops, op);
  }

  lemma AcceptedThen(ops: seq<QueueOp>, i: nat, id: MessageId, expireAt: U32)
    requires AcceptedAt(ops, i, id, expireAt)
    ensures IsHeld(ApplyAll(EMPTY, ops[..i] + [ops[i]]), id,
                   PendingMessage(ApplyAll(EMPTY, ops[..i]).accepted, expireAt))
  {
    ApplyOneMore(ops[..i], ops[i]);
  }

  /** A message stays pending under its ticket, with its expiry, until something decides it. */
  lemma {:induction false} PendingUntilDecided(ops: seq<QueueOp>, i: nat, n: nat, id: MessageId, m: PendingMessage)
    requires i < n <= |ops| && AcceptedAt(ops, i, id, m.expireAt) && m.tx == ApplyAll(EMPTY, ops[..i]).accepted
    requires forall j :: i < j < n ==> !Decides(ops[j], id, m.expireAt)
    ensures IsHeld(ApplyAll(EMPTY, ops[..n]), id, m)
    decreases n
  {
    assert ops[..n] == ops[..n - 1] + [ops[n - 1]];
    if n == i + 1 {
      AcceptedThen(ops, i, id, m.expireAt);
    } else {
      PendingUntilDecided(ops, i, n - 1, id, m);
      UndecidedThen(ops[..n - 1], ops[n - 1], id, m);
    }
  }

  lemma AnswerStays(ops: seq<QueueOp>, n: nat, t: Ticket, status: MessageStatus)
    requires n <= |ops| && IsAnswered(ApplyAll(EMPTY, ops[..n]), t, status)
    ensures IsAnswered(ApplyAll(EMPTY, ops), t, status)
  {
    AnswersAreFinal(ops[..n], ops[n..]);
    assert ops == ops[..n] + ops[n..];
  }

  lemma DecidedThen(ops: seq<QueueOp>, op: QueueOp, id: MessageId, m: PendingMessage)
    requires IsHeld(ApplyAll(EMPTY, ops), id, m) && Decides(op, id, m.expireAt)
    ensures IsAnswered(ApplyAll(EMPTY, ops + [op]), m.tx, if op.Deliver? then Delivered else Expired)
  {
    RunConserves(ops);
    StepDecides(ApplyAll(EMPTY, ops), op, id, m);
    ApplyOneMore(ops, op);
  }

  lemma DecidedAt(ops: seq<QueueOp>, j: nat, id: MessageId, m: PendingMessage)
    requires j < |ops| && IsHeld(ApplyAll(EMPTY, ops[..j]), id, m) && Decides(ops[j], id, m.expireAt)
    ensures IsAnswered(ApplyAll(EMPTY, ops), m.tx, if ops[j].Deliver? then Delivered else Expired)
  {
    DecidedThen(ops[..j], ops[j], id, m);
    assert ops[..j + 1] == ops[..j] + [ops[j]];
    AnswerStays(ops, j + 1, m.tx, if ops[j].Deliver? then Delivered else Expired);
  }

  /** What the first operation that decides a message says is its answer for good: Delivered if
      it is its delivery, Expired if it is a block of its shard past its expiry. */
  lemma FirstDecisionCounts(ops: seq<QueueOp>, i: nat, j: nat, id: MessageId, expireAt: U32)
    requires AcceptedAt(ops, i, id, expireAt) && i < j < |ops| && Decides(ops[j], id, expireAt)
    requires forall k :: i < k < j ==> !Decides(ops[k], id, expireAt)
    ensures IsAnswered(ApplyAll(EMPTY, ops), ApplyAll(EMPTY, ops[..i]).accepted,
                       if ops[j].Deliver? then Delivered else Expired)
  {
    var m := PendingMessage(ApplyAll(EMPTY, ops[..i]).accepted, expireAt);
    PendingUntilDecided(ops, i, j, id, m);
    DecidedAt(ops, j, id, m);
  }

  /** And without one it is pending and not answered. */
  lemma UndecidedIsPending(ops: seq<QueueOp>, i: nat, id: MessageId, expireAt: U32)
    requires AcceptedAt(ops, i, id, expireAt)
    requires forall k :: i < k < |ops| ==> !Decides(ops[k], id, expireAt)
    ensures var q, t := ApplyAll(EMPTY, ops), ApplyAll(EMPTY, ops[..i]).accepted;
            IsHeld(q, id, PendingMessage(t, expireAt)) && t !in q.answers
  {
    PendingUntilDecided(ops, i, |ops|, id, PendingMessage(ApplyAll(EMPTY, ops[..i]).accepted, expireAt));
    assert ops[..|ops|] == ops;
    RunConserves(ops);
  }

  // ---------------------------------------------------------------------------
  // The cached minimum
  // ---------------------------------------------------------------------------

  ghost predicate IsLowerBound(m: U32, entries: Entries) {
    forall id :: id in entries ==> m <= entries[id].expireAt
  }

  /** The least expiry of the entries, the largest u32 when there is none. */
  ghost predicate IsMinimum(m: U32, entries: Entries) {
    && IsLowerBound(m, entries)
    && (m == U32_MAX || exists id :: id in entries && entries[id].expireAt == m)
  }

  /** Below the minimum a scan finds nothing, so skipping it changes nothing. */
  lemma EarlyExitIsScan(q: Queue, m: U32, owns: Membership, utime: U32)
    requires IsLowerBound(m, q.entries) && utime <= m
    ensures AfterFullScan(q, owns, utime) == q
  {
    assert NotDue(q.entries, owns, utime) == q.entries;
    assert DueTickets(q.entries, owns, utime) == {};
    assert WithExpired(q.answers, {}) == q.answers;
  }

  /** Removing an entry above the minimum leaves the minimum. */
  lemma MinimumAfterRemoval(m: U32, entries: Entries, id: MessageId)
    requires IsMinimum(m, entries) && id in entries && entries[id].expireAt != m
    ensures IsMinimum(m, entries - {id})
  {
    if m != U32_MAX {
      var k :| k in entries && entries[k].expireAt == m;
      assert k in entries - {id} && (entries - {id})[k].expireAt == m;
    }
  }

  lemma MinimumAfterInsert(m: U32, entries: Entries, id: MessageId, message: PendingMessage)
    requires IsMinimum(m, entries) && id !in entries
    ensures IsMinimum(if message.expireAt < m then message.expireAt else m, entries[id := message])
  {
    var entries' := entries[id := message];
    var m' := if message.expireAt < m then message.expireAt else m;
    if message.expireAt <= m {
      assert entries'[id].expireAt == m';
    } else if m != U32_MAX {
      var k :| k in entries && entries[k].expireAt == m;
      assert entries'[k].expireAt == m';
    }
  }

  /** One pass over the entries, as the code recomputes the minimum. */
  method ComputeMinimum(entries: Entries) returns (m: U32)
    ensures IsMinimum(m, entries)
  {
    m := U32_MAX;
    var todo := entries.Keys;
    ghost var seen: set<MessageId> := {};
    while todo != {}
      invariant seen + todo == entries.Keys
      invariant forall id :: id in seen ==> m <= entries[id].expireAt
      invariant m == U32_MAX || exists id :: id in seen && entries[id].expireAt == m
    {
      var id :| id in todo;
      if entries[id].expireAt < m {
        m := entries[id].expireAt;
      }
      todo := todo - {id};
      seen := seen + {id};
    }
  }

  /** The entries a scan has visited. */
  ghost function Scanned(entries: Entries, todo: set<MessageId>): Entries {
    entries - todo
  }

  lemma ScannedNext(entries: Entries, todo: set<MessageId>, id: MessageId)
    requires todo <= entries.Keys && id in todo
    ensures id !in Scanned(entries, todo)
    ensures Scanned(entries, todo - {id}) == Scanned(entries, todo)[id := entries[id]]
  {
  }

  lemma ExpiredOneMore(answers: map<Ticket, MessageStatus>, tickets: set<Ticket>, t: Ticket)
    ensures WithExpired(answers, tickets + {t}) == WithExpired(answers, tickets)[t := Expired]
  {
  }

  lemma ScanDue(entries: Entries, id: MessageId, item: PendingMessage, owns: Membership, utime: U32)
    requires id !in entries && IsDue(id, item, owns, utime)
    ensures NotDue(entries[id := item], owns, utime) == NotDue(entries, owns, utime)
    ensures DueTickets(entries[id := item], owns, utime) == DueTickets(entries, owns, utime) + {item.tx}
  {
    var after := entries[id := item];
    forall t | t in DueTickets(entries, owns, utime) + {item.tx} ensures t in DueTickets(after, owns, utime) {
      if t == item.tx {
        assert id in after && IsDue(id, after[id], owns, utime);
      } else {
        var k :| k in entries && IsDue(k, entries[k], owns, utime) && entries[k].tx == t;
        assert k in after && after[k] == entries[k];
      }
    }
  }

  lemma ScanKept(entries: Entries, id: MessageId, item: PendingMessage, owns: Membership, utime: U32)
    requires id !in entries && !IsDue(id, item, owns, utime)
    ensures NotDue(entries[id := item], owns, utime) == NotDue(entries, owns, utime)[id := item]
    ensures DueTickets(entries[id := item], owns, utime) == DueTickets(entries, owns, utime)
  {
    var after := entries[id := item];
    forall t | t in DueTickets(entries, owns, utime) ensures t in DueTickets(after, owns, utime) {
      var k :| k in entries && IsDue(k, entries[k], owns, utime) && entries[k].tx == t;
      assert k in after && after[k] == entries[k];
    }
  }

  /** The pass over all entries: due ones are answered, the others kept, and the least
      expiry among the kept ones is found on the way. */
  method Retain(q: Queue, owns: Membership, currentUtime: U32)
    returns (kept: Entries, answers: map<Ticket, MessageStatus>, minimum: U32)
    ensures AfterFullScan(q, owns, currentUtime) == Queue(kept, q.accepted, answers)
    ensures IsMinimum(minimum, kept)
  {
    kept := map[];
    answers := q.answers;
    minimum := U32_MAX;
    var todo := q.entries.Keys;
    assert Scanned(q.entries, todo) == map[];
    while todo != {}
      invariant todo <= q.entries.Keys
      invariant kept == NotDue(Scanned(q.entries, todo), owns, currentUtime)
      invariant answers == WithExpired(q.answers, DueTickets(Scanned(q.entries, todo), owns, currentUtime))
      invariant IsMinimum(minimum, kept)
    {
      var id :| id in todo;
      var item := q.entries[id];
      ghost var before := Scanned(q.entries, todo);
      ScannedNext(q.entries, todo, id);
      if currentUtime <= item.expireAt || !owns(id.account) {
        ScanKept(before, id, item, owns, currentUtime);
        MinimumAfterInsert(minimum, kept, id, item);
        kept := kept[id := item];
        if item.expireAt < minimum {
          minimum := item.expireAt;
        }
      } else {
        ScanDue(before, id, item, owns, currentUtime);
        ExpiredOneMore(q.answers, DueTickets(before, owns, currentUtime), item.tx);
        answers := answers[item.tx := Expired];
      }
      todo := todo - {id};
    }
    assert Scanned(q.entries, todo) == q.entries;
  }

  // ---------------------------------------------------------------------------
  // The queue itself
  // ---------------------------------------------------------------------------

  class PendingMessagesQueue {
    var minExpireAt: U32
    var entries: Entries
    var entryCount: nat
    /** Answers sent on the channels so far, and how many channels were created. */
    var answers: map<Ticket, MessageStatus>
    var accepted: nat

    function View(): Queue
      reads this
    {
      Queue(entries, accepted, answers)
    }

    ghost predicate Valid()
      reads this
    {
      IsMinimum(minExpireAt, entries) && entryCount == |entries|
    }

    constructor ()
      ensures Valid() && View() == EMPTY
    {
      minExpireAt := U32_MAX;
      entries := map[];
      entryCount := 0;
      answers := map[];
      accepted := 0;
    }

    method AddMessage(account: Account, messageHash: Hash, expireAt: U32)
      returns (r: Result<Ticket, QueueError>)
      requires Valid()
      modifies this
      ensures Valid()
      ensures (View(), r) == Added(old(View()), MessageId(account, messageHash), expireAt)
    {
      var id := MessageId(account, messageHash);
      if id in entries {
        return Err(AlreadyExists);
      }
      MinimumAfterInsert(minExpireAt, entries, id, PendingMessage(accepted, expireAt));
      r := Ok(accepted);
      entries := entries[id := PendingMessage(accepted, expireAt)];
      accepted := accepted + 1;
      if expireAt < minExpireAt {
        minExpireAt := expireAt;
      }
      entryCount := entryCount + 1;
    }

    method DeliverMessage(account: Account, messageHash: Hash)
      requires Valid()
      modifies this
      ensures Valid()
      ensures View() == AfterDelivery(old(View()), MessageId(account, messageHash))
    {
      var id := MessageId(account, messageHash);
      if id !in entries {
        return;
      }
      var message := entries[id];
      ghost var before := entries;
      SizeAfterRemoval(entries, id);
      entries := entries - {id};
      entryCount := entryCount - 1;
      answers := answers[message.tx := Delivered];

      if minExpireAt != message.expireAt {
        MinimumAfterRemoval(minExpireAt, before, id);
        return;
      }
      minExpireAt := ComputeMinimum(entries);
    }

    /** Answers what is due in a block of a shard, given by its membership test. Exits early on
        the cached minimum, and still does exactly what a scan of all entries would do. */
    method Update(owns: Membership, currentUtime: U32)
      requires Valid()
      modifies this
      ensures Valid()
      ensures View() == AfterFullScan(old(View()), owns, currentUtime)
    {
      if currentUtime <= minExpireAt {
        EarlyExitIsScan(View(), minExpireAt, owns, currentUtime);
        return;
      }
      entries, answers, minExpireAt := Retain(View(), owns, currentUtime);
      entryCount := |entries|;
    }
  }
}
