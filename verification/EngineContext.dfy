/**
 Sending messages until one is delivered (src/engine/mod.rs).

 What the outside decides in one round of the loop is an attempt: the caller's condition,
 the signed message or a signing error, whether broadcasting works, and what everybody else
 does to the queue until the answer is read. A list of attempts is a bounded piece of a
 loop that has no bound of its own.
 */
module EngineContext {
  import opened Words
  import opened Wrappers
  import opened ShardUtils
  import opened PendingMessagesQueue

  /** A signed message; its destination may have no address prefix, and writing it to a cell
      or to bytes may fail. */
  datatype Message = Message(isExternal: bool, hasPrefix: bool, serializes: bool, hash: Hash, expireAt: U32)

  datatype Attempt = Attempt(condition: bool, signed: Option<Message>, broadcast: bool, meanwhile: seq<QueueOp>)

  datatype SendError = ExternalMessageExpected | InvalidAddress | SerializationFailed | AlreadyPending | BroadcastFailed

  /** The answer to a message, or None while there is none. */
  type SendResult = Result<Option<MessageStatus>, SendError>

  datatype Outcome = Looping | ConditionFailed | SigningFailed | SendFailed(error: SendError) | Waiting | Done

  datatype Sent = Sent(hash: Hash, ticket: Ticket)

  /** The message is in the queue before it is broadcast, and stays there if that fails. */
  function AfterSend(q: Queue, account: Account, m: Message, broadcast: bool, meanwhile: seq<QueueOp>)
    : (Queue, SendResult)
  {
    if !m.isExternal then (q, Err(ExternalMessageExpected))
    else if !m.hasPrefix then (q, Err(InvalidAddress))
    else if !m.serializes then (q, Err(SerializationFailed))
    else
      var (added, r) := Added(q, MessageId(account, m.hash), m.expireAt);
      if r.Err? then (added, Err(AlreadyPending))
      else if !broadcast then (added, Err(BroadcastFailed))
      else
        var after := ApplyAll(added, meanwhile);
        (after, Ok(if r.value in after.answers then Some(after.answers[r.value]) else None))
  }

  /** A message that is not external, has no address prefix, does not serialize, or is pending
      is refused without any change. Any other is in the queue from then on, with its expiry and
      under a new ticket: alone in it when broadcasting fails, which is an error, and otherwise
      as what others do to the queue leaves it. */
  lemma SendMeans(q: Queue, account: Account, m: Message, broadcast: bool, meanwhile: seq<QueueOp>)
    ensures var (after, r) := AfterSend(q, account, m, broadcast, meanwhile);
            var id := MessageId(account, m.hash);
            var refused := !m.isExternal || !m.hasPrefix || !m.serializes || id in q.entries;
            var queued := Queue(q.entries[id := PendingMessage(q.accepted, m.expireAt)], q.accepted + 1, q.answers);
            && (r.Err? <==> refused || !broadcast)
            && (r == Err(BroadcastFailed) <==> !refused && !broadcast)
            && (refused ==> after == q)
            && (!refused ==> after == if broadcast then ApplyAll(queued, meanwhile) else queued)
            && (!refused && broadcast ==>
                  r.value == if q.accepted in after.answers then Some(after.answers[q.accepted]) else None)
  {
  }

  /** What the loop does with a list of attempts: the queue at the end, how it stands, and
      the messages that were broadcast. */
  function Delivery(q: Queue, account: Account, attempts: seq<Attempt>): (Queue, Outcome, seq<Sent>)
    decreases |attempts|
  {
    if attempts == [] then (q, Looping, [])
    else
      var a := attempts[0];
      if !a.condition then (q, ConditionFailed, [])
      else if a.signed.None? then (q, SigningFailed, [])
      else
        var (after, r) := AfterSend(q, account, a.signed.value, a.broadcast, a.meanwhile);
        match r
        case Err(error) => (after, SendFailed(error), [])
        case Ok(None) => (after, Waiting, [Sent(a.signed.value.hash, q.accepted)])
        case Ok(Some(Delivered)) => (after, Done, [Sent(a.signed.value.hash, q.accepted)])
        case Ok(Some(Expired)) =>
          var (last, outcome, sent) := Delivery(after, account, attempts[1..]);
          (last, outcome, [Sent(a.signed.value.hash, q.accepted)] + sent)
  }

  lemma {:induction false} OpsConserve(q: Queue, ops: seq<QueueOp>)
    requires Conserved(q)
    ensures Conserved(ApplyAll(q, ops)) && AnswersExtend(q, ApplyAll(q, ops))
  {
    if ops != [] {
      OpsConserve(q, ops[..|ops| - 1]);
      StepConserves(ApplyAll(q, ops[..|ops| - 1]), ops[|ops| - 1]);
    }
  }

  lemma SendConserves(q: Queue, account: Account, m: Message, broadcast: bool, meanwhile: seq<QueueOp>)
    requires Conserved(q)
    ensures var (after, r) := AfterSend(q, account, m, broadcast, meanwhile);
            && Conserved(after) && AnswersExtend(q, after)
            && (r.Ok? ==> q.accepted < after.accepted)
            && (r.Ok? && r.value.Some? ==> q.accepted in after.answers && after.answers[q.accepted] == r.value.value)
            && (r.Ok? && r.value.None? ==> q.accepted !in after.answers)
  {
    var id := MessageId(account, m.hash);
    if m.isExternal && id !in q.entries {
      StepConserves(q, Add(id, m.expireAt));
      OpsConserve(Added(q, id, m.expireAt).0, meanwhile);
    }
  }

  /** The loop's messages: each broadcast after a condition of its own, under a new ticket,
      and each but the last one answered Expired before the next. */
  ghost predicate ResendsOnlyExpired(q: Queue, after: Queue, attempts: seq<Attempt>, sent: seq<Sent>) {
    && |sent| <= |attempts|
    && (forall i :: 0 <= i < |sent| ==>
          && attempts[i].condition && attempts[i].signed.Some? && attempts[i].signed.value.hash == sent[i].hash
          && q.accepted <= sent[i].ticket < after.accepted)
    && (forall i :: 0 <= i < |sent| - 1 ==>
          sent[i].ticket < sent[i + 1].ticket
          && sent[i].ticket in after.answers && after.answers[sent[i].ticket] == Expired)
  }

  ghost predicate OutcomeMeans(after: Queue, attempts: seq<Attempt>, outcome: Outcome, sent: seq<Sent>) {
    var last := |sent| - 1;
    match outcome
    case Done => sent != [] && sent[last].ticket in after.answers && after.answers[sent[last].ticket] == Delivered
    case Waiting => sent != [] && sent[last].ticket !in after.answers
    case Looping => |sent| == |attempts| && LastExpired(after, sent)
    case ConditionFailed => |sent| < |attempts| && !attempts[|sent|].condition && LastExpired(after, sent)
    case SigningFailed => |sent| < |attempts| && attempts[|sent|].condition && LastExpired(after, sent)
    case SendFailed(_) => |sent| < |attempts| && attempts[|sent|].condition && LastExpired(after, sent)
  }

  ghost predicate LastExpired(after: Queue, sent: seq<Sent>) {
    sent != [] ==> sent[|sent| - 1].ticket in after.answers && after.answers[sent[|sent| - 1].ticket] == Expired
  }

  lemma OneMoreSent(q: Queue, middle: Queue, after: Queue, attempts: seq<Attempt>, first: Sent, sent: seq<Sent>,
                    outcome: Outcome)
    requires attempts != [] && attempts[0].condition
    requires attempts[0].signed.Some? && attempts[0].signed.value.hash == first.hash
    requires first.ticket == q.accepted && q.accepted < middle.accepted && middle.accepted <= after.accepted
    requires first.ticket in after.answers && after.answers[first.ticket] == Expired
    requires ResendsOnlyExpired(middle, after, attempts[1..], sent)
    requires OutcomeMeans(after, attempts[1..], outcome, sent)
    ensures ResendsOnlyExpired(q, after, attempts, [first] + sent)
    ensures OutcomeMeans(after, attempts, outcome, [first] + sent)
  {
    var all := [first] + sent;
    forall i | 0 <= i < |all|
      ensures attempts[i].condition && attempts[i].signed.Some? && attempts[i].signed.value.hash == all[i].hash
      ensures q.accepted <= all[i].ticket < after.accepted
    {
      if i > 0 {
        assert all[i] == sent[i - 1] && attempts[i] == attempts[1..][i - 1];
      }
    }
    forall i | 0 <= i < |all| - 1
      ensures all[i].ticket < all[i + 1].ticket
      ensures all[i].ticket in after.answers && after.answers[all[i].ticket] == Expired
    {
      assert all[i + 1] == sent[i];
      if i > 0 {
        assert all[i] == sent[i - 1];
      }
    }
    if sent != [] {
      assert all[|all| - 1] == sent[|sent| - 1];
    }
    if |sent| < |attempts| - 1 {
      assert attempts[|all|] == attempts[1..][|sent|];
    }
  }

  predicate IsResent(q: Queue, account: Account, a: Attempt) {
    a.condition && a.signed.Some?
    && AfterSend(q, account, a.signed.value, a.broadcast, a.meanwhile).1 == Ok(Some(Expired))
  }

  ghost predicate IsSound(q: Queue, attempts: seq<Attempt>, r: (Queue, Outcome, seq<Sent>)) {
    && Conserved(r.0) && AnswersExtend(q, r.0)
    && ResendsOnlyExpired(q, r.0, attempts, r.2)
    && OutcomeMeans(r.0, attempts, r.1, r.2)
  }

  lemma LastSend(q: Queue, account: Account, attempts: seq<Attempt>)
    requires Conserved(q) && attempts != [] && !IsResent(q, account, attempts[0])
    requires attempts[0].condition && attempts[0].signed.Some?
    ensures IsSound(q, attempts, Delivery(q, account, attempts))
  {
    var a := attempts[0];
    SendConserves(q, account, a.signed.value, a.broadcast, a.meanwhile);
  }

  lemma LastRound(q: Queue, account: Account, attempts: seq<Attempt>)
    requires Conserved(q) && attempts != [] && !IsResent(q, account, attempts[0])
    ensures IsSound(q, attempts, Delivery(q, account, attempts))
  {
    if attempts[0].condition && attempts[0].signed.Some? {
      LastSend(q, account, attempts);
    }
  }

  /** Whatever the attempts, the loop sends only while the condition holds and only after the
      message before expired; it ends with the one delivered message, or with none. */
  lemma {:induction false} DeliveryResendsOnlyExpired(q: Queue, account: Account, attempts: seq<Attempt>)
    requires Conserved(q)
    ensures var (after, outcome, sent) := Delivery(q, account, attempts);
            && Conserved(after) && AnswersExtend(q, after)
            && ResendsOnlyExpired(q, after, attempts, sent)
            && OutcomeMeans(after, attempts, outcome, sent)
    decreases |attempts|
  {
    if attempts == [] {
    } else if !IsResent(q, account, attempts[0]) {
      LastRound(q, account, attempts);
    } else {
      var a := attempts[0];
      SendConserves(q, account, a.signed.value, a.broadcast, a.meanwhile);
      var middle := AfterSend(q, account, a.signed.value, a.broadcast, a.meanwhile).0;
      DeliveryResendsOnlyExpired(middle, account, attempts[1..]);
      var (after, outcome, sent) := Delivery(middle, account, attempts[1..]);
      OneMoreSent(q, middle, after, attempts, Sent(a.signed.value.hash, q.accepted), sent, outcome);
      ExtendsOn(q, middle, after);
    }
  }

  lemma ExtendsOn(q: Queue, q': Queue, q'': Queue)
    requires AnswersExtend(q, q') && AnswersExtend(q', q'')
    ensures AnswersExtend(q, q'')
  {
  }

  class EngineContext {
    const messagesQueue: PendingMessagesQueue

    constructor (messagesQueue: PendingMessagesQueue)
      ensures this.messagesQueue == messagesQueue
    {
      this.messagesQueue := messagesQueue;
    }

    /** What the rest of the relay does to the queue in the meantime. */
    method Others(ops: seq<QueueOp>)
      requires messagesQueue.Valid()
      modifies messagesQueue
      ensures messagesQueue.Valid() && messagesQueue.View() == ApplyAll(old(messagesQueue.View()), ops)
    {
      ghost var before := messagesQueue.View();
      for i := 0 to |ops|
        invariant messagesQueue.Valid() && messagesQueue.View() == ApplyAll(before, ops[..i])
      {
        assert ops[..i + 1][..i] == ops[..i];
        match ops[i] {
          case Add(id, expireAt) => var _ := messagesQueue.AddMessage(id.account, id.messageHash, expireAt);
          case Deliver(id) => messagesQueue.DeliverMessage(id.account, id.messageHash);
          case Update(owns, utime) => messagesQueue.Update(owns, utime);
        }
      }
      assert ops[..|ops|] == ops;
    }

    method SendTonMessage(account: Account, message: Message, broadcast: bool, meanwhile: seq<QueueOp>)
      returns (r: SendResult)
      requires messagesQueue.Valid()
      modifies messagesQueue
      ensures messagesQueue.Valid()
      ensures (messagesQueue.View(), r) == AfterSend(old(messagesQueue.View()), account, message, broadcast, meanwhile)
    {
      if !message.isExternal {
        return Err(ExternalMessageExpected);
      }
      if !message.hasPrefix {
        return Err(InvalidAddress);
      }
      if !message.serializes {
        return Err(SerializationFailed);
      }
      var rx := messagesQueue.AddMessage(account, message.hash, message.expireAt);
      if rx.Err? {
        return Err(AlreadyPending);
      }
      if !broadcast {
        return Err(BroadcastFailed);
      }
      Others(meanwhile);
      var answers := messagesQueue.answers;
      return Ok(if rx.value in answers then Some(answers[rx.value]) else None);
    }

    method DeliverMessage(account: Account, attempts: seq<Attempt>) returns (outcome: Outcome, sent: seq<Sent>)
      requires messagesQueue.Valid()
      modifies messagesQueue
      ensures messagesQueue.Valid()
      ensures (messagesQueue.View(), outcome, sent) == Delivery(old(messagesQueue.View()), account, attempts)
    {
      outcome, sent := Looping, [];
      var i := 0;
      ghost var start := messagesQueue.View();
      assert attempts[0..] == attempts;
      assert [] + Delivery(start, account, attempts).2 == Delivery(start, account, attempts).2;
      while i < |attempts|
        invariant 0 <= i <= |attempts| && outcome == Looping
        invariant messagesQueue.Valid()
        invariant var (q, o, rest) := Delivery(messagesQueue.View(), account, attempts[i..]);
                  Delivery(start, account, attempts) == (q, o, sent + rest)
      {
        ghost var before := sent;
        assert before + [] == before;
        assert attempts[i..][0] == attempts[i] && attempts[i..][1..] == attempts[i + 1..];
        var attempt := attempts[i];
        if !attempt.condition {
          return ConditionFailed, sent;
        }
        if attempt.signed.None? {
          return SigningFailed, sent;
        }
        var ticket := messagesQueue.accepted;
        var status := SendTonMessage(account, attempt.signed.value, attempt.broadcast, attempt.meanwhile);
        match status {
          case Err(error) =>
            return SendFailed(error), sent;
          case Ok(reply) =>
            sent := sent + [Sent(attempt.signed.value.hash, ticket)];
            match reply {
              case None => return Waiting, sent;
              case Some(Delivered) => return Done, sent;
              case Some(Expired) =>
                ghost var rest := Delivery(messagesQueue.View(), account, attempts[i + 1..]).2;
                assert before + ([Sent(attempt.signed.value.hash, ticket)] + rest) == sent + rest;
            }
        }
        i := i + 1;
      }
      assert attempts[i..] == [];
      assert sent + [] == sent;
    }
  }
}
