/**
 The confirmation engine of one EVM chain (src/engine/eth_subscriber/mod.rs).

 A channel for a verification result is a ticket. Sending on it adds a pair to `answers`;
 dropping it unanswered adds it to `dropped`, which its receiver sees as an error.
 */
module EthSubscriber {
  import opened Words
  import opened Wrappers
  import opened EthEvents
  import opened TopicsMap

  type Ticket = nat

  datatype QueryError = QueryFailed

  datatype ConfirmationStatus = InProcess | Valid | Invalid

  datatype Confirmation = Confirmation(request: Request, target: nat, status: ConfirmationStatus, statusTx: Ticket)

  type Confirmations = map<EventId, Confirmation>

  type Answers = set<(Ticket, VerificationStatus)>

  datatype Engine = Engine(
    cursor: nat,
    pending: Confirmations,
    issued: nat,
    answers: Answers,
    dropped: set<Ticket>)

  // ---------------------------------------------------------------------------
  // verify
  // ---------------------------------------------------------------------------

  /** A new request takes the place of a pending one for the same event, whose waiter gets an error. */
  function AfterVerify(e: Engine, r: Request): Engine {
    var id := RequestId(r);
    e.(pending := e.pending[id := Confirmation(r, TargetBlock(r), InProcess, e.issued)],
       issued := e.issued + 1,
       dropped := if id in e.pending then e.dropped + {e.pending[id].statusTx} else e.dropped)
  }

  // ---------------------------------------------------------------------------
  // The block range of a round
  // ---------------------------------------------------------------------------

  /** The last block to query, or None when there is nothing new. The sum is a u64 sum. */
  function TargetOf(cursor: nat, height: nat, maxBlockRange: Option<nat>): Option<nat> {
    if cursor >= height then None
    else
      match maxBlockRange
      case Some(range) =>
        var limit := (cursor + range) % U64_MODULUS;
        if limit < height then Some(limit) else Some(height)
      case None => Some(height)
  }

  // ---------------------------------------------------------------------------
  // Log events
  // ---------------------------------------------------------------------------

  function FromVerification(v: VerificationStatus): ConfirmationStatus {
    match v
    case Exists => Valid
    case NotExists => Invalid
  }

  function EventVerdict(r: Request, event: ParsedEthEvent): ConfirmationStatus {
    if event.Removed? then Invalid else FromVerification(Check(r, event))
  }

  /** The verdict of the last event with the id of the request, or the status before. */
  function StatusAfter(r: Request, status: ConfirmationStatus, events: seq<ParsedEthEvent>): ConfirmationStatus {
    if events == [] then status
    else
      var event := events[|events| - 1];
      if IdOf(event) == RequestId(r) then EventVerdict(r, event)
      else StatusAfter(r, status, events[..|events| - 1])
  }

  function WithEvents(pending: Confirmations, events: seq<ParsedEthEvent>): Confirmations {
    map id | id in pending ::
      pending[id].(status := StatusAfter(pending[id].request, pending[id].status, events))
  }

  /** How events are split into batches makes no difference. */
  lemma {:induction false} StatusAfterConcat(r: Request, status: ConfirmationStatus,
                                             a: seq<ParsedEthEvent>, b: seq<ParsedEthEvent>)
    ensures StatusAfter(r, status, a + b) == StatusAfter(r, StatusAfter(r, status, a), b)
  {
    if b == [] {
      assert a + b == a;
    } else {
      assert (a + b)[..|a + b| - 1] == a + b[..|b| - 1];
      StatusAfterConcat(r, status, a, b[..|b| - 1]);
    }
  }

  /** One more log: with the id of the request it decides the status, agreeing with the vote on
      every field or not; any other log is of no account. */
  lemma StatusAfterLog(r: Request, status: ConfirmationStatus, logs: seq<Log>, log: Log)
    ensures StatusAfter(r, status, ParseTransactionLogs(logs + [log]))
         == if !ReplacesEvent(r, log) then StatusAfter(r, status, ParseTransactionLogs(logs))
            else if LogProves(r, log) then Valid
            else Invalid
  {
    ParsedOneMore(logs, log);
    ReplacesIffParsed(r, log);
    LogProvesIffChecked(r, log);
    var before := ParseTransactionLogs(logs);
    if ParseLog(log).Some? {
      assert (before + [ParseLog(log).value])[..|before|] == before;
    } else {
      assert before + [] == before;
    }
  }

  /** A fresh confirmation is Valid once the last log with its id proves the vote, Invalid once
      it disproves it, and in process while there is none. */
  lemma {:induction false} StatusOfLogs(r: Request, logs: seq<Log>)
    ensures StatusAfter(r, InProcess, ParseTransactionLogs(logs)) == Valid <==> LastLogProves(r, logs)
    ensures StatusAfter(r, InProcess, ParseTransactionLogs(logs)) == Invalid <==> LastLogDisproves(r, logs)
  {
    if logs != [] {
      var n := |logs| - 1;
      assert logs == logs[..n] + [logs[n]];
      StatusOfLogs(r, logs[..n]);
      StatusAfterLog(r, InProcess, logs[..n], logs[n]);
      LastLogOneMore(r, logs);
    }
  }

  lemma LastLogOneMore(r: Request, logs: seq<Log>)
    requires logs != []
    ensures var n := |logs| - 1;
            && (LastLogProves(r, logs) <==>
                  if ReplacesEvent(r, logs[n]) then LogProves(r, logs[n]) else LastLogProves(r, logs[..n]))
            && (LastLogDisproves(r, logs) <==>
                  if ReplacesEvent(r, logs[n]) then !LogProves(r, logs[n]) else LastLogDisproves(r, logs[..n]))
  {
    var n := |logs| - 1;
    if ReplacesEvent(r, logs[n]) {
      assert LastLogIs(r, logs, n);
      forall i: nat | LastLogIs(r, logs, i) ensures i == n {
      }
    } else {
      forall i: nat ensures LastLogIs(r, logs, i) <==> LastLogIs(r, logs[..n], i) {
        assert forall j :: 0 <= j < n ==> logs[..n][j] == logs[j];
      }
    }
  }

  // ---------------------------------------------------------------------------
  // Resolution
  // ---------------------------------------------------------------------------

  datatype Resolution = Wait | Answer(status: VerificationStatus)

  /** What a round up to block `to` does with a confirmation. */
  function ResolutionOf(c: Confirmation, to: nat, lookup: Lookup): Resolution {
    if c.target > to then Wait
    else if c.status == Invalid then Answer(NotExists)
    else
      match lookup
      case Failed => Wait
      case Fetched(receipt) => Answer(ReceiptVerdict(c.request, receipt))
  }

  type Lookups = EventId -> Lookup

  /** The confirmations among `settled` that a round answers are gone. */
  function Remaining(pending: Confirmations, settled: set<EventId>, to: nat, lookups: Lookups): Confirmations {
    map id | id in pending && (id in settled ==> ResolutionOf(pending[id], to, lookups(id)) == Wait) :: pending[id]
  }

  function Sent(pending: Confirmations, settled: set<EventId>, to: nat, lookups: Lookups): Answers {
    set id | id in pending && id in settled && ResolutionOf(pending[id], to, lookups(id)).Answer?
      :: (pending[id].statusTx, ResolutionOf(pending[id], to, lookups(id)).status)
  }

  /** A successful round: the log events, then every due confirmation, then the cursor. */
  function AfterRound(e: Engine, to: nat, events: seq<ParsedEthEvent>, lookups: Lookups): Engine {
    var updated := WithEvents(e.pending, events);
    e.(cursor := to,
       pending := Remaining(updated, updated.Keys, to, lookups),
       answers := e.answers + Sent(updated, updated.Keys, to, lookups))
  }

  lemma SettleAnswered(pending: Confirmations, settled: set<EventId>, id: EventId, to: nat, lookups: Lookups)
    requires id in pending && id !in settled && ResolutionOf(pending[id], to, lookups(id)).Answer?
    ensures Remaining(pending, settled + {id}, to, lookups) == Remaining(pending, settled, to, lookups) - {id}
    ensures Sent(pending, settled + {id}, to, lookups) == Sent(pending, settled, to, lookups)
              + {(pending[id].statusTx, ResolutionOf(pending[id], to, lookups(id)).status)}
  {
    var now := Sent(pending, settled + {id}, to, lookups);
    forall p | p in Sent(pending, settled, to, lookups) ensures p in now {
      var k :| k in pending && k in settled && ResolutionOf(pending[k], to, lookups(k)).Answer?
        && p == (pending[k].statusTx, ResolutionOf(pending[k], to, lookups(k)).status);
      assert k in settled + {id};
    }
    assert (pending[id].statusTx, ResolutionOf(pending[id], to, lookups(id)).status) in now by {
      assert id in settled + {id};
    }
  }

  lemma SettleWaiting(pending: Confirmations, settled: set<EventId>, id: EventId, to: nat, lookups: Lookups)
    requires id in pending && ResolutionOf(pending[id], to, lookups(id)) == Wait
    ensures Remaining(pending, settled + {id}, to, lookups) == Remaining(pending, settled, to, lookups)
    ensures Sent(pending, settled + {id}, to, lookups) == Sent(pending, settled, to, lookups)
  {
    var now := Sent(pending, settled + {id}, to, lookups);
    forall p | p in Sent(pending, settled, to, lookups) ensures p in now {
      var k :| k in pending && k in settled && ResolutionOf(pending[k], to, lookups(k)).Answer?
        && p == (pending[k].statusTx, ResolutionOf(pending[k], to, lookups(k)).status);
      assert k in settled + {id};
    }
  }

  lemma NothingSettled(pending: Confirmations, to: nat, lookups: Lookups)
    ensures Remaining(pending, {}, to, lookups) == pending
    ensures Sent(pending, {}, to, lookups) == {}
  {
  }

  /** After a successful round only confirmations that are not due yet, or whose receipt
      could not be fetched although their last verdict was not Invalid, are left. */
  lemma LeftAfterRound(e: Engine, to: nat, events: seq<ParsedEthEvent>, lookups: Lookups, id: EventId)
    requires id in e.pending
    ensures var c := e.pending[id];
            var status := StatusAfter(c.request, c.status, events);
            id in AfterRound(e, to, events, lookups).pending <==>
              c.target > to || (lookups(id) == Failed && status != Invalid)
  {
  }

  /** An Invalid last verdict is answered NotExists whatever the node says; any other due
      confirmation is answered by its receipt. */
  lemma AnsweredByRound(e: Engine, to: nat, events: seq<ParsedEthEvent>, lookups: Lookups, id: EventId)
    requires id in e.pending && e.pending[id].target <= to
    ensures var c := e.pending[id];
            var e' := AfterRound(e, to, events, lookups);
            && (StatusAfter(c.request, c.status, events) == Invalid ==> (c.statusTx, NotExists) in e'.answers)
            && (StatusAfter(c.request, c.status, events) != Invalid && lookups(id).Fetched? ==>
                  (c.statusTx, ReceiptVerdict(c.request, lookups(id).receipt)) in e'.answers)
  {
    var updated := WithEvents(e.pending, events);
    assert id in updated && id in updated.Keys;
    var resolution := ResolutionOf(updated[id], to, lookups(id));
    if resolution.Answer? {
      assert (updated[id].statusTx, resolution.status) in Sent(updated, updated.Keys, to, lookups);
    }
  }

  /** Every confirmation is stored under the id of its event. */
  ghost predicate KeyedById(pending: Confirmations) {
    forall id :: id in pending ==> RequestId(pending[id].request) == id
  }

  lemma RemainingKeyed(pending: Confirmations, settled: set<EventId>, to: nat, lookups: Lookups)
    requires KeyedById(pending)
    ensures KeyedById(Remaining(pending, settled, to, lookups))
  {
  }

  // ---------------------------------------------------------------------------
  // The subscriber
  // ---------------------------------------------------------------------------

  class EthSubscriber {
    const chainId: nat
    const maxBlockRange: Option<nat>
    const topics: TopicsMap
    var lastProcessedBlock: nat
    var lastBlockNumbers: map<nat, nat>
    var pendingConfirmations: Confirmations
    var pendingConfirmationCount: nat
    /** Channels issued, answers sent on them, and channels dropped without an answer. */
    var issued: nat
    var answers: Answers
    var dropped: set<Ticket>

    function View(): Engine
      reads this
    {
      Engine(lastProcessedBlock, pendingConfirmations, issued, answers, dropped)
    }

    ghost predicate Valid()
      reads this
    {
      && pendingConfirmationCount == |pendingConfirmations|
      && KeyedById(pendingConfirmations)
      && chainId in lastBlockNumbers && lastBlockNumbers[chainId] == lastProcessedBlock
    }

    constructor (chainId: nat, maxBlockRange: Option<nat>, topics: TopicsMap, height: nat)
      ensures Valid() && View() == Engine(height, map[], 0, {}, {})
      ensures this.chainId == chainId && this.maxBlockRange == maxBlockRange && this.topics == topics
    {
      this.chainId := chainId;
      this.maxBlockRange := maxBlockRange;
      this.topics := topics;
      lastProcessedBlock := height;
      lastBlockNumbers := map[chainId := height];
      pendingConfirmations := map[];
      pendingConfirmationCount := 0;
      issued := 0;
      answers := {};
      dropped := {};
    }

    /** Registers a request; the result will arrive on the returned ticket. */
    method Verify(request: Request) returns (rx: Ticket)
      requires Valid()
      modifies this
      ensures Valid()
      ensures rx == old(issued) && View() == AfterVerify(old(View()), request)
    {
      var id := RequestId(request);
      rx := issued;
      issued := issued + 1;
      if id in pendingConfirmations {
        dropped := dropped + {pendingConfirmations[id].statusTx};
      }
      pendingConfirmations := pendingConfirmations[id := Confirmation(request, TargetBlock(request), InProcess, rx)];
      pendingConfirmationCount := |pendingConfirmations|;
    }

    /** The height was read; the blocks to query, if any. */
    method SelectBlocks(height: nat) returns (blocks: Option<(nat, nat)>)
      ensures match TargetOf(lastProcessedBlock, height, maxBlockRange)
              case None => blocks == None
              case Some(to) => blocks == Some((lastProcessedBlock, to))
    {
      var currentBlock := height;
      var lastProcessed := lastProcessedBlock;
      if lastProcessed >= currentBlock {
        return None;
      }
      if maxBlockRange.Some? {
        var limit := (lastProcessed + maxBlockRange.value) % U64_MODULUS;
        if limit < currentBlock {
          currentBlock := limit;
        }
      }
      return Some((lastProcessed, currentBlock));
    }

    /** `node` answers a log query, or fails however often it is asked. Without subscriptions
        no query is made. */
    method ProcessBlocks(fromBlock: nat, toBlock: nat, node: Filter -> Option<seq<Log>>)
      returns (r: Result<seq<ParsedEthEvent>, QueryError>)
      requires topics.Valid()
      ensures topics.entries == {} ==> r == Ok([])
      ensures topics.entries != {} ==>
                exists filter :: Queries(filter, topics.entries, fromBlock, toBlock)
                  && r == match node(filter)
                          case Some(logs) => Ok(ParseTransactionLogs(logs))
                          case None => Err(QueryFailed)
    {
      var filter := topics.MakeFilter(fromBlock, toBlock);
      match filter {
        case None => return Ok([]);
        case Some(f) =>
          assert Queries(f, topics.entries, fromBlock, toBlock);
          match node(f) {
            case Some(logs) => return Ok(ParseTransactionLogs(logs));
            case None => return Err(QueryFailed);
          }
      }
    }

    /** The log events of the round. */
    method ApplyEvents(events: seq<ParsedEthEvent>)
      requires Valid()
      modifies this`pendingConfirmations
      ensures Valid()
      ensures pendingConfirmations == WithEvents(old(pendingConfirmations), events)
    {
      ghost var before := pendingConfirmations;
      assert WithEvents(before, []) == before;
      for i := 0 to |events|
        invariant pendingConfirmations == WithEvents(before, events[..i])
      {
        var event := events[i];
        var id := IdOf(event);
        assert events[..i + 1][..i] == events[..i] && events[..i + 1][i] == event;
        if id in pendingConfirmations {
          var confirmation := pendingConfirmations[id];
          var status := if event.Removed? then Invalid else FromVerification(Check(confirmation.request, event));
          pendingConfirmations := pendingConfirmations[id := confirmation.(status := status)];
        }
        assert forall k :: k in before && k != id ==> IdOf(event) != RequestId(before[k].request);
      }
      assert events[..|events|] == events;
      var updated := pendingConfirmations;
      assert updated.Keys == before.Keys;
      assert |updated| == |updated.Keys| && |before| == |before.Keys|;
    }

    /** Takes out what is due and Invalid, and finds what has to be looked up. */
    method RetainUnresolved(to: nat, ghost lookups: Lookups)
      returns (toCheck: set<EventId>, ghost settled: set<EventId>)
      modifies this`pendingConfirmations, this`answers
      ensures var before := old(pendingConfirmations);
              && settled == (set id | id in before && before[id].target <= to && before[id].status == Invalid)
              && toCheck == (set id | id in before && before[id].target <= to && before[id].status != Invalid)
              && pendingConfirmations == Remaining(before, settled, to, lookups)
              && answers == old(answers) + Sent(before, settled, to, lookups)
    {
      var before := pendingConfirmations;
      toCheck, settled := {}, {};
      var todo := before.Keys;
      NothingSettled(before, to, lookups);
      while todo != {}
        invariant todo <= before.Keys && settled !! todo
        invariant settled == set id | id in before && id !in todo && before[id].target <= to
                                      && before[id].status == Invalid
        invariant toCheck == set id | id in before && id !in todo && before[id].target <= to
                                      && before[id].status != Invalid
        invariant pendingConfirmations == Remaining(before, settled, to, lookups)
        invariant answers == old(answers) + Sent(before, settled, to, lookups)
      {
        var id :| id in todo;
        todo := todo - {id};
        var confirmation := before[id];
        if confirmation.target <= to {
          if confirmation.status == Invalid {
            SettleAnswered(before, settled, id, to, lookups);
            settled := settled + {id};
            answers := answers + {(confirmation.statusTx, NotExists)};
            pendingConfirmations := pendingConfirmations - {id};
          } else {
            toCheck := toCheck + {id};
          }
        }
      }
    }

    /** Answers what was looked up; the results arrive in an arbitrary order. */
    method ResolveChecked(before: Confirmations, toCheck: set<EventId>, to: nat, lookups: Lookups,
                          ghost already: set<EventId>, ghost base: Answers)
      requires toCheck !! already && toCheck <= before.Keys
      requires forall id :: id in toCheck ==> before[id].target <= to && before[id].status != Invalid
      requires pendingConfirmations == Remaining(before, already, to, lookups)
      requires answers == base + Sent(before, already, to, lookups)
      modifies this`pendingConfirmations, this`answers
      ensures pendingConfirmations == Remaining(before, already + toCheck, to, lookups)
      ensures answers == base + Sent(before, already + toCheck, to, lookups)
    {
      var todo := toCheck;
      ghost var settled := already;
      while todo != {}
        invariant todo <= toCheck && settled == already + (toCheck - todo)
        invariant pendingConfirmations == Remaining(before, settled, to, lookups)
        invariant answers == base + Sent(before, settled, to, lookups)
      {
        var id :| id in todo;
        todo := todo - {id};
        var confirmation := before[id];
        match lookups(id) {
          case Failed =>
            SettleWaiting(before, settled, id, to, lookups);
          case Fetched(receipt) =>
            SettleAnswered(before, settled, id, to, lookups);
            answers := answers + {(confirmation.statusTx, ReceiptVerdict(confirmation.request, receipt))};
            pendingConfirmations := pendingConfirmations - {id};
        }
        settled := settled + {id};
      }
      assert settled == already + toCheck;
    }

    /** The part of a round made under the lock, once the logs were fetched. */
    method FinishRound(to: nat, events: seq<ParsedEthEvent>, lookups: Lookups)
      requires Valid()
      modifies this
      ensures Valid()
      ensures View() == AfterRound(old(View()), to, events, lookups)
    {
      ApplyEvents(events);
      var updated := pendingConfirmations;
      ghost var sent := answers;
      RemainingKeyed(updated, updated.Keys, to, lookups);
      var toCheck, settled := RetainUnresolved(to, lookups);
      ResolveChecked(updated, toCheck, to, lookups, settled, sent);
      EverythingSettled(updated, settled + toCheck, to, lookups);
      pendingConfirmationCount := |pendingConfirmations|;
      if chainId in lastBlockNumbers {
        lastBlockNumbers := lastBlockNumbers[chainId := to];
        lastProcessedBlock := to;
      }
    }
  }

  /** Confirmations that are not due stay anyway. */
  lemma EverythingSettled(pending: Confirmations, settled: set<EventId>, to: nat, lookups: Lookups)
    requires settled == set id | id in pending && pending[id].target <= to
    ensures Remaining(pending, settled, to, lookups) == Remaining(pending, pending.Keys, to, lookups)
    ensures Sent(pending, settled, to, lookups) == Sent(pending, pending.Keys, to, lookups)
  {
    forall p | p in Sent(pending, pending.Keys, to, lookups) ensures p in Sent(pending, settled, to, lookups) {
      var k :| k in pending && k in pending.Keys && ResolutionOf(pending[k], to, lookups(k)).Answer?
        && p == (pending[k].statusTx, ResolutionOf(pending[k], to, lookups(k)).status);
      assert k in settled;
    }
  }
}
