/**
 EVM logs and the check of an event against its vote data
 (src/engine/eth_subscriber/models.rs and mod.rs).
 */
module EthEvents {
  import opened Wrappers

  type H256 = nat
  type H160 = nat
  type CellHash = nat
  type Bytes = seq<int>

  /** A transaction hash and an index in its block. */
  type EventId = (H256, nat)

  datatype Log = Log(
    address: H160,
    topics: seq<H256>,
    data: Bytes,
    blockHash: Option<H256>,
    blockNumber: Option<nat>,
    transactionHash: Option<H256>,
    logIndex: Option<nat>,
    removed: Option<bool>)

  datatype ParsedEthEvent =
    | Removed(address: H160, transactionHash: H256, eventIndex: nat)
    | Received(address: H160, transactionHash: H256, eventIndex: nat,
               topicHash: H256, blockNumber: nat, blockHash: H256, data: Bytes)

  function IdOf(event: ParsedEthEvent): EventId {
    (event.transactionHash, event.eventIndex)
  }

  datatype VoteData = VoteData(
    eventTransaction: H256,
    eventIndex: nat,
    eventData: CellHash,
    eventBlockNumber: nat,
    eventBlock: H256)

  /** Decoding event data and mapping it to a cell happens in another crate; only the hash
      of the cell matters here, and decoding may fail. */
  datatype EthEventAbi = EthEventAbi(topicHash: H256, decodeAndMap: Bytes -> Option<CellHash>)

  datatype VerificationStatus = Exists | NotExists

  /** What a caller asks to be verified. */
  datatype Request = Request(vote: VoteData, emitter: H160, abi: EthEventAbi, blocksToConfirm: nat)

  function RequestId(r: Request): EventId {
    (r.vote.eventTransaction, r.vote.eventIndex)
  }

  function TargetBlock(r: Request): nat {
    r.vote.eventBlockNumber + r.blocksToConfirm
  }

  // ---------------------------------------------------------------------------
  // Parsing
  // ---------------------------------------------------------------------------

  /** A log without one of the needed fields is not an event; a removed one needs fewer. */
  function ParseLog(log: Log): Option<ParsedEthEvent> {
    if log.transactionHash.None? || log.logIndex.None? then None
    else if log.removed == Some(true) then
      Some(Removed(log.address, log.transactionHash.value, log.logIndex.value))
    else if log.topics == [] || log.blockNumber.None? || log.blockHash.None? then None
    else
      Some(Received(log.address, log.transactionHash.value, log.logIndex.value,
                    log.topics[0], log.blockNumber.value, log.blockHash.value, log.data))
  }

  /** Which logs are events, and which of these withdraw one. */
  lemma ParsedIff(log: Log)
    ensures ParseLog(log).Some? <==>
              && log.transactionHash.Some? && log.logIndex.Some?
              && (log.removed == Some(true) || (log.topics != [] && log.blockNumber.Some? && log.blockHash.Some?))
    ensures ParseLog(log).Some? ==>
              && IdOf(ParseLog(log).value) == (log.transactionHash.value, log.logIndex.value)
              && (ParseLog(log).value.Removed? <==> log.removed == Some(true))
  {
  }

  function ParseTransactionLogs(logs: seq<Log>): (events: seq<ParsedEthEvent>) {
    if logs == [] then []
    else
      var rest := ParseTransactionLogs(logs[1..]);
      match ParseLog(logs[0])
      case Some(event) => [event] + rest
      case None => rest
  }

  lemma {:induction false} ParsedConcat(a: seq<Log>, b: seq<Log>)
    ensures ParseTransactionLogs(a + b) == ParseTransactionLogs(a) + ParseTransactionLogs(b)
  {
    if a == [] {
      assert a + b == b;
    } else {
      assert (a + b)[1..] == a[1..] + b;
      ParsedConcat(a[1..], b);
    }
  }

  /** Every parsed event comes from a log of the list. */
  lemma {:induction false} ParsedFromLog(logs: seq<Log>, event: ParsedEthEvent) returns (log: Log)
    requires event in ParseTransactionLogs(logs)
    ensures log in logs && ParseLog(log) == Some(event)
  {
    if ParseLog(logs[0]) == Some(event) {
      log := logs[0];
    } else {
      log := ParsedFromLog(logs[1..], event);
    }
  }

  // ---------------------------------------------------------------------------
  // Receipts
  // ---------------------------------------------------------------------------

  datatype Receipt = Receipt(status: Option<nat>, logs: seq<Log>)

  /** What asking the node for the receipt of a transaction gave. */
  datatype Lookup = Failed | Fetched(receipt: Option<Receipt>)

  /** Searching from the end, as the reversed iterator does. */
  function FindLast(events: seq<ParsedEthEvent>, id: EventId): (r: Option<ParsedEthEvent>)
  {
    if events == [] then None
    else if IdOf(events[|events| - 1]) == id then Some(events[|events| - 1])
    else FindLast(events[..|events| - 1], id)
  }

  /** The search finds the last event with the id, and nothing only if there is none. */
  lemma {:induction false} FindLastFinds(events: seq<ParsedEthEvent>, id: EventId)
    ensures match FindLast(events, id)
            case None => forall e :: e in events ==> IdOf(e) != id
            case Some(event) =>
              exists i :: 0 <= i < |events| && events[i] == event && IdOf(event) == id &&
                forall j :: i < j < |events| ==> IdOf(events[j]) != id
  {
    if events != [] {
      var front := events[..|events| - 1];
      FindLastFinds(front, id);
      if IdOf(events[|events| - 1]) != id {
        match FindLast(front, id)
        case None =>
          assert forall e :: e in events ==> e in front || e == events[|events| - 1];
        case Some(event) =>
          var i :| 0 <= i < |front| && front[i] == event && IdOf(event) == id &&
            forall j :: i < j < |front| ==> IdOf(front[j]) != id;
          assert forall j :: i < j < |events| ==> j == |events| - 1 || events[j] == front[j];
          assert events[i] == event;
      } else {
        assert events[|events| - 1] == FindLast(events, id).value;
      }
    }
  }

  /** The event of a successful transaction; a missing or failed one has no event. */
  function FindEvent(receipt: Option<Receipt>, id: EventId): Option<ParsedEthEvent> {
    if receipt.Some? && receipt.value.status == Some(1)
    then FindLast(ParseTransactionLogs(receipt.value.logs), id)
    else None
  }

  // ---------------------------------------------------------------------------
  // Check
  // ---------------------------------------------------------------------------

  function Check(r: Request, event: ParsedEthEvent): VerificationStatus
    requires event.Received?
  {
    if event.address != r.emitter
       || event.topicHash != r.abi.topicHash
       || event.eventIndex != r.vote.eventIndex
       || event.transactionHash != r.vote.eventTransaction
       || event.blockNumber != r.vote.eventBlockNumber
       || event.blockHash != r.vote.eventBlock
    then NotExists
    else
      match r.abi.decodeAndMap(event.data)
      case Some(cell) => if cell == r.vote.eventData then Exists else NotExists
      case None => NotExists
  }

  /** The verdict of a receipt that was fetched. */
  function ReceiptVerdict(r: Request, receipt: Option<Receipt>): VerificationStatus {
    match FindEvent(receipt, RequestId(r))
    case Some(Received(a, t, i, topic, n, b, d)) => Check(r, Received(a, t, i, topic, n, b, d))
    case Some(Removed(_, _, _)) => NotExists
    case None => NotExists
  }

  /** The receipt proves the request: the transaction succeeded, and the last of its logs with
      the id of the event agrees with the vote on every field. */
  ghost predicate ReceiptProves(r: Request, receipt: Option<Receipt>) {
    receipt.Some? && receipt.value.status == Some(1) && LastLogProves(r, receipt.value.logs)
  }

  predicate LogProves(r: Request, log: Log) {
    && log.address == r.emitter
    && log.transactionHash == Some(r.vote.eventTransaction)
    && log.logIndex == Some(r.vote.eventIndex)
    && log.removed != Some(true)
    && log.topics != [] && log.topics[0] == r.abi.topicHash
    && log.blockNumber == Some(r.vote.eventBlockNumber)
    && log.blockHash == Some(r.vote.eventBlock)
    && r.abi.decodeAndMap(log.data) == Some(r.vote.eventData)
  }

  /** The log is an event with the id of the request, or withdraws that event. */
  predicate ReplacesEvent(r: Request, log: Log) {
    && log.transactionHash == Some(r.vote.eventTransaction) && log.logIndex == Some(r.vote.eventIndex)
    && (log.removed == Some(true) || (log.topics != [] && log.blockNumber.Some? && log.blockHash.Some?))
  }

  lemma ReplacesIffParsed(r: Request, log: Log)
    ensures ReplacesEvent(r, log) <==> ParseLog(log).Some? && IdOf(ParseLog(log).value) == RequestId(r)
  {
  }

  /** The last log with the id of the request is this one. */
  ghost predicate LastLogIs(r: Request, logs: seq<Log>, i: nat) {
    i < |logs| && ReplacesEvent(r, logs[i]) && forall j :: i < j < |logs| ==> !ReplacesEvent(r, logs[j])
  }

  ghost predicate LastLogProves(r: Request, logs: seq<Log>) {
    exists i: nat :: LastLogIs(r, logs, i) && LogProves(r, logs[i])
  }

  /** There is such a log, and it does not agree with the vote, or withdraws the event. */
  ghost predicate LastLogDisproves(r: Request, logs: seq<Log>) {
    exists i: nat :: LastLogIs(r, logs, i) && !LogProves(r, logs[i])
  }

  lemma LogProvesIffChecked(r: Request, log: Log)
    ensures LogProves(r, log) <==>
              ParseLog(log).Some? && ParseLog(log).value.Received? && Check(r, ParseLog(log).value) == Exists
    ensures LogProves(r, log) ==> ReplacesEvent(r, log)
  {
  }

  lemma ParsedOneMore(logs: seq<Log>, log: Log)
    ensures ParseTransactionLogs(logs + [log])
         == ParseTransactionLogs(logs) + (if ParseLog(log).Some? then [ParseLog(log).value] else [])
  {
    ParsedConcat(logs, [log]);
    assert [log][1..] == [];
  }

  /** The last event of the list with the id, in terms of the logs it was parsed from. */
  lemma {:induction false} FindLastLog(r: Request, logs: seq<Log>) returns (i: nat)
    ensures match FindLast(ParseTransactionLogs(logs), RequestId(r))
            case None => forall j :: 0 <= j < |logs| ==> !ReplacesEvent(r, logs[j])
            case Some(event) => LastLogIs(r, logs, i) && ParseLog(logs[i]) == Some(event)
  {
    i := 0;
    if logs != [] {
      var n := |logs| - 1;
      ReplacesIffParsed(r, logs[n]);
      ParsedOneMore(logs[..n], logs[n]);
      assert logs == logs[..n] + [logs[n]];
      var before := ParseTransactionLogs(logs[..n]);
      if ReplacesEvent(r, logs[n]) {
        i := n;
      } else {
        i := FindLastLog(r, logs[..n]);
        if ParseLog(logs[n]).Some? {
          assert ParseTransactionLogs(logs)[..|before|] == before;
        } else {
          assert ParseTransactionLogs(logs) == before;
        }
      }
    }
  }

  /** The verdict is Exists exactly when the receipt proves the request. */
  lemma VerdictIffProof(r: Request, receipt: Option<Receipt>)
    ensures ReceiptVerdict(r, receipt) == Exists <==> ReceiptProves(r, receipt)
  {
    if receipt.Some? && receipt.value.status == Some(1) {
      var logs := receipt.value.logs;
      var k := FindLastLog(r, logs);
      if ReceiptProves(r, receipt) {
        var i: nat :| LastLogIs(r, logs, i) && LogProves(r, logs[i]);
        LogProvesIffChecked(r, logs[i]);
        assert i == k;
      }
      if FindLast(ParseTransactionLogs(logs), RequestId(r)).Some? {
        LogProvesIffChecked(r, logs[k]);
      }
    }
  }
}
