/**
 Log subscriptions of one chain (`TopicsMap` in src/engine/eth_subscriber/mod.rs).
 */
module TopicsMap {
  import opened Wrappers
  import opened EthEvents
  import opened ShardUtils

  datatype TopicsMapEntry = TopicsMapEntry(address: H160, topicHash: H256, configurationAccount: Account)

  /** The log query: block range inclusive at both ends. */
  datatype Filter = Filter(addresses: seq<H160>, topics: seq<H256>, fromBlock: nat, toBlock: nat)

  /** A node answers with the logs of any listed address whose first topic is listed. */
  predicate Passes(filter: Filter, log: Log) {
    && log.address in filter.addresses
    && log.topics != [] && log.topics[0] in filter.topics
    && InRange(log, filter.fromBlock, filter.toBlock)
  }

  /** The log is of the contract and the topic of the entry. */
  predicate Emits(e: TopicsMapEntry, log: Log) {
    log.address == e.address && log.topics != [] && log.topics[0] == e.topicHash
  }

  predicate InRange(log: Log, fromBlock: nat, toBlock: nat) {
    log.blockNumber.Some? && fromBlock <= log.blockNumber.value <= toBlock
  }

  /** The log has the address of a live entry and the topic of one, in the block range. */
  predicate IsWanted(entries: set<TopicsMapEntry>, fromBlock: nat, toBlock: nat, log: Log) {
    && InRange(log, fromBlock, toBlock) && log.topics != []
    && (exists e :: e in entries && e.address == log.address)
    && (exists e :: e in entries && e.topicHash == log.topics[0])
  }

  /** The query asks for this block range, and lets exactly the wanted logs through. */
  ghost predicate Queries(filter: Filter, entries: set<TopicsMapEntry>, fromBlock: nat, toBlock: nat) {
    && filter.fromBlock == fromBlock && filter.toBlock == toBlock
    && forall log: Log :: Passes(filter, log) <==> IsWanted(entries, fromBlock, toBlock, log)
  }

  /** Among them are all logs of live entries. */
  lemma EmittedIsWanted(e: TopicsMapEntry, entries: set<TopicsMapEntry>, fromBlock: nat, toBlock: nat, log: Log)
    requires e in entries && Emits(e, log) && InRange(log, fromBlock, toBlock)
    ensures IsWanted(entries, fromBlock, toBlock, log)
  {
  }

  /** The list holds each element of the set once and nothing else. */
  ghost predicate Lists<T(!new)>(list: seq<T>, elements: set<T>) {
    && (forall x :: x in list <==> x in elements)
    && (forall i, j :: 0 <= i < j < |list| ==> list[i] != list[j])
  }

  ghost function AddressesOf(entries: set<TopicsMapEntry>): set<H160> {
    set e | e in entries :: e.address
  }

  ghost function TopicsOf(entries: set<TopicsMapEntry>): set<H256> {
    set e | e in entries :: e.topicHash
  }

  /** Collecting a hash set into a list, in an arbitrary order. */
  method Collect<T(==, !new)>(elements: set<T>) returns (list: seq<T>)
    ensures Lists(list, elements)
  {
    list := [];
    var todo := elements;
    while todo != {}
      invariant todo <= elements
      invariant Lists(list, elements - todo)
    {
      var x :| x in todo;
      list := list + [x];
      todo := todo - {x};
    }
  }

  class TopicsMap {
    var entries: set<TopicsMapEntry>
    var uniqueAddresses: seq<H160>
    var uniqueTopics: seq<H256>

    /** The two lists are exactly the projections of the live entries. */
    ghost predicate Valid()
      reads this
    {
      Lists(uniqueAddresses, AddressesOf(entries)) && Lists(uniqueTopics, TopicsOf(entries))
    }

    constructor ()
      ensures Valid() && entries == {}
    {
      entries := {};
      uniqueAddresses := [];
      uniqueTopics := [];
    }

    method MakeFilter(fromBlock: nat, toBlock: nat) returns (filter: Option<Filter>)
      requires Valid()
      ensures filter.None? <==> entries == {}
      ensures filter.Some? ==> Queries(filter.value, entries, fromBlock, toBlock)
    {
      forall e | e in entries ensures e.address in uniqueAddresses && e.topicHash in uniqueTopics {
        assert e.address in AddressesOf(entries) && e.topicHash in TopicsOf(entries);
      }
      if uniqueAddresses == [] || uniqueTopics == [] {
        return None;
      }
      assert uniqueAddresses[0] in AddressesOf(entries);
      filter := Some(Filter(uniqueAddresses, uniqueTopics, fromBlock, toBlock));
      forall log: Log ensures Passes(filter.value, log) <==> IsWanted(entries, fromBlock, toBlock, log) {
        assert log.address in uniqueAddresses <==> log.address in AddressesOf(entries);
        if log.topics != [] {
          assert log.topics[0] in uniqueTopics <==> log.topics[0] in TopicsOf(entries);
        }
      }
    }

    method AddEntry(address: H160, topicHash: H256, configurationAccount: Account)
      requires Valid()
      modifies this
      ensures Valid() && entries == old(entries) + {TopicsMapEntry(address, topicHash, configurationAccount)}
    {
      var entry := TopicsMapEntry(address, topicHash, configurationAccount);
      if entry !in entries {
        entries := entries + {entry};
        Update();
      } else {
        assert entries == old(entries) + {entry};
      }
    }

    method RemoveEntries(removed: seq<TopicsMapEntry>)
      requires Valid()
      modifies this
      ensures Valid() && entries == old(entries) - set e | e in removed
    {
      var shouldUpdate := false;
      for i := 0 to |removed|
        invariant entries == old(entries) - set e | e in removed[..i]
        invariant uniqueAddresses == old(uniqueAddresses) && uniqueTopics == old(uniqueTopics)
        invariant !shouldUpdate ==> entries == old(entries)
      {
        shouldUpdate := shouldUpdate || removed[i] in entries;
        entries := entries - {removed[i]};
      }
      assert removed[..|removed|] == removed;
      if shouldUpdate {
        Update();
      }
    }

    method Update()
      modifies this`uniqueAddresses, this`uniqueTopics
      ensures Valid()
    {
      var addresses: set<H160> := {};
      var topics: set<H256> := {};
      var todo := entries;
      while todo != {}
        invariant todo <= entries
        invariant addresses == AddressesOf(entries - todo)
        invariant topics == TopicsOf(entries - todo)
      {
        var item :| item in todo;
        assert entries - (todo - {item}) == (entries - todo) + {item};
        addresses := addresses + {item.address};
        topics := topics + {item.topicHash};
        todo := todo - {item};
      }
      assert entries - {} == entries;
      uniqueAddresses := Collect(addresses);
      uniqueTopics := Collect(topics);
    }
  }

  // ---------------------------------------------------------------------------
  // Sequences of subscriptions
  // ---------------------------------------------------------------------------

  datatype TopicsOp = Subscribe(entry: TopicsMapEntry) | Unsubscribe(removed: seq<TopicsMapEntry>)

  /** The live entries after a sequence of calls: an entry is live when the last call that
      names it was a subscription. */
  ghost function Live(ops: seq<TopicsOp>): set<TopicsMapEntry> {
    if ops == [] then {}
    else
      var before := Live(ops[..|ops| - 1]);
      match ops[|ops| - 1]
      case Subscribe(e) => before + {e}
      case Unsubscribe(removed) => before - set e | e in removed
  }

  predicate Names(op: TopicsOp, e: TopicsMapEntry) {
    match op
    case Subscribe(x) => x == e
    case Unsubscribe(removed) => e in removed
  }

  /** The call at `i` subscribes the entry and no later call names it. */
  ghost predicate LastNamedBy(ops: seq<TopicsOp>, e: TopicsMapEntry, i: nat) {
    i < |ops| && ops[i] == Subscribe(e) && forall j :: i < j < |ops| ==> !Names(ops[j], e)
  }

  lemma {:induction false} LiveIffLastSubscribed(ops: seq<TopicsOp>, e: TopicsMapEntry)
    ensures e in Live(ops) <==> exists i :: LastNamedBy(ops, e, i)
  {
    if ops != [] {
      var n := |ops| - 1;
      LiveIffLastSubscribed(ops[..n], e);
      forall i: nat | i < n ensures LastNamedBy(ops, e, i) <==> LastNamedBy(ops[..n], e, i) && !Names(ops[n], e) {
        OneMoreCall(ops, e, i);
      }
      assert LastNamedBy(ops, e, n) <==> ops[n] == Subscribe(e);
    }
  }

  lemma OneMoreCall(ops: seq<TopicsOp>, e: TopicsMapEntry, i: nat)
    requires i + 1 < |ops|
    ensures var n := |ops| - 1;
            LastNamedBy(ops, e, i) <==> LastNamedBy(ops[..n], e, i) && !Names(ops[n], e)
  {
    var n := |ops| - 1;
    var front := ops[..n];
    assert forall j :: 0 <= j < n ==> front[j] == ops[j];
    if LastNamedBy(front, e, i) && !Names(ops[n], e) {
      forall j | i < j < |ops| ensures !Names(ops[j], e) {
        assert j == n || ops[j] == front[j];
      }
    }
  }

  method ApplyTopics(topics: TopicsMap, ops: seq<TopicsOp>)
    requires topics.Valid() && topics.entries == {}
    modifies topics
    ensures topics.Valid() && topics.entries == Live(ops)
  {
    for i := 0 to |ops|
      invariant topics.Valid() && topics.entries == Live(ops[..i])
    {
      assert ops[..i + 1][..i] == ops[..i];
      match ops[i] {
        case Subscribe(e) =>
          topics.AddEntry(e.address, e.topicHash, e.configurationAccount);
        case Unsubscribe(removed) =>
          topics.RemoveEntries(removed);
      }
    }
    assert ops[..|ops|] == ops;
  }
}
