/**
 The registry of connectors and event configurations (src/engine/bridge/mod.rs).

 Every operation here runs under the lock of the bridge state, counters included.
 Code hashes and topics are numbers; what a configuration contract returns is a parameter,
 and so is the id of the observer made for a new configuration.
 */
module BridgeRegistry {
  import opened Maps
  import opened Words
  import opened Wrappers
  import opened EthEvents
  import opened ShardUtils
  import opened TonSubscriber
  import opened TopicsMap

  type ChainId = nat
  type CodeHash = nat

  datatype EventType = EthEvent | TonEvent

  datatype RegistryError =
    | ContractError
    | UnknownConnector
    | InvalidAbi
    | UnknownChainId
    | InvalidEventConfiguration
    | EventConfigurationAlreadyExists
    | UnknownConfiguration

  datatype EthDetails = EthDetails(eventCode: CodeHash, chainId: ChainId, eventEmitter: H160, endBlockNumber: nat)

  datatype TonDetails = TonDetails(eventCode: CodeHash, endTimestamp: nat)

  /** What the getters of a configuration contract return; the topic of an ETH event is what
      its ABI parses to, and None where parsing fails. */
  datatype ConfigurationContract = ConfigurationContract(
    eventType: Option<EventType>,
    ethDetails: Option<EthDetails>,
    ethTopic: Option<H256>,
    tonDetails: Option<TonDetails>,
    tonAbiValid: bool)

  datatype EthConfiguration = EthConfiguration(details: EthDetails, topicHash: H256)

  type EthConfigurations = map<Account, EthConfiguration>
  type TonConfigurations = map<Account, TonDetails>
  type CodeHashes = map<CodeHash, EventType>

  datatype Registry = Registry(
    connectors: set<Account>,
    eth: EthConfigurations,
    ton: TonConfigurations,
    codeHashes: CodeHashes,
    ethCount: nat,
    tonCount: nat,
    topics: map<ChainId, set<TopicsMapEntry>>)

  // ---------------------------------------------------------------------------
  // Operations
  // ---------------------------------------------------------------------------

  /** A code hash keeps the type it was first registered with. */
  function AddedCodeHash(hashes: CodeHashes, code: CodeHash, eventType: EventType): Option<CodeHashes> {
    if code !in hashes then Some(hashes[code := eventType])
    else if hashes[code] == eventType then Some(hashes)
    else None
  }

  function EntryOf(account: Account, c: EthConfiguration): TopicsMapEntry {
    TopicsMapEntry(c.details.eventEmitter, c.topicHash, account)
  }

  /** A new configuration is counted, and subscribed with the engine of its chain. */
  function Inserted(r: Registry, account: Account, c: EthConfiguration): Registry
    requires c.details.chainId in r.topics
  {
    r.(eth := r.eth[account := c],
       ethCount := (r.ethCount + 1) % U64_MODULUS,
       topics := r.topics[c.details.chainId := r.topics[c.details.chainId] + {EntryOf(account, c)}])
  }

  /** The code hash is registered before the account is looked up, so it stays registered
      when the configuration turns out to exist. */
  function AfterAddEth(r: Registry, account: Account, contract: ConfigurationContract)
    : (Registry, Option<RegistryError>)
  {
    if contract.ethDetails.None? then (r, Some(ContractError))
    else if contract.ethTopic.None? then (r, Some(InvalidAbi))
    else
      var details := contract.ethDetails.value;
      if details.chainId !in r.topics then (r, Some(UnknownChainId))
      else
        match AddedCodeHash(r.codeHashes, details.eventCode, EthEvent)
        case None => (r, Some(InvalidEventConfiguration))
        case Some(hashes) =>
          var registered := r.(codeHashes := hashes);
          if account in r.eth then (registered, Some(EventConfigurationAlreadyExists))
          else
            var configuration := EthConfiguration(details, contract.ethTopic.value);
            (Inserted(registered, account, configuration), None)
  }

  /** `(1..now).contains(end)`: without an end timestamp a configuration never expires. */
  predicate IsExpired(c: TonDetails, now: nat) {
    1 <= c.endTimestamp < now
  }

  function InsertedTon(r: Registry, account: Account, details: TonDetails): Registry {
    r.(ton := r.ton[account := details], tonCount := (r.tonCount + 1) % U64_MODULUS)
  }

  /** An expired configuration is ignored without an error. */
  function AfterAddTon(r: Registry, account: Account, contract: ConfigurationContract, now: nat)
    : (Registry, Option<RegistryError>)
  {
    if contract.tonDetails.None? then (r, Some(ContractError))
    else if IsExpired(contract.tonDetails.value, now) then (r, None)
    else if !contract.tonAbiValid then (r, Some(InvalidAbi))
    else
      var details := contract.tonDetails.value;
      match AddedCodeHash(r.codeHashes, details.eventCode, TonEvent)
      case None => (r, Some(InvalidEventConfiguration))
      case Some(hashes) =>
        var registered := r.(codeHashes := hashes);
        if account in r.ton then (registered, Some(EventConfigurationAlreadyExists))
        else (InsertedTon(registered, account, details), None)
  }

  function AfterProcess(r: Registry, connector: Account, account: Account, contract: ConfigurationContract, now: nat)
    : (Registry, Option<RegistryError>)
  {
    match contract.eventType
    case None => (r, Some(ContractError))
    case Some(eventType) =>
      if connector !in r.connectors then (r, Some(UnknownConnector))
      else if eventType == EthEvent then AfterAddEth(r, account, contract)
      else AfterAddTon(r, account, contract, now)
  }

  function AfterSetEndBlock(r: Registry, account: Account, endBlock: nat): (Registry, Option<RegistryError>) {
    if account !in r.eth then (r, Some(UnknownConfiguration))
    else
      var c := r.eth[account];
      (r.(eth := r.eth[account := c.(details := c.details.(endBlockNumber := endBlock))]), None)
  }

  function AfterSetEndTimestamp(r: Registry, account: Account, end: nat): (Registry, Option<RegistryError>) {
    if account !in r.ton then (r, Some(UnknownConfiguration))
    else (r.(ton := r.ton[account := r.ton[account].(endTimestamp := end)]), None)
  }

  function Unexpired(ton: TonConfigurations, now: nat): TonConfigurations {
    map account | account in ton && !IsExpired(ton[account], now) :: ton[account]
  }

  /** `fetch_sub(removed)` on a usize. */
  function CountedDown(count: nat, removed: int): nat {
    (count + (U64_MODULUS - removed % U64_MODULUS)) % U64_MODULUS
  }

  function AfterCollect(r: Registry, now: nat): Registry {
    var left := Unexpired(r.ton, now);
    r.(ton := left, tonCount := CountedDown(r.tonCount, |r.ton| - |left|))
  }

  // ---------------------------------------------------------------------------
  // Words
  // ---------------------------------------------------------------------------

  lemma WordMinus(n: nat, removed: nat)
    requires removed <= n
    ensures CountedDown(n % U64_MODULUS, removed) == (n - removed) % U64_MODULUS
  {
    var q, a := n / U64_MODULUS, n % U64_MODULUS;
    var p, b := removed / U64_MODULUS, removed % U64_MODULUS;
    assert n == q * U64_MODULUS + a && removed == p * U64_MODULUS + b;
    if a >= b {
      assert a + (U64_MODULUS - b) == (a - b) + U64_MODULUS;
      assert n - removed == (q - p) * U64_MODULUS + (a - b);
    } else {
      assert n - removed == (q - p - 1) * U64_MODULUS + (a - b + U64_MODULUS);
    }
  }

  lemma UnexpiredSize(ton: TonConfigurations, now: nat)
    ensures |Unexpired(ton, now)| <= |ton|
  {
    assert Unexpired(ton, now).Keys <= ton.Keys;
    SubsetSize(Unexpired(ton, now).Keys, ton.Keys);
    assert |Unexpired(ton, now)| == |Unexpired(ton, now).Keys| && |ton| == |ton.Keys|;
  }

  // ---------------------------------------------------------------------------
  // Invariants
  // ---------------------------------------------------------------------------

  /** Code of an active configuration is registered with the type of the configuration. */
  ghost predicate TypesRegistered(r: Registry) {
    && (forall a :: a in r.eth ==>
          r.eth[a].details.eventCode in r.codeHashes && r.codeHashes[r.eth[a].details.eventCode] == EthEvent)
    && (forall a :: a in r.ton ==>
          r.ton[a].eventCode in r.codeHashes && r.codeHashes[r.ton[a].eventCode] == TonEvent)
  }

  /** An active ETH configuration is subscribed with the engine of its chain: for the logs of
      its contract with its topic. */
  ghost predicate TopicsSubscribed(r: Registry) {
    forall a :: a in r.eth ==>
      && r.eth[a].details.chainId in r.topics
      && TopicsMapEntry(r.eth[a].details.eventEmitter, r.eth[a].topicHash, a) in r.topics[r.eth[a].details.chainId]
  }

  ghost predicate CountersExact(r: Registry) {
    r.ethCount == |r.eth| % U64_MODULUS && r.tonCount == |r.ton| % U64_MODULUS
  }

  ghost predicate RegistryInv(r: Registry) {
    TypesRegistered(r) && TopicsSubscribed(r) && CountersExact(r)
  }

  ghost predicate Extends(hashes: CodeHashes, after: CodeHashes) {
    forall h :: h in hashes ==> h in after && after[h] == hashes[h]
  }

  ghost predicate HashesExtend(r: Registry, r': Registry) {
    Extends(r.codeHashes, r'.codeHashes)
  }

  /** So no code is shared between an ETH and a TON configuration. */
  lemma NoSharedCode(r: Registry, a: Account, b: Account)
    requires TypesRegistered(r) && a in r.eth && b in r.ton
    ensures r.eth[a].details.eventCode != r.ton[b].eventCode
  {
  }

  /** The code hashes only grow, by one of a type that fits. */
  lemma CodeHashAdded(hashes: CodeHashes, code: CodeHash, eventType: EventType, after: CodeHashes)
    requires AddedCodeHash(hashes, code, eventType) == Some(after)
    ensures code in after && after[code] == eventType
    ensures Extends(hashes, after)
  {
  }

  lemma HashesKeepInv(r: Registry, after: CodeHashes)
    requires RegistryInv(r) && Extends(r.codeHashes, after)
    ensures RegistryInv(r.(codeHashes := after)) && HashesExtend(r, r.(codeHashes := after))
  {
  }

  lemma InsertKeepsTypes(r: Registry, account: Account, c: EthConfiguration)
    requires TypesRegistered(r) && c.details.chainId in r.topics
    requires c.details.eventCode in r.codeHashes && r.codeHashes[c.details.eventCode] == EthEvent
    ensures TypesRegistered(Inserted(r, account, c))
  {
  }

  lemma InsertKeepsTopics(r: Registry, account: Account, c: EthConfiguration)
    requires TopicsSubscribed(r) && c.details.chainId in r.topics
    ensures TopicsSubscribed(Inserted(r, account, c))
  {
  }

  lemma InsertKeepsCounters(r: Registry, account: Account, c: EthConfiguration)
    requires CountersExact(r) && c.details.chainId in r.topics && account !in r.eth
    ensures CountersExact(Inserted(r, account, c))
  {
    SizeAfterUpdate(r.eth, account, c);
    WordUp(|r.eth|);
  }

  lemma AddEthKeeps(r: Registry, account: Account, contract: ConfigurationContract)
    requires RegistryInv(r)
    ensures RegistryInv(AfterAddEth(r, account, contract).0) && HashesExtend(r, AfterAddEth(r, account, contract).0)
  {
    if contract.ethDetails.Some? && contract.ethTopic.Some? && contract.ethDetails.value.chainId in r.topics {
      var details := contract.ethDetails.value;
      match AddedCodeHash(r.codeHashes, details.eventCode, EthEvent)
      case None =>
      case Some(hashes) =>
        CodeHashAdded(r.codeHashes, details.eventCode, EthEvent, hashes);
        HashesKeepInv(r, hashes);
        if account !in r.eth {
          var registered, c := r.(codeHashes := hashes), EthConfiguration(details, contract.ethTopic.value);
          InsertKeepsTypes(registered, account, c);
          InsertKeepsTopics(registered, account, c);
          InsertKeepsCounters(registered, account, c);
        }
    }
  }

  lemma InsertTonKeeps(r: Registry, account: Account, details: TonDetails)
    requires RegistryInv(r) && account !in r.ton
    requires details.eventCode in r.codeHashes && r.codeHashes[details.eventCode] == TonEvent
    ensures RegistryInv(InsertedTon(r, account, details))
  {
    SizeAfterUpdate(r.ton, account, details);
    WordUp(|r.ton|);
  }

  lemma AddTonKeeps(r: Registry, account: Account, contract: ConfigurationContract, now: nat)
    requires RegistryInv(r)
    ensures RegistryInv(AfterAddTon(r, account, contract, now).0)
    ensures HashesExtend(r, AfterAddTon(r, account, contract, now).0)
  {
    if contract.tonDetails.Some? && !IsExpired(contract.tonDetails.value, now) && contract.tonAbiValid {
      var details := contract.tonDetails.value;
      match AddedCodeHash(r.codeHashes, details.eventCode, TonEvent)
      case None =>
      case Some(hashes) =>
        CodeHashAdded(r.codeHashes, details.eventCode, TonEvent, hashes);
        HashesKeepInv(r, hashes);
        if account !in r.ton {
          InsertTonKeeps(r.(codeHashes := hashes), account, details);
        }
    }
  }

  lemma ProcessKeeps(r: Registry, connector: Account, account: Account, contract: ConfigurationContract, now: nat)
    requires RegistryInv(r)
    ensures RegistryInv(AfterProcess(r, connector, account, contract, now).0)
    ensures HashesExtend(r, AfterProcess(r, connector, account, contract, now).0)
  {
    if contract.eventType.Some? && connector in r.connectors {
      if contract.eventType.value == EthEvent {
        AddEthKeeps(r, account, contract);
      } else {
        AddTonKeeps(r, account, contract, now);
      }
    }
  }

  lemma SetEndBlockKeeps(r: Registry, account: Account, end: nat)
    requires RegistryInv(r)
    ensures RegistryInv(AfterSetEndBlock(r, account, end).0) && HashesExtend(r, AfterSetEndBlock(r, account, end).0)
  {
    if account in r.eth {
      SizeAfterUpdate(r.eth, account, AfterSetEndBlock(r, account, end).0.eth[account]);
    }
  }

  lemma SetEndTimestampKeeps(r: Registry, account: Account, end: nat)
    requires RegistryInv(r)
    ensures RegistryInv(AfterSetEndTimestamp(r, account, end).0)
    ensures HashesExtend(r, AfterSetEndTimestamp(r, account, end).0)
  {
    if account in r.ton {
      SizeAfterUpdate(r.ton, account, r.ton[account].(endTimestamp := end));
    }
  }

  lemma SubscribeKeeps(r: Registry, chain: ChainId, entry: TopicsMapEntry)
    requires RegistryInv(r) && chain in r.topics
    ensures RegistryInv(r.(topics := r.topics[chain := r.topics[chain] + {entry}]))
  {
  }

  lemma CollectKeeps(r: Registry, now: nat)
    requires RegistryInv(r)
    ensures RegistryInv(AfterCollect(r, now)) && HashesExtend(r, AfterCollect(r, now))
  {
    UnexpiredSize(r.ton, now);
    WordMinus(|r.ton|, |r.ton| - |Unexpired(r.ton, now)|);
  }

  // ---------------------------------------------------------------------------
  // Runs
  // ---------------------------------------------------------------------------

  datatype RegistryOp =
    | AddConnector(account: Account)
    | ProcessConfiguration(connector: Account, account: Account, contract: ConfigurationContract, now: nat)
    | SetEndBlock(account: Account, endBlock: nat)
    | SetEndTimestamp(account: Account, end: nat)
    | Collect(now: nat)
    | SubscribeTopic(chain: ChainId, entry: TopicsMapEntry)

  function Apply(r: Registry, op: RegistryOp): Registry {
    match op
    case AddConnector(account) => r.(connectors := r.connectors + {account})
    case ProcessConfiguration(connector, account, contract, now) => AfterProcess(r, connector, account, contract, now).0
    case SetEndBlock(account, endBlock) => AfterSetEndBlock(r, account, endBlock).0
    case SetEndTimestamp(account, end) => AfterSetEndTimestamp(r, account, end).0
    case Collect(now) => AfterCollect(r, now)
    case SubscribeTopic(chain, entry) =>
      if chain in r.topics then r.(topics := r.topics[chain := r.topics[chain] + {entry}]) else r
  }

  function ApplyAll(r: Registry, ops: seq<RegistryOp>): Registry {
    if ops == [] then r else Apply(ApplyAll(r, ops[..|ops| - 1]), ops[|ops| - 1])
  }

  lemma StepKeeps(r: Registry, op: RegistryOp)
    requires RegistryInv(r)
    ensures RegistryInv(Apply(r, op)) && HashesExtend(r, Apply(r, op))
  {
    match op
    case ProcessConfiguration(connector, account, contract, now) =>
      ProcessKeeps(r, connector, account, contract, now);
    case SetEndBlock(account, endBlock) => SetEndBlockKeeps(r, account, endBlock);
    case SetEndTimestamp(account, end) => SetEndTimestampKeeps(r, account, end);
    case Collect(now) => CollectKeeps(r, now);
    case AddConnector(_) =>
    case SubscribeTopic(chain, entry) =>
      if chain in r.topics {
        SubscribeKeeps(r, chain, entry);
      }
  }

  function Opened(topics: map<ChainId, set<TopicsMapEntry>>): Registry {
    Registry({}, map[], map[], map[], 0, 0, topics)
  }

  /** From an empty registry, every sequence of operations keeps the invariants. */
  lemma {:induction false} RunKeepsRegistry(topics: map<ChainId, set<TopicsMapEntry>>, ops: seq<RegistryOp>)
    ensures RegistryInv(ApplyAll(Opened(topics), ops))
  {
    if ops != [] {
      RunKeepsRegistry(topics, ops[..|ops| - 1]);
      StepKeeps(ApplyAll(Opened(topics), ops[..|ops| - 1]), ops[|ops| - 1]);
    }
  }

  /** A code hash never changes its type, whatever happens later. */
  lemma {:induction false} TypesAreFinal(r: Registry, ops: seq<RegistryOp>)
    requires RegistryInv(r)
    ensures RegistryInv(ApplyAll(r, ops)) && HashesExtend(r, ApplyAll(r, ops))
  {
    if ops != [] {
      TypesAreFinal(r, ops[..|ops| - 1]);
      StepKeeps(ApplyAll(r, ops[..|ops| - 1]), ops[|ops| - 1]);
    }
  }

  // ---------------------------------------------------------------------------
  // What is registered
  // ---------------------------------------------------------------------------

  /** The end lies before this time; 0 is no end. */
  predicate HasEnded(end: nat, now: nat) {
    end != 0 && end < now
  }

  /** No event of the other type has this code. */
  predicate CodeFits(hashes: CodeHashes, code: CodeHash, eventType: EventType) {
    code !in hashes || hashes[code] == eventType
  }

  /** The operation brings a configuration of this type for the account, from a known connector. */
  predicate IsOffered(r: Registry, op: RegistryOp, account: Account, eventType: EventType) {
    && op.ProcessConfiguration? && op.account == account && op.connector in r.connectors
    && op.contract.eventType == Some(eventType)
  }

  predicate EthAccepted(r: Registry, op: RegistryOp, account: Account) {
    && IsOffered(r, op, account, EthEvent) && account !in r.eth
    && op.contract.ethDetails.Some? && op.contract.ethTopic.Some?
    && op.contract.ethDetails.value.chainId in r.topics
    && CodeFits(r.codeHashes, op.contract.ethDetails.value.eventCode, EthEvent)
  }

  predicate TonAccepted(r: Registry, op: RegistryOp, account: Account) {
    && IsOffered(r, op, account, TonEvent) && account !in r.ton
    && op.contract.tonDetails.Some? && op.contract.tonAbiValid
    && !HasEnded(op.contract.tonDetails.value.endTimestamp, op.now)
    && CodeFits(r.codeHashes, op.contract.tonDetails.value.eventCode, TonEvent)
  }

  /** The collector comes at a time when the configuration has ended. */
  predicate TonCollected(r: Registry, op: RegistryOp, account: Account) {
    op.Collect? && account in r.ton && HasEnded(r.ton[account].endTimestamp, op.now)
  }

  /** A TON configuration is there after an operation exactly if it is accepted by it, or was
      there and is not collected by it; nothing but its end timestamp ever changes. */
  lemma TonEntryAfter(r: Registry, op: RegistryOp, account: Account)
    ensures account in Apply(r, op).ton <==>
              TonAccepted(r, op, account) || (account in r.ton && !TonCollected(r, op, account))
    ensures TonAccepted(r, op, account) ==> Apply(r, op).ton[account] == op.contract.tonDetails.value
    ensures account in r.ton && account in Apply(r, op).ton ==>
              Apply(r, op).ton[account]
              == if op.SetEndTimestamp? && op.account == account
                 then r.ton[account].(endTimestamp := op.end) else r.ton[account]
  {
  }

  /** The same for ETH configurations, which nothing removes, and their end blocks. */
  lemma EthEntryAfter(r: Registry, op: RegistryOp, account: Account)
    ensures account in Apply(r, op).eth <==> EthAccepted(r, op, account) || account in r.eth
    ensures EthAccepted(r, op, account) ==>
              Apply(r, op).eth[account] == EthConfiguration(op.contract.ethDetails.value, op.contract.ethTopic.value)
    ensures account in r.eth ==>
              Apply(r, op).eth[account]
              == if op.SetEndBlock? && op.account == account
                 then r.eth[account].(details := r.eth[account].details.(endBlockNumber := op.endBlock))
                 else r.eth[account]
  {
  }

  /** The operation subscribes this entry with the engine of the chain. */
  predicate Subscribes(r: Registry, op: RegistryOp, chain: ChainId, e: TopicsMapEntry) {
    || (op.SubscribeTopic? && op.chain == chain && op.entry == e)
    || (op.ProcessConfiguration? && EthAccepted(r, op, op.account)
        && op.contract.ethDetails.value.chainId == chain && e.address == op.contract.ethDetails.value.eventEmitter
        && e.topicHash == op.contract.ethTopic.value && e.configurationAccount == op.account)
  }

  lemma ProcessSubscribes(r: Registry, op: RegistryOp, chain: ChainId, e: TopicsMapEntry)
    requires op.ProcessConfiguration? && chain in r.topics
    ensures chain in Apply(r, op).topics
    ensures e in Apply(r, op).topics[chain] <==> e in r.topics[chain] || Subscribes(r, op, chain, e)
    ensures Apply(r, op).connectors == r.connectors
  {
  }

  /** Log subscriptions come from accepted ETH configurations, one each with the engine of their
      chain, and from whoever else subscribes; connectors are known once added. */
  lemma SubscriptionsAfter(r: Registry, op: RegistryOp, chain: ChainId, e: TopicsMapEntry)
    requires chain in r.topics
    ensures chain in Apply(r, op).topics
    ensures e in Apply(r, op).topics[chain] <==> e in r.topics[chain] || Subscribes(r, op, chain, e)
    ensures forall a :: a in Apply(r, op).connectors <==> a in r.connectors || op == AddConnector(a)
  {
    if op.ProcessConfiguration? {
      ProcessSubscribes(r, op, chain, e);
    }
  }

  /** Processing succeeds exactly for what is accepted, and for a TON configuration that has
      ended, which is let pass. */
  lemma ProcessSucceedsIff(r: Registry, connector: Account, account: Account, contract: ConfigurationContract, now: nat)
    ensures var op := ProcessConfiguration(connector, account, contract, now);
            var passed := IsOffered(r, op, account, TonEvent) && contract.tonDetails.Some?
                          && HasEnded(contract.tonDetails.value.endTimestamp, now);
            && (AfterProcess(r, connector, account, contract, now).1 == None <==>
                  EthAccepted(r, op, account) || TonAccepted(r, op, account) || passed)
            && (passed ==> Apply(r, op) == r)
  {
  }

  /** The registry before operation `i`. */
  function Before(topics: map<ChainId, set<TopicsMapEntry>>, ops: seq<RegistryOp>, i: nat): Registry
    requires i <= |ops|
  {
    ApplyAll(Opened(topics), ops[..i])
  }

  ghost predicate TonAcceptedAt(topics: map<ChainId, set<TopicsMapEntry>>, ops: seq<RegistryOp>, account: Account,
                                i: nat)
  {
    i < |ops| && TonAccepted(Before(topics, ops, i), ops[i], account)
  }

  ghost predicate TonCollectedAt(topics: map<ChainId, set<TopicsMapEntry>>, ops: seq<RegistryOp>, account: Account,
                                 i: nat)
  {
    i < |ops| && TonCollected(Before(topics, ops, i), ops[i], account)
  }

  /** Accepted at `i`, and not collected since. */
  ghost predicate HoldsSince(topics: map<ChainId, set<TopicsMapEntry>>, ops: seq<RegistryOp>, account: Account,
                             i: nat)
  {
    TonAcceptedAt(topics, ops, account, i) && forall j :: i < j < |ops| ==> !TonCollectedAt(topics, ops, account, j)
  }

  /** In every run a TON configuration is registered exactly when it was accepted at some time
      and not collected after that. */
  lemma {:induction false} TonRegisteredIff(topics: map<ChainId, set<TopicsMapEntry>>, ops: seq<RegistryOp>,
                                            account: Account)
    ensures account in ApplyAll(Opened(topics), ops).ton <==> exists i :: HoldsSince(topics, ops, account, i)
  {
    if ops != [] {
      var n := |ops| - 1;
      var r := ApplyAll(Opened(topics), ops[..n]);
      TonRegisteredIff(topics, ops[..n], account);
      TonEntryAfter(r, ops[n], account);
      assert Before(topics, ops, n) == r;
      forall i: nat | i < n
        ensures HoldsSince(topics, ops, account, i)
           <==> HoldsSince(topics, ops[..n], account, i) && !TonCollected(r, ops[n], account)
      {
        HoldsOneMore(topics, ops, account, i);
      }
      if account in Apply(r, ops[n]).ton {
        if TonAccepted(r, ops[n], account) {
          assert HoldsSince(topics, ops, account, n);
        } else {
          var i :| HoldsSince(topics, ops[..n], account, i);
          assert HoldsSince(topics, ops, account, i);
        }
      }
      if i: nat :| HoldsSince(topics, ops, account, i) {
        assert i == n || HoldsSince(topics, ops[..n], account, i);
      }
    }
  }

  lemma HoldsOneMore(topics: map<ChainId, set<TopicsMapEntry>>, ops: seq<RegistryOp>, account: Account, i: nat)
    requires i < |ops| - 1
    ensures var n := |ops| - 1;
            HoldsSince(topics, ops, account, i) <==>
              HoldsSince(topics, ops[..n], account, i) && !TonCollected(Before(topics, ops, n), ops[n], account)
  {
    var n := |ops| - 1;
    assert forall j :: 0 <= j < n ==> ops[..n][..j] == ops[..j];
    assert TonAcceptedAt(topics, ops, account, i) <==> TonAcceptedAt(topics, ops[..n], account, i);
    forall j: nat | j < n
      ensures TonCollectedAt(topics, ops, account, j) <==> TonCollectedAt(topics, ops[..n], account, j)
    {
    }
    assert TonCollectedAt(topics, ops, account, n) <==> TonCollected(Before(topics, ops, n), ops[n], account);
  }

  ghost predicate EthAcceptedAt(topics: map<ChainId, set<TopicsMapEntry>>, ops: seq<RegistryOp>, account: Account,
                                i: nat)
  {
    i < |ops| && EthAccepted(Before(topics, ops, i), ops[i], account)
  }

  /** And an ETH configuration exactly when it was accepted at some time. */
  lemma {:induction false} EthRegisteredIff(topics: map<ChainId, set<TopicsMapEntry>>, ops: seq<RegistryOp>,
                                            account: Account)
    ensures account in ApplyAll(Opened(topics), ops).eth <==> exists i :: EthAcceptedAt(topics, ops, account, i)
  {
    if ops != [] {
      var n := |ops| - 1;
      var r := ApplyAll(Opened(topics), ops[..n]);
      EthRegisteredIff(topics, ops[..n], account);
      EthEntryAfter(r, ops[n], account);
      assert Before(topics, ops, n) == r;
      assert forall j :: 0 <= j < n ==> ops[..n][..j] == ops[..j];
      if account in r.eth {
        var i :| EthAcceptedAt(topics, ops[..n], account, i);
        assert EthAcceptedAt(topics, ops, account, i);
      } else if EthAccepted(r, ops[n], account) {
        assert EthAcceptedAt(topics, ops, account, n);
      }
      if i: nat :| EthAcceptedAt(topics, ops, account, i) {
        assert i == n || EthAcceptedAt(topics, ops[..n], account, i);
      }
    }
  }

  // ---------------------------------------------------------------------------
  // The registry object
  // ---------------------------------------------------------------------------

  function AfterSubscribing(subscriptions: Subscriptions, account: Account, observer: ObserverId, added: bool)
    : Subscriptions
  {
    if added then SubscribedAll(subscriptions, [account], observer) else subscriptions
  }

  class Bridge {
    var connectors: set<Account>
    var ethEventConfigurations: EthConfigurations
    var tonEventConfigurations: TonConfigurations
    var eventCodeHashes: CodeHashes
    var totalActiveEthEventConfigurations: nat
    var totalActiveTonEventConfigurations: nat
    /** The engines of all chains, by their log subscriptions. */
    const subscribers: map<ChainId, TopicsMap>
    const tonSubscriber: TonSubscriber

    ghost predicate Valid()
      reads this, subscribers.Values
    {
      && (forall c :: c in subscribers ==> subscribers[c].Valid())
      && (forall c, d :: c in subscribers && d in subscribers && subscribers[c] == subscribers[d] ==> c == d)
    }

    ghost function Topics(): map<ChainId, set<TopicsMapEntry>>
      reads subscribers.Values
    {
      map c | c in subscribers :: subscribers[c].entries
    }

    ghost function View(): Registry
      reads this, subscribers.Values
    {
      Registry(connectors, ethEventConfigurations, tonEventConfigurations, eventCodeHashes,
               totalActiveEthEventConfigurations, totalActiveTonEventConfigurations, Topics())
    }

    constructor (subscribers: map<ChainId, TopicsMap>, tonSubscriber: TonSubscriber)
      requires forall c :: c in subscribers ==> subscribers[c].Valid()
      requires forall c, d :: c in subscribers && d in subscribers && subscribers[c] == subscribers[d] ==> c == d
      ensures Valid() && this.subscribers == subscribers && this.tonSubscriber == tonSubscriber
      ensures View() == Registry({}, map[], map[], map[], 0, 0, Topics())
    {
      this.subscribers := subscribers;
      this.tonSubscriber := tonSubscriber;
      connectors := {};
      ethEventConfigurations := map[];
      tonEventConfigurations := map[];
      eventCodeHashes := map[];
      totalActiveEthEventConfigurations := 0;
      totalActiveTonEventConfigurations := 0;
    }

    method AddEventCodeHash(code: CodeHash, eventType: EventType) returns (ok: bool)
      modifies this`eventCodeHashes
      ensures ok <==> AddedCodeHash(old(eventCodeHashes), code, eventType).Some?
      ensures eventCodeHashes
           == if ok then AddedCodeHash(old(eventCodeHashes), code, eventType).value else old(eventCodeHashes)
    {
      if code !in eventCodeHashes {
        eventCodeHashes := eventCodeHashes[code := eventType];
        return true;
      }
      return eventCodeHashes[code] == eventType;
    }

    /** A configuration that is really new is also subscribed to the transactions of its account. */
    method AddEthEventConfiguration(account: Account, contract: ConfigurationContract, observer: ObserverId)
      returns (error: Option<RegistryError>)
      requires Valid()
      modifies this, subscribers.Values, tonSubscriber`stateSubscriptions
      ensures Valid()
      ensures (View(), error) == AfterAddEth(old(View()), account, contract)
      ensures tonSubscriber.stateSubscriptions ==
              AfterSubscribing(old(tonSubscriber.stateSubscriptions), account, observer,
                account !in old(ethEventConfigurations) && account in ethEventConfigurations)
    {
      if contract.ethDetails.None? {
        return Some(ContractError);
      }
      var details := contract.ethDetails.value;
      if contract.ethTopic.None? {
        return Some(InvalidAbi);
      }
      if details.chainId !in subscribers {
        return Some(UnknownChainId);
      }
      var ok := AddEventCodeHash(details.eventCode, EthEvent);
      if !ok {
        return Some(InvalidEventConfiguration);
      }
      if account in ethEventConfigurations {
        return Some(EventConfigurationAlreadyExists);
      }
      InsertEthEventConfiguration(account, EthConfiguration(details, contract.ethTopic.value));
      tonSubscriber.AddTransactionsSubscription([account], observer);
      return None;
    }

    method InsertEthEventConfiguration(account: Account, configuration: EthConfiguration)
      requires Valid() && configuration.details.chainId in subscribers
      modifies this, subscribers.Values
      ensures Valid()
      ensures View() == Inserted(old(View()), account, configuration)
    {
      var chain := configuration.details.chainId;
      totalActiveEthEventConfigurations := (totalActiveEthEventConfigurations + 1) % U64_MODULUS;
      ethEventConfigurations := ethEventConfigurations[account := configuration];
      ghost var before := Topics();
      subscribers[chain].AddEntry(configuration.details.eventEmitter, configuration.topicHash, account);
      assert Topics() == before[chain := subscribers[chain].entries];
    }

    method AddTonEventConfiguration(account: Account, contract: ConfigurationContract, currentUtime: nat,
                                    observer: ObserverId)
      returns (error: Option<RegistryError>)
      requires Valid()
      modifies this, tonSubscriber`stateSubscriptions
      ensures Valid()
      ensures (View(), error) == AfterAddTon(old(View()), account, contract, currentUtime)
      ensures tonSubscriber.stateSubscriptions ==
              AfterSubscribing(old(tonSubscriber.stateSubscriptions), account, observer,
                account !in old(tonEventConfigurations) && account in tonEventConfigurations)
    {
      if contract.tonDetails.None? {
        return Some(ContractError);
      }
      var details := contract.tonDetails.value;
      if 1 <= details.endTimestamp && details.endTimestamp < currentUtime {
        return None;
      }
      if !contract.tonAbiValid {
        return Some(InvalidAbi);
      }
      var ok := AddEventCodeHash(details.eventCode, TonEvent);
      if !ok {
        return Some(InvalidEventConfiguration);
      }
      if account in tonEventConfigurations {
        return Some(EventConfigurationAlreadyExists);
      }
      InsertTonEventConfiguration(account, details);
      tonSubscriber.AddTransactionsSubscription([account], observer);
      return None;
    }

    method InsertTonEventConfiguration(account: Account, details: TonDetails)
      requires Valid()
      modifies this`tonEventConfigurations, this`totalActiveTonEventConfigurations
      ensures Valid()
      ensures View() == InsertedTon(old(View()), account, details)
    {
      totalActiveTonEventConfigurations := (totalActiveTonEventConfigurations + 1) % U64_MODULUS;
      tonEventConfigurations := tonEventConfigurations[account := details];
    }

    method ProcessEventConfiguration(connector: Account, account: Account, contract: ConfigurationContract,
                                     currentUtime: nat, observer: ObserverId)
      returns (error: Option<RegistryError>)
      requires Valid()
      modifies this, subscribers.Values, tonSubscriber`stateSubscriptions
      ensures Valid()
      ensures (View(), error) == AfterProcess(old(View()), connector, account, contract, currentUtime)
      ensures tonSubscriber.stateSubscriptions ==
              AfterSubscribing(old(tonSubscriber.stateSubscriptions), account, observer,
                || (account !in old(ethEventConfigurations) && account in ethEventConfigurations)
                || (account !in old(tonEventConfigurations) && account in tonEventConfigurations))
    {
      match contract.eventType {
        case None => return Some(ContractError);
        case Some(eventType) =>
          if connector !in connectors {
            return Some(UnknownConnector);
          }
          match eventType {
            case EthEvent => error := AddEthEventConfiguration(account, contract, observer);
            case TonEvent => error := AddTonEventConfiguration(account, contract, currentUtime, observer);
          }
      }
    }

    method SetEndBlockNumber(account: Account, endBlockNumber: nat) returns (error: Option<RegistryError>)
      requires Valid()
      modifies this`ethEventConfigurations
      ensures Valid()
      ensures (View(), error) == AfterSetEndBlock(old(View()), account, endBlockNumber)
    {
      if account !in ethEventConfigurations {
        return Some(UnknownConfiguration);
      }
      var configuration := ethEventConfigurations[account];
      var details := configuration.details.(endBlockNumber := endBlockNumber);
      ethEventConfigurations := ethEventConfigurations[account := configuration.(details := details)];
      return None;
    }

    method SetEndTimestamp(account: Account, endTimestamp: nat) returns (error: Option<RegistryError>)
      requires Valid()
      modifies this`tonEventConfigurations
      ensures Valid()
      ensures (View(), error) == AfterSetEndTimestamp(old(View()), account, endTimestamp)
    {
      if account !in tonEventConfigurations {
        return Some(UnknownConfiguration);
      }
      tonEventConfigurations :=
        tonEventConfigurations[account := tonEventConfigurations[account].(endTimestamp := endTimestamp)];
      return None;
    }

    /** `retain` visits the configurations in an arbitrary order. */
    method CollectExpired(currentUtime: nat)
      requires Valid()
      modifies this`tonEventConfigurations, this`totalActiveTonEventConfigurations
      ensures Valid()
      ensures View() == AfterCollect(old(View()), currentUtime)
    {
      var before := tonEventConfigurations;
      var totalRemoved := 0;
      var todo := before.Keys;
      assert RetainedBut(before, todo, currentUtime) == before;
      while todo != {}
        invariant todo <= before.Keys
        invariant tonEventConfigurations == RetainedBut(before, todo, currentUtime)
        invariant totalRemoved + |tonEventConfigurations| == |before|
        invariant totalActiveTonEventConfigurations == old(totalActiveTonEventConfigurations)
      {
        var account :| account in todo;
        RetainedStep(before, todo, account, currentUtime);
        if 1 <= before[account].endTimestamp && before[account].endTimestamp < currentUtime {
          tonEventConfigurations := tonEventConfigurations - {account};
          totalRemoved := totalRemoved + 1;
        }
        todo := todo - {account};
      }
      assert tonEventConfigurations == Unexpired(before, currentUtime);
      assert totalRemoved == |before| - |Unexpired(before, currentUtime)|;
      totalActiveTonEventConfigurations := CountedDown(totalActiveTonEventConfigurations, totalRemoved);
    }
  }

  /** What is left while the accounts of `todo` are still to be visited. */
  function RetainedBut(ton: TonConfigurations, todo: set<Account>, now: nat): TonConfigurations {
    map account | account in ton && (account in todo || !IsExpired(ton[account], now)) :: ton[account]
  }

  lemma RetainedStep(ton: TonConfigurations, todo: set<Account>, account: Account, now: nat)
    requires account in todo && account in ton
    ensures var now0, now1 := RetainedBut(ton, todo, now), RetainedBut(ton, todo - {account}, now);
            && now1 == (if IsExpired(ton[account], now) then now0 - {account} else now0)
            && |now1| == |now0| - (if IsExpired(ton[account], now) then 1 else 0)
  {
    var before, after := RetainedBut(ton, todo, now), RetainedBut(ton, todo - {account}, now);
    if IsExpired(ton[account], now) {
      assert after == before - {account};
      SizeAfterRemoval(before, account);
    } else {
      assert after == before;
    }
  }
}
