/**
 Shard block handling (src/engine/ton_subscriber/mod.rs).

 A shard block is scanned for the transactions of subscribed accounts, which delivers
 pending messages, and only then expires what is still pending.
 */
module TonSubscriber {
  import opened Words
  import opened Wrappers
  import opened ShardUtils
  import opened PendingMessagesQueue

  type ObserverId = nat

  datatype InMessage = NoMessage | BadMessage | ExternalIn(hash: Hash) | OtherMessage

  /** An unreadable description is skipped like one that is not ordinary. */
  datatype Description = Ordinary(aborted: bool) | NotOrdinary

  datatype Transaction = Unparsed | Transaction(description: Description, inMsg: InMessage)

  datatype AccountBlock = Unreadable | NoTransactions | Transactions(transactions: seq<Transaction>)

  /** A shard block: its shard, its time, the transactions it holds for each account, and
      whether the state of an account can be read. */
  datatype Block = Block(
    shard: Shard,
    utime: U32,
    accountBlock: Account -> AccountBlock,
    stateReadable: Account -> bool)
  {
    /** `contains_account` for its shard, which ignores the workchain. */
    const owns: Membership := (account: Account) => ContainsAccount(shard, account)
  }

  datatype BlockError = UnreadableBlock

  /** `receivers` counts the receivers of the state channel, its own one included. */
  datatype StateSubscription = StateSubscription(receivers: nat, transactionSubscriptions: seq<ObserverId>)

  datatype SubscriptionStatus = Alive | PartlyAlive | Stopped

  type Subscriptions = map<Account, StateSubscription>

  // ---------------------------------------------------------------------------
  // Delivery of a set of messages at once
  // ---------------------------------------------------------------------------

  function TicketsOf(entries: Entries, ids: set<MessageId>): set<Ticket> {
    set id | id in ids && id in entries :: entries[id].tx
  }

  function WithDelivered(answers: map<Ticket, MessageStatus>, tickets: set<Ticket>): map<Ticket, MessageStatus> {
    answers + map t | t in tickets :: Delivered
  }

  /** The queue after all of these messages were delivered, in whatever order. */
  function AfterDeliveries(q: Queue, ids: set<MessageId>): Queue {
    q.(entries := q.entries - ids, answers := WithDelivered(q.answers, TicketsOf(q.entries, ids)))
  }

  lemma DeliverOne(q: Queue, id: MessageId)
    ensures AfterDelivery(q, id) == AfterDeliveries(q, {id})
  {
    if id in q.entries {
      assert TicketsOf(q.entries, {id}) == {q.entries[id].tx};
    } else {
      assert TicketsOf(q.entries, {id}) == {};
      assert q.entries - {id} == q.entries;
      assert WithDelivered(q.answers, {}) == q.answers;
    }
  }

  lemma DeliverNone(q: Queue)
    ensures AfterDeliveries(q, {}) == q
  {
    assert TicketsOf(q.entries, {}) == {};
    assert q.entries - {} == q.entries;
    assert WithDelivered(q.answers, {}) == q.answers;
  }

  lemma DeliverMore(q: Queue, a: set<MessageId>, b: set<MessageId>)
    ensures AfterDeliveries(AfterDeliveries(q, a), b) == AfterDeliveries(q, a + b)
  {
    var rest := q.entries - a;
    assert rest - b == q.entries - (a + b);
    TicketsOfUnion(q.entries, a, b);
    WithDeliveredTwice(q.answers, TicketsOf(q.entries, a), TicketsOf(rest, b));
  }

  lemma TicketsOfUnion(entries: Entries, a: set<MessageId>, b: set<MessageId>)
    ensures TicketsOf(entries, a + b) == TicketsOf(entries, a) + TicketsOf(entries - a, b)
  {
    forall t | t in TicketsOf(entries, a + b) ensures t in TicketsOf(entries, a) + TicketsOf(entries - a, b) {
      var id :| id in a + b && id in entries && entries[id].tx == t;
      if id !in a {
        assert id in entries - a && (entries - a)[id].tx == t;
      }
    }
    forall t | t in TicketsOf(entries - a, b) ensures t in TicketsOf(entries, a + b) {
      var id :| id in b && id in entries - a && (entries - a)[id].tx == t;
      assert id in a + b && id in entries && entries[id].tx == t;
    }
  }

  lemma WithDeliveredTwice(answers: map<Ticket, MessageStatus>, a: set<Ticket>, b: set<Ticket>)
    ensures WithDelivered(WithDelivered(answers, a), b) == WithDelivered(answers, a + b)
  {
  }

  // ---------------------------------------------------------------------------
  // Transactions of one account
  // ---------------------------------------------------------------------------

  /** The transaction counts as the delivery of the external message with this hash. */
  predicate IsDeliveryOf(tx: Transaction, hash: Hash) {
    tx.Transaction? && tx.description == Ordinary(false) && tx.inMsg == ExternalIn(hash)
  }

  /** The messages whose delivery the transactions of the account prove. */
  ghost function DeliveredIds(account: Account, transactions: seq<Transaction>): set<MessageId> {
    set i | 0 <= i < |transactions| && transactions[i].Transaction? &&
            transactions[i].description == Ordinary(false) && transactions[i].inMsg.ExternalIn?
      :: MessageId(account, transactions[i].inMsg.hash)
  }

  lemma DeliveredIdsNext(account: Account, transactions: seq<Transaction>, n: nat)
    requires n < |transactions|
    ensures DeliveredIds(account, transactions[..n + 1]) == DeliveredIds(account, transactions[..n]) +
              if transactions[n].Transaction? && transactions[n].description == Ordinary(false)
                 && transactions[n].inMsg.ExternalIn?
              then {MessageId(account, transactions[n].inMsg.hash)} else {}
  {
    var now := transactions[..n + 1];
    var before := transactions[..n];
    assert forall i :: 0 <= i < n ==> now[i] == before[i];
    assert now[n] == transactions[n];
  }

  /** One turn of the loop over the transactions. */
  lemma NextTransaction(q: Queue, account: Account, transactions: seq<Transaction>, n: nat)
    requires n < |transactions|
    ensures var before := AfterDeliveries(q, DeliveredIds(account, transactions[..n]));
            var tx := transactions[n];
            AfterDeliveries(q, DeliveredIds(account, transactions[..n + 1])) ==
              if tx.Transaction? && tx.description == Ordinary(false) && tx.inMsg.ExternalIn?
              then AfterDelivery(before, MessageId(account, tx.inMsg.hash))
              else before
  {
    DeliveredIdsNext(account, transactions, n);
    var ids := DeliveredIds(account, transactions[..n]);
    var tx := transactions[n];
    if tx.Transaction? && tx.description == Ordinary(false) && tx.inMsg.ExternalIn? {
      DeliverOne(AfterDeliveries(q, ids), MessageId(account, tx.inMsg.hash));
      DeliverMore(q, ids, {MessageId(account, tx.inMsg.hash)});
    } else {
      assert ids + {} == ids;
    }
  }

  /** The transactions of a block that prove deliveries to the account. */
  ghost function BlockDeliveries(block: Block, account: Account): set<MessageId> {
    if block.accountBlock(account).Transactions? then DeliveredIds(account, block.accountBlock(account).transactions)
    else {}
  }

  /** The block holds a counted transaction for this message. */
  ghost predicate Counted(block: Block, id: MessageId) {
    && block.accountBlock(id.account).Transactions?
    && exists i :: 0 <= i < |block.accountBlock(id.account).transactions| &&
         IsDeliveryOf(block.accountBlock(id.account).transactions[i], id.messageHash)
  }

  lemma CountedIffDelivered(block: Block, account: Account, id: MessageId)
    ensures id in BlockDeliveries(block, account) <==> id.account == account && Counted(block, id)
  {
    if id.account == account && Counted(block, id) {
      var txs := block.accountBlock(account).transactions;
      var i :| 0 <= i < |txs| && IsDeliveryOf(txs[i], id.messageHash);
      assert MessageId(account, txs[i].inMsg.hash) in DeliveredIds(account, txs);
    }
  }

  // ---------------------------------------------------------------------------
  // Subscriptions
  // ---------------------------------------------------------------------------

  /** The observers that still live, in their order. */
  function Living(observers: seq<ObserverId>, alive: set<ObserverId>): (r: seq<ObserverId>)
    ensures forall o :: o in r <==> o in observers && o in alive
  {
    if observers == [] then []
    else if observers[0] in alive then [observers[0]] + Living(observers[1..], alive)
    else Living(observers[1..], alive)
  }

  function Pruned(subscription: StateSubscription, alive: set<ObserverId>): StateSubscription {
    subscription.(transactionSubscriptions := Living(subscription.transactionSubscriptions, alive))
  }

  function StatusOf(subscription: StateSubscription): SubscriptionStatus {
    if subscription.receivers > 1 then Alive
    else if subscription.transactionSubscriptions != [] then PartlyAlive
    else Stopped
  }

  /** One more observer of an account; the first one opens the subscription. */
  function Subscribed(subscriptions: Subscriptions, account: Account, observer: ObserverId): Subscriptions {
    if account in subscriptions then
      var s := subscriptions[account];
      subscriptions[account := s.(transactionSubscriptions := s.transactionSubscriptions + [observer])]
    else subscriptions[account := StateSubscription(1, [observer])]
  }

  function SubscribedAll(subscriptions: Subscriptions, accounts: seq<Account>, observer: ObserverId): Subscriptions
    decreases |accounts|
  {
    if accounts == [] then subscriptions
    else SubscribedAll(Subscribed(subscriptions, accounts[0], observer), accounts[1..], observer)
  }

  /** Every listed account ends up observed; nobody loses an observer or a receiver. */
  lemma {:induction false} SubscribedAllObserves(subscriptions: Subscriptions, accounts: seq<Account>,
                                                 observer: ObserverId)
    ensures var after := SubscribedAll(subscriptions, accounts, observer);
            && after.Keys == subscriptions.Keys + (set a | a in accounts)
            && (forall a :: a in accounts ==> observer in after[a].transactionSubscriptions)
            && (forall a :: a in accounts && a !in subscriptions ==> after[a].receivers == 1)
            && (forall a :: a in subscriptions ==>
                  && after[a].receivers == subscriptions[a].receivers
                  && subscriptions[a].transactionSubscriptions <= after[a].transactionSubscriptions
                  && (a !in accounts ==> after[a] == subscriptions[a]))
    decreases |accounts|
  {
    if accounts != [] {
      SubscribedAllObserves(Subscribed(subscriptions, accounts[0], observer), accounts[1..], observer);
      assert forall a :: a in accounts <==> a == accounts[0] || a in accounts[1..];
    }
  }

  /** What the turn of one account leaves of its subscription. */
  function SubscriptionAfter(subscription: StateSubscription, alive: set<ObserverId>): Option<StateSubscription> {
    var pruned := Pruned(subscription, alive);
    if StatusOf(pruned) == Stopped then None else Some(pruned)
  }

  /** What the turn of one account delivers. */
  ghost function TurnDeliveries(subscription: StateSubscription, alive: set<ObserverId>,
                                block: Block, account: Account): set<MessageId> {
    if Living(subscription.transactionSubscriptions, alive) != [] && block.owns(account)
    then BlockDeliveries(block, account)
    else {}
  }

  ghost function AfterTurn(subscriptions: Subscriptions, account: Account, alive: set<ObserverId>): Subscriptions
    requires account in subscriptions
  {
    match SubscriptionAfter(subscriptions[account], alive)
    case Some(s) => subscriptions[account := s]
    case None => subscriptions - {account}
  }

  ghost function AfterScanned(subscriptions: Subscriptions, alive: set<ObserverId>): Subscriptions {
    map account | account in subscriptions && SubscriptionAfter(subscriptions[account], alive).Some?
      :: SubscriptionAfter(subscriptions[account], alive).value
  }

  ghost function ScanDeliveries(subscriptions: Subscriptions, alive: set<ObserverId>, block: Block): set<MessageId> {
    set account, id | account in subscriptions && id in TurnDeliveries(subscriptions[account], alive, block, account)
      :: id
  }

  /** The whole block: all deliveries first, then everything still due in it expires. */
  ghost function AfterShardBlock(q: Queue, subscriptions: Subscriptions, alive: set<ObserverId>, block: Block): Queue {
    AfterFullScan(AfterDeliveries(q, ScanDeliveries(subscriptions, alive, block)), block.owns, block.utime)
  }

  /** Delivery beats expiry: a message with a counted transaction in the block and a living
      observer is answered Delivered, however late the block is. */
  lemma DeliveryBeatsExpiry(q: Queue, subscriptions: Subscriptions, alive: set<ObserverId>, block: Block, id: MessageId)
    requires SendersUnused(q) && id in q.entries
    requires block.owns(id.account) && Counted(block, id)
    requires id.account in subscriptions
    requires exists o :: o in subscriptions[id.account].transactionSubscriptions && o in alive
    ensures var q' := AfterShardBlock(q, subscriptions, alive, block);
            id !in q'.entries && q.entries[id].tx in q'.answers && q'.answers[q.entries[id].tx] == Delivered
  {
    CountedIffDelivered(block, id.account, id);
    assert id in TurnDeliveries(subscriptions[id.account], alive, block, id.account);
    var ids := ScanDeliveries(subscriptions, alive, block);
    assert id in ids;
    var t := q.entries[id].tx;
    assert t in TicketsOf(q.entries, ids);
    var mid := AfterDeliveries(q, ids);
    assert mid.answers[t] == Delivered;
    forall k | k in mid.entries ensures mid.entries[k].tx != t {
      assert k in q.entries && k != id;
    }
  }

  /** The account is observed by somebody who lives, is one of the shard, and the block holds a
      counted transaction for the message. */
  ghost predicate Meets(subscriptions: Subscriptions, alive: set<ObserverId>, block: Block, id: MessageId) {
    && id.account in subscriptions
    && (exists o :: o in subscriptions[id.account].transactionSubscriptions && o in alive)
    && ContainsAccount(block.shard, id.account) && Counted(block, id)
  }

  lemma ScannedIff(subscriptions: Subscriptions, alive: set<ObserverId>, block: Block, id: MessageId)
    ensures id in ScanDeliveries(subscriptions, alive, block) <==> Meets(subscriptions, alive, block, id)
  {
    forall a | a in subscriptions && id in TurnDeliveries(subscriptions[a], alive, block, a)
      ensures a == id.account && Meets(subscriptions, alive, block, id)
    {
      CountedIffDelivered(block, a, id);
      var living := Living(subscriptions[a].transactionSubscriptions, alive);
      assert living[0] in living;
    }
    if Meets(subscriptions, alive, block, id) {
      CountedIffDelivered(block, id.account, id);
      assert id in TurnDeliveries(subscriptions[id.account], alive, block, id.account);
    }
  }

  /** What a block does to a pending message: Delivered if the scan meets it, Expired if it does
      not and the message is late in its shard, and nothing else. */
  lemma BlockFate(q: Queue, subscriptions: Subscriptions, alive: set<ObserverId>, block: Block, id: MessageId)
    requires SendersUnused(q) && id in q.entries
    ensures var q', m := AfterShardBlock(q, subscriptions, alive, block), q.entries[id];
            var met := Meets(subscriptions, alive, block, id);
            var late := ContainsAccount(block.shard, id.account) && block.utime > m.expireAt;
            && (IsAnswered(q', m.tx, Delivered) <==> met)
            && (IsAnswered(q', m.tx, Expired) <==> !met && late)
            && (id in q'.entries <==> !met && !late)
  {
    var ids := ScanDeliveries(subscriptions, alive, block);
    var mid := AfterDeliveries(q, ids);
    ScannedIff(subscriptions, alive, block, id);
    assert q.entries[id].tx in TicketsOf(q.entries, ids) <==> id in ids;
    DeliveriesKeepUnused(q, ids);
    ScanExpiresLate(mid, block.owns, block.utime);
    if id in ids {
      assert IsAnswered(mid, q.entries[id].tx, Delivered);
    } else if id in AfterShardBlock(q, subscriptions, alive, block).entries {
      assert q.entries[id].tx !in DueTickets(mid.entries, block.owns, block.utime);
    }
  }

  lemma DeliveriesKeepUnused(q: Queue, ids: set<MessageId>)
    requires SendersUnused(q)
    ensures SendersUnused(AfterDeliveries(q, ids))
  {
    var q' := AfterDeliveries(q, ids);
    forall id | id in q'.entries ensures q'.entries[id].tx !in q'.answers {
      assert id in q.entries && id !in ids;
    }
  }

  // ---------------------------------------------------------------------------
  // Observers and receivers
  // ---------------------------------------------------------------------------

  /** The observer is told about the transaction with this index among those of the account. */
  datatype Dispatch = Dispatch(observer: ObserverId, account: Account, transaction: nat)

  /** Ordinary transactions that were not aborted, with a readable inbound message. */
  predicate IsHandled(tx: Transaction) {
    tx.Transaction? && tx.description == Ordinary(false) && (tx.inMsg.ExternalIn? || tx.inMsg.OtherMessage?)
  }

  function ToObservers(observers: seq<ObserverId>, account: Account, transaction: nat): seq<Dispatch> {
    if observers == [] then []
    else ToObservers(observers[..|observers| - 1], account, transaction)
         + [Dispatch(observers[|observers| - 1], account, transaction)]
  }

  function Dispatches(observers: seq<ObserverId>, account: Account, transactions: seq<Transaction>): seq<Dispatch> {
    if transactions == [] then []
    else
      var n := |transactions| - 1;
      Dispatches(observers, account, transactions[..n])
      + (if IsHandled(transactions[n]) then ToObservers(observers, account, n) else [])
  }

  function BlockDispatches(observers: seq<ObserverId>, block: Block, account: Account): seq<Dispatch> {
    if block.accountBlock(account).Transactions?
    then Dispatches(observers, account, block.accountBlock(account).transactions)
    else []
  }

  function TurnDispatches(subscription: StateSubscription, alive: set<ObserverId>,
                          block: Block, account: Account): seq<Dispatch> {
    if block.owns(account) then BlockDispatches(Living(subscription.transactionSubscriptions, alive), block, account)
    else []
  }

  lemma {:induction false} ToObserversIff(observers: seq<ObserverId>, account: Account, transaction: nat, d: Dispatch)
    ensures d in ToObservers(observers, account, transaction)
       <==> d.observer in observers && d.account == account && d.transaction == transaction
  {
    if observers != [] {
      ToObserversIff(observers[..|observers| - 1], account, transaction, d);
      assert observers == observers[..|observers| - 1] + [observers[|observers| - 1]];
    }
  }

  /** Every living observer of the account is told about every handled transaction of it in
      a block of its shard, and about nothing else. */
  lemma {:induction false} DispatchedIff(observers: seq<ObserverId>, account: Account,
                                         transactions: seq<Transaction>, d: Dispatch)
    ensures d in Dispatches(observers, account, transactions)
       <==> && d.observer in observers && d.account == account
            && d.transaction < |transactions| && IsHandled(transactions[d.transaction])
  {
    if transactions != [] {
      var n := |transactions| - 1;
      DispatchedIff(observers, account, transactions[..n], d);
      ToObserversIff(observers, account, n, d);
    }
  }

  lemma {:induction false} ToObserversSame(observers: seq<ObserverId>, account: Account, transaction: nat)
    ensures forall d :: d in ToObservers(observers, account, transaction) ==> d.transaction == transaction
  {
    forall d | d in ToObservers(observers, account, transaction) ensures d.transaction == transaction {
      ToObserversIff(observers, account, transaction, d);
    }
  }

  /** They are told in the order of the transactions. */
  lemma {:induction false} DispatchedInOrder(observers: seq<ObserverId>, account: Account,
                                             transactions: seq<Transaction>, i: nat, j: nat)
    requires i <= j < |Dispatches(observers, account, transactions)|
    ensures Dispatches(observers, account, transactions)[i].transaction
         <= Dispatches(observers, account, transactions)[j].transaction
  {
    var n := |transactions| - 1;
    var before := Dispatches(observers, account, transactions[..n]);
    if j < |before| {
      DispatchedInOrder(observers, account, transactions[..n], i, j);
    } else {
      ToObserversSame(observers, account, n);
      if i < |before| {
        DispatchedIff(observers, account, transactions[..n], before[i]);
        assert before[i] in before;
      } else {
        assert Dispatches(observers, account, transactions)[i] in ToObservers(observers, account, n);
      }
      assert Dispatches(observers, account, transactions)[j] in ToObservers(observers, account, n);
    }
  }

  /** The state of the account goes to the receivers, if somebody besides the subscription
      itself holds one. */
  predicate PublishesState(subscription: StateSubscription, block: Block, account: Account) {
    subscription.receivers > 1 && block.owns(account) && block.stateReadable(account)
  }

  /** What a block makes public: the accounts whose state was sent to receivers, and the
      dispatches by account. */
  datatype Report = Report(published: set<Account>, dispatched: map<Account, seq<Dispatch>>)

  const NOTHING: Report := Report({}, map[])

  function ScanReport(subscriptions: Subscriptions, alive: set<ObserverId>, block: Block): Report {
    Report(set account | account in subscriptions && PublishesState(subscriptions[account], block, account),
           map account | account in subscriptions :: TurnDispatches(subscriptions[account], alive, block, account))
  }

  /** Of all that a block makes public: a state goes out exactly if somebody besides the
      subscription holds a receiver for an account of the shard whose state can be read, and a
      dispatch is made exactly for a living observer of an account of the shard and a
      transaction of it that is ordinary, not aborted, and has a readable inbound message. */
  lemma ReportedIff(subscriptions: Subscriptions, alive: set<ObserverId>, block: Block, account: Account, d: Dispatch)
    requires account in subscriptions
    ensures var report, s := ScanReport(subscriptions, alive, block), subscriptions[account];
            && (account in report.published <==>
                  s.receivers > 1 && ContainsAccount(block.shard, account) && block.stateReadable(account))
            && (d in report.dispatched[account] <==>
                  && ContainsAccount(block.shard, account) && d.account == account
                  && d.observer in s.transactionSubscriptions && d.observer in alive
                  && HoldsHandled(block.accountBlock(account), d.transaction))
  {
    var observers := Living(subscriptions[account].transactionSubscriptions, alive);
    if block.accountBlock(account).Transactions? {
      DispatchedIff(observers, account, block.accountBlock(account).transactions, d);
    }
  }

  predicate HoldsHandled(accountBlock: AccountBlock, index: nat) {
    && accountBlock.Transactions? && index < |accountBlock.transactions|
    && var tx := accountBlock.transactions[index];
       && tx.Transaction? && tx.description.Ordinary? && !tx.description.aborted
       && tx.inMsg != NoMessage && tx.inMsg != BadMessage
  }

  /** A subscription survives its turn exactly while somebody else holds a receiver or an
      observer of it lives; it then keeps just its living observers. */
  lemma KeptIff(subscriptions: Subscriptions, alive: set<ObserverId>, account: Account)
    ensures var after := AfterScanned(subscriptions, alive);
            && (account in after <==>
                  && account in subscriptions
                  && (subscriptions[account].receivers > 1
                      || exists o :: o in subscriptions[account].transactionSubscriptions && o in alive))
            && (account in after ==>
                  && after[account].receivers == subscriptions[account].receivers
                  && forall o :: o in after[account].transactionSubscriptions <==>
                       o in subscriptions[account].transactionSubscriptions && o in alive)
  {
    if account in subscriptions {
      var living := Living(subscriptions[account].transactionSubscriptions, alive);
      assert living != [] ==> living[0] in living;
    }
  }

  // ---------------------------------------------------------------------------
  // The subscriber
  // ---------------------------------------------------------------------------

  lemma NewSubscriptionScanned(done: Subscriptions, account: Account, subscription: StateSubscription,
                               alive: set<ObserverId>)
    requires account !in done
    ensures AfterScanned(done[account := subscription], alive) ==
              if SubscriptionAfter(subscription, alive).Some?
              then AfterScanned(done, alive)[account := SubscriptionAfter(subscription, alive).value]
              else AfterScanned(done, alive)
  {
  }

  lemma NewSubscriptionDelivers(done: Subscriptions, account: Account, subscription: StateSubscription,
                                alive: set<ObserverId>, block: Block)
    requires account !in done
    ensures ScanDeliveries(done[account := subscription], alive, block) ==
              ScanDeliveries(done, alive, block) + TurnDeliveries(subscription, alive, block, account)
  {
    var more := done[account := subscription];
    forall id | id in ScanDeliveries(more, alive, block)
      ensures id in ScanDeliveries(done, alive, block) + TurnDeliveries(subscription, alive, block, account)
    {
      var a :| a in more && id in TurnDeliveries(more[a], alive, block, a);
      if a != account {
        assert a in done && id in TurnDeliveries(done[a], alive, block, a);
      }
    }
    forall id | id in ScanDeliveries(done, alive, block)
      ensures id in ScanDeliveries(more, alive, block)
    {
      var a :| a in done && id in TurnDeliveries(done[a], alive, block, a);
      assert a in more && id in TurnDeliveries(more[a], alive, block, a);
    }
    forall id | id in TurnDeliveries(subscription, alive, block, account)
      ensures id in ScanDeliveries(more, alive, block)
    {
      assert account in more && id in TurnDeliveries(more[account], alive, block, account);
    }
  }

  /** The subscriptions whose turn is over. */
  ghost function Visited(subscriptions: Subscriptions, todo: set<Account>): Subscriptions {
    subscriptions - todo
  }

  ghost function KeptSoFar(subscriptions: Subscriptions, todo: set<Account>, alive: set<ObserverId>): Subscriptions {
    AfterScanned(Visited(subscriptions, todo), alive)
  }

  ghost function QueueSoFar(q: Queue, subscriptions: Subscriptions, todo: set<Account>,
                            alive: set<ObserverId>, block: Block): Queue {
    AfterDeliveries(q, ScanDeliveries(Visited(subscriptions, todo), alive, block))
  }

  function ReportSoFar(subscriptions: Subscriptions, todo: set<Account>, alive: set<ObserverId>, block: Block): Report {
    ScanReport(subscriptions - todo, alive, block)
  }

  lemma NextReport(subscriptions: Subscriptions, todo: set<Account>, account: Account,
                   alive: set<ObserverId>, block: Block)
    requires todo <= subscriptions.Keys && account in todo
    ensures var published := if PublishesState(subscriptions[account], block, account) then {account} else {};
            var dispatched := TurnDispatches(subscriptions[account], alive, block, account);
            var report := ReportSoFar(subscriptions, todo, alive, block);
            var next := ReportSoFar(subscriptions, todo - {account}, alive, block);
            next == Report(report.published + published, report.dispatched[account := dispatched])
  {
    assert subscriptions - (todo - {account}) == (subscriptions - todo)[account := subscriptions[account]];
  }

  lemma AllVisited(q: Queue, subscriptions: Subscriptions, alive: set<ObserverId>, block: Block)
    ensures QueueSoFar(q, subscriptions, {}, alive, block)
         == AfterDeliveries(q, ScanDeliveries(subscriptions, alive, block))
    ensures KeptSoFar(subscriptions, {}, alive) == AfterScanned(subscriptions, alive)
    ensures ReportSoFar(subscriptions, {}, alive, block) == ScanReport(subscriptions, alive, block)
  {
    assert subscriptions - {} == subscriptions;
  }

  /** One turn of the loop over the subscriptions. */
  lemma NextSubscription(q: Queue, subscriptions: Subscriptions, todo: set<Account>, account: Account,
                         alive: set<ObserverId>, block: Block)
    requires todo <= subscriptions.Keys && account in todo
    ensures QueueSoFar(q, subscriptions, todo - {account}, alive, block) ==
            AfterDeliveries(QueueSoFar(q, subscriptions, todo, alive, block),
                            TurnDeliveries(subscriptions[account], alive, block, account))
    ensures KeptSoFar(subscriptions, todo - {account}, alive) ==
              var rest := SubscriptionAfter(subscriptions[account], alive);
              if rest.Some? then KeptSoFar(subscriptions, todo, alive)[account := rest.value]
              else KeptSoFar(subscriptions, todo, alive)
  {
    var done := Visited(subscriptions, todo);
    var subscription := subscriptions[account];
    assert Visited(subscriptions, todo - {account}) == done[account := subscription];
    NewSubscriptionScanned(done, account, subscription, alive);
    NewSubscriptionDelivers(done, account, subscription, alive, block);
    DeliverMore(q, ScanDeliveries(done, alive, block), TurnDeliveries(subscription, alive, block, account));
  }

  lemma NothingVisited(q: Queue, subscriptions: Subscriptions, alive: set<ObserverId>, block: Block)
    ensures QueueSoFar(q, subscriptions, subscriptions.Keys, alive, block) == q
    ensures KeptSoFar(subscriptions, subscriptions.Keys, alive) == map[]
    ensures ReportSoFar(subscriptions, subscriptions.Keys, alive, block) == NOTHING
  {
    assert ScanDeliveries(Visited(subscriptions, subscriptions.Keys), alive, block) == {};
    DeliverNone(q);
  }

  class TonSubscriber {
    var ready: bool
    var stateSubscriptions: Subscriptions
    const messagesQueue: PendingMessagesQueue

    constructor (messagesQueue: PendingMessagesQueue)
      ensures this.messagesQueue == messagesQueue && !ready && stateSubscriptions == map[]
    {
      this.messagesQueue := messagesQueue;
      ready := false;
      stateSubscriptions := map[];
    }

    method AddTransactionsSubscription(accounts: seq<Account>, observer: ObserverId)
      modifies this`stateSubscriptions
      ensures stateSubscriptions == SubscribedAll(old(stateSubscriptions), accounts, observer)
    {
      ghost var before := stateSubscriptions;
      for i := 0 to |accounts|
        invariant SubscribedAll(before, accounts, observer)
               == SubscribedAll(stateSubscriptions, accounts[i..], observer)
      {
        var account := accounts[i];
        if account in stateSubscriptions {
          var entry := stateSubscriptions[account];
          var pushed := entry.(transactionSubscriptions := entry.transactionSubscriptions + [observer]);
          stateSubscriptions := stateSubscriptions[account := pushed];
        } else {
          stateSubscriptions := stateSubscriptions[account := StateSubscription(1, [observer])];
        }
      }
    }

    /** Tells each living observer, in their order. */
    method TellObservers(observers: seq<ObserverId>, alive: set<ObserverId>, account: Account, transaction: nat)
      returns (dispatched: seq<Dispatch>)
      ensures dispatched == ToObservers(Living(observers, alive), account, transaction)
    {
      dispatched := [];
      for i := 0 to |observers|
        invariant dispatched == ToObservers(Living(observers[..i], alive), account, transaction)
      {
        LivingNext(observers, alive, i);
        ghost var living := Living(observers[..i], alive);
        assert living + [] == living;
        if observers[i] in alive {
          assert (living + [observers[i]])[..|living|] == living;
          dispatched := dispatched + [Dispatch(observers[i], account, transaction)];
        }
      }
      assert observers[..|observers|] == observers;
    }

    /** One transaction: its message is delivered, and the observers are told. */
    method HandleTransaction(observers: seq<ObserverId>, alive: set<ObserverId>, account: Account,
                             transaction: Transaction, index: nat)
      returns (dispatched: seq<Dispatch>)
      requires messagesQueue.Valid()
      modifies messagesQueue
      ensures messagesQueue.Valid()
      ensures messagesQueue.View() ==
              if transaction.Transaction? && transaction.description == Ordinary(false) && transaction.inMsg.ExternalIn?
              then AfterDelivery(old(messagesQueue.View()), MessageId(account, transaction.inMsg.hash))
              else old(messagesQueue.View())
      ensures dispatched
           == if IsHandled(transaction) then ToObservers(Living(observers, alive), account, index) else []
    {
      if transaction.Unparsed? {
        return [];
      }
      if transaction.description != Ordinary(false) {
        return [];
      }
      if transaction.inMsg.NoMessage? || transaction.inMsg.BadMessage? {
        return [];
      }
      if transaction.inMsg.ExternalIn? {
        messagesQueue.DeliverMessage(account, transaction.inMsg.hash);
      }
      dispatched := TellObservers(observers, alive, account, index);
    }

    /** The transactions of one account in the block. */
    method HandleBlock(subscription: StateSubscription, alive: set<ObserverId>, block: Block, account: Account)
      returns (dispatched: seq<Dispatch>)
      requires messagesQueue.Valid()
      modifies messagesQueue
      ensures messagesQueue.Valid()
      ensures dispatched == BlockDispatches(Living(subscription.transactionSubscriptions, alive), block, account)
      ensures messagesQueue.View() == AfterDeliveries(old(messagesQueue.View()),
                if subscription.transactionSubscriptions == [] then {} else BlockDeliveries(block, account))
    {
      ghost var before := messagesQueue.View();
      dispatched := [];
      DeliverNone(before);
      if subscription.transactionSubscriptions == [] {
        NobodyToTell(block, account);
        return;
      }
      var accountBlock := block.accountBlock(account);
      if !accountBlock.Transactions? {
        return;
      }
      var transactions := accountBlock.transactions;
      ghost var living := Living(subscription.transactionSubscriptions, alive);
      for i := 0 to |transactions|
        invariant messagesQueue.Valid()
        invariant dispatched == Dispatches(living, account, transactions[..i])
        invariant messagesQueue.View() == AfterDeliveries(before, DeliveredIds(account, transactions[..i]))
      {
        NextTransaction(before, account, transactions, i);
        NextDispatches(living, account, transactions, i);
        var told := HandleTransaction(subscription.transactionSubscriptions, alive, account, transactions[i], i);
        dispatched := dispatched + told;
      }
      assert transactions[..|transactions|] == transactions;
    }

    /** The turn of one account: what remains of its subscription, if anything. */
    method HandleSubscription(subscription: StateSubscription, alive: set<ObserverId>, block: Block, account: Account)
      returns (kept: Option<StateSubscription>, published: bool, dispatched: seq<Dispatch>)
      requires messagesQueue.Valid()
      modifies messagesQueue
      ensures messagesQueue.Valid()
      ensures kept == SubscriptionAfter(subscription, alive)
      ensures published == PublishesState(subscription, block, account)
      ensures dispatched == TurnDispatches(subscription, alive, block, account)
      ensures messagesQueue.View() ==
              AfterDeliveries(old(messagesQueue.View()), TurnDeliveries(subscription, alive, block, account))
    {
      DeliverNone(messagesQueue.View());
      published, dispatched := false, [];
      var pruned := Pruned(subscription, alive);
      var status := StatusOf(pruned);
      if status == Stopped {
        NobodyToTell(block, account);
        return None, published, dispatched;
      }
      if block.owns(account) {
        // The subscription holds a receiver itself, so sending succeeds.
        published := status == Alive && block.stateReadable(account);
        LivingTwice(subscription.transactionSubscriptions, alive);
        dispatched := HandleBlock(pruned, alive, block, account);
      }
      return Some(pruned), published, dispatched;
    }

    /** The scan of all subscriptions. The map is visited in an arbitrary order. */
    method ScanSubscriptions(block: Block, alive: set<ObserverId>) returns (report: Report)
      requires messagesQueue.Valid()
      modifies this`stateSubscriptions, messagesQueue
      ensures messagesQueue.Valid()
      ensures stateSubscriptions == AfterScanned(old(stateSubscriptions), alive)
      ensures messagesQueue.View() ==
              AfterDeliveries(old(messagesQueue.View()), ScanDeliveries(old(stateSubscriptions), alive, block))
      ensures report == ScanReport(old(stateSubscriptions), alive, block)
    {
      ghost var before := messagesQueue.View();
      var subscriptions := stateSubscriptions;
      var kept: Subscriptions := map[];
      var todo := subscriptions.Keys;
      report := NOTHING;
      NothingVisited(before, subscriptions, alive, block);
      while todo != {}
        invariant todo <= subscriptions.Keys
        invariant report == ReportSoFar(subscriptions, todo, alive, block)
        invariant kept == KeptSoFar(subscriptions, todo, alive)
        invariant messagesQueue.Valid()
        invariant messagesQueue.View() == QueueSoFar(before, subscriptions, todo, alive, block)
      {
        var account :| account in todo;
        NextSubscription(before, subscriptions, todo, account, alive, block);
        NextReport(subscriptions, todo, account, alive, block);
        var remains, published, dispatched := HandleSubscription(subscriptions[account], alive, block, account);
        report := Report(report.published + (if published then {account} else {}),
                         report.dispatched[account := dispatched]);
        if remains.Some? {
          kept := kept[account := remains.value];
        }
        todo := todo - {account};
      }
      AllVisited(before, subscriptions, alive, block);
      stateSubscriptions := kept;
    }

    /** `alive` are the observers with a strong reference left; None is a block that cannot
        be read. */
    method HandleShardBlock(block: Option<Block>, alive: set<ObserverId>) returns (r: Result<Report, BlockError>)
      requires messagesQueue.Valid()
      modifies this`stateSubscriptions, messagesQueue
      ensures messagesQueue.Valid()
      ensures r == if !ready then Ok(NOTHING)
                   else if block.None? then Err(UnreadableBlock)
                   else Ok(ScanReport(old(stateSubscriptions), alive, block.value))
      ensures !ready || block.None? ==> stateSubscriptions == old(stateSubscriptions)
                                        && messagesQueue.View() == old(messagesQueue.View())
      ensures ready && block.Some? ==>
                && stateSubscriptions == AfterScanned(old(stateSubscriptions), alive)
                && messagesQueue.View()
                   == AfterShardBlock(old(messagesQueue.View()), old(stateSubscriptions), alive, block.value)
    {
      if !ready {
        return Ok(NOTHING);
      }
      if block.None? {
        return Err(UnreadableBlock);
      }
      var report := ScanSubscriptions(block.value, alive);
      messagesQueue.Update(block.value.owns, block.value.utime);
      return Ok(report);
    }
  }

  lemma {:induction false} LivingNext(observers: seq<ObserverId>, alive: set<ObserverId>, i: nat)
    requires i < |observers|
    ensures Living(observers[..i + 1], alive)
         == Living(observers[..i], alive) + (if observers[i] in alive then [observers[i]] else [])
  {
    var now, before := observers[..i + 1], observers[..i];
    if i == 0 {
      assert now[1..] == [];
    } else {
      assert now[1..] == observers[1..][..i] && before[1..] == observers[1..][..i - 1];
      LivingNext(observers[1..], alive, i - 1);
    }
  }

  lemma {:induction false} LivingTwice(observers: seq<ObserverId>, alive: set<ObserverId>)
    ensures Living(Living(observers, alive), alive) == Living(observers, alive)
  {
    if observers != [] {
      LivingTwice(observers[1..], alive);
      if observers[0] in alive {
        assert ([observers[0]] + Living(observers[1..], alive))[1..] == Living(observers[1..], alive);
      }
    }
  }

  lemma NextDispatches(observers: seq<ObserverId>, account: Account, transactions: seq<Transaction>, n: nat)
    requires n < |transactions|
    ensures Dispatches(observers, account, transactions[..n + 1])
         == Dispatches(observers, account, transactions[..n])
            + (if IsHandled(transactions[n]) then ToObservers(observers, account, n) else [])
  {
    assert transactions[..n + 1][..n] == transactions[..n] && transactions[..n + 1][n] == transactions[n];
  }

  lemma NobodyToTell(block: Block, account: Account)
    ensures BlockDispatches([], block, account) == []
  {
    if block.accountBlock(account).Transactions? {
      NoDispatches(account, block.accountBlock(account).transactions);
    }
  }

  lemma {:induction false} NoDispatches(account: Account, transactions: seq<Transaction>)
    ensures Dispatches([], account, transactions) == []
  {
    if transactions != [] {
      NoDispatches(account, transactions[..|transactions| - 1]);
    }
  }
}
