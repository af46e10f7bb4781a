/**
 Pending bridge events of one kind, with their counter (src/engine/bridge/mod.rs).

 The counter is updated after the lock of the map is released, so the two halves of each
 operation are separate functions here. Each inserted entry has a generation: its index in
 the list of all insertions.
 */
module BridgeEvents {
  import opened Maps
  import opened Words
  import opened ShardUtils
  import opened EventBase
  import opened TonSubscriber

  datatype EventKind = EthKind | TonKind

  type Generation = nat

  datatype PendingEvent = PendingEvent(processingStarted: bool, generation: Generation)

  datatype Events = Events(pending: map<Account, PendingEvent>, count: nat, inserted: seq<Account>)

  const NO_EVENTS: Events := Events(map[], 0, [])

  function Inserted(e: Events, account: Account): Events {
    e.(pending := e.pending[account := PendingEvent(false, |e.inserted|)], inserted := e.inserted + [account])
  }

  function Erased(e: Events, account: Account): Events {
    e.(pending := e.pending - {account})
  }

  /** `fetch_add(1)` and `fetch_sub(1)` on a usize. */
  function CountedUp(e: Events): Events {
    e.(count := (e.count + 1) % U64_MODULUS)
  }

  function CountedDown(e: Events): Events {
    e.(count := (e.count + (U64_MODULUS - 1)) % U64_MODULUS)
  }

  predicate MayStart(e: Events, account: Account) {
    account in e.pending && !e.pending[account].processingStarted
  }

  function Started(e: Events, account: Account): Events
    requires account in e.pending
  {
    e.(pending := e.pending[account := e.pending[account].(processingStarted := true)])
  }

  // ---------------------------------------------------------------------------
  // Transactions of event contracts
  // ---------------------------------------------------------------------------

  datatype ContractEvent =
    | ReceiveRoundRelays(keys: set<PublicKey>)
    | Confirm(publicKey: PublicKey)
    | Reject(publicKey: PublicKey)
    | Closed

  datatype Reaction = RemoveEntry | StartVoting | Ignore

  /** What a transaction of a pending event's contract leads to. Only an event of the TON
      kind can be closed, and only it survives confirmation. */
  function ReactionTo(kind: EventKind, ourKey: PublicKey, event: ContractEvent, status: EventStatus): Reaction {
    if kind == EthKind && (status == Confirmed || status == Rejected) then RemoveEntry
    else if kind == TonKind && ((event == Closed && status == Confirmed) || status == Rejected) then RemoveEntry
    else
      match event
      case ReceiveRoundRelays(keys) => if ourKey in keys then StartVoting else RemoveEntry
      case Confirm(key) => if key == ourKey then RemoveEntry else Ignore
      case Reject(key) => if key == ourKey then RemoveEntry else Ignore
      case Closed => Ignore
  }

  /** The event is over, for the contract or for this relay: rejected; confirmed, which ends an
      event of the TON kind only once it is closed; voted for without this relay; or voted on
      by it. */
  predicate EndsEvent(kind: EventKind, ourKey: PublicKey, event: ContractEvent, status: EventStatus) {
    || status == Rejected
    || (status == Confirmed && (kind == EthKind || event.Closed?))
    || (event.ReceiveRoundRelays? && ourKey !in event.keys)
    || ((event.Confirm? || event.Reject?) && event.publicKey == ourKey)
  }

  /** The relay keys of an event that is not over arrive, this relay's among them. */
  predicate OpensVoting(kind: EventKind, ourKey: PublicKey, event: ContractEvent, status: EventStatus) {
    !EndsEvent(kind, ourKey, event, status) && event.ReceiveRoundRelays? && ourKey in event.keys
  }

  lemma ReactionMeans(kind: EventKind, ourKey: PublicKey, event: ContractEvent, status: EventStatus)
    ensures ReactionTo(kind, ourKey, event, status) == RemoveEntry <==> EndsEvent(kind, ourKey, event, status)
    ensures ReactionTo(kind, ourKey, event, status) == StartVoting <==> OpensVoting(kind, ourKey, event, status)
  {
  }

  // ---------------------------------------------------------------------------
  // The state object
  // ---------------------------------------------------------------------------

  class EventsState {
    const kind: EventKind
    const tonSubscriber: TonSubscriber
    var pending: map<Account, PendingEvent>
    var count: nat
    var inserted: seq<Account>

    function View(): Events
      reads this
    {
      Events(pending, count, inserted)
    }

    /** Between operations the counter is the size of the map, as far as a word holds it. */
    ghost predicate Valid()
      reads this
    {
      count == |pending| % U64_MODULUS
    }

    constructor (kind: EventKind, tonSubscriber: TonSubscriber)
      ensures Valid() && View() == NO_EVENTS && this.kind == kind && this.tonSubscriber == tonSubscriber
    {
      this.kind := kind;
      this.tonSubscriber := tonSubscriber;
      pending := map[];
      count := 0;
      inserted := [];
    }

    /** Refuses an account that is pending already. The new observer of a new event is
        subscribed to the transactions of its account. */
    method AddPendingEvent(account: Account, observer: ObserverId) returns (newEvent: bool)
      requires Valid()
      modifies this, tonSubscriber`stateSubscriptions
      ensures Valid()
      ensures newEvent <==> account !in old(pending)
      ensures View() == if newEvent then CountedUp(Inserted(old(View()), account)) else old(View())
      ensures tonSubscriber.stateSubscriptions
           == if newEvent then SubscribedAll(old(tonSubscriber.stateSubscriptions), [account], observer)
              else old(tonSubscriber.stateSubscriptions)
    {
      newEvent := account !in pending;
      if newEvent {
        pending := pending[account := PendingEvent(false, |inserted|)];
        inserted := inserted + [account];
        tonSubscriber.AddTransactionsSubscription([account], observer);
      }
      if newEvent {
        WordUp(|old(pending)|);
        count := (count + 1) % U64_MODULUS;
      }
    }

    /** False when the event is not pending or somebody started on it before. */
    method StartProcessing(account: Account) returns (started: bool)
      requires Valid()
      modifies this`pending
      ensures Valid()
      ensures started <==> MayStart(old(View()), account)
      ensures View() == if started then Started(old(View()), account) else old(View())
    {
      if account !in pending {
        return false;
      }
      var entry := pending[account];
      started := !entry.processingStarted;
      SizeAfterUpdate(pending, account, entry.(processingStarted := true));
      pending := pending[account := entry.(processingStarted := true)];
    }

    method Remove(account: Account)
      requires Valid()
      modifies this`pending, this`count
      ensures Valid()
      ensures View() == if account in old(pending) then CountedDown(Erased(old(View()), account)) else old(View())
    {
      if account in pending {
        SizeAfterRemoval(pending, account);
        WordDown(|pending|);
        pending := pending - {account};
        count := (count + (U64_MODULUS - 1)) % U64_MODULUS;
      }
    }

    /** Handles a transaction; `update` asks the caller to spawn a voting task. */
    method ProcessEvent(ourKey: PublicKey, account: Account, event: ContractEvent, status: EventStatus)
      returns (update: bool)
      requires Valid()
      modifies this`pending, this`count
      ensures Valid()
      ensures update <==> account in old(pending) && OpensVoting(kind, ourKey, event, status)
      ensures View() == if account in old(pending) && EndsEvent(kind, ourKey, event, status)
                        then CountedDown(Erased(old(View()), account)) else old(View())
    {
      update := false;
      if account in pending {
        if (if kind == EthKind then status == Confirmed || status == Rejected
            else (event == Closed && status == Confirmed) || status == Rejected) {
          Remove(account);
        } else {
          match event {
            case ReceiveRoundRelays(keys) =>
              if ourKey in keys {
                update := true;
              } else {
                Remove(account);
              }
            case Confirm(key) =>
              if key == ourKey {
                Remove(account);
              }
            case Reject(key) =>
              if key == ourKey {
                Remove(account);
              }
            case Closed =>
          }
        }
      }
    }
  }
}
