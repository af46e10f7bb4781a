/**
 From a configuration to its logs (src/engine/bridge/mod.rs and
 src/engine/eth_subscriber/mod.rs).

 The registry subscribes configurations, the rounds of an engine query the blocks of its
 chain. In a run of both, with a node that answers queries from its ledger, this says which
 logs of an active configuration can be missed: those in the range of a query that was
 already out when the configuration became active.
 */
module LogCoverage {
  import opened Wrappers
  import opened ShardUtils
  import opened EthEvents
  import opened TopicsMap
  import opened BridgeRegistry
  import EthSubscriber
  import EthRounds

  // ---------------------------------------------------------------------------
  // An honest node
  // ---------------------------------------------------------------------------

  /** The logs of the ledger that pass the query, in their order. */
  function Selected(filter: Filter, ledger: seq<Log>): seq<Log> {
    if ledger == [] then []
    else
      var n := |ledger| - 1;
      Selected(filter, ledger[..n]) + (if Passes(filter, ledger[n]) then [ledger[n]] else [])
  }

  /** The wanted logs of the ledger. */
  function Wanted(entries: set<TopicsMapEntry>, fromBlock: nat, toBlock: nat, ledger: seq<Log>): seq<Log> {
    if ledger == [] then []
    else
      var n := |ledger| - 1;
      Wanted(entries, fromBlock, toBlock, ledger[..n])
      + (if IsWanted(entries, fromBlock, toBlock, ledger[n]) then [ledger[n]] else [])
  }

  /** The order of the addresses and topics in a query makes no difference. */
  lemma {:induction false} SelectedIsWanted(filter: Filter, entries: set<TopicsMapEntry>, fromBlock: nat, toBlock: nat,
                                            ledger: seq<Log>)
    requires Queries(filter, entries, fromBlock, toBlock)
    ensures Selected(filter, ledger) == Wanted(entries, fromBlock, toBlock, ledger)
  {
    if ledger != [] {
      SelectedIsWanted(filter, entries, fromBlock, toBlock, ledger[..|ledger| - 1]);
    }
  }

  /** So `process_blocks` gives the events of the wanted logs; without entries it makes no
      query, and none is wanted. */
  method ProcessHonestly(subscriber: EthSubscriber.EthSubscriber, fromBlock: nat, toBlock: nat, ledger: seq<Log>)
    returns (events: seq<ParsedEthEvent>)
    requires subscriber.topics.Valid()
    ensures events == ParseTransactionLogs(Wanted(subscriber.topics.entries, fromBlock, toBlock, ledger))
  {
    var r := subscriber.ProcessBlocks(fromBlock, toBlock, filter => Some(Selected(filter, ledger)));
    ghost var entries := subscriber.topics.entries;
    if entries == {} {
      NothingWanted(fromBlock, toBlock, ledger);
    } else {
      ghost var filter :| Queries(filter, entries, fromBlock, toBlock)
        && r == Ok(ParseTransactionLogs(Selected(filter, ledger)));
      SelectedIsWanted(filter, entries, fromBlock, toBlock, ledger);
    }
    events := r.value;
  }

  lemma {:induction false} NothingWanted(fromBlock: nat, toBlock: nat, ledger: seq<Log>)
    ensures Wanted({}, fromBlock, toBlock, ledger) == []
  {
    if ledger != [] {
      NothingWanted(fromBlock, toBlock, ledger[..|ledger| - 1]);
    }
  }

  lemma {:induction false} WantedIff(entries: set<TopicsMapEntry>, fromBlock: nat, toBlock: nat, ledger: seq<Log>,
                                     log: Log)
    ensures log in Wanted(entries, fromBlock, toBlock, ledger)
       <==> log in ledger && IsWanted(entries, fromBlock, toBlock, log)
  {
    if ledger != [] {
      var n := |ledger| - 1;
      WantedIff(entries, fromBlock, toBlock, ledger[..n], log);
      assert ledger == ledger[..n] + [ledger[n]];
    }
  }

  lemma {:induction false} ParsedIsListed(logs: seq<Log>, log: Log)
    requires log in logs && ParseLog(log).Some?
    ensures ParseLog(log).value in ParseTransactionLogs(logs)
  {
    if logs[0] != log {
      ParsedIsListed(logs[1..], log);
    }
  }

  // ---------------------------------------------------------------------------
  // Runs of a registry and the engine of one chain
  // ---------------------------------------------------------------------------

  datatype Environment = Environment(chain: ChainId, maxBlockRange: Option<nat>, height: nat, chains: set<ChainId>)

  /** What a query asked for, and the ledger it was answered from. */
  datatype Query = Query(entries: set<TopicsMapEntry>, ledger: seq<Log>)

  /** The engine is the list of its actions; `queries` are those of its successful rounds. */
  datatype State = State(
    registry: Registry,
    engine: seq<EthRounds.Action>,
    fetched: Option<Query>,
    queries: seq<Query>)

  datatype Action =
    | OnRegistry(op: RegistryOp)
    | Verify(request: Request)
    | Begin(height: nat)
    | Fetch(ledger: seq<Log>)
    | Fail
    | Finish(lookups: EthSubscriber.Lookups)

  function EngineOf(env: Environment, s: State): EthRounds.State {
    EthRounds.Run(env.maxBlockRange, env.height, s.engine)
  }

  function Begun(env: Environment): State {
    State(Registry({}, map[], map[], map[], 0, 0, map c | c in env.chains :: {}), [], None, [])
  }

  function SubscribedTopics(env: Environment, r: Registry): set<TopicsMapEntry> {
    if env.chain in r.topics then r.topics[env.chain] else {}
  }

  /** The topics are read after the range is chosen, and before the logs arrive; a query
      that is tried again reads them again. */
  function AfterAction(env: Environment, s: State, a: Action): State {
    match a
    case OnRegistry(op) => s.(registry := BridgeRegistry.Apply(s.registry, op))
    case Verify(request) => s.(engine := s.engine + [EthRounds.Verify(request)])
    case Begin(height) =>
      if EngineOf(env, s).phase.Fetching? then s
      else s.(engine := s.engine + [EthRounds.Begin(height)], fetched := None)
    case Fetch(ledger) =>
      if EngineOf(env, s).phase.Fetching?
      then s.(fetched := Some(Query(SubscribedTopics(env, s.registry), ledger)))
      else s
    case Fail => s.(engine := s.engine + [EthRounds.Fail], fetched := None)
    case Finish(lookups) =>
      var phase := EngineOf(env, s).phase;
      if phase.Fetching? && s.fetched.Some? then
        var q := s.fetched.value;
        var logs := Wanted(q.entries, phase.fromBlock, phase.toBlock, q.ledger);
        s.(engine := s.engine + [EthRounds.Finish(logs, lookups)],
           fetched := None,
           queries := s.queries + [q])
      else s
  }

  function Run(env: Environment, actions: seq<Action>): State {
    if actions == [] then Begun(env)
    else AfterAction(env, Run(env, actions[..|actions| - 1]), actions[|actions| - 1])
  }

  // ---------------------------------------------------------------------------
  // Rounds have the events of their queries
  // ---------------------------------------------------------------------------

  ghost predicate IsAnswered(round: EthRounds.Round, q: Query) {
    round.events == ParseTransactionLogs(Wanted(q.entries, round.fromBlock, round.toBlock, q.ledger))
  }

  ghost predicate RoundsAnswered(rounds: seq<EthRounds.Round>, queries: seq<Query>) {
    |rounds| == |queries| && forall i :: 0 <= i < |rounds| ==> IsAnswered(rounds[i], queries[i])
  }

  lemma EngineActs(env: Environment, engine: seq<EthRounds.Action>, a: EthRounds.Action)
    ensures EthRounds.Run(env.maxBlockRange, env.height, engine + [a])
         == EthRounds.AfterAction(env.maxBlockRange, EthRounds.Run(env.maxBlockRange, env.height, engine), a)
  {
    assert (engine + [a])[..|engine|] == engine;
  }

  lemma FinishAnswers(env: Environment, s: State, lookups: EthSubscriber.Lookups)
    requires RoundsAnswered(EngineOf(env, s).rounds, s.queries)
    ensures var s' := AfterAction(env, s, Finish(lookups)); RoundsAnswered(EngineOf(env, s').rounds, s'.queries)
  {
    var phase := EngineOf(env, s).phase;
    if phase.Fetching? && s.fetched.Some? {
      var q := s.fetched.value;
      EngineActs(env, s.engine,
                 EthRounds.Finish(Wanted(q.entries, phase.fromBlock, phase.toBlock, q.ledger), lookups));
    }
  }

  lemma StepAnswers(env: Environment, s: State, a: Action)
    requires RoundsAnswered(EngineOf(env, s).rounds, s.queries)
    ensures var s' := AfterAction(env, s, a); RoundsAnswered(EngineOf(env, s').rounds, s'.queries)
  {
    match a
    case OnRegistry(_) =>
    case Verify(request) => EngineActs(env, s.engine, EthRounds.Verify(request));
    case Begin(height) => EngineActs(env, s.engine, EthRounds.Begin(height));
    case Fetch(_) =>
    case Fail => EngineActs(env, s.engine, EthRounds.Fail);
    case Finish(lookups) => FinishAnswers(env, s, lookups);
  }

  lemma {:induction false} RunAnswers(env: Environment, actions: seq<Action>)
    ensures RoundsAnswered(EngineOf(env, Run(env, actions)).rounds, Run(env, actions).queries)
  {
    if actions != [] {
      RunAnswers(env, actions[..|actions| - 1]);
      StepAnswers(env, Run(env, actions[..|actions| - 1]), actions[|actions| - 1]);
    }
  }

  // ---------------------------------------------------------------------------
  // Active configurations stay subscribed
  // ---------------------------------------------------------------------------

  /** The configuration is registered for the chain, and the entry is its contract and topic. */
  ghost predicate IsActive(env: Environment, r: Registry, account: Account, e: TopicsMapEntry) {
    && account in r.eth && r.eth[account].details.chainId == env.chain
    && e == TopicsMapEntry(r.eth[account].details.eventEmitter, r.eth[account].topicHash, account)
  }

  lemma OpKeepsActive(env: Environment, r: Registry, op: RegistryOp, account: Account, e: TopicsMapEntry)
    requires IsActive(env, r, account, e)
    ensures IsActive(env, BridgeRegistry.Apply(r, op), account, e)
  {
  }

  lemma {:induction false} RunKeepsInv(env: Environment, actions: seq<Action>)
    ensures RegistryInv(Run(env, actions).registry)
  {
    if actions != [] {
      RunKeepsInv(env, actions[..|actions| - 1]);
      if actions[|actions| - 1].OnRegistry? {
        BridgeRegistry.StepKeeps(Run(env, actions[..|actions| - 1]).registry, actions[|actions| - 1].op);
      }
    }
  }

  lemma ActiveIsSubscribed(env: Environment, r: Registry, account: Account, e: TopicsMapEntry)
    requires RegistryInv(r) && IsActive(env, r, account, e)
    ensures e in SubscribedTopics(env, r)
  {
  }

  // ---------------------------------------------------------------------------
  // Queries since a configuration became active
  // ---------------------------------------------------------------------------

  /** The round, with its query, was under way in `s0`, its topics read. */
  ghost predicate WasOut(env: Environment, s0: State, round: EthRounds.Round, q: Query) {
    && s0.fetched == Some(q)
    && EngineOf(env, s0).phase == EthRounds.Fetching(round.height, round.fromBlock, round.toBlock)
  }

  ghost predicate StillOut(env: Environment, s0: State, s: State) {
    && s.fetched == s0.fetched && |s.queries| == |s0.queries|
    && EngineOf(env, s).phase == EngineOf(env, s0).phase
  }

  /** Since `s0` queries ask for the entry, except the one that was out then. */
  ghost predicate QueriesAsk(env: Environment, s0: State, s: State, e: TopicsMapEntry) {
    && |s0.queries| <= |s.queries| == |EngineOf(env, s).rounds|
    && (s.fetched.Some? ==> e in s.fetched.value.entries || StillOut(env, s0, s))
    && (forall i :: |s0.queries| <= i < |s.queries| ==> Asks(env, s0, s, e, i))
  }

  ghost predicate Asks(env: Environment, s0: State, s: State, e: TopicsMapEntry, i: nat)
    requires i < |s.queries| == |EngineOf(env, s).rounds|
  {
    || e in s.queries[i].entries
    || (i == |s0.queries| && WasOut(env, s0, EngineOf(env, s).rounds[i], s.queries[i]))
  }

  lemma FinishAsks(env: Environment, s0: State, s: State, lookups: EthSubscriber.Lookups, e: TopicsMapEntry)
    requires QueriesAsk(env, s0, s, e)
    ensures QueriesAsk(env, s0, AfterAction(env, s, Finish(lookups)), e)
  {
    var s', phase := AfterAction(env, s, Finish(lookups)), EngineOf(env, s).phase;
    if phase.Fetching? && s.fetched.Some? {
      var q := s.fetched.value;
      EngineActs(env, s.engine,
                 EthRounds.Finish(Wanted(q.entries, phase.fromBlock, phase.toBlock, q.ledger), lookups));
      forall i | |s0.queries| <= i < |s'.queries| ensures Asks(env, s0, s', e, i) {
        if i < |s.queries| {
          assert Asks(env, s0, s, e, i);
        }
      }
    }
  }

  lemma AsksKept(env: Environment, s0: State, s: State, s': State, e: TopicsMapEntry)
    requires QueriesAsk(env, s0, s, e)
    requires s'.queries == s.queries && EngineOf(env, s').rounds == EngineOf(env, s).rounds
    requires s'.fetched.Some? ==>
               || e in s'.fetched.value.entries
               || (s'.fetched == s.fetched && EngineOf(env, s').phase == EngineOf(env, s).phase)
    ensures QueriesAsk(env, s0, s', e)
  {
    forall i | |s0.queries| <= i < |s'.queries| ensures Asks(env, s0, s', e, i) {
      assert Asks(env, s0, s, e, i);
    }
  }

  /** A step of the engine that ends no round; the query stays out or is forgotten. */
  lemma EngineStepAsks(env: Environment, s0: State, s: State, act: EthRounds.Action, fetched: Option<Query>,
                       e: TopicsMapEntry)
    requires QueriesAsk(env, s0, s, e) && !act.Finish?
    requires fetched == None || (fetched == s.fetched && act.Verify?)
    ensures QueriesAsk(env, s0, s.(engine := s.engine + [act], fetched := fetched), e)
  {
    EngineActs(env, s.engine, act);
    AsksKept(env, s0, s, s.(engine := s.engine + [act], fetched := fetched), e);
  }

  lemma OtherStepAsks(env: Environment, s0: State, s: State, a: Action, e: TopicsMapEntry)
    requires QueriesAsk(env, s0, s, e) && e in SubscribedTopics(env, s.registry) && !a.Finish?
    ensures QueriesAsk(env, s0, AfterAction(env, s, a), e)
  {
    match a
    case Verify(request) => EngineStepAsks(env, s0, s, EthRounds.Verify(request), s.fetched, e);
    case Begin(height) => EngineStepAsks(env, s0, s, EthRounds.Begin(height), None, e);
    case Fail => EngineStepAsks(env, s0, s, EthRounds.Fail, None, e);
    case _ => AsksKept(env, s0, s, AfterAction(env, s, a), e);
  }

  lemma {:induction false} RunAsks(env: Environment, actions: seq<Action>, n: nat, account: Account, e: TopicsMapEntry)
    requires n <= |actions| && IsActive(env, Run(env, actions[..n]).registry, account, e)
    ensures IsActive(env, Run(env, actions).registry, account, e)
    ensures QueriesAsk(env, Run(env, actions[..n]), Run(env, actions), e)
    decreases |actions|
  {
    if n == |actions| {
      assert actions[..n] == actions;
      RunAnswers(env, actions);
    } else {
      var front, a := actions[..|actions| - 1], actions[|actions| - 1];
      assert front[..n] == actions[..n];
      RunAsks(env, front, n, account, e);
      RunKeepsInv(env, front);
      ActiveIsSubscribed(env, Run(env, front).registry, account, e);
      if a.Finish? {
        FinishAsks(env, Run(env, actions[..n]), Run(env, front), a.lookups, e);
      } else {
        OtherStepAsks(env, Run(env, actions[..n]), Run(env, front), a, e);
        if a.OnRegistry? {
          OpKeepsActive(env, Run(env, front).registry, a.op, account, e);
        }
      }
    }
  }

  // ---------------------------------------------------------------------------
  // No log is missed
  // ---------------------------------------------------------------------------

  /** The rounds that were over stay the first ones. */
  lemma {:induction false} RoundsGrow(env: Environment, actions: seq<Action>, n: nat)
    requires n <= |actions|
    ensures EngineOf(env, Run(env, actions[..n])).rounds <= EngineOf(env, Run(env, actions)).rounds
    decreases |actions|
  {
    if n == |actions| {
      assert actions[..n] == actions;
    } else {
      var front := actions[..|actions| - 1];
      assert front[..n] == actions[..n];
      RoundsGrow(env, front, n);
      StepGrows(env, Run(env, front), actions[|actions| - 1]);
    }
  }

  lemma StepGrows(env: Environment, s: State, a: Action)
    ensures EngineOf(env, s).rounds <= EngineOf(env, AfterAction(env, s, a)).rounds
  {
    var s' := AfterAction(env, s, a);
    if s'.engine != s.engine {
      var last := s'.engine[|s.engine|];
      assert s'.engine == s.engine + [last];
      EngineActs(env, s.engine, last);
    }
  }

  /** Each round starts where the one before it ended. */
  ghost predicate Consecutive(start: nat, rounds: seq<EthRounds.Round>) {
    forall k :: 0 <= k < |rounds| ==> rounds[k].fromBlock == EthRounds.CursorOf(start, rounds[..k])
  }

  /** The rounds of `s` go on from those of `s0`. */
  ghost predicate ScansOn(env: Environment, s0: State, s: State) {
    && EngineOf(env, s0).rounds <= EngineOf(env, s).rounds
    && Consecutive(env.height, EngineOf(env, s).rounds)
    && EngineOf(env, s0).engine.cursor == EthRounds.CursorOf(env.height, EngineOf(env, s0).rounds)
    && EngineOf(env, s).engine.cursor == EthRounds.CursorOf(env.height, EngineOf(env, s).rounds)
  }

  lemma EngineIsConsecutive(env: Environment, s: State)
    ensures Consecutive(env.height, EngineOf(env, s).rounds)
    ensures EngineOf(env, s).engine.cursor == EthRounds.CursorOf(env.height, EngineOf(env, s).rounds)
  {
    EthRounds.RunKeepsScan(env.maxBlockRange, env.height, s.engine);
  }

  lemma RunScansOn(env: Environment, actions: seq<Action>, n: nat)
    requires n <= |actions|
    ensures ScansOn(env, Run(env, actions[..n]), Run(env, actions))
  {
    RoundsGrow(env, actions, n);
    EngineIsConsecutive(env, Run(env, actions[..n]));
    EngineIsConsecutive(env, Run(env, actions));
  }

  /** Every block that the cursor passed since `s0` is in a round after it. */
  lemma BlockScannedSince(env: Environment, s0: State, s: State, block: nat) returns (i: nat)
    requires ScansOn(env, s0, s)
    requires EngineOf(env, s0).engine.cursor < block <= EngineOf(env, s).engine.cursor
    ensures |EngineOf(env, s0).rounds| <= i < |EngineOf(env, s).rounds|
    ensures InRangeOf(EngineOf(env, s).rounds[i], block)
  {
    i := LaterRoundCovers(env.height, EngineOf(env, s0).rounds, EngineOf(env, s).rounds, block);
  }

  predicate InRangeOf(round: EthRounds.Round, block: nat) {
    round.fromBlock <= block <= round.toBlock
  }

  lemma CursorAfterBoth(start: nat, before: seq<EthRounds.Round>, later: seq<EthRounds.Round>)
    ensures EthRounds.CursorOf(start, before + later) == EthRounds.CursorOf(EthRounds.CursorOf(start, before), later)
  {
    if later == [] {
      assert before + later == before;
    } else {
      assert (before + later)[|before + later| - 1] == later[|later| - 1];
    }
  }

  lemma LaterRoundCovers(start: nat, before: seq<EthRounds.Round>, after: seq<EthRounds.Round>, block: nat)
    returns (i: nat)
    requires before < after
    requires EthRounds.CursorOf(start, before) <= block <= EthRounds.CursorOf(start, after)
    requires Consecutive(start, after)
    ensures |before| <= i < |after| && InRangeOf(after[i], block)
  {
    var later, from := after[|before|..], EthRounds.CursorOf(start, before);
    assert after == before + later;
    forall k | 0 <= k < |later| ensures later[k].fromBlock == EthRounds.CursorOf(from, later[..k]) {
      assert after[|before| + k] == later[k];
      assert after[..|before| + k] == before + later[..k];
      CursorAfterBoth(start, before, later[..k]);
    }
    CursorAfterBoth(start, before, later);
    var j := EthRounds.RoundsCover(from, later, block);
    i := |before| + j;
  }

  /** The configuration's log, usable as an event, of this block. */
  predicate IsLogOf(e: TopicsMapEntry, log: Log, block: nat) {
    Emits(e, log) && log.blockNumber == Some(block) && ParseLog(log).Some?
  }

  /** The query lets the logs of the entry through, be it by the addresses and topics of others. */
  ghost predicate LetsThrough(q: Query, e: TopicsMapEntry) {
    && (exists x :: x in q.entries && x.address == e.address)
    && (exists x :: x in q.entries && x.topicHash == e.topicHash)
  }

  /** The round asked for this block, and its query lets all logs of the entry in it through. */
  ghost predicate Covers(round: EthRounds.Round, q: Query, e: TopicsMapEntry, block: nat) {
    && InRangeOf(round, block)
    && forall log :: IsLogOf(e, log, block) ==> IsWanted(q.entries, round.fromBlock, round.toBlock, log)
  }

  /** One of the rounds from `first` on covers the block. */
  ghost predicate CoveredSince(env: Environment, s: State, first: nat, e: TopicsMapEntry, block: nat) {
    exists i :: first <= i < |s.queries| && i < |EngineOf(env, s).rounds|
                && Covers(EngineOf(env, s).rounds[i], s.queries[i], e, block)
  }

  /** No query is out, or the one that is lets the logs through or does not ask for the block. */
  ghost predicate IsSafe(env: Environment, s: State, e: TopicsMapEntry, block: nat) {
    s.fetched.Some? && EngineOf(env, s).phase.Fetching? ==>
      LetsThrough(s.fetched.value, e) || EngineOf(env, s).phase.toBlock < block
  }

  lemma LetThroughIsCovered(round: EthRounds.Round, q: Query, e: TopicsMapEntry, block: nat)
    requires LetsThrough(q, e) && InRangeOf(round, block)
    ensures Covers(round, q, e, block)
  {
  }

  /** In every run, each block that the cursor reaches after a configuration became active is
      covered by a later round, if it is safe. */
  lemma SafeIsCovered(env: Environment, actions: seq<Action>, n: nat, account: Account, e: TopicsMapEntry, block: nat)
    returns (i: nat)
    requires n <= |actions| && IsActive(env, Run(env, actions[..n]).registry, account, e)
    requires EngineOf(env, Run(env, actions[..n])).engine.cursor < block
    requires block <= EngineOf(env, Run(env, actions)).engine.cursor
    requires IsSafe(env, Run(env, actions[..n]), e, block)
    ensures |Run(env, actions[..n]).queries| <= i < |Run(env, actions).queries|
    ensures |EngineOf(env, Run(env, actions)).rounds| == |Run(env, actions).queries|
    ensures Covers(EngineOf(env, Run(env, actions)).rounds[i], Run(env, actions).queries[i], e, block)
  {
    var s0, s := Run(env, actions[..n]), Run(env, actions);
    RunScansOn(env, actions, n);
    i := BlockScannedSince(env, s0, s, block);
    RunAnswers(env, actions[..n]);
    RunAsks(env, actions, n, account, e);
    assert Asks(env, s0, s, e, i);
    LetThroughIsCovered(EngineOf(env, s).rounds[i], s.queries[i], e, block);
  }

  /** The last block that the query which was out asked for is asked for again, once the
      cursor gets past it. */
  lemma LastBlockIsAskedAgain(env: Environment, actions: seq<Action>, n: nat, account: Account, e: TopicsMapEntry)
    returns (i: nat)
    requires n <= |actions| && IsActive(env, Run(env, actions[..n]).registry, account, e)
    requires EngineOf(env, Run(env, actions[..n])).phase.Fetching?
    requires var phase := EngineOf(env, Run(env, actions[..n])).phase;
             && EngineOf(env, Run(env, actions[..n])).engine.cursor < phase.toBlock
             && phase.toBlock < EngineOf(env, Run(env, actions)).engine.cursor
    ensures |Run(env, actions[..n]).queries| <= i < |Run(env, actions).queries|
    ensures |EngineOf(env, Run(env, actions)).rounds| == |Run(env, actions).queries|
    ensures Covers(EngineOf(env, Run(env, actions)).rounds[i], Run(env, actions).queries[i], e,
                   EngineOf(env, Run(env, actions[..n])).phase.toBlock)
  {
    var s0, s, block := Run(env, actions[..n]), Run(env, actions), EngineOf(env, Run(env, actions[..n])).phase.toBlock;
    RunScansOn(env, actions, n);
    i := BlockScannedSince(env, s0, s, block);
    RunAnswers(env, actions[..n]);
    RunAsks(env, actions, n, account, e);
    if e !in s.queries[i].entries {
      i := NextRoundAsks(env, s0, s, e, i);
    }
    LetThroughIsCovered(EngineOf(env, s).rounds[i], s.queries[i], e, block);
  }

  /** When the round that was out is over, a later one starts at its last block. */
  lemma NextRoundAsks(env: Environment, s0: State, s: State, e: TopicsMapEntry, i: nat) returns (j: nat)
    requires QueriesAsk(env, s0, s, e) && Consecutive(env.height, EngineOf(env, s).rounds)
    requires |s0.queries| <= i < |s.queries| && e !in s.queries[i].entries
    requires EngineOf(env, s0).phase.Fetching?
    requires EngineOf(env, s0).phase.toBlock < EthRounds.CursorOf(env.height, EngineOf(env, s).rounds)
    ensures i < j < |s.queries| && e in s.queries[j].entries
    ensures InRangeOf(EngineOf(env, s).rounds[j], EngineOf(env, s0).phase.toBlock)
  {
    var rounds, block := EngineOf(env, s).rounds, EngineOf(env, s0).phase.toBlock;
    assert i == |s0.queries| && rounds[i].toBlock == block by {
      assert Asks(env, s0, s, e, i);
    }
    j := RoundAfter(env.height, rounds, i, block);
    assert Asks(env, s0, s, e, j);
  }

  lemma RoundAfter(start: nat, rounds: seq<EthRounds.Round>, i: nat, block: nat) returns (j: nat)
    requires Consecutive(start, rounds) && i < |rounds| && rounds[i].toBlock == block
    requires block < EthRounds.CursorOf(start, rounds)
    ensures i < j < |rounds| && InRangeOf(rounds[j], block)
  {
    j := LaterRoundCovers(start, rounds[..i + 1], rounds, block);
  }

  /** Then the events of that round include all logs of the configuration that the node's
      ledger held for the block. */
  lemma NoLogIsMissed(env: Environment, actions: seq<Action>, n: nat, account: Account, e: TopicsMapEntry, block: nat)
    returns (i: nat)
    requires n <= |actions| && IsActive(env, Run(env, actions[..n]).registry, account, e)
    requires EngineOf(env, Run(env, actions[..n])).engine.cursor < block
    requires block <= EngineOf(env, Run(env, actions)).engine.cursor
    requires IsSafe(env, Run(env, actions[..n]), e, block)
    ensures i < |EngineOf(env, Run(env, actions)).rounds| == |Run(env, actions).queries|
    ensures InRangeOf(EngineOf(env, Run(env, actions)).rounds[i], block)
    ensures forall log :: log in Run(env, actions).queries[i].ledger && IsLogOf(e, log, block) ==>
              ParseLog(log).value in EngineOf(env, Run(env, actions)).rounds[i].events
  {
    i := SafeIsCovered(env, actions, n, account, e, block);
    RunAnswers(env, actions);
    var round, q := EngineOf(env, Run(env, actions)).rounds[i], Run(env, actions).queries[i];
    forall log | log in q.ledger && IsLogOf(e, log, block) ensures ParseLog(log).value in round.events {
      LogIsSeen(round, q, e, log, block);
    }
  }

  lemma LogIsSeen(round: EthRounds.Round, q: Query, e: TopicsMapEntry, log: Log, block: nat)
    requires IsAnswered(round, q) && Covers(round, q, e, block) && log in q.ledger && IsLogOf(e, log, block)
    ensures ParseLog(log).value in round.events
  {
    WantedIff(q.entries, round.fromBlock, round.toBlock, q.ledger, log);
    ParsedIsListed(Wanted(q.entries, round.fromBlock, round.toBlock, q.ledger), log);
  }

  // ---------------------------------------------------------------------------
  // Logs that are missed
  // ---------------------------------------------------------------------------

  /** Topics are read only while a round fetches. */
  lemma {:induction false} FetchedWhileFetching(env: Environment, actions: seq<Action>)
    ensures Run(env, actions).fetched.Some? ==> EngineOf(env, Run(env, actions)).phase.Fetching?
  {
    if actions != [] {
      var s, a := Run(env, actions[..|actions| - 1]), actions[|actions| - 1];
      FetchedWhileFetching(env, actions[..|actions| - 1]);
      if a.Verify? {
        EngineActs(env, s.engine, EthRounds.Verify(a.request));
      }
    }
  }

  lemma RunOneMore(env: Environment, actions: seq<Action>, a: Action)
    ensures Run(env, actions + [a]) == AfterAction(env, Run(env, actions), a)
  {
    assert (actions + [a])[..|actions|] == actions;
  }

  /** A log that carries what an event needs. */
  function SomeLog(e: TopicsMapEntry, block: nat): (log: Log)
    ensures IsLogOf(e, log, block)
  {
    Log(e.address, [e.topicHash], [], Some(0), Some(block), Some(0), Some(0), None)
  }

  lemma NotLetThrough(q: Query, fromBlock: nat, toBlock: nat, e: TopicsMapEntry, block: nat)
    requires !LetsThrough(q, e)
    ensures forall log :: IsLogOf(e, log, block) ==> log !in Wanted(q.entries, fromBlock, toBlock, q.ledger)
    ensures !IsWanted(q.entries, fromBlock, toBlock, SomeLog(e, block))
  {
    forall log | IsLogOf(e, log, block) ensures log !in Wanted(q.entries, fromBlock, toBlock, q.ledger) {
      WantedIff(q.entries, fromBlock, toBlock, q.ledger, log);
    }
  }

  /** When the round that is out ends, the cursor has reached the block, and no round since
      covers it: the round wanted none of the configuration's logs, whatever the ledger held. */
  lemma UnsafeIsMissed(env: Environment, actions: seq<Action>, lookups: EthSubscriber.Lookups, e: TopicsMapEntry,
                       block: nat)
    requires !IsSafe(env, Run(env, actions), e, block)
    ensures var s, s' := Run(env, actions), Run(env, actions + [Finish(lookups)]);
            && EngineOf(env, s').engine.cursor >= block
            && s'.queries == s.queries + [s.fetched.value]
            && !CoveredSince(env, s', |s.queries|, e, block)
  {
    var s, phase := Run(env, actions), EngineOf(env, Run(env, actions)).phase;
    RunOneMore(env, actions, Finish(lookups));
    RunAnswers(env, actions);
    var q := s.fetched.value;
    EngineActs(env, s.engine, EthRounds.Finish(Wanted(q.entries, phase.fromBlock, phase.toBlock, q.ledger), lookups));
    NotLetThrough(q, phase.fromBlock, phase.toBlock, e, block);
  }

  /** The continuation does not reach the block, or covers it after `s0`. */
  ghost predicate CoveredOnceReached(env: Environment, actions: seq<Action>, more: seq<Action>, e: TopicsMapEntry,
                                     block: nat)
  {
    var s := Run(env, actions + more);
    EngineOf(env, s).engine.cursor < block || CoveredSince(env, s, |Run(env, actions).queries|, e, block)
  }

  /** A block ahead of the cursor when a configuration is active is sure to be covered, in
      every continuation of the run, exactly when it is safe. */
  lemma CoveredIffSafe(env: Environment, actions: seq<Action>, account: Account, e: TopicsMapEntry, block: nat)
    requires IsActive(env, Run(env, actions).registry, account, e)
    requires EngineOf(env, Run(env, actions)).engine.cursor < block
    ensures (forall more :: CoveredOnceReached(env, actions, more, e, block))
       <==> IsSafe(env, Run(env, actions), e, block)
  {
    if IsSafe(env, Run(env, actions), e, block) {
      forall more ensures CoveredOnceReached(env, actions, more, e, block) {
        assert (actions + more)[..|actions|] == actions;
        if EngineOf(env, Run(env, actions + more)).engine.cursor >= block {
          var i := SafeIsCovered(env, actions + more, |actions|, account, e, block);
        }
      }
    } else {
      var lookups: EthSubscriber.Lookups := _ => Failed;
      UnsafeIsMissed(env, actions, lookups, e, block);
      assert !CoveredOnceReached(env, actions, [Finish(lookups)], e, block);
    }
  }

  /** The run up to the moment before the round ends: the query is out, without any topic,
      when the configuration becomes active. */
  function RacingActions(connector: Account, account: Account, contract: ConfigurationContract, log: Log): seq<Action> {
    [OnRegistry(AddConnector(connector)), Begin(20), Fetch([log]),
     OnRegistry(ProcessConfiguration(connector, account, contract, 0))]
  }

  /** It happens: the log of block 15 is in the ledger of the one query for that block, its
      configuration is active, and the cursor moves from block 10 to block 20 past it. */
  lemma LogsCanBeMissed(connector: Account, account: Account, contract: ConfigurationContract, log: Log,
                        lookups: EthSubscriber.Lookups)
    requires contract.eventType == Some(EthEvent) && contract.ethTopic.Some?
    requires contract.ethDetails.Some? && contract.ethDetails.value.chainId == 1
    requires IsLogOf(EntryOf(account, EthConfiguration(contract.ethDetails.value, contract.ethTopic.value)), log, 15)
    ensures var env, actions := Environment(1, None, 10, {1}), RacingActions(connector, account, contract, log);
            var e := EntryOf(account, EthConfiguration(contract.ethDetails.value, contract.ethTopic.value));
            var s, s' := Run(env, actions), Run(env, actions + [Finish(lookups)]);
            && IsActive(env, s.registry, account, e) && EngineOf(env, s).engine.cursor == 10
            && EngineOf(env, s').engine.cursor == 20
            && s'.queries == [Query({}, [log])]
            && |EngineOf(env, s').rounds| == 1 && EngineOf(env, s').rounds[0].events == []
  {
    var env, actions := Environment(1, None, 10, {1}), RacingActions(connector, account, contract, log);
    RacingRegistry(connector, account, contract);
    RacingState(connector, account, contract, log);
    var s := Run(env, actions);
    RunOneMore(env, actions, Finish(lookups));
    NothingWanted(10, 20, [log]);
    EngineActs(env, s.engine, EthRounds.Finish([], lookups));
  }

  lemma RacingRegistry(connector: Account, account: Account, contract: ConfigurationContract)
    requires contract.eventType == Some(EthEvent) && contract.ethTopic.Some?
    requires contract.ethDetails.Some? && contract.ethDetails.value.chainId == 1
    ensures var env := Environment(1, None, 10, {1});
            var r := BridgeRegistry.Apply(Begun(env).registry, AddConnector(connector));
            && SubscribedTopics(env, r) == {}
            && IsActive(env, BridgeRegistry.Apply(r, ProcessConfiguration(connector, account, contract, 0)), account,
                        EntryOf(account, EthConfiguration(contract.ethDetails.value, contract.ethTopic.value)))
  {
  }

  lemma RacingState(connector: Account, account: Account, contract: ConfigurationContract, log: Log)
    ensures var env := Environment(1, None, 10, {1});
            var s := Run(env, RacingActions(connector, account, contract, log));
            var r := BridgeRegistry.Apply(Begun(env).registry, AddConnector(connector));
            && s.registry == BridgeRegistry.Apply(r, ProcessConfiguration(connector, account, contract, 0))
            && EngineOf(env, s) == EthRounds.Started(10).(phase := EthRounds.Fetching(20, 10, 20))
            && s.fetched == Some(Query(SubscribedTopics(env, r), [log])) && s.queries == []
  {
    var env, actions := Environment(1, None, 10, {1}), RacingActions(connector, account, contract, log);
    assert actions[..1] == [] + [actions[0]] && actions[..2] == actions[..1] + [actions[1]];
    assert actions[..3] == actions[..2] + [actions[2]] && actions == actions[..3] + [actions[3]];
    RunOneMore(env, [], actions[0]);
    RunOneMore(env, actions[..1], actions[1]);
    EngineActs(env, [], EthRounds.Begin(20));
    RunOneMore(env, actions[..2], actions[2]);
    RunOneMore(env, actions[..3], actions[3]);
  }
}
