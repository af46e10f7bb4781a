/**
 What the steps of a bridge run lead to (src/engine/bridge/mod.rs).

 BridgeVotes says what a vote rests on; this is the other direction: what makes a relay add,
 remove, start, vote and send.
 */
module BridgeOutcomes {
  import opened Wrappers
  import opened ShardUtils
  import opened EventBase
  import opened BridgeEvents
  import opened EthEvents
  import opened BridgeRuns
  import opened BridgeVoters
  import opened BridgeVotes
  import EthRounds

  /** After a step of a task it is what its effect says. */
  lemma StepNext(env: Environment, s: State, t: TaskId, input: Input)
    requires t in s.tasks
    ensures TaskAt(AfterAction(env, s, Step(t, input)), t) == StepEffect(env, s.shared, s.tasks[t], input).next
    ensures Possible(s.shared, StepEffect(env, s.shared, s.tasks[t], input).change)
    ensures AfterAction(env, s, Step(t, input)).shared
         == AfterChange(s.shared, t, StepEffect(env, s.shared, s.tasks[t], input).change)
  {
    EffectPossible(env, s, Step(t, input));
    AppliedAt(s, t, StepEffect(env, s.shared, s.tasks[t], input));
  }

  // ---------------------------------------------------------------------------
  // Adding events
  // ---------------------------------------------------------------------------

  /** The contract is not over for this relay, and the configuration of its event is known. */
  predicate WorthAdding(env: Environment, s: Shared, c: Contract) {
    && (Process(c.base, env.ourKey, env.kind == TonKind) == Ok(Nop)
        || Process(c.base, env.ourKey, env.kind == TonKind) == Ok(Vote))
    && (env.kind == EthKind ==> c.ethInit.Ok? && c.ethInit.value.configuration in s.ethConfigurations)
    && (env.kind == TonKind ==> c.tonInit.Ok? && c.tonInit.value.configuration in s.tonConfigurations)
  }

  /** What adding an account leads to: a new entry, flag clear, and the task that counts it and
      then goes on as its origin wants. */
  ghost predicate IsAdded(s: State, s': State, account: Account, mode: StartMode) {
    && s'.shared.events.pending
       == s.shared.events.pending[account := PendingEvent(false, |s.shared.events.inserted|)]
    && TaskAt(s', s.nextTask) == Some(CountingUp(account, mode))
  }

  ghost predicate IsUnchanged(s: State, s': State) {
    s'.shared == s.shared && s'.tasks == s.tasks
  }

  /** A deployed event is added unless it is pending; one that the start-up scan finds, if it
      is also worth it. */
  lemma AddedIff(env: Environment, s: State, account: Account, c: Contract)
    requires TasksNumbered(s)
    ensures account !in s.shared.events.pending ==>
              IsAdded(s, AfterAction(env, s, Deployed(account)), account, Preprocess)
    ensures account !in s.shared.events.pending && WorthAdding(env, s.shared, c) ==>
              IsAdded(s, AfterAction(env, s, Found(account, c)), account, Update)
    ensures account in s.shared.events.pending ==> IsUnchanged(s, AfterAction(env, s, Deployed(account)))
    ensures account in s.shared.events.pending || !WorthAdding(env, s.shared, c) ==>
              IsUnchanged(s, AfterAction(env, s, Found(account, c)))
  {
    assert s.nextTask !in s.tasks;
    assert s.tasks - {s.nextTask} == s.tasks;
  }

  /** Once counted, a deployed event is looked at first, a found one is started right away. A
      look starts the event when its vote is due, and removes it when it is over. */
  lemma AddedGoesOn(env: Environment, s: State, t: TaskId, input: Input)
    requires t in s.tasks
    ensures var s', account := AfterAction(env, s, Step(t, input)), s.tasks[t].account;
            && (s.tasks[t] == CountingUp(account, Preprocess) ==> TaskAt(s', t) == Some(Preprocessing(account)))
            && (s.tasks[t] == CountingUp(account, Update) ==> TaskAt(s', t) == Some(Starting(account)))
            && (s.tasks[t] == Preprocessing(account) ==>
                  && (TaskAt(s', t) == Some(Starting(account)) <==> VoteWasDue(env, input))
                  && (TaskAt(s', t) == Some(Removing(account)) <==> RemovalWasDue(env, input)))
  {
    StepNext(env, s, t, input);
  }

  /** The contract looked at is over for this relay (EventBase.VoteIff leaves just these). */
  predicate RemovalWasDue(env: Environment, input: Input) {
    input.Look? && Process(input.contract.base, env.ourKey, env.kind == TonKind) == Ok(Remove)
  }

  // ---------------------------------------------------------------------------
  // Transactions of event contracts
  // ---------------------------------------------------------------------------

  /** A transaction of a pending event erases it exactly when it ends the event, and then
      somebody counts it down; it makes somebody start on it exactly when it opens the voting.
      Other entries stay as they are, and so does this one if it is not erased. */
  lemma HandleOutcome(env: Environment, s: State, account: Account, event: ContractEvent, status: EventStatus)
    requires TasksNumbered(s)
    ensures var s' := AfterAction(env, s, Handle(account, event, status));
            var ends := account in s.shared.events.pending && EndsEvent(env.kind, env.ourKey, event, status);
            var opens := account in s.shared.events.pending && OpensVoting(env.kind, env.ourKey, event, status);
            && s'.shared.events.pending
               == (if ends then s.shared.events.pending - {account} else s.shared.events.pending)
            && (TaskAt(s', s.nextTask) == Some(CountingDown(account)) <==> ends)
            && (TaskAt(s', s.nextTask) == Some(Starting(account)) <==> opens)
            && (!ends && !opens ==> IsUnchanged(s, s'))
  {
    ReactionMeans(env.kind, env.ourKey, event, status);
    assert s.nextTask !in s.tasks;
    assert s.tasks - {s.nextTask} == s.tasks;
  }

  /** A task that is to remove its event does so. */
  lemma RemovalErases(env: Environment, s: State, t: TaskId, account: Account, input: Input)
    requires TaskAt(s, t) == Some(Removing(account))
    ensures var s' := AfterAction(env, s, Step(t, input));
            && s'.shared.events.pending == s.shared.events.pending - {account}
            && TaskAt(s', t) == if account in s.shared.events.pending then Some(CountingDown(account)) else None
  {
    StepNext(env, s, t, input);
  }

  // ---------------------------------------------------------------------------
  // What every run keeps
  // ---------------------------------------------------------------------------

  /** The chain that a task verifies on has an engine. */
  ghost predicate ChainKnown(s: Shared, task: Task) {
    (task.Verifying? || task.Awaiting?) ==> task.chain in s.chains
  }

  ghost predicate ChainsKnown(s: State) {
    forall t :: t in s.tasks ==> ChainKnown(s.shared, s.tasks[t])
  }

  lemma EffectKeepsChains(env: Environment, s: Shared, task: Task, input: Input)
    requires ChainKnown(s, task) && StepEffect(env, s, task, input).next.Some?
    ensures ChainKnown(s, StepEffect(env, s, task, input).next.value)
  {
  }

  lemma ChangeKeepsChains(s: Shared, t: TaskId, c: Change)
    requires Possible(s, c)
    ensures AfterChange(s, t, c).chains.Keys == s.chains.Keys
  {
  }

  lemma StepKeepsChains(env: Environment, s: State, a: Action)
    requires ChainsKnown(s) && TasksNumbered(s)
    ensures ChainsKnown(AfterAction(env, s, a))
  {
    var s' := AfterAction(env, s, a);
    EffectPossible(env, s, a);
    ChangeKeepsChains(s.shared, TaskOf(s, a), EffectOf(env, s, a).change);
    forall t | t in s'.tasks ensures ChainKnown(s'.shared, s'.tasks[t]) {
      if StepOf(a, t) {
        StepLeadsTo(env, s, a, t);
        EffectKeepsChains(env, s.shared, s.tasks[t], a.input);
      } else {
        OthersUnmoved(env, s, a, t);
      }
    }
  }

  lemma {:induction false} RunKeepsChains(env: Environment, actions: seq<Action>)
    ensures ChainsKnown(Run(env, actions))
  {
    if actions != [] {
      RunKeepsChains(env, actions[..|actions| - 1]);
      RunNumbersTasks(env, actions[..|actions| - 1]);
      StepKeepsChains(env, Run(env, actions[..|actions| - 1]), actions[|actions| - 1]);
    }
  }

  /** An engine answers a ticket once, and drops none that it answers. */
  lemma AnswersExclude(c: Chain, ticket: Ticket, v: VerificationStatus)
    requires (ticket, v) in EngineOf(c).engine.answers
    ensures ticket !in EngineOf(c).engine.dropped
    ensures forall w :: (ticket, w) in EngineOf(c).engine.answers ==> w == v
  {
    EthRounds.RunConserves(c.maxBlockRange, c.height, c.actions);
    var e := EngineOf(c).engine;
    assert EthRounds.AnsweredTicket(e, ticket);
    forall w | (ticket, w) in e.answers ensures w == v {
      assert (ticket, w).0 == (ticket, v).0;
    }
  }

  // ---------------------------------------------------------------------------
  // From one step of a voter to the next
  // ---------------------------------------------------------------------------

  ghost predicate IsDropped(s: Shared, chain: ChainId, ticket: Ticket) {
    chain in s.chains && ticket in EngineOf(s.chains[chain]).engine.dropped
  }

  ghost predicate HasVerdict(s: Shared, chain: ChainId, ticket: Ticket, v: VerificationStatus) {
    chain in s.chains && (ticket, v) in EngineOf(s.chains[chain]).engine.answers
  }

  ghost predicate IsRegistered(s: Shared, configuration: ConfigurationId) {
    configuration in s.ethConfigurations && s.ethConfigurations[configuration].chain in s.chains
  }

  /** What turns a voter away from its event: the contract is over, the configuration is not
      registered or its chain has no engine, or the engine dropped the request. */
  ghost predicate TurnsAway(env: Environment, s: Shared, task: Task, input: Input) {
    match task
    case Examining(_) => RemovalWasDue(env, input)
    case EthConfiguring(_, init) => !IsRegistered(s, init.configuration)
    case TonConfiguring(_, init, _) => init.configuration !in s.tonConfigurations
    case Awaiting(_, _, chain, _, ticket) => IsDropped(s, chain, ticket)
    case _ => false
  }

  /** In every run a voter turns to removing its event exactly for these reasons. */
  lemma VoterRemovesIff(env: Environment, actions: seq<Action>, t: TaskId, input: Input)
    requires t in Run(env, actions).tasks && IsVoter(Run(env, actions).tasks[t])
    ensures var s := Run(env, actions);
            var next := TaskAt(AfterAction(env, s, Step(t, input)), t);
            next == Some(Removing(s.tasks[t].account)) <==> TurnsAway(env, s.shared, s.tasks[t], input)
  {
    var s := Run(env, actions);
    StepNext(env, s, t, input);
    if s.tasks[t].Awaiting? {
      RunKeepsChains(env, actions);
      AnsweredOrDropped(s.shared, s.tasks[t]);
    } else {
      TurnsAwayIff(env, s.shared, s.tasks[t], input);
    }
  }

  lemma TurnsAwayIff(env: Environment, s: Shared, task: Task, input: Input)
    requires IsVoter(task) && !task.Awaiting?
    ensures StepEffect(env, s, task, input).next == Some(Removing(task.account)) <==> TurnsAway(env, s, task, input)
  {
  }

  /** The exact outcome of waiting for an answer. */
  lemma AnsweredOrDropped(s: Shared, task: Task)
    requires task.Awaiting? && task.chain in s.chains
    ensures Answered(s, task) == Removing(task.account) <==> IsDropped(s, task.chain, task.ticket)
    ensures forall v :: Answered(s, task) == Voted(task, v) <==> HasVerdict(s, task.chain, task.ticket, v)
  {
    if HasVerdict(s, task.chain, task.ticket, Exists) {
      AnswersExclude(s.chains[task.chain], task.ticket, Exists);
    } else if HasVerdict(s, task.chain, task.ticket, NotExists) {
      AnswersExclude(s.chains[task.chain], task.ticket, NotExists);
    }
    forall v ensures Answered(s, task) == Voted(task, v) <==> HasVerdict(s, task.chain, task.ticket, v) {
      assert v == Exists || v == NotExists;
    }
  }

  /** The task, with the verdict as its vote. */
  function Voted(task: Task, v: VerificationStatus): Task
    requires task.Awaiting?
  {
    TakingObserver(task.account, EthBallot(task.ethInit, task.chain, task.request, task.ticket, v))
  }

  /** In every run the verdict of the engine becomes the vote: a waiting task goes on to confirm
      exactly when its ticket is answered Exists, and to reject exactly when NotExists. */
  lemma VerdictIsVoted(env: Environment, actions: seq<Action>, t: TaskId, v: VerificationStatus, input: Input)
    requires t in Run(env, actions).tasks && Run(env, actions).tasks[t].Awaiting?
    ensures var s, task := Run(env, actions), Run(env, actions).tasks[t];
            var next := TaskAt(AfterAction(env, s, Step(t, input)), t);
            next == Some(Voted(task, v)) <==> HasVerdict(s.shared, task.chain, task.ticket, v)
  {
    StepNext(env, Run(env, actions), t, input);
    RunKeepsChains(env, actions);
    AnsweredOrDropped(Run(env, actions).shared, Run(env, actions).tasks[t]);
  }

  /** A due vote takes the data of its event along, unless it cannot be read. */
  lemma DueVoteGoesOn(env: Environment, s: State, t: TaskId, account: Account, input: Input)
    requires TaskAt(s, t) == Some(Examining(account)) && VoteWasDue(env, input)
    ensures var c, next := input.contract, TaskAt(AfterAction(env, s, Step(t, input)), t);
            && (env.kind == EthKind ==>
                  next == if c.ethInit.Ok? then Some(EthConfiguring(account, c.ethInit.value)) else None)
            && (env.kind == TonKind ==>
                  next == if c.tonInit.Ok? && c.roundNumber.Ok?
                          then Some(TonConfiguring(account, c.tonInit.value, c.roundNumber.value)) else None)
  {
    StepNext(env, s, t, input);
  }

  /** A registered configuration makes the request from the data of the event. */
  lemma EthConfigurationIsUsed(env: Environment, s: State, t: TaskId, account: Account, init: EthInitData, input: Input)
    requires TaskAt(s, t) == Some(EthConfiguring(account, init)) && IsRegistered(s.shared, init.configuration)
    ensures var c := s.shared.ethConfigurations[init.configuration];
            var next := TaskAt(AfterAction(env, s, Step(t, input)), t);
            next == Some(Verifying(account, init, c.chain, Request(init.vote, c.emitter, c.abi, c.blocksToConfirm)))
  {
    StepNext(env, s, t, input);
  }

  /** On the TON side it makes the vote: the mapped data to sign, or a rejection. */
  lemma TonConfigurationIsUsed(env: Environment, s: State, t: TaskId, account: Account, init: TonInitData, round: nat,
                               input: Input)
    requires TaskAt(s, t) == Some(TonConfiguring(account, init, round))
    requires init.configuration in s.shared.tonConfigurations
    ensures var signed := s.shared.tonConfigurations[init.configuration].mapEvent(init, round);
            var next := TaskAt(AfterAction(env, s, Step(t, input)), t);
            next == Some(TakingObserver(account, TonBallot(init, round, signed)))
  {
    StepNext(env, s, t, input);
  }

  /** A request is put to the engine, which issues the ticket to wait for. */
  lemma RequestIsPut(env: Environment, actions: seq<Action>, t: TaskId, input: Input)
    requires t in Run(env, actions).tasks && Run(env, actions).tasks[t].Verifying?
    ensures var s, task := Run(env, actions), Run(env, actions).tasks[t];
            var s' := AfterAction(env, s, Step(t, input));
            && task.chain in s.shared.chains
            && var ticket := EngineOf(s.shared.chains[task.chain]).engine.issued;
               && TaskAt(s', t) == Some(Awaiting(task.account, task.ethInit, task.chain, task.request, ticket))
               && Asked(s', task.chain, ticket, task.request)
  {
    var s, task := Run(env, actions), Run(env, actions).tasks[t];
    RunKeepsChains(env, actions);
    StepNext(env, s, t, input);
    VerifyAsks(s.shared.chains[task.chain], task.request);
  }

  // ---------------------------------------------------------------------------
  // A vote is sent
  // ---------------------------------------------------------------------------

  /** Taking the observer, checking, and sending go through while the event is pending; after
      an expiry the check is made again. */
  lemma BallotGoesOn(env: Environment, s: State, t: TaskId, account: Account, b: Ballot)
    ensures TaskAt(s, t) == Some(TakingObserver(account, b)) ==>
              TaskAt(AfterAction(env, s, Step(t, Proceed)), t)
              == if account in s.shared.events.pending then Some(Checking(account, b)) else None
    ensures TaskAt(s, t) == Some(Checking(account, b)) ==>
              TaskAt(AfterAction(env, s, Step(t, Proceed)), t)
              == if account in s.shared.events.pending then Some(Sending(account, b)) else None
    ensures TaskAt(s, t) == Some(Sending(account, b)) ==>
              TaskAt(AfterAction(env, s, Step(t, Proceed)), t) == Some(Delivering(account, b))
    ensures TaskAt(s, t) == Some(Delivering(account, b)) ==>
              TaskAt(AfterAction(env, s, Step(t, Expired)), t) == Some(Checking(account, b))
    ensures t in s.tasks && (s.tasks[t].TakingObserver? || s.tasks[t].Checking? || s.tasks[t].Sending?) ==>
              AfterAction(env, s, Step(t, Proceed)).shared == s.shared
  {
    if t in s.tasks {
      StepNext(env, s, t, Proceed);
      StepNext(env, s, t, Expired);
    }
  }

  function Steps(t: TaskId, n: nat): seq<Action> {
    if n == 0 then [] else Steps(t, n - 1) + [Step(t, Proceed)]
  }

  lemma OneStepMore(env: Environment, actions: seq<Action>, t: TaskId, n: nat)
    ensures Run(env, actions + Steps(t, n + 1)) == AfterAction(env, Run(env, actions + Steps(t, n)), Step(t, Proceed))
  {
    assert actions + Steps(t, n + 1) == (actions + Steps(t, n)) + [Step(t, Proceed)];
    RunOf(env, actions + Steps(t, n), Step(t, Proceed));
  }

  /** A decided vote on a pending event goes out in three steps, after a check of its own. */
  lemma BallotIsSent(env: Environment, actions: seq<Action>, t: TaskId, account: Account, b: Ballot)
    requires TaskAt(Run(env, actions), t) == Some(TakingObserver(account, b))
    requires account in Run(env, actions).shared.events.pending
    ensures TaskAt(Run(env, actions + Steps(t, 3)), t) == Some(Delivering(account, b))
  {
    assert actions + Steps(t, 0) == actions;
    OneStepMore(env, actions, t, 0);
    BallotGoesOn(env, Run(env, actions), t, account, b);
    OneStepMore(env, actions, t, 1);
    BallotGoesOn(env, Run(env, actions + Steps(t, 1)), t, account, b);
    OneStepMore(env, actions, t, 2);
    BallotGoesOn(env, Run(env, actions + Steps(t, 2)), t, account, b);
  }

  /** So a verdict of the engine on a pending event is sent to its contract, as a confirm or a
      reject: nothing is left but the task's own steps. */
  lemma VerdictIsSent(env: Environment, actions: seq<Action>, t: TaskId, v: VerificationStatus)
    requires t in Run(env, actions).tasks && Run(env, actions).tasks[t].Awaiting?
    requires var s, task := Run(env, actions), Run(env, actions).tasks[t];
             HasVerdict(s.shared, task.chain, task.ticket, v) && task.account in s.shared.events.pending
    ensures var task := Run(env, actions).tasks[t];
            var b := EthBallot(task.ethInit, task.chain, task.request, task.ticket, v);
            TaskAt(Run(env, actions + [Step(t, Proceed)] + Steps(t, 3)), t) == Some(Delivering(task.account, b))
  {
    var s := Run(env, actions);
    VerdictIsVoted(env, actions, t, v, Proceed);
    StepNext(env, s, t, Proceed);
    RunOf(env, actions, Step(t, Proceed));
    BallotIsSent(env, actions + [Step(t, Proceed)], t, s.tasks[t].account,
                 EthBallot(s.tasks[t].ethInit, s.tasks[t].chain, s.tasks[t].request, s.tasks[t].ticket, v));
  }
}
