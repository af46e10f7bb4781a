/**
 Voting on bridge events over whole runs (src/engine/bridge/mod.rs).

 Every await point and every access to shared state is a step of its own. A task is what
 is left to do of a handler and of what it spawned; tasks of the start-up scan, of
 deployment messages and of relay-key messages race for the same events. An event of the
 ETH kind is verified by the confirmation engine of its chain, whose own steps interleave.
 */
module BridgeRuns {
  import opened Words
  import opened Wrappers
  import opened ShardUtils
  import opened EventBase
  import opened BridgeEvents
  import opened EthEvents
  import EthSubscriber
  import EthRounds

  type TaskId = nat
  type ChainId = nat
  type ConfigurationId = nat
  type Ticket = EthSubscriber.Ticket

  /** What a relay runs with: the kind of events, its key, and the engines started before. */
  datatype Environment = Environment(kind: EventKind, ourKey: PublicKey, chains: map<ChainId, Chain>)

  datatype EthInitData = EthInitData(configuration: ConfigurationId, vote: VoteData)
  datatype TonInitData = TonInitData(configuration: ConfigurationId, eventData: Bytes)

  /** What the getters of an event contract return. */
  datatype Contract = Contract(
    base: EventContract,
    ethInit: Getter<EthInitData>,
    tonInit: Getter<TonInitData>,
    roundNumber: Getter<nat>)

  datatype EthConfiguration = EthConfiguration(chain: ChainId, emitter: H160, abi: EthEventAbi, blocksToConfirm: nat)

  /** Decoding event data with the configured ABI and mapping it to the signed bytes may fail. */
  datatype TonConfiguration = TonConfiguration(mapEvent: (TonInitData, nat) -> Option<Bytes>)

  /** What a voting task is going to send. */
  datatype Ballot =
    | EthBallot(init: EthInitData, chain: ChainId, request: Request, ticket: Ticket, verdict: VerificationStatus)
    | TonBallot(tonInit: TonInitData, round: nat, signed: Option<Bytes>)

  datatype StartMode = Preprocess | Update

  datatype Task =
    | CountingUp(account: Account, mode: StartMode)
    | CountingDown(account: Account)
    | Preprocessing(account: Account)
    | Removing(account: Account)
    | Starting(account: Account)
    | Examining(account: Account)
    | EthConfiguring(account: Account, ethInit: EthInitData)
    | TonConfiguring(account: Account, tonInit: TonInitData, round: nat)
    | Verifying(account: Account, ethInit: EthInitData, chain: ChainId, request: Request)
    | Awaiting(account: Account, ethInit: EthInitData, chain: ChainId, request: Request, ticket: Ticket)
    | TakingObserver(account: Account, ballot: Ballot)
    | Checking(account: Account, ballot: Ballot)
    | Sending(account: Account, ballot: Ballot)
    | Delivering(account: Account, ballot: Ballot)

  /** A chain's engine, as the run it made so far. */
  datatype Chain = Chain(maxBlockRange: Option<nat>, height: nat, actions: seq<EthRounds.Action>)

  function EngineOf(c: Chain): EthRounds.State {
    EthRounds.Run(c.maxBlockRange, c.height, c.actions)
  }

  /** What all tasks share. */
  datatype Shared = Shared(
    events: Events,
    /** Which insertion each task passed `start_processing` for. */
    voters: map<TaskId, Generation>,
    ethConfigurations: map<ConfigurationId, EthConfiguration>,
    tonConfigurations: map<ConfigurationId, TonConfiguration>,
    chains: map<ChainId, Chain>)

  datatype State = State(shared: Shared, tasks: map<TaskId, Task>, nextTask: TaskId)

  /** What a step of a task gets to see. */
  datatype Input = Proceed | Look(contract: Contract) | Expired | Delivered | Failure

  datatype Action =
    | Deployed(account: Account)
    | Found(account: Account, contract: Contract)
    | Handle(account: Account, event: ContractEvent, status: EventStatus)
    | Step(task: TaskId, input: Input)
    | OnChain(chain: ChainId, action: EthRounds.Action)
    | Reconfigure(eth: map<ConfigurationId, EthConfiguration>, ton: map<ConfigurationId, TonConfiguration>)

  function Begun(env: Environment): State {
    State(Shared(NO_EVENTS, map[], map[], map[], env.chains), map[], 0)
  }

  // ---------------------------------------------------------------------------
  // Atomic changes of shared state
  // ---------------------------------------------------------------------------

  datatype Change =
    | Nothing
    | Insert(account: Account)
    | Erase(account: Account)
    | CountUp
    | CountDown
    | Start(account: Account)
    | Engine(chain: ChainId, action: EthRounds.Action)
    | Configurations(eth: map<ConfigurationId, EthConfiguration>, ton: map<ConfigurationId, TonConfiguration>)

  predicate Possible(s: Shared, c: Change) {
    match c
    case Insert(account) => account !in s.events.pending
    case Erase(account) => account in s.events.pending
    case Start(account) => MayStart(s.events, account)
    case Engine(chain, _) => chain in s.chains
    case _ => true
  }

  function Acted(c: Chain, a: EthRounds.Action): Chain {
    c.(actions := c.actions + [a])
  }

  function AfterChange(s: Shared, t: TaskId, c: Change): Shared
    requires Possible(s, c)
  {
    match c
    case Nothing => s
    case Insert(account) => s.(events := Inserted(s.events, account))
    case Erase(account) => s.(events := Erased(s.events, account))
    case CountUp => s.(events := CountedUp(s.events))
    case CountDown => s.(events := CountedDown(s.events))
    case Start(account) =>
      s.(events := BridgeEvents.Started(s.events, account),
         voters := s.voters[t := s.events.pending[account].generation])
    case Engine(chain, action) => s.(chains := s.chains[chain := Acted(s.chains[chain], action)])
    case Configurations(eth, ton) => s.(ethConfigurations := eth, tonConfigurations := ton)
  }

  /** One change, and what is left of its actor. */
  datatype Effect = Effect(change: Change, next: Option<Task>)

  function Applied(s: State, t: TaskId, e: Effect): State
    requires Possible(s.shared, e.change)
  {
    var shared := AfterChange(s.shared, t, e.change);
    match e.next
    case Some(task) => State(shared, s.tasks[t := task], if t < s.nextTask then s.nextTask else t + 1)
    case None => State(shared, s.tasks - {t}, s.nextTask)
  }

  // ---------------------------------------------------------------------------
  // What tasks do
  // ---------------------------------------------------------------------------

  /** `add_pending_event`; the counter, and what the caller spawns, come later. */
  function AddEffect(s: Shared, account: Account, mode: StartMode): Effect {
    if account in s.events.pending then Effect(Nothing, None)
    else Effect(Insert(account), Some(CountingUp(account, mode)))
  }

  /** The start-up scan adds events that are not over and whose configuration is known. */
  predicate IsKnownEvent(env: Environment, s: Shared, c: Contract) {
    && Process(c.base, env.ourKey, env.kind == TonKind) in {Ok(Nop), Ok(Vote)}
    && match env.kind
       case EthKind => c.ethInit.Ok? && c.ethInit.value.configuration in s.ethConfigurations
       case TonKind => c.tonInit.Ok? && c.tonInit.value.configuration in s.tonConfigurations
  }

  function HandleEffect(env: Environment, s: Shared, account: Account, event: ContractEvent,
                        status: EventStatus): Effect {
    if account !in s.events.pending then Effect(Nothing, None)
    else
      match ReactionTo(env.kind, env.ourKey, event, status)
      case RemoveEntry => Effect(Erase(account), Some(CountingDown(account)))
      case StartVoting => Effect(Nothing, Some(Starting(account)))
      case Ignore => Effect(Nothing, None)
  }

  /** What `process` leads to: an error or Nop ends the voting, Remove removes. */
  function Examined(env: Environment, c: Contract, account: Account, voting: Option<Task>): Option<Task> {
    match Process(c.base, env.ourKey, env.kind == TonKind)
    case Ok(Vote) => voting
    case Ok(Remove) => Some(Removing(account))
    case Ok(Nop) => None
    case Err(_) => None
  }

  /** When a vote is due, the data of the event is read; these getters may fail too. */
  function Detailed(env: Environment, c: Contract, account: Account): Option<Task> {
    match env.kind
    case EthKind => if c.ethInit.Ok? then Some(EthConfiguring(account, c.ethInit.value)) else None
    case TonKind =>
      if c.roundNumber.Ok? && c.tonInit.Ok?
      then Some(TonConfiguring(account, c.tonInit.value, c.roundNumber.value))
      else None
  }

  /** Waiting for the contract and looking at it, before or after `start_processing`. */
  function LookEffect(env: Environment, task: Task, input: Input): Effect {
    match input
    case Look(c) =>
      var voting := if task.Examining? then Detailed(env, c, task.account) else Some(Starting(task.account));
      Effect(Nothing, Examined(env, c, task.account, voting))
    case Failure => Effect(Nothing, None)
    case _ => Effect(Nothing, Some(task))
  }

  function RequestFor(init: EthInitData, c: EthConfiguration): Request {
    Request(init.vote, c.emitter, c.abi, c.blocksToConfirm)
  }

  /** The configuration of the event, and the engine of its chain; without either the event
      is removed. */
  function Configured(s: Shared, account: Account, init: EthInitData): Task {
    if init.configuration in s.ethConfigurations && s.ethConfigurations[init.configuration].chain in s.chains then
      var c := s.ethConfigurations[init.configuration];
      Verifying(account, init, c.chain, RequestFor(init, c))
    else Removing(account)
  }

  function TonDecided(s: Shared, account: Account, init: TonInitData, round: nat): Task {
    if init.configuration in s.tonConfigurations then
      TakingObserver(account, TonBallot(init, round, s.tonConfigurations[init.configuration].mapEvent(init, round)))
    else Removing(account)
  }

  function VerifyEffect(s: Shared, task: Task): Effect
    requires task.Verifying?
  {
    if task.chain !in s.chains then Effect(Nothing, Some(task))
    else
      Effect(Engine(task.chain, EthRounds.Verify(task.request)),
             Some(Awaiting(task.account, task.ethInit, task.chain, task.request,
                           EngineOf(s.chains[task.chain]).engine.issued)))
  }

  /** The result of a verification once there is one; a dropped channel is an error. */
  function Answered(s: Shared, task: Task): Task
    requires task.Awaiting?
  {
    if task.chain !in s.chains then task
    else
      var engine := EngineOf(s.chains[task.chain]).engine;
      if (task.ticket, Exists) in engine.answers then
        TakingObserver(task.account, EthBallot(task.ethInit, task.chain, task.request, task.ticket, Exists))
      else if (task.ticket, NotExists) in engine.answers then
        TakingObserver(task.account, EthBallot(task.ethInit, task.chain, task.request, task.ticket, NotExists))
      else if task.ticket in engine.dropped then Removing(task.account)
      else task
  }

  /** Taking the observer, and the condition before each message, need a pending event. */
  function IfPending(s: Shared, account: Account, next: Task): Effect {
    Effect(Nothing, if account in s.events.pending then Some(next) else None)
  }

  function DeliveryEffect(task: Task, input: Input): Effect
    requires task.Delivering?
  {
    match input
    case Expired => Effect(Nothing, Some(Checking(task.account, task.ballot)))
    case Delivered => Effect(Nothing, None)
    case Failure => Effect(Nothing, None)
    case _ => Effect(Nothing, Some(task))
  }

  function StepEffect(env: Environment, s: Shared, task: Task, input: Input): Effect {
    match task
    case CountingUp(account, mode) =>
      Effect(CountUp, Some(if mode == Preprocess then Preprocessing(account) else Starting(account)))
    case CountingDown(account) => Effect(CountDown, None)
    case Preprocessing(_) => LookEffect(env, task, input)
    case Removing(account) =>
      if account in s.events.pending then Effect(Erase(account), Some(CountingDown(account)))
      else Effect(Nothing, None)
    case Starting(account) =>
      if MayStart(s.events, account) then Effect(Start(account), Some(Examining(account)))
      else Effect(Nothing, None)
    case Examining(_) => LookEffect(env, task, input)
    case EthConfiguring(account, init) => Effect(Nothing, Some(Configured(s, account, init)))
    case TonConfiguring(account, init, round) => Effect(Nothing, Some(TonDecided(s, account, init, round)))
    case Verifying(_, _, _, _) => VerifyEffect(s, task)
    case Awaiting(_, _, _, _, _) => Effect(Nothing, Some(Answered(s, task)))
    case TakingObserver(account, ballot) => IfPending(s, account, Checking(account, ballot))
    case Checking(account, ballot) => IfPending(s, account, Sending(account, ballot))
    case Sending(account, ballot) =>
      Effect(Nothing, if input == Failure then None else Some(Delivering(account, ballot)))
    case Delivering(_, _) => DeliveryEffect(task, input)
  }

  function EffectOf(env: Environment, s: State, a: Action): Effect {
    match a
    case Deployed(account) => AddEffect(s.shared, account, Preprocess)
    case Found(account, c) =>
      if IsKnownEvent(env, s.shared, c) then AddEffect(s.shared, account, Update) else Effect(Nothing, None)
    case Handle(account, event, status) => HandleEffect(env, s.shared, account, event, status)
    case Step(t, input) => if t in s.tasks then StepEffect(env, s.shared, s.tasks[t], input) else Effect(Nothing, None)
    case OnChain(chain, action) =>
      // Only a voting task verifies.
      Effect(if chain in s.shared.chains && !action.Verify? then Engine(chain, action) else Nothing, None)
    case Reconfigure(eth, ton) => Effect(Configurations(eth, ton), None)
  }

  /** The task an action is about: the one it steps, or the one it may spawn. */
  function TaskOf(s: State, a: Action): TaskId {
    if a.Step? then a.task else s.nextTask
  }

  lemma EffectPossible(env: Environment, s: State, a: Action)
    ensures Possible(s.shared, EffectOf(env, s, a).change)
  {
  }

  function AfterAction(env: Environment, s: State, a: Action): State {
    EffectPossible(env, s, a);
    Applied(s, TaskOf(s, a), EffectOf(env, s, a))
  }

  function Run(env: Environment, actions: seq<Action>): State {
    if actions == [] then Begun(env)
    else AfterAction(env, Run(env, actions[..|actions| - 1]), actions[|actions| - 1])
  }

  function TaskAt(s: State, t: TaskId): Option<Task> {
    if t in s.tasks then Some(s.tasks[t]) else None
  }

  ghost predicate TasksNumbered(s: State) {
    forall k :: k in s.tasks ==> k < s.nextTask
  }

  lemma {:induction false} RunNumbersTasks(env: Environment, actions: seq<Action>)
    ensures TasksNumbered(Run(env, actions))
  {
    if actions != [] {
      RunNumbersTasks(env, actions[..|actions| - 1]);
      var s := Run(env, actions[..|actions| - 1]);
      var a := actions[|actions| - 1];
      EffectPossible(env, s, a);
      AppliedNumbered(s, TaskOf(s, a), EffectOf(env, s, a));
    }
  }

  lemma AppliedNumbered(s: State, t: TaskId, e: Effect)
    requires TasksNumbered(s) && Possible(s.shared, e.change)
    ensures TasksNumbered(Applied(s, t, e))
  {
  }

  predicate StepOf(a: Action, t: TaskId) {
    a.Step? && a.task == t
  }

  /** A task nobody steps stays as it is; a new one starts at one of its entry points. */
  lemma OthersUnmoved(env: Environment, s: State, a: Action, t: TaskId)
    requires TasksNumbered(s) && !StepOf(a, t) && t in AfterAction(env, s, a).tasks
    ensures var task := AfterAction(env, s, a).tasks[t];
            (t in s.tasks && s.tasks[t] == task) || task.CountingUp? || task.CountingDown? || task.Starting?
  {
    EffectPossible(env, s, a);
    var e := EffectOf(env, s, a);
    if t != TaskOf(s, a) {
      assert t in s.tasks && s.tasks[t] == AfterAction(env, s, a).tasks[t];
    }
  }

  /** A step of a task leads to what its effect says. */
  lemma StepLeadsTo(env: Environment, s: State, a: Action, t: TaskId)
    requires StepOf(a, t) && t in AfterAction(env, s, a).tasks
    ensures t in s.tasks && StepEffect(env, s.shared, s.tasks[t], a.input).next == Some(AfterAction(env, s, a).tasks[t])
  {
    EffectPossible(env, s, a);
    AppliedAt(s, t, EffectOf(env, s, a));
  }

  lemma AppliedAt(s: State, t: TaskId, e: Effect)
    requires Possible(s.shared, e.change)
    ensures TaskAt(Applied(s, t, e), t) == e.next
  {
  }
}
